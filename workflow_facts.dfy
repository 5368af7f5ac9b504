/** What the content workflow promises, proved about its specification functions:
    the shape of the retry loop, the error entries of one platform, the platform order and
    progress values of a run, the fatal research path and the consolidation step. */
module WorkflowFacts {
  import opened Common
  import opened Workflow
  import Slug

  // ---------------------------------------------------------------------------------
  // The retry loop in closed form

  /** The 0-based attempt at which the retry loop stops when it starts at attempt `m`: the
      first attempt that is not a rate limit followed by another attempt. */
  function FinalFrom(script: Script, m: nat): (k: nat)
    requires m < MaxRetries
    ensures m <= k < MaxRetries
    ensures !Retries(script[k], k)
    ensures forall j :: m <= j < k ==> Retries(script[j], j)
    decreases MaxRetries - m
  {
    if Retries(script[m], m) then FinalFrom(script, m + 1) else m
  }

  /** The attempt at which the retry loop of a platform stops. */
  function FinalAttempt(script: Script): (k: nat)
    ensures k < MaxRetries
    ensures !Retries(script[k], k)
    ensures forall j :: 0 <= j < k ==> IsRateLimit(script[j])
  {
    FinalFrom(script, 0)
  }

  /** The response an attempt provides. */
  function Kept(a: Attempt): Option<string> {
    if a.Ok? then Some(a.text) else None
  }

  /** The error entry the last attempt `a`, the 0-based attempt `k`, leaves behind. */
  function Failure(p: Platform, k: nat, a: Attempt): Option<string> {
    match a
    case Ok(_) => None
    case ProviderErr(_, e) => Some(AttemptError(p, k, e))
    case OtherErr(e) => Some(UnexpectedError(p, e))
  }

  /** The alternating calls and sleeps of a retry loop that starts at attempt `m`. */
  predicate Alternates(trace: seq<Action>, p: Platform, context: Option<string>, m: nat) {
    forall i :: 0 <= i < |trace| ==>
      trace[i] == if i % 2 == 0 then Invoke(p, m + i / 2 + 1, context) else Sleep(RateLimitDelay)
  }

  /** From attempt `m` on, the retry loop makes one call per attempt up to its final one
      and sleeps between consecutive calls. */
  lemma {:induction false} RetryFromTrace(p: Platform, script: Script, context: Option<string>, m: nat)
    requires m < MaxRetries
    ensures var r := RetryFrom(p, script, context, m);
            |r.trace| == 2 * (FinalFrom(script, m) - m) + 1 && Alternates(r.trace, p, context, m)
    decreases MaxRetries - m
  {
    RetryTraceStep(p, script, context, m);
    if Retries(script[m], m) {
      var rest := RetryFrom(p, script, context, m + 1);
      RetryFromTrace(p, script, context, m + 1);
      assert [Invoke(p, m + 1, context)] + [Sleep(RateLimitDelay)] == [Invoke(p, m + 1, context), Sleep(RateLimitDelay)];
      AlternatesCons(rest.trace, p, context, m);
    }
  }

  /** From attempt `m` on, the retry loop keeps the final attempt's response and records
      the final attempt's error. */
  lemma {:induction false} RetryFromEnd(p: Platform, script: Script, context: Option<string>, m: nat)
    requires m < MaxRetries
    ensures var r := RetryFrom(p, script, context, m);
            var k := FinalFrom(script, m);
            r.response == Kept(script[k]) && r.error == Failure(p, k, script[k])
    decreases MaxRetries - m
  {
    if Retries(script[m], m) {
      RetryFromEnd(p, script, context, m + 1);
    }
  }

  /** A call and a sleep before the alternating actions from attempt `m + 1` on
      alternate from attempt `m` on. */
  lemma AlternatesCons(rest: seq<Action>, p: Platform, context: Option<string>, m: nat)
    requires Alternates(rest, p, context, m + 1)
    ensures Alternates([Invoke(p, m + 1, context), Sleep(RateLimitDelay)] + rest, p, context, m)
  {
    var t := [Invoke(p, m + 1, context), Sleep(RateLimitDelay)] + rest;
    forall i | 2 <= i < |t|
      ensures t[i] == if i % 2 == 0 then Invoke(p, m + i / 2 + 1, context) else Sleep(RateLimitDelay)
    {
      assert t[i] == rest[i - 2];
      assert (i - 2) % 2 == i % 2 && (m + 1) + (i - 2) / 2 == m + i / 2;
    }
  }

  /** The whole retry loop: `FinalAttempt(script) + 1` calls (so at most three), a sleep
      of 20 seconds between consecutive calls (so at most two), every earlier attempt a
      rate limit, and the final attempt's response and error. */
  lemma RetryShape(p: Platform, script: Script, context: Option<string>)
    ensures var r := RetryFrom(p, script, context, 0);
            var k := FinalAttempt(script);
            |r.trace| == 2 * k + 1 && |r.trace| <= 2 * MaxRetries - 1
            && Alternates(r.trace, p, context, 0)
            && r.response == Kept(script[k]) && r.error == Failure(p, k, script[k])
  {
    RetryFromTrace(p, script, context, 0);
    RetryFromEnd(p, script, context, 0);
  }

  /** The loop stops at an attempt exactly when that attempt is not a rate limit, or is
      the last one: a success or any other error stops it at once. */
  lemma StopsIff(script: Script, k: nat)
    requires k < MaxRetries
    requires forall j :: 0 <= j < k ==> IsRateLimit(script[j])
    ensures FinalAttempt(script) == k <==> (!IsRateLimit(script[k]) || k == MaxRetries - 1)
  {
  }

  /** A first attempt that succeeds is the only call, with no sleep and no error. */
  lemma FirstSuccess(p: Platform, script: Script, context: Option<string>)
    requires script[0].Ok?
    ensures RetryFrom(p, script, context, 0) == Retry(Some(script[0].text), None, [Invoke(p, 1, context)])
  {
  }

  /** Three rate limits in a row: three calls, two sleeps, and the third attempt's error
      (numbered 3) is recorded. */
  lemma ThreeRateLimits(p: Platform, script: Script, context: Option<string>)
    requires IsRateLimit(script[0]) && IsRateLimit(script[1]) && IsRateLimit(script[2])
    ensures var r := RetryFrom(p, script, context, 0);
            r.response == None && r.error == Some(AttemptError(p, 2, script[2].message))
            && r.trace == [Invoke(p, 1, context), Sleep(RateLimitDelay), Invoke(p, 2, context),
                           Sleep(RateLimitDelay), Invoke(p, 3, context)]
  {
  }

  // ---------------------------------------------------------------------------------
  // The error entries of one platform

  /** Either signal makes a provider error a rate limit: the status code 429, whatever the
      message, or "429" anywhere in the message, whatever the status; a response or any
      other exception never is one. */
  lemma RateLimitSignals(message: string, front: string, back: string, status: Option<int>)
    ensures IsRateLimit(ProviderErr(Some(429), message))
    ensures IsRateLimit(ProviderErr(status, front + "429" + back))
    ensures !IsRateLimit(Ok(message)) && !IsRateLimit(OtherErr(message))
  {
    ContainsInside(front, "429", back);
  }

  /** Every retry-loop provider error of a platform contains its tag. */
  lemma AttemptErrorTagged(p: Platform, k: nat, e: string)
    ensures Contains(AttemptError(p, k, e), ErrorTag(p))
  {
    FrontContained(ErrorTag(p), " (attempt ", NatToString(k + 1), "): ", e);
  }

  lemma FrontContained(a: string, b: string, c: string, d: string, e: string)
    ensures Contains(a + b + c + d + e, a)
  {
    ContainsPrefix(a, b + c + d + e);
    assert a + b + c + d + e == a + (b + c + d + e);
  }

  /** What a platform's attempts leave in the record: a response with text sets its
      field (and for Instagram the image ideas) and appends nothing. */
  lemma GenerateDelivers(r: Record, p: Platform, script: Script)
    requires script[FinalAttempt(script)].Ok? && script[FinalAttempt(script)].text != ""
    ensures Generate(r, p, script).record == Deliver(r, p, script[FinalAttempt(script)].text)
  {
    RetryShape(p, script, r.researchContext);
  }

  /** An empty response appends "No se generó contenido…", unless an entry with the
      platform's tag is already there. */
  lemma GenerateEmptyResponse(r: Record, p: Platform, script: Script)
    requires script[FinalAttempt(script)] == Ok("")
    ensures Generate(r, p, script).record
            == r.(errors := r.errors + if AnyContains(r.errors, ErrorTag(p)) then [] else [NoContentMessage(p)])
  {
    RetryShape(p, script, r.researchContext);
    assert r.errors + [] == r.errors;
  }

  /** A provider error that is not retried (not a rate limit, or on the last attempt)
      appends exactly one "Error en P (attempt n)" entry, n counted from 1, and nothing
      else. */
  lemma GenerateProviderFailure(r: Record, p: Platform, script: Script)
    requires script[FinalAttempt(script)].ProviderErr?
    ensures var k := FinalAttempt(script);
            Generate(r, p, script).record
            == r.(errors := r.errors + [AttemptError(p, k, script[k].message)])
  {
    var k := FinalAttempt(script);
    RetryShape(p, script, r.researchContext);
    var errors := r.errors + [AttemptError(p, k, script[k].message)];
    AttemptErrorTagged(p, k, script[k].message);
    assert Contains(errors[|r.errors|], ErrorTag(p));
  }

  /** Any other exception appends "Error inesperado en P" without retrying; then, unless
      some entry (that one included) contains "Error en P", "No se generó contenido…"
      follows it. */
  lemma GenerateUnexpected(r: Record, p: Platform, script: Script)
    requires script[FinalAttempt(script)].OtherErr?
    ensures var k := FinalAttempt(script);
            var errors := r.errors + [UnexpectedError(p, script[k].message)];
            Generate(r, p, script).record
            == r.(errors := errors + if AnyContains(errors, ErrorTag(p)) then [] else [NoContentMessage(p)])
  {
    RetryShape(p, script, r.researchContext);
  }

  /** So the unexpected-exception path of a platform with no tagged entry yet, whose own
      message does not carry the tag, appends two entries. */
  lemma UnexpectedAppendsTwo(r: Record, p: Platform, script: Script)
    requires script[FinalAttempt(script)].OtherErr?
    requires !AnyContains(r.errors, ErrorTag(p))
    requires !Contains(UnexpectedError(p, script[FinalAttempt(script)].message), ErrorTag(p))
    ensures Generate(r, p, script).record.errors
            == r.errors + [UnexpectedError(p, script[FinalAttempt(script)].message), NoContentMessage(p)]
  {
    var k := FinalAttempt(script);
    var errors := r.errors + [UnexpectedError(p, script[k].message)];
    GenerateUnexpected(r, p, script);
    forall i | 0 <= i < |errors| ensures !Contains(errors[i], ErrorTag(p)) {
      if i < |r.errors| {
        assert errors[i] == r.errors[i];
      }
    }
  }

  // ---------------------------------------------------------------------------------
  // One platform's effect on the record

  /** The position of a platform in the generation order. */
  function Index(p: Platform): (i: nat)
    ensures i < |Platforms| && Platforms[i] == p
  {
    match p
    case Blog => 0
    case Linkedin => 1
    case Twitter => 2
    case Instagram => 3
  }

  /** The response the retry loop of platform `p` keeps. */
  function Written(p: Platform, script: Script, context: Option<string>): Option<string> {
    RetryFrom(p, script, context, 0).response
  }

  /** Whether platform `p` gets a response with content. */
  predicate Succeeds(p: Platform, script: Script, context: Option<string>) {
    HasText(Written(p, script, context))
  }

  /** One platform sets its own field exactly when its response has content, sets the
      image ideas only when it is Instagram and succeeds, leaves every other field but
      the error list alone, and only appends to that list. */
  lemma GenerateRecord(r: Record, p: Platform, script: Script)
    ensures var g := Generate(r, p, script).record;
            g.topic == r.topic && g.researchContext == r.researchContext && g.sources == r.sources
            && r.errors <= g.errors
            && OutputOf(g, p) == (if Succeeds(p, script, r.researchContext) then Written(p, script, r.researchContext) else OutputOf(r, p))
            && (forall q :: q != p ==> OutputOf(g, q) == OutputOf(r, q))
            && g.instagramImageIdeas
               == if p == Instagram && Succeeds(p, script, r.researchContext) then Some(PlaceholderIdeas) else r.instagramImageIdeas
  {
  }

  // ---------------------------------------------------------------------------------
  // Picking actions out of a trace

  /** The values `pick` finds in a trace, in order. */
  function Picks<T>(trace: seq<Action>, pick: Action -> Option<T>): seq<T>
    decreases |trace|
  {
    if trace == [] then []
    else (if pick(trace[0]).Some? then [pick(trace[0]).value] else []) + Picks(trace[1..], pick)
  }

  lemma {:induction false} PicksAppend<T>(a: seq<Action>, b: seq<Action>, pick: Action -> Option<T>)
    ensures Picks(a + b, pick) == Picks(a, pick) + Picks(b, pick)
    decreases |a|
  {
    if a == [] {
      assert a + b == b;
    } else {
      var head := if pick(a[0]).Some? then [pick(a[0]).value] else [];
      assert (a + b)[0] == a[0] && (a + b)[1..] == a[1..] + b;
      assert Picks(a + b, pick) == head + Picks(a[1..] + b, pick);
      PicksAppend(a[1..], b, pick);
      assert head + (Picks(a[1..], pick) + Picks(b, pick)) == (head + Picks(a[1..], pick)) + Picks(b, pick);
    }
  }

  /** Every value picked comes from some action of the trace. */
  lemma {:induction false} PicksFrom<T>(trace: seq<Action>, pick: Action -> Option<T>, j: nat)
    requires j < |Picks(trace, pick)|
    ensures exists i :: 0 <= i < |trace| && pick(trace[i]) == Some(Picks(trace, pick)[j])
    decreases |trace|
  {
    var head := if pick(trace[0]).Some? then [pick(trace[0]).value] else [];
    if j >= |head| {
      PicksFrom(trace[1..], pick, j - |head|);
      var i :| 0 <= i < |trace[1..]| && pick(trace[1..][i]) == Some(Picks(trace[1..], pick)[j - |head|]);
      assert trace[i + 1] == trace[1..][i];
    }
  }

  /** The platform a writer call is for. */
  function CalledPlatform(a: Action): Option<Platform> {
    if a.Invoke? then Some(a.platform) else None
  }

  /** The value of a progress event. */
  function ProgressValue(a: Action): Option<Ratio> {
    if a.Yield? && a.response.content.Dict? then a.response.content.value else None
  }

  /** The name a save call writes under. */
  function SavedName(a: Action): Option<string> {
    if a.SaveJson? || a.SaveMarkdown? then Some(a.name) else None
  }

  /** The dictionary a JSON save call writes. */
  function SavedJson(a: Action): Option<map<Key, Field>> {
    if a.SaveJson? then Some(a.data) else None
  }

  function Repeat(p: Platform, n: nat): (r: seq<Platform>)
    ensures |r| == n && forall i :: 0 <= i < n ==> r[i] == p
  {
    seq(n, _ => p)
  }

  /** The calls of a retry loop from attempt `m` are all for its platform, one per
      attempt. */
  lemma {:induction false} RetryCalls(p: Platform, script: Script, context: Option<string>, m: nat)
    requires m < MaxRetries
    ensures Picks(RetryFrom(p, script, context, m).trace, CalledPlatform) == Repeat(p, FinalFrom(script, m) - m + 1)
    decreases MaxRetries - m
  {
    RetryTraceStep(p, script, context, m);
    if Retries(script[m], m) {
      RetryCalls(p, script, context, m + 1);
      RetriedCalls(RetryFrom(p, script, context, m).trace, RetryFrom(p, script, context, m + 1).trace,
                   p, m, context, FinalFrom(script, m + 1) - m);
    } else {
      assert Picks([Invoke(p, m + 1, context)], CalledPlatform) == [p];
    }
  }

  /** One step of the retry loop's trace: a call, then a delay and the rest if attempt `m`
      is retried. */
  lemma RetryTraceStep(p: Platform, script: Script, context: Option<string>, m: nat)
    requires m < MaxRetries
    ensures RetryFrom(p, script, context, m).trace
            == if Retries(script[m], m)
               then [Invoke(p, m + 1, context)] + [Sleep(RateLimitDelay)] + RetryFrom(p, script, context, m + 1).trace
               else [Invoke(p, m + 1, context)]
  {
  }

  /** A retried attempt adds one call of its platform in front of the rest. */
  lemma RetriedCalls(t: seq<Action>, rest: seq<Action>, p: Platform, m: nat, context: Option<string>, n: nat)
    requires t == [Invoke(p, m + 1, context)] + [Sleep(RateLimitDelay)] + rest
    requires Picks(rest, CalledPlatform) == Repeat(p, n)
    ensures Picks(t, CalledPlatform) == Repeat(p, n + 1)
  {
    PicksAppend([Invoke(p, m + 1, context)] + [Sleep(RateLimitDelay)], rest, CalledPlatform);
    assert Picks([Invoke(p, m + 1, context)] + [Sleep(RateLimitDelay)], CalledPlatform) == [p];
    assert [p] + Repeat(p, n) == Repeat(p, n + 1);
  }

  /** A retry loop yields no progress. */
  lemma RetryNoProgress(p: Platform, script: Script, context: Option<string>)
    ensures Picks(RetryFrom(p, script, context, 0).trace, ProgressValue) == []
  {
    RetryFromTrace(p, script, context, 0);
    PicksNone(RetryFrom(p, script, context, 0).trace, ProgressValue);
  }

  /** The writer calls for platform `p`: one per attempt its retry loop makes. */
  function Calls(writers: Writers, p: Platform): seq<Platform> {
    Repeat(p, FinalAttempt(writers(p)) + 1)
  }

  /** The writer calls of the platform loop from index `i` on: each platform in order, as
      many times as its retry loop makes attempts. */
  function Schedule(writers: Writers, i: nat): seq<Platform>
    requires i <= |Platforms|
    decreases |Platforms| - i
  {
    if i == |Platforms| then []
    else Calls(writers, Platforms[i]) + Schedule(writers, i + 1)
  }

  /** The progress values of the platform loop from index `i` on. */
  function Ramp(i: nat): (r: seq<Ratio>)
    requires i <= |Platforms|
    ensures |r| == |Platforms| - i
    ensures forall j :: 0 <= j < |r| ==> r[j] == Ratio(i + j + 2, TotalSteps)
    decreases |Platforms| - i
  {
    if i == |Platforms| then [] else [Ratio(i + 2, TotalSteps)] + Ramp(i + 1)
  }

  lemma StepPicks(r: Record, writers: Writers, i: nat)
    requires i < |Platforms|
    ensures Picks(Step(r, writers, i).trace, CalledPlatform)
            == Repeat(Platforms[i], FinalAttempt(writers(Platforms[i])) + 1)
    ensures Picks(Step(r, writers, i).trace, ProgressValue) == [Ratio(i + 2, TotalSteps)]
  {
    var p := Platforms[i];
    var g := Generate(r, p, writers(p));
    RetryCalls(p, writers(p), r.researchContext, 0);
    RetryNoProgress(p, writers(p), r.researchContext);
    StepShape(Step(r, writers, i).trace, g.trace, p, i + 2, FinalAttempt(writers(p)) + 1);
  }

  /** A platform step's trace over an arbitrary trace `g` of its retry loop. */
  lemma StepShape(t: seq<Action>, g: seq<Action>, p: Platform, step: nat, n: nat)
    requires t == [Yield(Generating(p))] + g + [Yield(Completed(p, step))]
    requires Picks(g, CalledPlatform) == Repeat(p, n) && Picks(g, ProgressValue) == []
    ensures Picks(t, CalledPlatform) == Repeat(p, n)
    ensures Picks(t, ProgressValue) == [Ratio(step, TotalSteps)]
  {
    var front, back := [Yield(Generating(p))], [Yield(Completed(p, step))];
    PicksAppend(front + g, back, CalledPlatform);
    PicksAppend(front, g, CalledPlatform);
    PicksAppend(front + g, back, ProgressValue);
    PicksAppend(front, g, ProgressValue);
    assert Picks(front, CalledPlatform) == [] && Picks(back, CalledPlatform) == [];
    assert Picks(front, ProgressValue) == [];
    assert Picks(back, ProgressValue) == [Ratio(step, TotalSteps)];
  }

  /** The platform loop calls the writers in the order blog, linkedin, twitter,
      instagram, each for as many attempts as its retry loop makes, and yields one
      progress event per platform, (i + 2) / 5 after the platform at index i, whatever
      the platform's outcome. */
  lemma {:induction false} RunPlatformsPicks(r: Record, writers: Writers, i: nat)
    requires i <= |Platforms|
    ensures Picks(RunPlatforms(r, writers, i).trace, CalledPlatform) == Schedule(writers, i)
    ensures Picks(RunPlatforms(r, writers, i).trace, ProgressValue) == Ramp(i)
    decreases |Platforms| - i
  {
    if i < |Platforms| {
      var s := Step(r, writers, i);
      var rest := RunPlatforms(s.record, writers, i + 1);
      RunPlatformsPicks(s.record, writers, i + 1);
      StepPicks(r, writers, i);
      PicksAppend(s.trace, rest.trace, CalledPlatform);
      PicksAppend(s.trace, rest.trace, ProgressValue);
    }
  }

  /** The record after the platform loop from index `i` on: each platform from `i` on
      has its field set exactly when its response had content, the image ideas are set
      exactly when Instagram (if still to come) succeeds, and the other fields are kept;
      errors are only appended. */
  lemma {:induction false} RunPlatformsRecord(r: Record, writers: Writers, i: nat)
    requires i <= |Platforms|
    ensures var f := RunPlatforms(r, writers, i).record;
            var c := r.researchContext;
            f.topic == r.topic && f.researchContext == c && f.sources == r.sources
            && r.errors <= f.errors
            && (forall q :: OutputOf(f, q)
                  == if i <= Index(q) && Succeeds(q, writers(q), c) then Written(q, writers(q), c) else OutputOf(r, q))
            && f.instagramImageIdeas
               == if i <= Index(Instagram) && Succeeds(Instagram, writers(Instagram), c) then Some(PlaceholderIdeas)
                  else r.instagramImageIdeas
    decreases |Platforms| - i
  {
    if i < |Platforms| {
      var p := Platforms[i];
      var s := Step(r, writers, i);
      GenerateRecord(r, p, writers(p));
      RunPlatformsRecord(s.record, writers, i + 1);
      RecordStep(r, s.record, RunPlatforms(s.record, writers, i + 1).record, writers, i);
    }
  }

  /** One platform step followed by the rest of the loop, over arbitrary records: `g` is
      the record after platform `i`, `f` the record after the loop from `i + 1`. */
  lemma RecordStep(r: Record, g: Record, f: Record, writers: Writers, i: nat)
    requires i < |Platforms|
    requires var p, c := Platforms[i], r.researchContext;
             g.topic == r.topic && g.researchContext == c && g.sources == r.sources && r.errors <= g.errors
             && OutputOf(g, p) == (if Succeeds(p, writers(p), c) then Written(p, writers(p), c) else OutputOf(r, p))
             && (forall q :: q != p ==> OutputOf(g, q) == OutputOf(r, q))
             && g.instagramImageIdeas
                == if p == Instagram && Succeeds(p, writers(p), c) then Some(PlaceholderIdeas) else r.instagramImageIdeas
    requires var c := g.researchContext;
             f.topic == g.topic && f.researchContext == c && f.sources == g.sources && g.errors <= f.errors
             && (forall q :: OutputOf(f, q)
                   == if i + 1 <= Index(q) && Succeeds(q, writers(q), c) then Written(q, writers(q), c) else OutputOf(g, q))
             && f.instagramImageIdeas
                == if i + 1 <= Index(Instagram) && Succeeds(Instagram, writers(Instagram), c) then Some(PlaceholderIdeas)
                   else g.instagramImageIdeas
    ensures var c := r.researchContext;
            f.topic == r.topic && f.researchContext == c && f.sources == r.sources
            && r.errors <= f.errors
            && (forall q :: OutputOf(f, q)
                  == if i <= Index(q) && Succeeds(q, writers(q), c) then Written(q, writers(q), c) else OutputOf(r, q))
            && f.instagramImageIdeas
               == if i <= Index(Instagram) && Succeeds(Instagram, writers(Instagram), c) then Some(PlaceholderIdeas)
                  else r.instagramImageIdeas
  {
    forall q
      ensures OutputOf(f, q)
              == if i <= Index(q) && Succeeds(q, writers(q), r.researchContext) then Written(q, writers(q), r.researchContext)
                 else OutputOf(r, q)
    {
      if q == Platforms[i] {
        assert Index(q) == i;
      }
    }
  }

  // ---------------------------------------------------------------------------------
  // The run as a whole

  /** A research phase that raises or gives no content records exactly one error and
      stops: no writer call, no progress, no save and no `workflow_completed` event. */
  lemma FatalResearchStops(topic: string, urls: Option<seq<string>>, reply: ResearchReply, writers: Writers)
    requires FatalResearch(reply)
    ensures var o := Run(topic, urls, reply, writers);
            o.record == Initial(topic).(errors := [FatalMessage(urls, reply)])
            && |o.record.errors| == 1
            && forall i :: 0 <= i < |o.trace| ==>
                 !o.trace[i].Invoke? && !o.trace[i].SaveJson? && !o.trace[i].SaveMarkdown?
                 && ProgressValue(o.trace[i]).None?
                 && !(o.trace[i].Yield? && o.trace[i].response.event == WorkflowCompleted)
  {
    OpeningAnnounces(topic, urls);
    AnnouncementsOnly(Run(topic, urls, reply, writers).trace, Opening(topic, urls));
  }

  /** A trace of announcements and the research call makes no writer call or save and
      yields no progress or completion. */
  lemma AnnouncementsOnly(t: seq<Action>, o: seq<Action>)
    requires t == o && forall i :: 0 <= i < |o| ==> Announces(o[i])
    ensures forall i :: 0 <= i < |t| ==>
              !t[i].Invoke? && !t[i].SaveJson? && !t[i].SaveMarkdown?
              && ProgressValue(t[i]).None?
              && !(t[i].Yield? && t[i].response.event == WorkflowCompleted)
  {
  }

  /** After successful research the record keeps the research content as its context,
      and its sources are the caller's URLs when there are any, else the researcher's;
      every platform field holds that platform's response if it had content and is None
      otherwise; the image ideas are the placeholder exactly when Instagram succeeds. */
  lemma RunRecord(topic: string, urls: Option<seq<string>>, reply: ResearchReply, writers: Writers)
    requires !FatalResearch(reply)
    ensures var f := Run(topic, urls, reply, writers).record;
            f.topic == topic && f.researchContext == reply.content
            && f.sources == Some(if HasItems(urls) then urls.value else reply.sources)
            && (forall q :: OutputOf(f, q)
                  == if Succeeds(q, writers(q), reply.content) then Written(q, writers(q), reply.content) else None)
            && f.instagramImageIdeas
               == if Succeeds(Instagram, writers(Instagram), reply.content) then Some(PlaceholderIdeas) else None
  {
    RunPlatformsRecord(Researched(topic, urls, reply), writers, 0);
  }

  /** A trace none of whose actions `pick` finds gives nothing. */
  lemma {:induction false} PicksNone<T>(trace: seq<Action>, pick: Action -> Option<T>)
    requires forall i :: 0 <= i < |trace| ==> pick(trace[i]).None?
    ensures Picks(trace, pick) == []
    decreases |trace|
  {
    if trace != [] {
      PicksNone(trace[1..], pick);
    }
  }

  /** The actions of the platform loop: writer calls, sleeps, and `run_started` events
      that carry no record. */
  predicate Quiet(trace: seq<Action>) {
    forall i :: 0 <= i < |trace| ==>
      trace[i].Invoke? || trace[i].Sleep?
      || (trace[i].Yield? && !trace[i].response.content.Output? && trace[i].response.event == RunStarted)
  }

  lemma {:induction false} RunPlatformsQuiet(r: Record, writers: Writers, i: nat)
    requires i <= |Platforms|
    ensures Quiet(RunPlatforms(r, writers, i).trace)
    decreases |Platforms| - i
  {
    if i < |Platforms| {
      var s := Step(r, writers, i);
      StepQuiet(r, writers, i);
      RunPlatformsQuiet(s.record, writers, i + 1);
      QuietAppend(s.trace, RunPlatforms(s.record, writers, i + 1).trace);
    }
  }

  lemma StepQuiet(r: Record, writers: Writers, i: nat)
    requires i < |Platforms|
    ensures Quiet(Step(r, writers, i).trace)
  {
    var p := Platforms[i];
    RetryFromTrace(p, writers(p), r.researchContext, 0);
  }

  lemma QuietAppend(a: seq<Action>, b: seq<Action>)
    requires Quiet(a) && Quiet(b)
    ensures Quiet(a + b)
  {
  }

  /** The actions of the opening: the research call and plain messages. */
  predicate Announces(a: Action) {
    a.CallResearch? || (a.Yield? && a.response.content.Message? && a.response.event != WorkflowCompleted)
  }

  lemma OpeningAnnounces(topic: string, urls: Option<seq<string>>)
    ensures forall i :: 0 <= i < |Opening(topic, urls)| ==> Announces(Opening(topic, urls)[i])
  {
    var start := [Yield(Response(Message(Announcement(topic)), WorkflowStarted)),
                  Yield(Response(Message(Announcement(topic)), RunStarted))];
    if HasItems(urls) {
      assert Opening(topic, urls) == start + [CallResearch(topic, urls)];
    } else {
      assert Opening(topic, urls) == start + [Yield(Response(Message(Delegation(topic)), RunStarted)), CallResearch(topic, None)];
    }
  }

  /** Announcing actions make no writer call, yield no progress and save nothing. */
  lemma AnnouncesPicks(t: seq<Action>)
    requires forall i :: 0 <= i < |t| ==> Announces(t[i])
    ensures Picks(t, CalledPlatform) == [] && Picks(t, ProgressValue) == []
    ensures Picks(t, SavedJson) == [] && Picks(t, SavedName) == []
  {
    PicksNone(t, CalledPlatform);
    PicksNone(t, ProgressValue);
    PicksNone(t, SavedJson);
    PicksNone(t, SavedName);
  }

  lemma OpeningPicks(topic: string, urls: Option<seq<string>>)
    ensures Picks(Opening(topic, urls), CalledPlatform) == []
    ensures Picks(Opening(topic, urls), ProgressValue) == []
    ensures Picks(Opening(topic, urls), SavedJson) == []
    ensures Picks(Opening(topic, urls), SavedName) == []
  {
    OpeningAnnounces(topic, urls);
    AnnouncesPicks(Opening(topic, urls));
  }

  /** The closing actions make no writer call and yield no progress. */
  lemma ClosingPicks(topic: string, r: Record)
    ensures Picks(Closing(topic, r), CalledPlatform) == []
    ensures Picks(Closing(topic, r), ProgressValue) == []
  {
    var c := Closing(topic, r);
    assert forall i :: 0 <= i < |c| ==> !c[i].Invoke? && (c[i].Yield? ==> !c[i].response.content.Dict?);
    PicksNone(c, CalledPlatform);
    PicksNone(c, ProgressValue);
  }

  /** A successful run's trace: the opening, the research progress event, the platform
      loop and the closing. */
  lemma RunTrace(topic: string, urls: Option<seq<string>>, reply: ResearchReply, writers: Writers)
    requires !FatalResearch(reply)
    ensures var g := RunPlatforms(Researched(topic, urls, reply), writers, 0);
            Run(topic, urls, reply, writers)
            == Outcome(g.record, Opening(topic, urls) + [Yield(ResearchCompleted)] + g.trace + Closing(topic, g.record))
  {
  }

  /** Position `k` of trace `t` holds its only research call, and every writer call
      comes after it. */
  predicate ResearchOnceAt(t: seq<Action>, k: int)
  {
    0 <= k < |t| && t[k].CallResearch?
    && (forall i :: 0 <= i < |t| && t[i].CallResearch? ==> i == k)
    && (forall i :: 0 <= i < |t| && t[i].Invoke? ==> k < i)
  }

  /** A trace whose first part ends with its one research call and otherwise only yields,
      followed by actions that make no research call. */
  lemma CallsAfterOpening(t: seq<Action>, o: seq<Action>, rest: seq<Action>)
    requires t == o + rest
    requires o != [] && o[|o| - 1].CallResearch?
    requires forall i :: 0 <= i < |o| - 1 ==> o[i].Yield?
    requires forall i :: 0 <= i < |rest| ==> !rest[i].CallResearch?
    ensures ResearchOnceAt(t, |o| - 1) && t[|o| - 1] == o[|o| - 1]
  {
    forall i | 0 <= i < |t| && i != |o| - 1
      ensures !t[i].CallResearch?
    {
      if i >= |o| {
        assert t[i] == rest[i - |o|];
      }
    }
  }

  /** Before the research call the opening only yields. */
  lemma OpeningYields(topic: string, urls: Option<seq<string>>)
    ensures forall i :: 0 <= i < |Opening(topic, urls)| - 1 ==> Opening(topic, urls)[i].Yield?
  {
    OpeningAnnounces(topic, urls);
  }

  /** The research call happens once, as the last action of the opening, and no writer is
      called before it, whatever the research reply. */
  lemma ResearchPrecedesWriters(topic: string, urls: Option<seq<string>>, reply: ResearchReply, writers: Writers)
    ensures var t := Run(topic, urls, reply, writers).trace;
            var k := |Opening(topic, urls)| - 1;
            ResearchOnceAt(t, k) && t[k] == CallResearch(topic, if HasItems(urls) then urls else None)
  {
    if FatalResearch(reply) {
      FatalCallsOnce(topic, urls, reply, writers);
    } else {
      SuccessCallsOnce(topic, urls, reply, writers);
    }
  }

  /** The fatal case: the trace is the opening itself. */
  lemma FatalCallsOnce(topic: string, urls: Option<seq<string>>, reply: ResearchReply, writers: Writers)
    requires FatalResearch(reply)
    ensures var o := Opening(topic, urls);
            var t := Run(topic, urls, reply, writers).trace;
            ResearchOnceAt(t, |o| - 1) && t[|o| - 1] == o[|o| - 1]
  {
    var t := Run(topic, urls, reply, writers).trace;
    var o := Opening(topic, urls);
    OpeningYields(topic, urls);
    assert t == o + [];
    CallsAfterOpening(t, o, []);
  }

  /** The successful case: research completed, platform steps, closing. */
  lemma SuccessCallsOnce(topic: string, urls: Option<seq<string>>, reply: ResearchReply, writers: Writers)
    requires !FatalResearch(reply)
    ensures var o := Opening(topic, urls);
            var t := Run(topic, urls, reply, writers).trace;
            ResearchOnceAt(t, |o| - 1) && t[|o| - 1] == o[|o| - 1]
  {
    var g := RunPlatforms(Researched(topic, urls, reply), writers, 0);
    OpeningYields(topic, urls);
    RunTrace(topic, urls, reply, writers);
    RunPlatformsQuiet(Researched(topic, urls, reply), writers, 0);
    ClosingMakesNoResearchCall(topic, g.record);
    SuccessShape(Run(topic, urls, reply, writers).trace, Opening(topic, urls), g.trace, Closing(topic, g.record));
  }

  /** The closing steps only yield and save. */
  lemma ClosingMakesNoResearchCall(topic: string, r: Record)
    ensures forall i :: 0 <= i < |Closing(topic, r)| ==> !Closing(topic, r)[i].CallResearch?
  {
  }

  /** The successful trace's shape, over arbitrary parts. */
  lemma SuccessShape(t: seq<Action>, o: seq<Action>, g: seq<Action>, c: seq<Action>)
    requires t == o + [Yield(ResearchCompleted)] + g + c
    requires o != [] && o[|o| - 1].CallResearch?
    requires forall i :: 0 <= i < |o| - 1 ==> o[i].Yield?
    requires Quiet(g)
    requires forall i :: 0 <= i < |c| ==> !c[i].CallResearch?
    ensures ResearchOnceAt(t, |o| - 1) && t[|o| - 1] == o[|o| - 1]
  {
    var rest := [Yield(ResearchCompleted)] + g + c;
    forall i | 0 <= i < |rest| ensures !rest[i].CallResearch? {
      if i == 0 {
      } else if i < 1 + |g| {
        assert rest[i] == g[i - 1];
      } else {
        assert rest[i] == c[i - 1 - |g|];
      }
    }
    assert t == o + rest;
    CallsAfterOpening(t, o, rest);
  }

  lemma PicksAround<T>(a: seq<Action>, b: seq<Action>, c: seq<Action>, d: seq<Action>, pick: Action -> Option<T>)
    requires Picks(a, pick) == [] && Picks(d, pick) == []
    ensures Picks(a + b + c + d, pick) == Picks(b, pick) + Picks(c, pick)
  {
    PicksOfFour(a, b, c, d, pick);
    assert [] + Picks(b, pick) + Picks(c, pick) + [] == Picks(b, pick) + Picks(c, pick);
  }

  lemma PicksOfFour<T>(a: seq<Action>, b: seq<Action>, c: seq<Action>, d: seq<Action>, pick: Action -> Option<T>)
    ensures Picks(a + b + c + d, pick) == Picks(a, pick) + Picks(b, pick) + Picks(c, pick) + Picks(d, pick)
  {
    PicksAppend(a + b + c, d, pick);
    PicksAppend(a + b, c, pick);
    PicksAppend(a, b, pick);
  }

  /** The trace of a successful run around any platform-loop trace `t`: its writer calls
      are those of `t`, and its progress values the research one followed by those of
      `t`. */
  lemma AssembledPicks(topic: string, urls: Option<seq<string>>, t: seq<Action>, r: Record)
    ensures var whole := Opening(topic, urls) + [Yield(ResearchCompleted)] + t + Closing(topic, r);
            Picks(whole, CalledPlatform) == Picks(t, CalledPlatform)
            && Picks(whole, ProgressValue) == [Ratio(1, TotalSteps)] + Picks(t, ProgressValue)
  {
    var o, m, c := Opening(topic, urls), [Yield(ResearchCompleted)], Closing(topic, r);
    OpeningPicks(topic, urls);
    ClosingPicks(topic, r);
    assert Picks(m, CalledPlatform) == [];
    assert Picks(m, ProgressValue) == [Ratio(1, TotalSteps)];
    PicksAround(o, m, t, c, CalledPlatform);
    PicksAround(o, m, t, c, ProgressValue);
  }

  /** With successful research a run calls the writers in the platform schedule, and its
      progress values are 1/5 after research and then one per platform in order. */
  lemma RunPicks(topic: string, urls: Option<seq<string>>, reply: ResearchReply, writers: Writers)
    requires !FatalResearch(reply)
    ensures var t := Run(topic, urls, reply, writers).trace;
            Picks(t, CalledPlatform) == Schedule(writers, 0)
            && Picks(t, ProgressValue) == [Ratio(1, TotalSteps)] + Ramp(0)
  {
    var g := RunPlatforms(Researched(topic, urls, reply), writers, 0);
    RunTrace(topic, urls, reply, writers);
    RunPlatformsPicks(Researched(topic, urls, reply), writers, 0);
    AssembledPicks(topic, urls, g.trace, g.record);
  }

  /** The schedule of the whole platform loop, platform by platform. */
  lemma ScheduleAll(writers: Writers)
    ensures Schedule(writers, 0)
            == Repeat(Blog, FinalAttempt(writers(Blog)) + 1) + Repeat(Linkedin, FinalAttempt(writers(Linkedin)) + 1)
               + Repeat(Twitter, FinalAttempt(writers(Twitter)) + 1) + Repeat(Instagram, FinalAttempt(writers(Instagram)) + 1)
  {
    ScheduleByCalls(writers);
  }

  lemma ScheduleByCalls(writers: Writers)
    ensures Schedule(writers, 0)
            == Calls(writers, Blog) + Calls(writers, Linkedin) + Calls(writers, Twitter) + Calls(writers, Instagram)
  {
    ScheduleStep(writers, 0, Blog);
    ScheduleStep(writers, 1, Linkedin);
    ScheduleStep(writers, 2, Twitter);
    ScheduleStep(writers, 3, Instagram);
    ConcatFour(Schedule(writers, 0), Schedule(writers, 1), Schedule(writers, 2), Schedule(writers, 3), Schedule(writers, 4),
               Calls(writers, Blog), Calls(writers, Linkedin), Calls(writers, Twitter), Calls(writers, Instagram));
  }

  lemma ConcatFour<T>(s0: seq<T>, s1: seq<T>, s2: seq<T>, s3: seq<T>, s4: seq<T>, b: seq<T>, l: seq<T>, t: seq<T>, i: seq<T>)
    requires s0 == b + s1 && s1 == l + s2 && s2 == t + s3 && s3 == i + s4 && s4 == []
    ensures s0 == b + l + t + i
  {
    assert i + [] == i;
  }

  lemma ScheduleStep(writers: Writers, i: nat, p: Platform)
    requires i < |Platforms| && Platforms[i] == p
    ensures Schedule(writers, i) == Calls(writers, p) + Schedule(writers, i + 1)
  {
  }

  /** Every platform is processed once, in the order blog, linkedin, twitter,
      instagram: the writer calls of a run are, platform by platform, one per attempt. */
  lemma RunSchedule(topic: string, urls: Option<seq<string>>, reply: ResearchReply, writers: Writers)
    requires !FatalResearch(reply)
    ensures Picks(Run(topic, urls, reply, writers).trace, CalledPlatform)
            == Repeat(Blog, FinalAttempt(writers(Blog)) + 1) + Repeat(Linkedin, FinalAttempt(writers(Linkedin)) + 1)
               + Repeat(Twitter, FinalAttempt(writers(Twitter)) + 1) + Repeat(Instagram, FinalAttempt(writers(Instagram)) + 1)
  {
    RunPicks(topic, urls, reply, writers);
    ScheduleAll(writers);
  }

  /** Values k/n for consecutive k from 1 on increase strictly. */
  lemma RatiosIncrease(v: seq<Ratio>, n: nat)
    requires n > 0 && forall j :: 0 <= j < |v| ==> v[j] == Ratio(j + 1, n)
    ensures forall i, j :: 0 <= i < j < |v| ==> Below(v[i], v[j])
  {
    forall i, j | 0 <= i < j < |v| ensures Below(v[i], v[j]) {
      assert (i + 1) * n < (j + 1) * n;
    }
  }

  /** The progress values of a successful run are 1/5, 2/5, 3/5, 4/5 and 5/5: strictly
      increasing, the last one equal to 1. */
  lemma RunProgress(topic: string, urls: Option<seq<string>>, reply: ResearchReply, writers: Writers)
    requires !FatalResearch(reply)
    ensures var v := Picks(Run(topic, urls, reply, writers).trace, ProgressValue);
            |v| == TotalSteps
            && (forall j :: 0 <= j < |v| ==> v[j] == Ratio(j + 1, TotalSteps))
            && (forall i, j :: 0 <= i < j < |v| ==> Below(v[i], v[j]))
            && v[|v| - 1].num == v[|v| - 1].den
  {
    RunPicks(topic, urls, reply, writers);
    ProgressRamp();
  }

  /** The research progress value followed by the platform loop's: k/5 for k = 1..5. */
  lemma ProgressRamp()
    ensures var v := [Ratio(1, TotalSteps)] + Ramp(0);
            |v| == TotalSteps
            && (forall j :: 0 <= j < |v| ==> v[j] == Ratio(j + 1, TotalSteps))
            && (forall i, j :: 0 <= i < j < |v| ==> Below(v[i], v[j]))
            && v[|v| - 1].num == v[|v| - 1].den
  {
    var v := [Ratio(1, TotalSteps)] + Ramp(0);
    assert forall j :: 0 <= j < |v| ==> v[j] == Ratio(j + 1, TotalSteps);
    RatiosIncrease(v, TotalSteps);
  }

  /** The actions of the closing for the record `r`: the JSON save, the blog save when
      there is a blog post, and the `workflow_completed` event last. */
  lemma ClosingSaves(topic: string, r: Record)
    ensures var c := Closing(topic, r);
            var slug := Slug.SafeName(topic);
            Picks(c, SavedJson) == [Dump(r)]
            && Picks(c, SavedName)
               == ["social_content_" + slug] + (if HasText(r.blogPostMd) then ["blog_post_" + slug] else [])
            && c[|c| - 1] == Yield(Response(Output(r), WorkflowCompleted))
            && forall i :: 0 <= i < |c| - 1 ==> !(c[i].Yield? && c[i].response.event == WorkflowCompleted)
  {
    var slug := Slug.SafeName(topic);
    var m := if HasText(r.blogPostMd) then [SaveMarkdown(r.blogPostMd.value, "blog_post_" + slug)] else [];
    var last := [Yield(Response(Output(r), WorkflowCompleted))];
    var head := [Yield(Consolidating), SaveJson(Dump(r), "social_content_" + slug)];
    assert Closing(topic, r) == head + m + last;
    PicksAppend(head + m, last, SavedJson);
    PicksAppend(head, m, SavedJson);
    PicksAppend(head + m, last, SavedName);
    PicksAppend(head, m, SavedName);
    PicksNone(m, SavedJson);
  }

  /** Nothing before the closing is a `workflow_completed` event. */
  lemma FrontNotCompleted(o: seq<Action>, m: seq<Action>, t: seq<Action>)
    requires forall i :: 0 <= i < |o| ==> Announces(o[i])
    requires m == [Yield(ResearchCompleted)] && Quiet(t)
    ensures forall i :: 0 <= i < |o + m + t| ==> !((o + m + t)[i].Yield? && (o + m + t)[i].response.event == WorkflowCompleted)
  {
    forall i | 0 <= i < |o + m + t|
      ensures !((o + m + t)[i].Yield? && (o + m + t)[i].response.event == WorkflowCompleted)
    {
      if i < |o| {
        assert (o + m + t)[i] == o[i];
      } else if i < |o| + 1 {
        assert (o + m + t)[i] == m[0];
      } else {
        assert (o + m + t)[i] == t[i - |o| - 1];
      }
    }
  }

  /** Around a quiet platform-loop trace, the saves and the `workflow_completed` event
      of a successful run are those of its closing. */
  lemma AssembledClosing(topic: string, urls: Option<seq<string>>, t: seq<Action>, r: Record)
    requires Quiet(t)
    ensures var c := Closing(topic, r);
            var whole := Opening(topic, urls) + [Yield(ResearchCompleted)] + t + c;
            Picks(whole, SavedJson) == Picks(c, SavedJson)
            && Picks(whole, SavedName) == Picks(c, SavedName)
            && whole[|whole| - 1] == c[|c| - 1]
            && forall i :: 0 <= i < |whole| - |c| ==> !(whole[i].Yield? && whole[i].response.event == WorkflowCompleted)
  {
    OpeningPicks(topic, urls);
    OpeningAnnounces(topic, urls);
    SavesAtEnd(Opening(topic, urls), [Yield(ResearchCompleted)], t, Closing(topic, r));
  }

  /** The same over arbitrary parts: an opening that only announces and saves nothing,
      the research event, a quiet trace, then a non-empty closing. */
  lemma SavesAtEnd(o: seq<Action>, m: seq<Action>, t: seq<Action>, c: seq<Action>)
    requires forall i :: 0 <= i < |o| ==> Announces(o[i])
    requires Picks(o, SavedJson) == [] && Picks(o, SavedName) == []
    requires m == [Yield(ResearchCompleted)] && Quiet(t) && c != []
    ensures var whole := o + m + t + c;
            Picks(whole, SavedJson) == Picks(c, SavedJson)
            && Picks(whole, SavedName) == Picks(c, SavedName)
            && whole[|whole| - 1] == c[|c| - 1]
            && forall i :: 0 <= i < |whole| - |c| ==> !(whole[i].Yield? && whole[i].response.event == WorkflowCompleted)
  {
    FrontNotCompleted(o, m, t);
    assert o + m + t + c == (o + m + t) + c;
    PicksNone(m, SavedJson);
    PicksNone(m, SavedName);
    PicksNone(t, SavedJson);
    PicksNone(t, SavedName);
    PicksOfFour(o, m, t, c, SavedJson);
    PicksOfFour(o, m, t, c, SavedName);
  }

  /** A successful run saves the record once as JSON (its non-None fields) under
      "social_content_" and the slug, saves the blog post under "blog_post_" and the slug
      exactly when it is non-empty, and ends with the one `workflow_completed` event,
      which carries the record. */
  lemma RunClosing(topic: string, urls: Option<seq<string>>, reply: ResearchReply, writers: Writers)
    requires !FatalResearch(reply)
    ensures var o := Run(topic, urls, reply, writers);
            var slug := Slug.SafeName(topic);
            Picks(o.trace, SavedJson) == [Dump(o.record)]
            && Picks(o.trace, SavedName)
               == ["social_content_" + slug] + (if HasText(o.record.blogPostMd) then ["blog_post_" + slug] else [])
            && o.trace[|o.trace| - 1] == Yield(Response(Output(o.record), WorkflowCompleted))
            && forall i :: 0 <= i < |o.trace| - 1 ==> !(o.trace[i].Yield? && o.trace[i].response.event == WorkflowCompleted)
  {
    var g := RunPlatforms(Researched(topic, urls, reply), writers, 0);
    var c := Closing(topic, g.record);
    RunTrace(topic, urls, reply, writers);
    RunPlatformsQuiet(Researched(topic, urls, reply), writers, 0);
    AssembledClosing(topic, urls, g.trace, g.record);
    ClosingSaves(topic, g.record);
    var whole := Run(topic, urls, reply, writers).trace;
    forall i | |whole| - |c| <= i < |whole| - 1
      ensures !(whole[i].Yield? && whole[i].response.event == WorkflowCompleted)
    {
      assert whole[i] == c[i - (|whole| - |c|)];
    }
  }

  // ---------------------------------------------------------------------------------
  // The saved record

  /** The JSON dictionary holds the topic, the errors and exactly the fields that are
      not None. */
  lemma DumpKeys(r: Record)
    ensures TopicKey in Dump(r) && ErrorsKey in Dump(r)
    ensures ResearchContextKey in Dump(r) <==> r.researchContext.Some?
    ensures BlogPostMdKey in Dump(r) <==> r.blogPostMd.Some?
    ensures LinkedinPostKey in Dump(r) <==> r.linkedinPost.Some?
    ensures TwitterPostKey in Dump(r) <==> r.twitterPost.Some?
    ensures InstagramPostCaptionKey in Dump(r) <==> r.instagramPostCaption.Some?
    ensures InstagramImageIdeasKey in Dump(r) <==> r.instagramImageIdeas.Some?
    ensures SourcesKey in Dump(r) <==> r.sources.Some?
  {
  }

  /** Dropping the None fields loses nothing: reading the dictionary back gives the record. */
  lemma LoadDump(r: Record)
    ensures Load(Dump(r)) == r
  {
  }
}
