/** The pure part of the user interface callback: reading the URL box, the guards that
    decide whether the workflow starts, the session id, the fold that turns the
    workflow's event stream into a progress display and a result, and the layout of the
    sources list. */
module App {
  import opened Common
  import Slug
  import Workflow

  // ---------------------------------------------------------------------------------
  // `str.splitlines()` and `str.strip()`

  /** The line boundaries of `str.splitlines()`. */
  predicate IsLineBreak(c: char) {
    c == '\n' || c == '\r' || c == '\U{000B}' || c == '\U{000C}' || c == '\U{001C}' || c == '\U{001D}'
    || c == '\U{001E}' || c == '\U{0085}' || c == '\U{2028}' || c == '\U{2029}'
  }

  /** The characters `str.strip()` removes (`str.isspace()`). */
  predicate IsSpace(c: char) {
    c == ' ' || c == '\t' || c == '\n' || c == '\U{000B}' || c == '\U{000C}' || c == '\r'
    || c == '\U{001C}' || c == '\U{001D}' || c == '\U{001E}' || c == '\U{001F}' || c == '\U{0085}'
    || c == '\U{00A0}' || c == '\U{1680}' || '\U{2000}' <= c <= '\U{200A}' || c == '\U{2028}'
    || c == '\U{2029}' || c == '\U{202F}' || c == '\U{205F}' || c == '\U{3000}'
  }

  /** The length of the first line of `s`: the index of its first line boundary. */
  function LineEnd(s: string): (i: nat)
    ensures i <= |s|
    ensures forall j :: 0 <= j < i ==> !IsLineBreak(s[j])
    ensures i < |s| ==> IsLineBreak(s[i])
    decreases |s|
  {
    if s == [] || IsLineBreak(s[0]) then 0 else 1 + LineEnd(s[1..])
  }

  /** The width of the boundary at `i`: "\r\n" counts as one boundary. */
  function BreakWidth(s: string, i: nat): nat
    requires i < |s|
  {
    if s[i] == '\r' && i + 1 < |s| && s[i + 1] == '\n' then 2 else 1
  }

  predicate NoBreak(line: string) {
    forall j :: 0 <= j < |line| ==> !IsLineBreak(line[j])
  }

  /** `s.splitlines()`: the lines of `s` without their boundaries; a boundary at the very
      end does not start another line. */
  function SplitLines(s: string): (r: seq<string>)
    ensures forall k :: 0 <= k < |r| ==> NoBreak(r[k])
    ensures r == [] <==> s == []
    decreases |s|
  {
    if s == [] then []
    else
      var i := LineEnd(s);
      if i == |s| then [s] else [s[..i]] + SplitLines(s[i + BreakWidth(s, i)..])
  }

  /** The first line of a string is cut at its first boundary. */
  lemma LineEndAt(a: string, c: char, b: string)
    requires NoBreak(a) && IsLineBreak(c)
    ensures LineEnd(a + [c] + b) == |a|
  {
    var s := a + [c] + b;
    assert s[|a|] == c;
    assert forall j :: 0 <= j < |a| ==> s[j] == a[j];
  }

  /** Splitting lines joined with "\n" gives them back, when none of them holds a
      boundary and the last is not empty (a trailing "\n" is dropped). */
  lemma {:induction false} SplitJoinedLines(lines: seq<string>)
    requires forall k :: 0 <= k < |lines| ==> NoBreak(lines[k])
    requires lines != [] ==> lines[|lines| - 1] != ""
    ensures SplitLines(Join(lines, "\n")) == lines
    decreases |lines|
  {
    if |lines| > 1 {
      var l, rest := lines[0], lines[1..];
      var s := Join(lines, "\n");
      assert s == l + ['\n'] + Join(rest, "\n");
      LineEndAt(l, '\n', Join(rest, "\n"));
      assert BreakWidth(s, |l|) == 1;
      assert s[..|l|] == l;
      assert s[|l| + 1..] == Join(rest, "\n");
      SplitJoinedLines(rest);
    }
  }

  /** "\r\n" is one boundary: a line ended by it is followed by the lines after it. */
  lemma CrLfIsOneBoundary(a: string, b: string)
    requires NoBreak(a)
    ensures SplitLines(a + "\r\n" + b) == [a] + SplitLines(b)
  {
    var s := a + "\r\n" + b;
    assert s == a + ['\r'] + (['\n'] + b);
    LineEndAt(a, '\r', ['\n'] + b);
    assert s[|a|] == '\r' && s[|a| + 1] == '\n';
    assert s[..|a|] == a && s[|a| + 2..] == b;
  }

  /** `s.lstrip()`. */
  function StripStart(s: string): (r: string)
    ensures |r| <= |s| && r == s[|s| - |r|..]
    ensures forall j :: 0 <= j < |s| - |r| ==> IsSpace(s[j])
    ensures r != [] ==> !IsSpace(r[0])
    decreases |s|
  {
    if s != [] && IsSpace(s[0]) then StripStart(s[1..]) else s
  }

  /** `s.rstrip()`. */
  function StripEnd(s: string): (r: string)
    ensures |r| <= |s| && r == s[..|r|]
    ensures forall j :: |r| <= j < |s| ==> IsSpace(s[j])
    ensures r != [] ==> !IsSpace(r[|r| - 1])
    decreases |s|
  {
    if s != [] && IsSpace(s[|s| - 1]) then StripEnd(s[..|s| - 1]) else s
  }

  /** `s.strip()`: `s` without the whitespace at either end. */
  function Strip(s: string): (r: string)
    ensures r != [] ==> !IsSpace(r[0]) && !IsSpace(r[|r| - 1])
  {
    StripEnd(StripStart(s))
  }

  /** A string with no whitespace at its ends is its own strip; so stripping twice is
      stripping once. */
  lemma StripIdempotent(s: string)
    ensures Strip(Strip(s)) == Strip(s)
  {
    var r := Strip(s);
    if r != [] {
      assert StripStart(r) == r;
      assert StripEnd(r) == r;
    }
  }

  /** A string is blank (strips to "") exactly when every character is whitespace. */
  lemma {:induction false} BlankIff(s: string)
    ensures Strip(s) == "" <==> forall j :: 0 <= j < |s| ==> IsSpace(s[j])
  {
    var t := StripStart(s);
    if t != [] {
      assert !IsSpace(t[0]);
      assert StripEnd(t) != [] by {
        assert !IsSpace(t[0]);
      }
      assert s[|s| - |t|] == t[0];
    }
  }

  // ---------------------------------------------------------------------------------
  // The URL box

  /** The stripped non-blank lines, in order. */
  function KeepNonBlank(lines: seq<string>): (r: seq<string>)
    ensures |r| <= |lines|
    ensures forall k :: 0 <= k < |r| ==> r[k] != "" && Strip(r[k]) == r[k]
    decreases |lines|
  {
    if lines == [] then []
    else
      StripIdempotent(lines[0]);
      (if Strip(lines[0]) != "" then [Strip(lines[0])] else []) + KeepNonBlank(lines[1..])
  }

  /** `[url.strip() for url in urls_text.splitlines() if url.strip()]`. */
  function ParseUrls(text: string): (r: seq<string>)
    ensures forall k :: 0 <= k < |r| ==> r[k] != "" && Strip(r[k]) == r[k]
  {
    KeepNonBlank(SplitLines(text))
  }

  /** The lines are read in order: the URLs of two runs of lines are those of the first run
      followed by those of the second. */
  lemma {:induction false} KeepNonBlankAppend(a: seq<string>, b: seq<string>)
    ensures KeepNonBlank(a + b) == KeepNonBlank(a) + KeepNonBlank(b)
    decreases |a|
  {
    if a == [] {
      assert a + b == b;
    } else {
      assert (a + b)[0] == a[0] && (a + b)[1..] == a[1..] + b;
      KeepNonBlankAppend(a[1..], b);
    }
  }

  /** Some element satisfies `p`. */
  predicate Any<T>(xs: seq<T>, p: T -> bool) {
    exists k :: 0 <= k < |xs| && p(xs[k])
  }

  lemma AnyCons<T>(xs: seq<T>, p: T -> bool)
    requires xs != []
    ensures Any(xs, p) <==> p(xs[0]) || Any(xs[1..], p)
  {
    if Any(xs, p) && !p(xs[0]) {
      var k :| 0 <= k < |xs| && p(xs[k]);
      assert xs[1..][k - 1] == xs[k];
    }
    if Any(xs[1..], p) {
      var k :| 0 <= k < |xs[1..]| && p(xs[1..][k]);
      assert xs[k + 1] == xs[1..][k];
    }
  }

  /** Some line strips to `u`. */
  predicate StripsTo(lines: seq<string>, u: string) {
    Any(lines, line => Strip(line) == u)
  }

  /** A URL is in the list exactly when it is the stripped form of some non-blank line. */
  lemma {:induction false} KeepNonBlankMember(lines: seq<string>, u: string)
    ensures u in KeepNonBlank(lines) <==> u != "" && StripsTo(lines, u)
    decreases |lines|
  {
    if lines != [] {
      KeepNonBlankMember(lines[1..], u);
      AnyCons(lines, line => Strip(line) == u);
      var h := Strip(lines[0]);
      assert KeepNonBlank(lines) == (if h != "" then [h] else []) + KeepNonBlank(lines[1..]);
    }
  }

  /** Some line is not blank. */
  predicate HasNonBlank(lines: seq<string>) {
    Any(lines, line => Strip(line) != "")
  }

  /** No URL comes out exactly when every line is blank. */
  lemma {:induction false} KeepNonBlankEmptyIff(lines: seq<string>)
    ensures KeepNonBlank(lines) == [] <==> !HasNonBlank(lines)
    decreases |lines|
  {
    if lines != [] {
      KeepNonBlankEmptyIff(lines[1..]);
      AnyCons(lines, line => Strip(line) != "");
    }
  }

  // ---------------------------------------------------------------------------------
  // Starting the workflow

  const TopicWarning: string := "Please enter a topic."
  const UrlsWarning: string := "Please enter at least one URL when the checkbox is selected, or uncheck it."
  const SessionPrefix: string := "streamlit-social-content-"

  /** What pressing the button does: warn and stop, or start the workflow on a topic, the
      URL list (None when the box is not used) and a session id. */
  datatype Decision =
    | Warn(message: string)
    | Start(topic: string, urls: Option<seq<string>>, sessionId: string)

  /** The session id of a topic. */
  function SessionId(topic: string): (id: string)
    ensures SessionPrefix <= id && |id| <= |SessionPrefix| + Slug.MaxLength
  {
    SessionPrefix + Slug.SafeName(topic)
  }

  /** The guards of `on_generate_content`, in their order. */
  function OnGenerate(topic: string, useUrls: bool, urlsText: string): (d: Decision)
    ensures d.Warn? ==> d.message == TopicWarning || d.message == UrlsWarning
    ensures d.Start? ==> d.topic == topic && topic != "" && d.sessionId == SessionId(topic)
    ensures d.Start? ==> (d.urls.Some? <==> useUrls) && (d.urls.Some? ==> d.urls.value != [])
  {
    if topic == "" then Warn(TopicWarning)
    else if useUrls then
      var urlsList := ParseUrls(urlsText);
      if urlsList == [] then Warn(UrlsWarning) else Start(topic, Some(urlsList), SessionId(topic))
    else Start(topic, None, SessionId(topic))
  }

  /** The workflow starts exactly when there is a topic and, if the box is used, at least
      one non-blank line; an empty topic is reported first. */
  lemma StartIff(topic: string, useUrls: bool, urlsText: string)
    ensures OnGenerate(topic, useUrls, urlsText).Start? <==> topic != "" && (!useUrls || HasNonBlank(SplitLines(urlsText)))
    ensures topic == "" ==> OnGenerate(topic, useUrls, urlsText) == Warn(TopicWarning)
    ensures topic != "" && useUrls && ParseUrls(urlsText) == [] ==> OnGenerate(topic, useUrls, urlsText) == Warn(UrlsWarning)
  {
    KeepNonBlankEmptyIff(SplitLines(urlsText));
  }

  /** A started workflow gets the topic itself, no URL list when the box is not used and a
      non-empty one when it is, and the session id made from the topic's slug, the same
      slug the workflow names its files with. */
  lemma StartedRun(topic: string, useUrls: bool, urlsText: string)
    requires OnGenerate(topic, useUrls, urlsText).Start?
    ensures var d := OnGenerate(topic, useUrls, urlsText);
            d.topic == topic && topic != ""
            && (d.urls == None <==> !useUrls)
            && (useUrls ==> d.urls == Some(ParseUrls(urlsText)) && HasItems(d.urls))
            && d.sessionId == SessionPrefix + Slug.SafeName(topic)
  {
  }

  const StartingPrefix: string := "Starting content generation for topic: '"

  /** The information line shown when the workflow starts: the topic, then the number of
      URLs in decimal when there are any. */
  function StartingMessage(topic: string, urls: Option<seq<string>>): (m: string)
    ensures HasItems(urls) ==>
              exists d: string :: (forall i :: 0 <= i < |d| ==> IsDigit(d[i])) && d != [] && DigitsValue(d) == |urls.value|
                                  && m == StartingPrefix + topic + "'" + " using " + d + " URL(s)."
    ensures !HasItems(urls) ==> m == StartingPrefix + topic + "'" + "..."
  {
    var prefix := StartingPrefix + topic + "'";
    if HasItems(urls) then
      var count := NatToString(|urls.value|);
      prefix + " using " + count + " URL(s)."
    else prefix + "..."
  }

  // ---------------------------------------------------------------------------------
  // The event fold

  /** A `run_started` event whose content is a dictionary of type "progress". */
  predicate IsProgress(r: Workflow.Response) {
    r.event == Workflow.RunStarted && r.content.Dict? && r.content.kind == Some("progress")
  }

  /** The progress bar's value and the step the status text names. */
  datatype Shown = Shown(value: Workflow.Ratio, step: string)

  /** What a progress event shows: its value, 0 when absent, and its step, "Working..."
      when absent. */
  function ShownBy(r: Workflow.Response): Shown
    requires IsProgress(r)
  {
    Shown(if r.content.value.Some? then r.content.value.value else Workflow.Ratio(0, 1),
          if r.content.step.Some? then r.content.step.value else "Working...")
  }

  /** An event whose content the fold keeps as the result: a `workflow_completed` event,
      or any event carrying the record. (Neither is a progress event.) */
  predicate Captures(r: Workflow.Response) {
    r.event == Workflow.WorkflowCompleted || r.content.Output?
  }

  /** The state of the fold: the display (None until the first event creates it) and
      `collected_result`. */
  datatype Collected = Collected(display: Option<Shown>, result: Option<Workflow.Content>)

  /** The bar at 0 and an empty status text, as created by the first event. */
  const Blank: Shown := Shown(Workflow.Ratio(0, 1), "")

  /** One iteration of the `async for` over the workflow's events. */
  function Receive(c: Collected, r: Workflow.Response): (n: Collected)
    ensures n.display.Some?
    ensures Captures(r) ==> n.result == Some(r.content)
    ensures !Captures(r) ==> n.result == c.result
    ensures IsProgress(r) ==> n.display == Some(ShownBy(r))
    ensures !IsProgress(r) && c.display.Some? ==> n.display == c.display
  {
    var display := if c.display.None? then Some(Blank) else c.display;
    if IsProgress(r) then Collected(Some(ShownBy(r)), c.result)
    else if r.event == Workflow.WorkflowCompleted then Collected(display, Some(r.content))
    else if r.content.Output? then Collected(display, Some(r.content))
    else Collected(display, c.result)
  }

  /** The fold over the events, first to last. */
  function Fold(c: Collected, rs: seq<Workflow.Response>): (n: Collected)
    ensures rs != [] || c.display.Some? ==> n.display.Some?
    ensures (forall i :: 0 <= i < |rs| ==> !Captures(rs[i])) ==> n.result == c.result
    decreases |rs|
  {
    if rs == [] then c else Fold(Receive(c, rs[0]), rs[1..])
  }

  /** Python truthiness of a result. */
  predicate Truthy(c: Workflow.Content) {
    match c
    case Message(text) => text != ""
    case Dict(kind, value, step) => kind.Some? || value.Some? || step.Some?
    case Output(_) => true
  }

  const Done: Shown := Shown(Workflow.Ratio(1, 1), "Workflow Completed")

  /** After the loop: a truthy result puts an existing display at 100%. */
  function Finish(c: Collected): (n: Collected)
    ensures n.result == c.result
    ensures n.display.Some? <==> c.display.Some?
    ensures n.display != c.display ==> n.display == Some(Done) && c.result.Some? && Truthy(c.result.value)
  {
    if c.result.Some? && Truthy(c.result.value) && c.display.Some? then c.(display := Some(Done)) else c
  }

  /** `run_workflow_and_collect` over the events `rs`. */
  function RunAndCollect(rs: seq<Workflow.Response>): (c: Collected)
    ensures c.result == LastCaptured(rs)
    ensures rs != [] ==> c.display.Some?
  {
    FoldMeaning(rs);
    Finish(Fold(Collected(None, None), rs))
  }

  /** The content of the last capturing event, read from the end. */
  function LastCaptured(rs: seq<Workflow.Response>): (r: Option<Workflow.Content>)
    decreases |rs|
  {
    if rs == [] then None
    else if Captures(rs[|rs| - 1]) then Some(rs[|rs| - 1].content)
    else LastCaptured(rs[..|rs| - 1])
  }

  /** What the last progress event shows, read from the end. */
  function LastShown(rs: seq<Workflow.Response>): (r: Option<Shown>)
    decreases |rs|
  {
    if rs == [] then None
    else if IsProgress(rs[|rs| - 1]) then Some(ShownBy(rs[|rs| - 1]))
    else LastShown(rs[..|rs| - 1])
  }

  lemma {:induction false} FoldSnoc(c: Collected, rs: seq<Workflow.Response>, r: Workflow.Response)
    ensures Fold(c, rs + [r]) == Receive(Fold(c, rs), r)
    decreases |rs|
  {
    if rs == [] {
      assert rs + [r] == [r];
    } else {
      assert (rs + [r])[0] == rs[0] && (rs + [r])[1..] == rs[1..] + [r];
      FoldSnoc(Receive(c, rs[0]), rs[1..], r);
    }
  }

  /** The fold keeps the content of the last capturing event, and shows what the last
      progress event shows; before any progress event, the display is the blank one
      created by the first event, and there is none without events. */
  lemma {:induction false} FoldMeaning(rs: seq<Workflow.Response>)
    ensures Fold(Collected(None, None), rs).result == LastCaptured(rs)
    ensures Fold(Collected(None, None), rs).display
            == if rs == [] then None else if LastShown(rs).Some? then LastShown(rs) else Some(Blank)
    decreases |rs|
  {
    if rs != [] {
      var front, r := rs[..|rs| - 1], rs[|rs| - 1];
      assert rs == front + [r];
      FoldSnoc(Collected(None, None), front, r);
      FoldMeaning(front);
    }
  }

  /** There is a result exactly when some event captures one, and it is the content of
      the last such event. */
  lemma {:induction false} LastCapturedIff(rs: seq<Workflow.Response>)
    ensures LastCaptured(rs).Some? <==> exists i :: 0 <= i < |rs| && Captures(rs[i])
    ensures LastCaptured(rs).Some? ==>
              exists i :: 0 <= i < |rs| && Captures(rs[i]) && rs[i].content == LastCaptured(rs).value
                          && forall j :: i < j < |rs| ==> !Captures(rs[j])
    decreases |rs|
  {
    if rs != [] {
      var front := rs[..|rs| - 1];
      LastCapturedIff(front);
      if !Captures(rs[|rs| - 1]) && exists i :: 0 <= i < |rs| && Captures(rs[i]) {
        var i :| 0 <= i < |rs| && Captures(rs[i]);
        assert Captures(front[i]);
      }
      if !Captures(rs[|rs| - 1]) && LastCaptured(front).Some? {
        var i :| 0 <= i < |front| && Captures(front[i]) && front[i].content == LastCaptured(front).value
                 && forall j :: i < j < |front| ==> !Captures(front[j]);
        assert Captures(rs[i]) && rs[i].content == LastCaptured(rs).value;
        assert forall j :: i < j < |rs| ==> !Captures(rs[j]) by {
          forall j | i < j < |rs| ensures !Captures(rs[j]) {
            if j < |front| {
              assert rs[j] == front[j];
            }
          }
        }
      }
    }
  }

  /** The collected result, the value `run_workflow_and_collect` returns: the content of
      the last capturing event, None when there is none. */
  lemma CollectedResult(rs: seq<Workflow.Response>)
    ensures RunAndCollect(rs).result == LastCaptured(rs)
    ensures RunAndCollect(rs).result == None <==> forall i :: 0 <= i < |rs| ==> !Captures(rs[i])
  {
    FoldMeaning(rs);
    LastCapturedIff(rs);
  }

  /** The progress display at the end: 100% and "Workflow Completed" when the result is
      truthy, and otherwise what the last progress event showed. */
  lemma FinalDisplay(rs: seq<Workflow.Response>)
    requires rs != []
    ensures var c := RunAndCollect(rs);
            c.display == if LastCaptured(rs).Some? && Truthy(LastCaptured(rs).value) then Some(Done)
                         else if LastShown(rs).Some? then LastShown(rs) else Some(Blank)
  {
    FoldMeaning(rs);
  }

  // ---------------------------------------------------------------------------------
  // The sources list

  /** How the sources are listed: not at all, in one list, or in two columns. */
  datatype Layout = NoSources | Listed(items: seq<string>) | Columns(left: seq<string>, right: seq<string>)

  /** `(num_sources + 1) // 2` (both operands are non-negative, so floor division agrees). */
  function Midpoint(n: nat): nat {
    (n + 1) / 2
  }

  /** `for i, source in enumerate(sources)` from index `from` on, each source going to
      column 0 when its index is below `mid` and to column 1 otherwise. */
  function Distribute(sources: seq<string>, mid: nat, from: nat): (r: (seq<string>, seq<string>))
    requires from <= |sources|
    ensures multiset(r.0 + r.1) == multiset(sources[from..])
    decreases |sources| - from
  {
    if from == |sources| then ([], [])
    else
      var rest := Distribute(sources, mid, from + 1);
      assert sources[from..] == [sources[from]] + sources[from + 1..];
      if from < mid then ([sources[from]] + rest.0, rest.1) else (rest.0, [sources[from]] + rest.1)
  }

  /** The sources section of the results. */
  function SourcesLayout(sources: Option<seq<string>>): (l: Layout)
    ensures l.NoSources? <==> !HasItems(sources)
    ensures l.Listed? ==> l.items == sources.value && |l.items| <= 5
    ensures l.Columns? ==> |sources.value| > 5 && multiset(l.left + l.right) == multiset(sources.value)
  {
    if !HasItems(sources) then NoSources
    else
      var n := |sources.value|;
      if n > 5 then
        var cols := Distribute(sources.value, Midpoint(n), 0);
        Columns(cols.0, cols.1)
      else Listed(sources.value)
  }

  /** Distributing from `from` puts the sources below `mid` first and the rest second. */
  lemma {:induction false} DistributeSlices(sources: seq<string>, mid: nat, from: nat)
    requires from <= |sources| && mid <= |sources|
    ensures Distribute(sources, mid, from).0 == if from < mid then sources[from..mid] else []
    ensures Distribute(sources, mid, from).1 == if from < mid then sources[mid..] else sources[from..]
    decreases |sources| - from
  {
    if from < |sources| {
      DistributeSlices(sources, mid, from + 1);
      DistributeStep(sources, mid, from);
      if from < mid {
        assert [sources[from]] + sources[from + 1..mid] == sources[from..mid];
        if from + 1 == mid {
          assert sources[from + 1..] == sources[mid..];
        }
      } else {
        assert [sources[from]] + sources[from + 1..] == sources[from..];
      }
    }
  }

  lemma DistributeStep(sources: seq<string>, mid: nat, from: nat)
    requires from < |sources|
    ensures var rest := Distribute(sources, mid, from + 1);
            Distribute(sources, mid, from)
            == if from < mid then ([sources[from]] + rest.0, rest.1) else (rest.0, [sources[from]] + rest.1)
  {
  }

  /** More than five sources go in two columns: the ones with index below (n + 1) / 2
      in the first, the others in the second, in order, so the first column has as many
      as the second or one more. Up to five are listed in order; none give no list. */
  lemma SourcesLayoutMeaning(sources: Option<seq<string>>)
    ensures !HasItems(sources) <==> SourcesLayout(sources) == NoSources
    ensures HasItems(sources) && |sources.value| <= 5 ==> SourcesLayout(sources) == Listed(sources.value)
    ensures HasItems(sources) && |sources.value| > 5 ==>
              var s, l := sources.value, SourcesLayout(sources);
              l.Columns? && l.left == s[..Midpoint(|s|)] && l.right == s[Midpoint(|s|)..]
              && l.left + l.right == s
              && (|l.left| == |l.right| || |l.left| == |l.right| + 1)
  {
    if HasItems(sources) && |sources.value| > 5 {
      var s := sources.value;
      DistributeSlices(s, Midpoint(|s|), 0);
      assert s[0..Midpoint(|s|)] + s[Midpoint(|s|)..] == s;
    }
  }
}
