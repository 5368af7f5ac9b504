/** The content workflow: research once, then ask the four platform writers in a fixed
    order (each under a bounded retry policy for rate limits), collect their texts and the
    errors into one output record, save it, and stream progress events to the caller.

    The collaborators are inputs: the research reply, and for each platform a script of
    the outcomes its writer gives on successive calls. What the workflow does to the
    outside world (yields, the research call, writer calls, sleeps, saves) is recorded, in
    order, as a trace of actions. */
module Workflow {
  import opened Common
  import Slug

  datatype Platform = Blog | Linkedin | Twitter | Instagram

  /** The order in which the platforms are generated (the insertion order of `content_generation_tasks`). */
  const Platforms: seq<Platform> := [Blog, Linkedin, Twitter, Instagram]

  /** `platform.capitalize()` of the dictionary key. */
  function Capitalized(p: Platform): string {
    match p
    case Blog => "Blog"
    case Linkedin => "Linkedin"
    case Twitter => "Twitter"
    case Instagram => "Instagram"
  }

  const MaxRetries: nat := 3
  const RateLimitDelay: nat := 20
  /** `1 + len(content_generation_tasks)`: research plus one step per platform. */
  const TotalSteps: nat := 1 + |Platforms|

  /** What one call of a writer agent does. */
  datatype Attempt =
    | Ok(text: string)                                     // a response; "" when it has no content
    | ProviderErr(status: Option<int>, message: string)    // a ModelProviderError; `status` is its status_code, if any
    | OtherErr(message: string)                            // any other exception

  /** The outcomes of a writer's first, second and third call; calls not made are ignored. */
  type Script = s: seq<Attempt> | |s| == MaxRetries witness [Ok(""), Ok(""), Ok("")]

  type Writers = Platform -> Script

  /** The value of a `FinalContentOutput` record at one moment. */
  datatype Record = Record(
    topic: string,
    researchContext: Option<string>,
    blogPostMd: Option<string>,
    linkedinPost: Option<string>,
    twitterPost: Option<string>,
    instagramPostCaption: Option<string>,
    instagramImageIdeas: Option<seq<string>>,
    sources: Option<seq<string>>,
    errors: seq<string>)

  /** `FinalContentOutput(topic=topic)`. */
  function Initial(topic: string): Record {
    Record(topic, None, None, None, None, None, None, None, [])
  }

  /** The output field of a platform (`output_key`). */
  function OutputOf(r: Record, p: Platform): Option<string> {
    match p
    case Blog => r.blogPostMd
    case Linkedin => r.linkedinPost
    case Twitter => r.twitterPost
    case Instagram => r.instagramPostCaption
  }

  /** `setattr(final_output, output_key, content)`. */
  function WithOutput(r: Record, p: Platform, text: string): (r': Record)
    ensures OutputOf(r', p) == Some(text)
    ensures forall q :: q != p ==> OutputOf(r', q) == OutputOf(r, q)
    ensures r'.topic == r.topic && r'.researchContext == r.researchContext && r'.sources == r.sources
    ensures r'.instagramImageIdeas == r.instagramImageIdeas && r'.errors == r.errors
  {
    match p
    case Blog => r.(blogPostMd := Some(text))
    case Linkedin => r.(linkedinPost := Some(text))
    case Twitter => r.(twitterPost := Some(text))
    case Instagram => r.(instagramPostCaption := Some(text))
  }

  /** The fixed stand-in for image ideas, set when the Instagram writer succeeds. */
  const PlaceholderIdeas: seq<string> := ["Idea 1: Placeholder", "Idea 2: Placeholder"]

  /** A progress value, the fraction num/den. */
  datatype Ratio = Ratio(num: nat, den: nat)

  predicate Below(a: Ratio, b: Ratio) {
    a.num * b.den < b.num * a.den
  }

  datatype RunEvent = WorkflowStarted | RunStarted | WorkflowCompleted

  /** The content of a response: a message, a dictionary (its "type", "value" and "step"
      entries, each possibly absent), or the output record itself. */
  datatype Content =
    | Message(text: string)
    | Dict(kind: Option<string>, value: Option<Ratio>, step: Option<string>)
    | Output(record: Record)

  datatype Response = Response(content: Content, event: RunEvent)

  /** `{"type": "progress", "value": step/5, "step": label}`. */
  function Progress(step: nat, caption: string): Content {
    Dict(Some("progress"), Some(Ratio(step, TotalSteps)), Some(caption))
  }

  /** A JSON value of a dumped record: a string or a list of strings (never null). */
  datatype Field = Text(text: string) | Texts(items: seq<string>)

  /** The keys of a dumped record: its field names. */
  datatype Key =
    | TopicKey | ResearchContextKey | BlogPostMdKey | LinkedinPostKey | TwitterPostKey
    | InstagramPostCaptionKey | InstagramImageIdeasKey | SourcesKey | ErrorsKey

  /** The JSON name of a key. */
  function KeyName(k: Key): string {
    match k
    case TopicKey => "topic"
    case ResearchContextKey => "research_context"
    case BlogPostMdKey => "blog_post_md"
    case LinkedinPostKey => "linkedin_post"
    case TwitterPostKey => "twitter_post"
    case InstagramPostCaptionKey => "instagram_post_caption"
    case InstagramImageIdeasKey => "instagram_image_ideas"
    case SourcesKey => "sources"
    case ErrorsKey => "errors"
  }

  /** The value of a record's field as JSON, None when the field is None. */
  function FieldOf(r: Record, k: Key): Option<Field> {
    match k
    case TopicKey => Some(Text(r.topic))
    case ResearchContextKey => if r.researchContext.Some? then Some(Text(r.researchContext.value)) else None
    case BlogPostMdKey => if r.blogPostMd.Some? then Some(Text(r.blogPostMd.value)) else None
    case LinkedinPostKey => if r.linkedinPost.Some? then Some(Text(r.linkedinPost.value)) else None
    case TwitterPostKey => if r.twitterPost.Some? then Some(Text(r.twitterPost.value)) else None
    case InstagramPostCaptionKey =>
      if r.instagramPostCaption.Some? then Some(Text(r.instagramPostCaption.value)) else None
    case InstagramImageIdeasKey =>
      if r.instagramImageIdeas.Some? then Some(Texts(r.instagramImageIdeas.value)) else None
    case SourcesKey => if r.sources.Some? then Some(Texts(r.sources.value)) else None
    case ErrorsKey => Some(Texts(r.errors))
  }

  /** `model_dump(exclude_none=True)`: every field that is not None, by its name. */
  function Dump(r: Record): (m: map<Key, Field>)
    ensures TopicKey in m && m[TopicKey] == Text(r.topic)
    ensures ErrorsKey in m && m[ErrorsKey] == Texts(r.errors)
  {
    map k: Key | FieldOf(r, k).Some? :: FieldOf(r, k).value
  }

  function TextAt(m: map<Key, Field>, key: Key): Option<string> {
    if key in m && m[key].Text? then Some(m[key].text) else None
  }

  function TextsAt(m: map<Key, Field>, key: Key): Option<seq<string>> {
    if key in m && m[key].Texts? then Some(m[key].items) else None
  }

  /** Reading a saved record back, absent keys standing for None (and [] for errors). */
  function Load(m: map<Key, Field>): Record {
    Record(
      if TextAt(m, TopicKey).Some? then TextAt(m, TopicKey).value else "",
      TextAt(m, ResearchContextKey),
      TextAt(m, BlogPostMdKey),
      TextAt(m, LinkedinPostKey),
      TextAt(m, TwitterPostKey),
      TextAt(m, InstagramPostCaptionKey),
      TextsAt(m, InstagramImageIdeasKey),
      TextsAt(m, SourcesKey),
      if TextsAt(m, ErrorsKey).Some? then TextsAt(m, ErrorsKey).value else [])
  }

  /** What the research collaborator did: returned a dictionary (its "content" and
      "sources" entries) or raised. */
  datatype ResearchReply =
    | Replied(content: Option<string>, sources: seq<string>)
    | Raised(message: string)

  /** One thing the workflow does that the outside world sees, in order. */
  datatype Action =
    | Yield(response: Response)
    | CallResearch(topic: string, urls: Option<seq<string>>)
    | Invoke(platform: Platform, attempt: nat, context: Option<string>)
    | Sleep(seconds: nat)
    | SaveJson(data: map<Key, Field>, name: string)
    | SaveMarkdown(text: string, name: string)

  /** A record together with the actions that produced it. */
  datatype Outcome = Outcome(record: Record, trace: seq<Action>)

  // ---------------------------------------------------------------------------------
  // Messages

  function Announcement(topic: string): string {
    "Iniciando investigación para: " + topic
  }

  function Delegation(topic: string): string {
    "Delegando investigación a ResearcherAgent para: " + topic + "..."
  }

  const UrlsFailedMessage: string := "No se pudo extraer contenido de las URLs proporcionadas."
  const SearchFailedMessage: string := "ResearcherAgent no devolvió contenido después de la búsqueda web."

  function ResearchExceptionMessage(e: string): string {
    "Error en investigación/herramienta: " + e
  }

  /** The part every retry-loop provider error of a platform starts with. */
  function ErrorTag(p: Platform): string {
    "Error en " + Capitalized(p)
  }

  /** `f"Error en {P} (attempt {attempt + 1}): {e}"` for the 0-based attempt `k`. */
  function AttemptError(p: Platform, k: nat, e: string): string {
    ErrorTag(p) + " (attempt " + NatToString(k + 1) + "): " + e
  }

  function UnexpectedError(p: Platform, e: string): string {
    "Error inesperado en " + Capitalized(p) + ": " + e
  }

  function NoContentMessage(p: Platform): string {
    "No se generó contenido para " + Capitalized(p) + " después de los reintentos."
  }

  function Generating(p: Platform): Response {
    Response(Message("Generando post para " + Capitalized(p) + "..."), RunStarted)
  }

  function Completed(p: Platform, step: nat): Response {
    Response(Progress(step, Capitalized(p) + " completado"), RunStarted)
  }

  const ResearchCompleted: Response := Response(Progress(1, "Investigación completada"), RunStarted)
  const Consolidating: Response := Response(Message("Consolidando resultados..."), RunStarted)

  // ---------------------------------------------------------------------------------
  // The retry policy of one platform

  /** A provider error counts as a rate limit when its status code is 429 or, failing
      that, when "429" occurs in its message. */
  predicate IsRateLimit(a: Attempt) {
    a.ProviderErr? && (a.status == Some(429) || Contains(a.message, "429"))
  }

  /** Whether the 0-based attempt `k` with outcome `a` is followed by a delay and a retry. */
  predicate Retries(a: Attempt, k: nat) {
    IsRateLimit(a) && k < MaxRetries - 1
  }

  /** The end of the retry loop: the response kept, the error entry it appended, and the
      writer calls and sleeps it made. */
  datatype Retry = Retry(response: Option<string>, error: Option<string>, trace: seq<Action>)

  function ErrorsOf(e: Option<string>): seq<string> {
    if e.Some? then [e.value] else []
  }

  /** The retry loop from the 0-based attempt `k` on. */
  function RetryFrom(p: Platform, script: Script, context: Option<string>, k: nat): Retry
    requires k < MaxRetries
    decreases MaxRetries - k
  {
    var call := [Invoke(p, k + 1, context)];
    match script[k]
    case Ok(text) => Retry(Some(text), None, call)
    case ProviderErr(_, e) =>
      if Retries(script[k], k) then
        var rest := RetryFrom(p, script, context, k + 1);
        rest.(trace := call + [Sleep(RateLimitDelay)] + rest.trace)
      else
        Retry(None, Some(AttemptError(p, k, e)), call)
    case OtherErr(e) => Retry(None, Some(UnexpectedError(p, e)), call)
  }

  /** What a successful platform changes in the record: its field, and for Instagram the
      image ideas as well. */
  function Deliver(r: Record, p: Platform, text: string): Record {
    var r' := WithOutput(r, p, text);
    if p == Instagram then r'.(instagramImageIdeas := Some(PlaceholderIdeas)) else r'
  }

  /** One platform: the retry loop, then storing its text or noting that there is none. */
  function Generate(r: Record, p: Platform, script: Script): (o: Outcome)
    ensures o.record.topic == r.topic && o.record.researchContext == r.researchContext
    ensures o.record.sources == r.sources
    ensures r.errors <= o.record.errors && |o.record.errors| <= |r.errors| + 2
    ensures forall q :: q != p ==> OutputOf(o.record, q) == OutputOf(r, q)
  {
    var retry := RetryFrom(p, script, r.researchContext, 0);
    var afterLoop := r.(errors := r.errors + ErrorsOf(retry.error));
    var r' :=
      if HasText(retry.response) then Deliver(afterLoop, p, retry.response.value)
      else if !AnyContains(afterLoop.errors, ErrorTag(p)) then afterLoop.(errors := afterLoop.errors + [NoContentMessage(p)])
      else afterLoop;
    Outcome(r', retry.trace)
  }

  /** One iteration of the platform loop, for the platform at index `i`: its "generating"
      message, the platform itself, and its progress event ((i + 2) / 5). */
  function Step(r: Record, writers: Writers, i: nat): Outcome
    requires i < |Platforms|
  {
    var p := Platforms[i];
    var g := Generate(r, p, writers(p));
    Outcome(g.record, [Yield(Generating(p))] + g.trace + [Yield(Completed(p, i + 2))])
  }

  /** The platform loop from the platform at index `i` on. */
  function RunPlatforms(r: Record, writers: Writers, i: nat): (o: Outcome)
    requires i <= |Platforms|
    ensures o.record.topic == r.topic && o.record.researchContext == r.researchContext
    ensures o.record.sources == r.sources && r.errors <= o.record.errors
    decreases |Platforms| - i
  {
    if i == |Platforms| then Outcome(r, [])
    else
      var s := Step(r, writers, i);
      var rest := RunPlatforms(s.record, writers, i + 1);
      Outcome(rest.record, s.trace + rest.trace)
  }

  /** The actions up to and including the research call. */
  function Opening(topic: string, urls: Option<seq<string>>): (o: seq<Action>)
    ensures |o| == if HasItems(urls) then 3 else 4
    ensures o[0] == Yield(Response(Message(Announcement(topic)), WorkflowStarted))
    ensures o[|o| - 1] == CallResearch(topic, if HasItems(urls) then urls else None)
  {
    [Yield(Response(Message(Announcement(topic)), WorkflowStarted)),
     Yield(Response(Message(Announcement(topic)), RunStarted))]
      + if HasItems(urls) then [CallResearch(topic, urls)]
        else [Yield(Response(Message(Delegation(topic)), RunStarted)), CallResearch(topic, None)]
  }

  /** The saves and the last two events, for the final record `r`. */
  function Closing(topic: string, r: Record): (c: seq<Action>)
    ensures |c| == if HasText(r.blogPostMd) then 4 else 3
    ensures c[0] == Yield(Consolidating) && c[|c| - 1] == Yield(Response(Output(r), WorkflowCompleted))
  {
    var safeFilename := Slug.SafeName(topic);
    [Yield(Consolidating), SaveJson(Dump(r), "social_content_" + safeFilename)]
      + (if HasText(r.blogPostMd) then [SaveMarkdown(r.blogPostMd.value, "blog_post_" + safeFilename)] else [])
      + [Yield(Response(Output(r), WorkflowCompleted))]
  }

  /** Whether the research phase ends the run. */
  predicate FatalResearch(reply: ResearchReply) {
    reply.Raised? || !HasText(reply.content)
  }

  /** The one error a fatal research phase records. */
  function FatalMessage(urls: Option<seq<string>>, reply: ResearchReply): string {
    if reply.Raised? then ResearchExceptionMessage(reply.message)
    else if HasItems(urls) then UrlsFailedMessage
    else SearchFailedMessage
  }

  /** The record once research has succeeded. */
  function Researched(topic: string, urls: Option<seq<string>>, reply: ResearchReply): Record
    requires !FatalResearch(reply)
  {
    Initial(topic).(researchContext := reply.content,
                    sources := Some(if HasItems(urls) then urls.value else reply.sources))
  }

  /** `arun` as a whole: the final record and every action, in order. */
  function Run(topic: string, urls: Option<seq<string>>, reply: ResearchReply, writers: Writers): (o: Outcome)
    ensures o.record.topic == topic
    ensures o.trace != [] && (FatalResearch(reply) <==> o.trace[|o.trace| - 1].CallResearch?)
    ensures !FatalResearch(reply) ==> o.trace[|o.trace| - 1] == Yield(Response(Output(o.record), WorkflowCompleted))
  {
    if FatalResearch(reply) then
      Outcome(Initial(topic).(errors := [FatalMessage(urls, reply)]), Opening(topic, urls))
    else
      var generated := RunPlatforms(Researched(topic, urls, reply), writers, 0);
      Outcome(generated.record,
              Opening(topic, urls) + [Yield(ResearchCompleted)] + generated.trace + Closing(topic, generated.record))
  }

  // ---------------------------------------------------------------------------------
  // The record object and the workflow run

  /** The output record, updated field by field while the workflow runs. */
  class FinalContentOutput {
    const topic: string
    var researchContext: Option<string>
    var blogPostMd: Option<string>
    var linkedinPost: Option<string>
    var twitterPost: Option<string>
    var instagramPostCaption: Option<string>
    var instagramImageIdeas: Option<seq<string>>
    var sources: Option<seq<string>>
    var errors: seq<string>

    function Snapshot(): Record
      reads this
    {
      Record(topic, researchContext, blogPostMd, linkedinPost, twitterPost,
             instagramPostCaption, instagramImageIdeas, sources, errors)
    }

    constructor (topic: string)
      ensures Snapshot() == Initial(topic)
    {
      this.topic := topic;
      researchContext, blogPostMd, linkedinPost, twitterPost, instagramPostCaption := None, None, None, None, None;
      instagramImageIdeas, sources := None, None;
      errors := [];
    }

    /** `errors.append(e)`. */
    method AppendError(e: string)
      modifies this
      ensures Snapshot() == old(Snapshot()).(errors := old(errors) + [e])
    {
      errors := errors + [e];
    }

    /** `setattr(self, output_key, text)` for the output field of `p`. */
    method SetOutput(p: Platform, text: string)
      modifies this
      ensures Snapshot() == WithOutput(old(Snapshot()), p, text)
    {
      match p {
        case Blog => blogPostMd := Some(text);
        case Linkedin => linkedinPost := Some(text);
        case Twitter => twitterPost := Some(text);
        case Instagram => instagramPostCaption := Some(text);
      }
    }
  }

  function Prepended(actions: seq<Action>, r: Retry): Retry {
    r.(trace := actions + r.trace)
  }

  /** Attempt `k` answers: the loop ends with its text and no error. */
  lemma RetryRespondsAt(p: Platform, script: Script, context: Option<string>, k: nat, done: seq<Action>, text: string)
    requires k < MaxRetries && script[k] == Ok(text)
    ensures Prepended(done, RetryFrom(p, script, context, k)) == Retry(Some(text), None, done + [Invoke(p, k + 1, context)])
  {
  }

  /** Attempt `k` fails for good: the loop ends with no response and the error `e`. */
  lemma RetryFailsAt(p: Platform, script: Script, context: Option<string>, k: nat, done: seq<Action>, e: string)
    requires k < MaxRetries
    requires (script[k].ProviderErr? && !Retries(script[k], k) && e == AttemptError(p, k, script[k].message))
             || (script[k].OtherErr? && e == UnexpectedError(p, script[k].message))
    ensures Prepended(done, RetryFrom(p, script, context, k)) == Retry(None, Some(e), done + [Invoke(p, k + 1, context)])
  {
  }

  /** Attempt `k` is retried: a call and a delay, then the loop from attempt `k + 1`. */
  lemma RetryContinuesAt(p: Platform, script: Script, context: Option<string>, k: nat, done: seq<Action>)
    requires k < MaxRetries - 1 && Retries(script[k], k)
    ensures Prepended(done, RetryFrom(p, script, context, k))
            == Prepended(done + [Invoke(p, k + 1, context)] + [Sleep(RateLimitDelay)], RetryFrom(p, script, context, k + 1))
  {
    assert done + ([Invoke(p, k + 1, context)] + [Sleep(RateLimitDelay)] + RetryFrom(p, script, context, k + 1).trace)
           == done + [Invoke(p, k + 1, context)] + [Sleep(RateLimitDelay)] + RetryFrom(p, script, context, k + 1).trace;
  }

  /** The retry loop `for attempt in range(max_retries)` of one platform: the response it
      keeps, the writer calls and sleeps it makes, and the error entry it appends. */
  method RetryLoop(out: FinalContentOutput, p: Platform, script: Script, context: Option<string>)
    returns (response: Option<string>, actions: seq<Action>)
    modifies out
    ensures response == RetryFrom(p, script, context, 0).response
    ensures actions == RetryFrom(p, script, context, 0).trace
    ensures out.Snapshot() == old(out.Snapshot()).(errors := old(out.errors) + ErrorsOf(RetryFrom(p, script, context, 0).error))
  {
    ghost var retry := RetryFrom(p, script, context, 0);
    response := None;
    actions := [];
    var attempt := 0;
    while attempt < MaxRetries
      invariant attempt < MaxRetries
      invariant out.Snapshot() == old(out.Snapshot())
      invariant retry == Prepended(actions, RetryFrom(p, script, context, attempt))
    {
      ghost var done := actions;
      actions := actions + [Invoke(p, attempt + 1, context)];
      match script[attempt] {
        case Ok(text) =>
          RetryRespondsAt(p, script, context, attempt, done, text);
          response := Some(text);
          break;
        case ProviderErr(statusCode, e) =>
          var isRateLimit := false;
          if statusCode == Some(429) {
            isRateLimit := true;
          } else if Contains(e, "429") {
            isRateLimit := true;
          }
          if isRateLimit && attempt < MaxRetries - 1 {
            RetryContinuesAt(p, script, context, attempt, done);
            actions := actions + [Sleep(RateLimitDelay)];
          } else {
            RetryFailsAt(p, script, context, attempt, done, AttemptError(p, attempt, e));
            out.AppendError(AttemptError(p, attempt, e));
            response := None;
            break;
          }
        case OtherErr(e) =>
          RetryFailsAt(p, script, context, attempt, done, UnexpectedError(p, e));
          out.AppendError(UnexpectedError(p, e));
          response := None;
          break;
      }
      attempt := attempt + 1;
    }
  }

  /** The body of the platform loop without its two yields: the retry loop, then storing
      the response or noting that there is none. */
  method GeneratePlatform(out: FinalContentOutput, p: Platform, script: Script) returns (actions: seq<Action>)
    modifies out
    ensures out.Snapshot() == Generate(old(out.Snapshot()), p, script).record
    ensures actions == Generate(old(out.Snapshot()), p, script).trace
  {
    var response;
    response, actions := RetryLoop(out, p, script, out.researchContext);
    if response.Some? && response.value != "" {
      out.SetOutput(p, response.value);
      if p == Instagram {
        out.instagramImageIdeas := Some(PlaceholderIdeas);
      }
    } else if !AnyContains(out.errors, ErrorTag(p)) {
      out.AppendError(NoContentMessage(p));
    }
  }

  function Then(done: seq<Action>, o: Outcome): Outcome {
    Outcome(o.record, done + o.trace)
  }

  /** Phase 1 of `arun`, research: the opening events, the research call and its checks.
      `proceed` says whether the run goes on. */
  method ResearchPhase(out: FinalContentOutput, topic: string, urls: Option<seq<string>>, reply: ResearchReply)
    returns (proceed: bool, actions: seq<Action>)
    requires out.Snapshot() == Initial(topic)
    modifies out
    ensures proceed == !FatalResearch(reply)
    ensures proceed ==> out.Snapshot() == Researched(topic, urls, reply)
    ensures proceed ==> actions == Opening(topic, urls) + [Yield(ResearchCompleted)]
    ensures !proceed ==> out.Snapshot() == Initial(topic).(errors := [FatalMessage(urls, reply)])
    ensures !proceed ==> actions == Opening(topic, urls)
  {
    actions := [Yield(Response(Message(Announcement(topic)), WorkflowStarted))];
    var researchContext: Option<string> := None;
    var researchSources: seq<string> := if HasItems(urls) then urls.value else [];
    actions := actions + [Yield(Response(Message(Announcement(topic)), RunStarted))];
    proceed := false;
    if HasItems(urls) {
      actions := actions + [CallResearch(topic, urls)];
      match reply {
        case Raised(e) =>
          out.AppendError(ResearchExceptionMessage(e));
          return;
        case Replied(content, _) =>
          researchContext := content;
          if !HasText(researchContext) {
            out.AppendError(UrlsFailedMessage);
            return;
          }
      }
    } else {
      actions := actions + [Yield(Response(Message(Delegation(topic)), RunStarted)), CallResearch(topic, None)];
      match reply {
        case Raised(e) =>
          out.AppendError(ResearchExceptionMessage(e));
          return;
        case Replied(content, found) =>
          researchContext := content;
          researchSources := found;
          if !HasText(researchContext) {
            out.AppendError(SearchFailedMessage);
            return;
          }
      }
    }
    // each branch has already returned when research gave no content, so the second
    // check of the source can never fire
    assert HasText(researchContext);
    out.researchContext := researchContext;
    out.sources := Some(researchSources);
    actions := actions + [Yield(ResearchCompleted)];
    proceed := true;
  }

  /** One iteration of the platform loop. */
  method PlatformIteration(out: FinalContentOutput, writers: Writers, i: nat, currentStep: nat)
    returns (actions: seq<Action>, nextStep: nat)
    requires i < |Platforms| && currentStep == 1 + i
    modifies out
    ensures out.Snapshot() == Step(old(out.Snapshot()), writers, i).record
    ensures actions == Step(old(out.Snapshot()), writers, i).trace
    ensures nextStep == currentStep + 1
  {
    var p := Platforms[i];
    actions := [Yield(Generating(p))];
    var generated := GeneratePlatform(out, p, writers(p));
    actions := actions + generated;
    nextStep := currentStep + 1;
    actions := actions + [Yield(Response(Dict(Some("progress"), Some(Ratio(nextStep, TotalSteps)),
                                            Some(Capitalized(p) + " completado")), RunStarted))];
  }

  /** Phase 2 of `arun`, generation: every platform in order, each between a "generating"
      message and a progress event. */
  method GenerationPhase(out: FinalContentOutput, writers: Writers) returns (actions: seq<Action>)
    modifies out
    ensures out.Snapshot() == RunPlatforms(old(out.Snapshot()), writers, 0).record
    ensures actions == RunPlatforms(old(out.Snapshot()), writers, 0).trace
  {
    ghost var start := out.Snapshot();
    actions := [];
    var currentStep := 1;
    for i := 0 to |Platforms|
      invariant currentStep == 1 + i
      invariant RunPlatforms(start, writers, 0) == Then(actions, RunPlatforms(out.Snapshot(), writers, i))
    {
      ghost var done := actions;
      ghost var here := out.Snapshot();
      var stepActions;
      stepActions, currentStep := PlatformIteration(out, writers, i, currentStep);
      actions := actions + stepActions;
      ghost var later := RunPlatforms(out.Snapshot(), writers, i + 1).trace;
      assert done + (stepActions + later) == (done + stepActions) + later;
    }
  }

  /** Phase 3 of `arun`, consolidation: save the record (and the blog post, if any) under
      names made from the topic, then hand the record over. */
  method ConsolidationPhase(out: FinalContentOutput, topic: string) returns (actions: seq<Action>)
    ensures actions == Closing(topic, out.Snapshot())
  {
    actions := [Yield(Consolidating)];
    var safeFilename := Slug.SafeName(topic);
    var jsonData := Dump(out.Snapshot());
    actions := actions + [SaveJson(jsonData, "social_content_" + safeFilename)];
    if out.blogPostMd.Some? && out.blogPostMd.value != "" {
      actions := actions + [SaveMarkdown(out.blogPostMd.value, "blog_post_" + safeFilename)];
    }
    actions := actions + [Yield(Response(Output(out.Snapshot()), WorkflowCompleted))];
  }

  /** `SocialContentWorkflow.arun`: the run's record and the actions it performs. */
  method Arun(topic: string, urls: Option<seq<string>>, reply: ResearchReply, writers: Writers)
    returns (out: FinalContentOutput, trace: seq<Action>)
    ensures out.Snapshot() == Run(topic, urls, reply, writers).record
    ensures trace == Run(topic, urls, reply, writers).trace
  {
    out := new FinalContentOutput(topic);
    var proceed;
    proceed, trace := ResearchPhase(out, topic, urls, reply);
    if !proceed {
      return;
    }
    var generated := GenerationPhase(out, writers);
    trace := trace + generated;
    var closing := ConsolidationPhase(out, topic);
    trace := trace + closing;
  }
}
