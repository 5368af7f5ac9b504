/** The pieces put together: the workflow run with the researcher's own result as its
    research reply, and the user interface folding the events the run yields. */
module Pipeline {
  import opened Common
  import Researcher
  import Workflow
  import WorkflowFacts
  import App

  /** `research_data.get("content")` and `research_data.get("sources", [])` of the
      researcher's result dictionary. */
  function ReplyOf(r: Researcher.ResearchResult): Workflow.ResearchReply {
    Workflow.Replied(Some(r.content), r.sources)
  }

  /** The researcher's content is never empty, so with it the run's research phase
      never ends the run: the three "no content" exits of the workflow cannot be taken. */
  lemma ResearchNeverFatal(topic: string, urls: Option<seq<string>>, env: Researcher.Environment, now: string)
    ensures !Workflow.FatalResearch(ReplyOf(Researcher.Research(topic, urls, env, now)))
  {
  }

  /** With the researcher, the research content (an error text included) becomes the
      context every writer is given, and the sources are the caller's URLs if any, else
      the researcher's. */
  lemma ResearchFlowsIntoRun(topic: string, urls: Option<seq<string>>, env: Researcher.Environment, now: string,
                             writers: Workflow.Writers)
    ensures var research := Researcher.Research(topic, urls, env, now);
            var f := Workflow.Run(topic, urls, ReplyOf(research), writers).record;
            f.researchContext == Some(research.content)
            && f.sources == Some(if HasItems(urls) then urls.value else research.sources)
  {
    WorkflowFacts.RunRecord(topic, urls, ReplyOf(Researcher.Research(topic, urls, env, now)), writers);
  }

  /** When no given URL yields a page, the writers are given the researcher's failure
      text as their context. */
  lemma FailedScrapeBecomesContext(topic: string, urls: seq<string>, env: Researcher.Environment, now: string,
                                   writers: Workflow.Writers)
    requires urls != [] && env.fault == None
    requires forall i :: 0 <= i < |urls| ==> !Researcher.Yields(env.crawl(urls[i]))
    ensures Workflow.Run(topic, Some(urls), ReplyOf(Researcher.Research(topic, Some(urls), env, now)), writers)
              .record.researchContext == Some("Failed to process provided URLs.")
  {
    Researcher.ScrapeNoneIff(env.crawl, urls);
    Researcher.ResearchWithUrls(topic, urls, env, now);
    ResearchFlowsIntoRun(topic, Some(urls), env, now, writers);
  }

  /** The response of a yield. */
  function YieldedResponse(a: Workflow.Action): Option<Workflow.Response> {
    if a.Yield? then Some(a.response) else None
  }

  /** The events a run yields, in order. */
  function Events(trace: seq<Workflow.Action>): seq<Workflow.Response> {
    WorkflowFacts.Picks(trace, YieldedResponse)
  }

  /** The events of a successful run end with the `workflow_completed` event carrying
      the record. */
  lemma LastEvent(topic: string, urls: Option<seq<string>>, reply: Workflow.ResearchReply, writers: Workflow.Writers)
    requires !Workflow.FatalResearch(reply)
    ensures var o := Workflow.Run(topic, urls, reply, writers);
            var es := Events(o.trace);
            es != [] && es[|es| - 1] == Workflow.Response(Workflow.Output(o.record), Workflow.WorkflowCompleted)
  {
    var o := Workflow.Run(topic, urls, reply, writers);
    LastYield(o.trace, Workflow.Response(Workflow.Output(o.record), Workflow.WorkflowCompleted));
  }

  /** A trace ending with a yield has that response as its last event. */
  lemma LastYield(t: seq<Workflow.Action>, x: Workflow.Response)
    requires t != [] && t[|t| - 1] == Workflow.Yield(x)
    ensures Events(t) != [] && Events(t)[|Events(t)| - 1] == x
  {
    assert t == t[..|t| - 1] + [t[|t| - 1]];
    WorkflowFacts.PicksAppend(t[..|t| - 1], [t[|t| - 1]], YieldedResponse);
  }

  /** A trace starting with a yield has an event. */
  lemma FirstYield(t: seq<Workflow.Action>)
    requires t != [] && t[0].Yield?
    ensures Events(t) != []
  {
    WorkflowFacts.PicksAppend([t[0]], t[1..], YieldedResponse);
    assert t == [t[0]] + t[1..];
  }

  /** A fatal research phase yields only plain messages: none carries a result. */
  lemma FatalEventsCaptureNothing(topic: string, urls: Option<seq<string>>, reply: Workflow.ResearchReply,
                                  writers: Workflow.Writers)
    requires Workflow.FatalResearch(reply)
    ensures var es := Events(Workflow.Run(topic, urls, reply, writers).trace);
            forall j :: 0 <= j < |es| ==> !App.Captures(es[j]) && !App.IsProgress(es[j])
  {
    WorkflowFacts.OpeningAnnounces(topic, urls);
    AnnouncedEvents(Workflow.Run(topic, urls, reply, writers).trace);
  }

  /** The events of a trace of announcements neither capture nor report progress. */
  lemma AnnouncedEvents(t: seq<Workflow.Action>)
    requires forall i :: 0 <= i < |t| ==> WorkflowFacts.Announces(t[i])
    ensures forall j :: 0 <= j < |Events(t)| ==> !App.Captures(Events(t)[j]) && !App.IsProgress(Events(t)[j])
  {
    forall j | 0 <= j < |Events(t)| ensures !App.Captures(Events(t)[j]) && !App.IsProgress(Events(t)[j]) {
      WorkflowFacts.PicksFrom(t, YieldedResponse, j);
    }
  }

  /** What the user interface collects from a run: the record, with the display at
      100%, exactly when research succeeded; after a fatal research phase no result
      (its error entry is never shown) and a blank display. */
  lemma CollectedFromRun(topic: string, urls: Option<seq<string>>, reply: Workflow.ResearchReply, writers: Workflow.Writers)
    ensures var o := Workflow.Run(topic, urls, reply, writers);
            var c := App.RunAndCollect(Events(o.trace));
            (c.result == Some(Workflow.Output(o.record)) <==> !Workflow.FatalResearch(reply))
            && (Workflow.FatalResearch(reply) ==> c.result == None && c.display == Some(App.Blank))
            && (!Workflow.FatalResearch(reply) ==> c.display == Some(App.Done))
  {
    var o := Workflow.Run(topic, urls, reply, writers);
    var es := Events(o.trace);
    if Workflow.FatalResearch(reply) {
      FatalEventsCaptureNothing(topic, urls, reply, writers);
      FirstYield(o.trace);
      NothingCollected(es);
    } else {
      LastEvent(topic, urls, reply, writers);
      RecordCollected(es, o.record);
    }
  }

  /** Events ending with the completion that carries a record collect that record, with
      the display at 100%. */
  lemma RecordCollected(es: seq<Workflow.Response>, r: Workflow.Record)
    requires es != [] && es[|es| - 1] == Workflow.Response(Workflow.Output(r), Workflow.WorkflowCompleted)
    ensures App.RunAndCollect(es).result == Some(Workflow.Output(r))
    ensures App.RunAndCollect(es).display == Some(App.Done)
  {
    App.CollectedResult(es);
    App.FinalDisplay(es);
  }

  /** Events that neither capture nor report progress collect nothing and leave the
      display blank. */
  lemma NothingCollected(es: seq<Workflow.Response>)
    requires es != []
    requires forall j :: 0 <= j < |es| ==> !App.Captures(es[j]) && !App.IsProgress(es[j])
    ensures App.RunAndCollect(es).result == None
    ensures App.RunAndCollect(es).display == Some(App.Blank)
  {
    App.CollectedResult(es);
    App.FinalDisplay(es);
    NoProgressShown(es);
  }

  lemma {:induction false} NoProgressShown(es: seq<Workflow.Response>)
    requires forall j :: 0 <= j < |es| ==> !App.IsProgress(es[j])
    ensures App.LastShown(es) == None
    decreases |es|
  {
    if es != [] {
      NoProgressShown(es[..|es| - 1]);
    }
  }

  /** With the researcher in place, the user interface always receives the record. */
  lemma AlwaysCollected(topic: string, urls: Option<seq<string>>, env: Researcher.Environment, now: string,
                        writers: Workflow.Writers)
    ensures var o := Workflow.Run(topic, urls, ReplyOf(Researcher.Research(topic, urls, env, now)), writers);
            App.RunAndCollect(Events(o.trace)).result == Some(Workflow.Output(o.record))
  {
    CollectedFromRun(topic, urls, ReplyOf(Researcher.Research(topic, urls, env, now)), writers);
  }
}
