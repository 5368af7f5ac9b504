# Agno content agents — a Dafny model of the content workflow

The system turns a topic into posts for four platforms: a blog, LinkedIn, X (Twitter) and
Instagram. A research agent gathers text about the topic. It either scrapes the URLs the
user gave, or runs a web search and scrapes the links the search finds. The workflow then
hands that text to four writer agents, one after another. Each writer call is retried when
the model provider signals a rate limit. The workflow collects the posts and the errors in
one output record, saves the record as JSON (and the blog post as Markdown), and streams
progress events. A Streamlit page validates the input, starts the workflow, folds the
event stream into a progress bar and a result, and lays out the sources.

The model has seven modules:

- `Common`: optional values, Python truthiness of strings and lists, substring search,
  `str.join`, and decimal rendering of numbers.
- `Slug`: the filesystem-safe topic name. The workflow uses it for its file names and the
  page uses it for its session id.
- `Researcher`: `ResearcherAgent`. The URL-scraping loop is a method proved equal to the
  function `Scrape`. `research` and `_search_and_analyze` are functions.
- `Workflow`: `SocialContentWorkflow.arun`. `FinalContentOutput` is a class whose fields
  the run updates in place. The run is a method made of one method per phase. Its final
  record and its trace are proved equal to those of the function `Run`.
- `WorkflowFacts`: lemmas about `Run`: the retry policy in closed form, the error
  entries, the call schedule, the progress ramp, the saves and the saved JSON.
- `App`: the pure slice of the page: splitting and stripping the URL text box, the
  input guards, the session id, the event fold, and the split of sources into columns.
- `Pipeline`: the three put together. The workflow gets the researcher's result as its
  research reply, and the page folds the events the workflow yields.

### Collaborators are inputs

- The crawler is a function from URL to outcome: a page, nothing, or an exception.
- The web-search call is one value: a transport or HTTP error, an undecodable body, a
  decoded `organic` member, or another exception.
- An exception escaping `research` itself is an optional message.
- Each writer is a script of the outcomes of its first, second and third call: a
  response, a `ModelProviderError` (status code and message), or any other exception.
- The clock is a timestamp parameter.

### The trace

What the workflow does to the outside world is recorded, in order, as a trace of actions:
- an event yielded;
- the research call;
- a writer call, with its attempt number and the context it was given;
- a 20-second sleep;
- a JSON or Markdown save.

The lemmas are stated over this trace.

### What the code does

- The second "no research content" check (`social_content_workflow.py:93-97`) can never
  fire, because both branches before it already return in that case. `ResearchPhase`
  asserts this.
- `_search_and_analyze` always returns a pair. So the non-tuple branch of `research`
  (`researcher.py:110-113`) is unreachable, and the model has no such branch.
- The researcher never returns empty content: every failure becomes a message. So with
  the real researcher the workflow's fatal research exits are unreachable. A failed
  scrape reaches the writers as their context, for example "Failed to process provided
  URLs." (`Pipeline.FailedScrapeBecomesContext`).
- The workflow and the page do not quite agree about a fatal research phase. When research
  is fatal, the workflow records the error in its output object but yields nothing that
  carries it. The page therefore collects no result, and the error entry is never shown
  (`Pipeline.CollectedFromRun`).
- An unexpected writer exception appends two error entries unless the exception's
  message, or an earlier entry, already contains the tag "Error en P". The retry loop
  appends "Error inesperado en P: …", which does not itself contain the tag. So the
  after-loop check also appends "No se generó contenido para P …"
  (`WorkflowFacts.UnexpectedAppendsTwo`).
- Before the research event, the run yields two events with the same announcement text:
  first `workflow_started`, then `run_started`.
- The progress step after research is labelled "Investigación completada"
  (`social_content_workflow.py:103`).

## Model

Members without a contract of their own are mapped through the lemmas about them, which
have rows here:
- `Workflow.IsRateLimit` through `RateLimitSignals`, and `Workflow.RetryFrom` through the
  `Retry…` lemmas;
- `Workflow.Deliver` through `GenerateDelivers`, and `Workflow.Step` through `StepPicks`
  and `StepQuiet`;
- `Workflow.Researched`, `Workflow.FatalResearch` and `Workflow.FatalMessage` through
  `ResearchPhase`, `RunRecord` and `FatalResearchStops`;
- `App.IsProgress`, `App.ShownBy`, `App.Captures` and `App.Truthy` through `FoldMeaning`,
  `CollectedResult` and `FinalDisplay`, and `App.Midpoint` through `SourcesLayoutMeaning`;
- `Pipeline.ReplyOf` through `ResearchNeverFatal` and `ResearchFlowsIntoRun`.

| member | source | states |
|---|---|---|
| Common.NatToString | src/workflows/social_content_workflow.py:167 | The attempt number in an error text is a non-empty string of decimal digits whose value is the number. |
| Common.Join | src/agents/researcher.py:151 | Joining starts with the first part, and a single part joins to itself. |
| Common.JoinSnoc | src/agents/researcher.py:151 | Joining one more part appends the separator and that part. |
| Common.ContainsInside | src/workflows/social_content_workflow.py:191 | Python's `in` finds a string wherever it occurs inside another. |
| Slug.Clean | src/workflows/social_content_workflow.py:209 | A letter, digit, '-' or '_' is kept, and any other character becomes '_'. |
| Slug.Sanitize | src/workflows/social_content_workflow.py:209 | Cleaning keeps the length and cleans each character in place. |
| Slug.SafeName | src/workflows/social_content_workflow.py:209 | The slug has length min(length of the topic, 50), every character allowed, and character i is topic[i] or '_'. |
| Slug.SafeNameIdempotent | src/workflows/social_content_workflow.py:209 | A slug is its own slug. |
| Slug.SafeNameKeepsSafeTopic | app/app.py:95 | A short topic made only of allowed characters is its own slug. |
| Researcher.EntryOf | src/agents/researcher.py:143-147 | A URL gives one entry exactly when the crawler returns non-empty text, and that entry is "--- Source: url ---" followed by the text. |
| Researcher.Entries | src/agents/researcher.py:139-149 | There are at most as many entries as URLs, and no entry is empty. |
| Researcher.Scrape | src/agents/researcher.py:151 | No URLs give None. A scrape that is not None is non-empty and starts with the first entry. |
| Researcher.ProcessUrls | src/agents/researcher.py:135-151 | The loop over the URLs returns `Scrape`: the entries joined by a blank line, or None when there are none. |
| Researcher.EntriesAppend | src/agents/researcher.py:139-149 | Scraping two URL lists one after the other gives the entries of each, in order. |
| Researcher.EntriesOne | src/agents/researcher.py:143-147 | A single URL's entries are that URL's entry. |
| Researcher.SkippedUrl | src/agents/researcher.py:146-149 | A URL whose crawl is empty or raises contributes nothing. |
| Researcher.KeptUrl | src/agents/researcher.py:144-145 | A URL whose crawl yields text contributes its entry in its own position. |
| Researcher.ScrapeNoneIff | src/agents/researcher.py:151 | The scrape is None if and only if no URL yields text. |
| Researcher.ScrapeStartsWithFirstPage | src/agents/researcher.py:145-151 | The scrape starts with the entry of the first URL that yields text. |
| Researcher.JoinedEntriesNotEmpty | src/agents/researcher.py:151 | A scrape that is not None is never the empty string. |
| Researcher.Links | src/agents/researcher.py:178 | There are no more links than organic items, and no link is empty. |
| Researcher.ExtractLinks | src/agents/researcher.py:176-180 | A missing or non-list `organic` member gives no links. |
| Researcher.LinksAppend | src/agents/researcher.py:178 | Link extraction distributes over concatenation. |
| Researcher.LinksMember | src/agents/researcher.py:178 | A string is a link if and only if it is non-empty and some item is a dictionary with that "link". |
| Researcher.SearchAndAnalyze | src/agents/researcher.py:153-209 | Search-and-scrape always returns non-empty content. Its sources are empty or are exactly the links extracted from a decoded reply. |
| Researcher.SearchWithoutLinks | src/agents/researcher.py:182-184 | A search with no valid link reports it and returns no sources. |
| Researcher.SearchScrapeFails | src/agents/researcher.py:190-195 | A search whose links all fail to scrape reports it and keeps the links as sources. |
| Researcher.SearchSucceeds | src/agents/researcher.py:190-197 | When some found link scrapes, the content is the scrape and the sources are all found links. |
| Researcher.Research | src/agents/researcher.py:76-133 | The result echoes the topic and the timestamp, and its content is never empty. |
| Researcher.ResearchWithUrls | src/agents/researcher.py:93-100 | With URLs given, the sources are those URLs, and the content is their scrape or "Failed to process provided URLs.". |
| Researcher.ResearchBySearch | src/agents/researcher.py:101-108 | Without URLs, the sources are the links extracted from a decoded search reply, and none otherwise. A failed request, an undecodable body and another exception each give their own error message. A decoded reply whose links scrape gives that scrape as content. |
| Researcher.ResearchFault | src/agents/researcher.py:115-119 | An exception in `research` gives the "Unexpected error during research" content and the given URLs, if any, as sources. |
| Workflow.WithOutput | src/workflows/social_content_workflow.py:185-189 | Setting a platform's output changes that field and no other. |
| Workflow.FinalContentOutput.constructor | src/workflows/social_content_workflow.py:54 | A new record holds the topic, every optional field unset, and no errors. |
| Workflow.FinalContentOutput.AppendError | src/workflows/social_content_workflow.py:167 | Appending an error adds it at the end of the errors and changes nothing else. |
| Workflow.FinalContentOutput.SetOutput | src/workflows/social_content_workflow.py:185-189 | Setting an output updates the object exactly as `WithOutput` updates its value. |
| Workflow.Generate | src/workflows/social_content_workflow.py:132-194 | One platform keeps topic, context and sources, only extends the errors (by at most two entries), and leaves every other platform's field unchanged. |
| Workflow.RunPlatforms | src/workflows/social_content_workflow.py:127-200 | The platform loop keeps topic, context and sources and only extends the errors. |
| Workflow.Opening | src/workflows/social_content_workflow.py:52-82 | The opening starts with the `workflow_started` announcement and ends with the research call, given the URLs only when there are some. It has three actions with URLs and four without. |
| Workflow.Closing | src/workflows/social_content_workflow.py:203-223 | Consolidation starts with its message and ends with the completion event carrying the record. It has one more action when there is a blog post. |
| Workflow.Run | src/workflows/social_content_workflow.py:43-223 | The record keeps the topic. The last action is the research call if and only if research was fatal, and otherwise the completion event with the final record. |
| Workflow.Dump | src/workflows/social_content_workflow.py:212 | The dump always holds the topic and the error list. |
| Workflow.RetryLoop | src/workflows/social_content_workflow.py:136-174 | The retry loop's response, calls, sleeps and appended error are those of the closed-form retry policy. |
| Workflow.GeneratePlatform | src/workflows/social_content_workflow.py:132-194 | One platform's loop and after-loop handling leave the record and trace of `Generate`. |
| Workflow.ResearchPhase | src/workflows/social_content_workflow.py:52-111 | The run proceeds if and only if research gave content. On success, context and sources are set and the research event is yielded. Otherwise only the one fatal error is recorded and nothing more is yielded. |
| Workflow.PlatformIteration | src/workflows/social_content_workflow.py:127-200 | One iteration yields "generating", runs the platform, yields progress step/5, and advances the step counter by one. |
| Workflow.GenerationPhase | src/workflows/social_content_workflow.py:117-200 | The loop over the four platforms leaves the record and trace of `RunPlatforms`. |
| Workflow.ConsolidationPhase | src/workflows/social_content_workflow.py:203-223 | Consolidation yields its message, saves the JSON and (if present) the blog Markdown, and ends with the record. |
| Workflow.Arun | src/workflows/social_content_workflow.py:43-223 | The whole run's final record and its trace of actions are those of `Run`. |
| WorkflowFacts.FinalFrom | src/workflows/social_content_workflow.py:136-169 | The retry loop stops at the first attempt that is not a retried rate limit, and every attempt before it was retried. |
| WorkflowFacts.FinalAttempt | src/workflows/social_content_workflow.py:154-160 | The loop stops within three attempts, and every earlier attempt hit a rate limit. |
| WorkflowFacts.RetryFromTrace | src/workflows/social_content_workflow.py:136-163 | The loop's trace alternates calls with numbered attempts and 20-second sleeps, one sleep fewer than calls. |
| WorkflowFacts.RetryFromEnd | src/workflows/social_content_workflow.py:164-174 | The final attempt decides the response kept and the one error appended. |
| WorkflowFacts.RetryShape | src/workflows/social_content_workflow.py:133-174 | From the first attempt, there are at most 3 calls and 2 sleeps, alternating, and the last attempt decides the outcome. |
| WorkflowFacts.RateLimitSignals | src/workflows/social_content_workflow.py:154-158 | A provider error with status 429, or whose message contains "429", is a rate limit. A response or another exception is not. |
| WorkflowFacts.StopsIff | src/workflows/social_content_workflow.py:160 | After rate limits, attempt k is final if and only if it is not a rate limit or it is the third. |
| WorkflowFacts.FirstSuccess | src/workflows/social_content_workflow.py:141-143 | A first call that responds makes exactly one call and records no error. |
| WorkflowFacts.ThreeRateLimits | src/workflows/social_content_workflow.py:155-169 | Three rate limits give three calls, two sleeps, no response, and the attempt-3 error. |
| WorkflowFacts.AttemptErrorTagged | src/workflows/social_content_workflow.py:167 | A provider error entry contains the platform's "Error en P" tag. |
| WorkflowFacts.GenerateDelivers | src/workflows/social_content_workflow.py:177-189 | A non-empty response is stored in the platform's field (and for Instagram the placeholder ideas), with no error. |
| WorkflowFacts.GenerateEmptyResponse | src/workflows/social_content_workflow.py:191-194 | An empty response adds the "no content" entry unless a tagged entry for the platform exists. |
| WorkflowFacts.GenerateProviderFailure | src/workflows/social_content_workflow.py:164-169 | A final provider error adds exactly its tagged attempt entry. |
| WorkflowFacts.GenerateUnexpected | src/workflows/social_content_workflow.py:170-174 | An unexpected exception adds its entry, then the "no content" entry unless a tagged entry exists. |
| WorkflowFacts.UnexpectedAppendsTwo | src/workflows/social_content_workflow.py:170-194 | With no tagged entry yet, an unexpected exception appends two entries. |
| WorkflowFacts.Index | src/workflows/social_content_workflow.py:117-122 | Every platform has its position in the generation order. |
| WorkflowFacts.GenerateRecord | src/workflows/social_content_workflow.py:176-194 | A platform changes only its own field (and the ideas for Instagram) and only appends errors. |
| WorkflowFacts.PicksAppend | src/workflows/social_content_workflow.py:43-223 | What is observed in a concatenated trace is what is observed in each part, in order. |
| WorkflowFacts.PicksFrom | src/workflows/social_content_workflow.py:43-223 | Everything observed in a trace comes from one of its actions. |
| WorkflowFacts.RetryCalls | src/workflows/social_content_workflow.py:136-174 | The loop calls only its own platform, once per attempt made. |
| WorkflowFacts.RetryNoProgress | src/workflows/social_content_workflow.py:136-174 | The retry loop yields no progress. |
| WorkflowFacts.Ramp | src/workflows/social_content_workflow.py:197-200 | The platform progress values are (i + 2)/5 in order. |
| WorkflowFacts.StepPicks | src/workflows/social_content_workflow.py:127-200 | One iteration calls its platform once per attempt and yields one progress value. |
| WorkflowFacts.RunPlatformsPicks | src/workflows/social_content_workflow.py:127-200 | The platform loop calls the platforms in order and yields the progress ramp. |
| WorkflowFacts.RunPlatformsRecord | src/workflows/social_content_workflow.py:127-194 | After the loop, each platform's field is its written text or unchanged, and topic, context and sources are kept. |
| WorkflowFacts.FatalResearchStops | src/workflows/social_content_workflow.py:61-111 | A fatal research phase records exactly one error. It makes no writer call and no save, and yields no progress or completion. |
| WorkflowFacts.RunRecord | src/workflows/social_content_workflow.py:54-194 | A successful run's record holds the research context, the given URLs or found sources, and each platform's text when it succeeded. |
| WorkflowFacts.RunPlatformsQuiet | src/workflows/social_content_workflow.py:127-200 | The platform loop never saves and never yields the record. |
| WorkflowFacts.StepQuiet | src/workflows/social_content_workflow.py:127-200 | One platform iteration never saves and never yields the record. |
| WorkflowFacts.OpeningAnnounces | src/workflows/social_content_workflow.py:52-82 | Before research, only plain announcements and the research call happen. |
| WorkflowFacts.OpeningPicks | src/workflows/social_content_workflow.py:52-82 | Before research, no writer call, progress or save happens. |
| WorkflowFacts.ClosingPicks | src/workflows/social_content_workflow.py:203-223 | Consolidation makes no writer call and yields no progress. |
| WorkflowFacts.ResearchPrecedesWriters | src/workflows/social_content_workflow.py:61-127 | Whatever the reply, the run makes exactly one research call, as the last action of the opening, and every writer call comes after it. |
| WorkflowFacts.AssembledPicks | src/workflows/social_content_workflow.py:43-223 | In the assembled run, the writer calls are those of the loop, and progress is 1/5 followed by the loop's values. |
| WorkflowFacts.RunPicks | src/workflows/social_content_workflow.py:117-200 | A successful run calls the writers in platform order and yields progress 1/5 then the ramp. |
| WorkflowFacts.ScheduleAll | src/workflows/social_content_workflow.py:117-122 | The call schedule is blog, LinkedIn, Twitter, Instagram, each repeated once per attempt. |
| WorkflowFacts.RunSchedule | src/workflows/social_content_workflow.py:117-174 | A successful run calls blog, LinkedIn, Twitter and Instagram, in that order, each once per attempt. |
| WorkflowFacts.RatiosIncrease | src/workflows/social_content_workflow.py:198-199 | The values 1/n, 2/n, … strictly increase. |
| WorkflowFacts.RunProgress | src/workflows/social_content_workflow.py:103-200 | A successful run yields exactly the progress values 1/5 … 5/5, strictly increasing and ending at 1. |
| WorkflowFacts.ProgressRamp | src/workflows/social_content_workflow.py:103-200 | 1/5 followed by the platform ramp is 1/5 … 5/5, strictly increasing to 1. |
| WorkflowFacts.ClosingSaves | src/workflows/social_content_workflow.py:208-223 | Consolidation saves the record's JSON under "social_content_" plus the slug, and the blog under "blog_post_" plus the slug only when there is one. It ends with the only completion event. |
| WorkflowFacts.AssembledClosing | src/workflows/social_content_workflow.py:203-223 | With a quiet platform loop, the run's saves and completion are those of consolidation. |
| WorkflowFacts.RunClosing | src/workflows/social_content_workflow.py:203-223 | A successful run saves exactly the dumped final record, and the blog if present. Its last action, and its only completion, yields that record. |
| WorkflowFacts.DumpKeys | src/workflows/social_content_workflow.py:212 | The dump always has topic and errors, and has each optional field exactly when it is set. |
| WorkflowFacts.LoadDump | src/workflows/social_content_workflow.py:212-213 | Reading the saved JSON back gives the record (null-dropping loses nothing). |
| App.LineEnd | app/app.py:82 | A line ends at the first line-break character. |
| App.SplitLines | app/app.py:82 | `splitlines` gives lines without line breaks, and no lines exactly for the empty text. |
| App.LineEndAt | app/app.py:82 | A line ends at the first break after break-free text. |
| App.SplitJoinedLines | app/app.py:82 | Splitting lines joined by newlines recovers them when the last is not empty. |
| App.CrLfIsOneBoundary | app/app.py:82 | "\r\n" separates two lines, not three. |
| App.StripStart | app/app.py:82 | Leading whitespace is removed, and only whitespace. |
| App.StripEnd | app/app.py:82 | Trailing whitespace is removed, and only whitespace. |
| App.Strip | app/app.py:82 | A stripped string neither starts nor ends with whitespace. |
| App.StripIdempotent | app/app.py:82 | Stripping twice is stripping once. |
| App.BlankIff | app/app.py:82 | A string strips to empty if and only if it is all whitespace. |
| App.KeepNonBlank | app/app.py:82 | The URL list has no more entries than lines, each entry non-empty and already stripped. |
| App.ParseUrls | app/app.py:82 | Every parsed URL is non-empty and stripped. |
| App.KeepNonBlankAppend | app/app.py:82 | URL extraction distributes over concatenation of lines. |
| App.KeepNonBlankMember | app/app.py:82 | A string is in the URL list if and only if it is non-empty and some line strips to it. |
| App.KeepNonBlankEmptyIff | app/app.py:82-83 | The URL list is empty if and only if every line is blank. |
| App.SessionId | app/app.py:95-96 | The session id is the fixed prefix followed by at most 50 characters. |
| App.StartIff | app/app.py:76-87 | The workflow starts if and only if there is a topic and, with the box checked, a non-blank line. The topic warning comes first, then the URL warning. |
| App.StartedRun | app/app.py:76-96 | A started run gets the topic, no URL list exactly when the box is unchecked (else a non-empty one), and the topic's slug as session id. |
| App.OnGenerate | app/app.py:76-96 | A warning is the topic or URL warning. A start has a non-empty topic, the URL list exactly when the box is checked (and then non-empty), and the topic's session id. |
| App.StartingMessage | app/app.py:89 | With URLs, the message names the topic and a decimal count whose value is the number of URLs. Without, it names the topic and ends with "...". |
| App.Receive | app/app.py:117-138 | A received event always leaves a display. A capturing event sets the result to its content, and other events keep the result. A progress event shows its step, and other events keep an existing display. |
| App.Fold | app/app.py:117-138 | After any event there is a display, and a stream with no capturing event keeps the result. |
| App.Finish | app/app.py:140-145 | The result is unchanged. The display changes only to 100% "Workflow Completed", and only for a truthy result. |
| App.RunAndCollect | app/app.py:113-145 | The collected result is the content of the last capturing event, and a non-empty stream leaves a display. |
| App.FoldSnoc | app/app.py:117-138 | Folding one more event applies one more step to the fold so far. |
| App.FoldMeaning | app/app.py:117-138 | The collected result is the last capturing event's content, and the display is the last progress shown (blank once any event arrived). |
| App.LastCapturedIff | app/app.py:131-138 | There is a result if and only if some event captures, and it is the content of the last capturing event. |
| App.CollectedResult | app/app.py:113-158 | The page's result is the last captured content, and None exactly when no event captures. |
| App.FinalDisplay | app/app.py:140-145 | After the loop, a truthy result puts the display at 100% "Workflow Completed". Otherwise the last progress, or the blank bar, stays. |
| App.DistributeSlices | app/app.py:244-247 | Sources before the midpoint go left and the rest go right, in order. |
| App.Distribute | app/app.py:244-247 | The two columns together hold exactly the listed sources, counted with multiplicity. |
| App.SourcesLayout | app/app.py:238-252 | No sources exactly when there is none. A list holds the sources, at most five. Columns happen only for more than five, and hold the sources between them. |
| App.SourcesLayoutMeaning | app/app.py:238-252 | No sources gives the caption, five or fewer give a list, and more give left = first ceil(n/2), right = the rest, differing in size by at most one. |
| Pipeline.ResearchNeverFatal | src/workflows/social_content_workflow.py:67-90 | The researcher's result never triggers a fatal research exit. |
| Pipeline.ResearchFlowsIntoRun | src/workflows/social_content_workflow.py:67-100 | The researcher's content becomes the writers' context, and the sources are the given URLs or the researcher's. |
| Pipeline.FailedScrapeBecomesContext | src/agents/researcher.py:98-100 | When no given URL scrapes, the writers receive "Failed to process provided URLs." as context. |
| Pipeline.LastEvent | src/workflows/social_content_workflow.py:220-223 | A successful run's last event is the completion carrying the final record. |
| Pipeline.FatalEventsCaptureNothing | src/workflows/social_content_workflow.py:70-74 | After a fatal research phase no event carries a result or progress. |
| Pipeline.CollectedFromRun | app/app.py:113-145 | The page collects the record (display at 100%) if and only if research succeeded. After a fatal research phase it collects nothing and the bar stays blank. |
| Pipeline.NoProgressShown | app/app.py:123-130 | Events without progress show no progress. |
| Pipeline.AlwaysCollected | app/app.py:117-138 | With the real researcher, the page always receives the final record. |

## Left out

- Networking, the language models and the crawler are values the model takes as input.
  This covers the Serper HTTP request and its 10-second timeout, the Gemini writer agents,
  Crawl4AI, and the SQLite session storage.
- The clock (`datetime.now().isoformat()`) is a timestamp parameter.
- Logging and `asyncio.sleep` are not modelled. A sleep is recorded as an action with its
  duration, and no time passes.
- The JSON dump is the record as a key–value map. The file system, the output directory,
  JSON formatting, and the catching of write errors inside `save_json`/`save_markdown` are
  not modelled.
- Workflow.Arun: the `hasattr(agent, 'arun')` test is taken as always true. The
  synchronous `agent.run` fallback is therefore not modelled.
- Workflow.Arun: a writer's response is its content string only. `response and
  response.content` is modelled as a non-empty string.
- Workflow.Arun: progress values are exact fractions (`Ratio`), not floats. The first value
  0.2 is written as 1/5.
- Researcher.Research: the search request is one reply value. With a current `requests`,
  a body that fails to decode as JSON raises a `RequestException`, so it reaches the first
  handler; the `UndecodableJson` case covers older versions.
- Researcher.SearchAndAnalyze: the catch-all handler (`researcher.py:205-209`) returns the
  sources found so far. The model's `Malformed` case returns none, because it stands for an
  exception raised before any links were found. After the links are found, only logging
  and `_process_urls` run outside a narrower handler, and `_process_urls` catches every
  crawl failure per URL. So no exception reaches that handler with links already found.
- Researcher.Research: an exception escaping `research` is modelled as raised before any
  source was gathered. That matches the code, since nothing in the `try` body raises after
  sources are set.
- Slug.Clean: `str.isalnum` is modelled for ASCII letters and digits only. Unicode letters
  are not covered.
- App.IsSpace and App.IsLineBreak follow Python's sets of whitespace and line-break
  characters. Python's Unicode case and normalisation rules are not modelled.
- Streamlit widgets, the session state, the page re-run and `st.cache_resource` are not
  modelled. Neither is the rendering of results, except the split of sources into columns.
- App.FinalDisplay: the status text "(n%)" computed with `int(progress_value * 100)` is
  not modelled. The display is the bar's value and the step's description.
- App.RunAndCollect: exceptions raised inside the page's event loop, and around
  `asyncio.run`, are not modelled. The workflow model itself never raises, because every
  collaborator failure is an input case.
- Workflow.Deliver: the Instagram image ideas are the fixed placeholder the code sets,
  with no extraction from the caption.
- Settings, logging configuration and the other agents' prompt configuration are not part
  of this model.
