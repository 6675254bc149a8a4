# Linkwarden worker: the preservation run, as a Dafny model

Linkwarden's worker preserves a saved link by driving a browser over it. It captures up
to five artifacts: a preview image, readable text, a screenshot/PDF export, a single-file
HTML snapshot (monolith), and AI tags. It then reconciles the Link row, so that every
artifact column ends up holding either a storage locator or `"unavailable"`.

This project models the decision logic of that run:

- `archiveHandler` (`archive_handler.dfy`):
  - the short-circuit for disabled preservation or non-http(s) URLs;
  - archival-settings resolution from the link's tags or its owner;
  - content-type classification (`determineLinkType`);
  - the FlareSolverr-driven session set-up;
  - the image and PDF branches;
  - the page branch, with its one-time challenge fallback and its gated capture steps;
  - the `finally` reconciliation, including the row deleted meanwhile.
- `handleArchivePreview` (`archive_preview.dfy`): the og:image selector search, the
  acceptance of the fetched image, and the screenshot fallback with its size ceiling and
  fixed path.
- `browser.ts` (`browser.dfy`): launch and context options built from the environment,
  endpoint normalisation, and the mapping of the solver's reply or failure to
  `solveCaptcha`'s result.

Supporting files:

- `links.dfy`: the Link row, Prisma-style partial updates (`Patch`, `Apply`), and a
  `Store` class. The class holds the Link table and an append-only journal of row
  updates, deletions and file operations, so the order of writes is observable.
- `text.dfy` and `wrappers.dfy`: string predicates, decimal rendering, and `Option`.

Every call into Playwright, Prisma, the filesystem, axios or an unseen collaborator is an
input. A `World` value carries what each one yields in one run: the probed content
type, the solver POST, the titles, the DOM, the og:image fetch, the screenshot, and each
collaborator's patch or failure, and which of the page calls of the load phase throws.
The environment is a map, the device profile a value, and the clock a `now` parameter.
The steps a run awaits are recorded as a trace of `Step`s, so that ordering and gating
can be stated. `Planned` is the trace of a run that meets no failure.

What a run writes is stated as a fold. `StepEffects` gives the journal entries of one
started step (a failed step included), and `TraceEffects` those of a trace. `Replay`
applies the row updates among journal entries to a row, in order. Every method of the
run promises that the journal grew by exactly `TraceEffects` of its trace, and that the
row is `Replay` of the starting row over those entries (`RunSoFar`). `RanAsSpecified`
then ties the row re-read in the `finally` block, the reconciled row and the whole
journal to the starting row.

How a run ends is stated against `StepFault`, the fault each step rejects with in a
given `World`: the load phase at its first throwing call, preview selection on the
deadline or when `handleArchivePreview` rejects, the monolith only on the deadline, and
any other collaborator when it fails. `RanUntilFailure(plan, trace, outcome)` says that
the steps of the plan were awaited in turn and the run stopped at the first that
failed: the trace is a prefix of the plan, no step but its last fails, and the outcome is
`Completed` with the whole plan or `Aborted` with the last step and its own fault.
`StopsAtFirstFailure` and `RunEndsAtFirstFailure` turn this around: a run completes
exactly when no planned step fails, and otherwise its trace is the plan up to and
including the first failing step.

The five capture steps of the page (archiveHandler.ts lines 197-237) are straight-line
`if (...) await ...` blocks. `CapturesFrom` runs the `k`-th of them and `CapturesAfter`
goes on with the rest unless it aborted, so that each step's contract is proved once.

Behaviour of the code that a reader might not expect:

- The solver is called once, up front, for every link that passes the short-circuit,
  whatever the page turns out to show. Its cookies and user agent go into the only
  browser context, and no second session is made.
- The fallback to the solver's HTML triggers only on the exact title
  `"Just a moment..."`. No other challenge wording is recognised.
- The short-circuit writes `"unavailable"` into all five artifact columns, replacing
  existing locators too (`SkipDiscardsLocators`). Reconciliation, by contrast, keeps
  every locator.
- Reconciliation stamps `aiTagged` whenever tagging is enabled, even when no provider
  is configured.
- A session whose context, cookies or page cannot be set up rejects before the `try`.
  The `finally` block then does not run, so nothing is written to the row at all.

## Model

| member | source | states |
|---|---|---|
| Links.Apply | apps/worker/lib/archiveHandler.ts:261-277 | an update replaces exactly the columns the patch names (an `undefined` key keeps the column) and keeps every other column |
| Links.Store.Update | apps/worker/lib/archiveHandler.ts:310-313 | the row becomes `Apply(row, patch)`, no other row changes, and the update is appended to the journal |
| Links.Store.Find | apps/worker/lib/archiveHandler.ts:247-249 | the re-read yields the current row exactly when the row exists |
| Links.Store.Delete | apps/worker/lib/archiveHandler.ts:247-251 | a concurrent deletion removes only that row and is journalled |
| Links.Store.CreateFile | apps/worker/lib/preservationScheme/handleArchivePreview.ts:107-110 | writing a file leaves the table unchanged and journals the path |
| Links.Store.RemoveFiles | apps/worker/lib/archiveHandler.ts:279 | removing a link's files leaves the table unchanged and journals the link and collection |
| Browser.BrowserOptions | apps/worker/lib/browser.ts:11-34 | `proxy` is present iff `PROXY` is set, and then carries `PROXY` as server plus the bypass, username and password variables as given; `executablePath` is present iff its variable is set and `PLAYWRIGHT_WS_URL` is not |
| Browser.GetBrowserOptions | apps/worker/lib/browser.ts:11-34 | the successive assignments produce exactly `BrowserOptions(env)` |
| Browser.Spread | apps/worker/lib/browser.ts:44-48 | each launch key that is present overrides the base's; every other key is the base's |
| Browser.GetDefaultContextOptions | apps/worker/lib/browser.ts:36-51 | the device profile's keys (user agent, screen, viewport, scale factor, mobile and touch flags, browser type) are kept; `ignoreHTTPSErrors` holds iff `IGNORE_HTTPS_ERRORS` is exactly `"true"`; a proxy appears only under a remote browser with `PROXY` set; no executable path ever reaches the context; without `PLAYWRIGHT_WS_URL` the base comes back unchanged |
| Browser.NormalizeEndpoint | apps/worker/lib/browser.ts:87-89 | the endpoint always ends in `/v1`; one that already does is kept; otherwise one trailing `/` is dropped and `/v1` appended |
| Browser.NormalizeIdempotent | apps/worker/lib/browser.ts:87-89 | normalising twice equals normalising once |
| Browser.NormalizeKeepsStem | apps/worker/lib/browser.ts:87-89 | the result is the URL itself, the URL plus `/v1`, or the URL minus one trailing `/` plus `/v1` |
| Browser.SolveCaptcha | apps/worker/lib/browser.ts:63-121 | no request is sent iff `FLARESOLVERR_URL` is unset or empty, and the result is then a bare `skip`; otherwise the request goes to the normalised endpoint with `request.get`, the URL and the timeout; a thrown POST gives a bare `error`; a reply passes through its status, its solution's user agent and response, and its cookies defaulting to `[]`; with no solution there is no user agent |
| Browser.SkipIgnoresReply | apps/worker/lib/browser.ts:83-85 | without an endpoint the result does not depend on what a POST would have returned |
| ArchivePreview.FirstMatch | apps/worker/lib/preservationScheme/handleArchivePreview.ts:39-45 | the index returned is the first selector with non-empty content; every earlier one has none |
| ArchivePreview.FirstContent | apps/worker/lib/preservationScheme/handleArchivePreview.ts:29-45 | the result is null iff no selector has non-empty content; otherwise it is the non-empty content of a selector before which none qualifies |
| ArchivePreview.FindOgImage | apps/worker/lib/preservationScheme/handleArchivePreview.ts:39-45 | the loop with early return yields `FirstContent` over the fixed selector order |
| ArchivePreview.RequestHeaders | apps/worker/lib/preservationScheme/handleArchivePreview.ts:64-67 | `Referer` is always the page URL; `User-Agent` is present iff a non-empty agent was obtained, and is that agent; no other header |
| ArchivePreview.DefaultCeiling | apps/worker/lib/preservationScheme/handleArchivePreview.ts:101-105 | with the variable unset, exactly 10485760 bytes is kept and anything larger is discarded |
| ArchivePreview.PreviewPath | apps/worker/lib/preservationScheme/handleArchivePreview.ts:109 | the path starts with `archives/preview/`, ends in `.jpeg`, and counts as an archived preview |
| ArchivePreview.HandleArchivePreview | apps/worker/lib/preservationScheme/handleArchivePreview.ts:14-120 | a throwing selector evaluation rejects and writes nothing; the og image is `FirstContent`; it is requested iff found and resolvable, with `RequestHeaders`; it becomes the preview iff the response is ok with an image type, the old preview is not archived, and generation stored one; the screenshot runs iff no preview was generated and the old preview is not archived; the call rejects iff the evaluation, the screenshot, the file write or the row update throws; the journal grows by `PreviewEffects` and the row becomes `Replay` of them, all other rows unchanged |
| ArchivePreview.TryOgImage | apps/worker/lib/preservationScheme/handleArchivePreview.ts:50-94 | any failure (bad URL, thrown request, rejected response, no stored preview) leaves the preview not generated and writes nothing; only an accepted response updates the row's preview |
| ArchivePreview.StoreScreenshot | apps/worker/lib/preservationScheme/handleArchivePreview.ts:96-119 | a throwing screenshot writes nothing and rejects; one over the ceiling writes nothing and resolves; otherwise the file is written to `PreviewPath` and then the row gets that same path; a rejected file write stops before the row, and a rejected row update leaves the file behind; the new table and journal are stated for each case |
| ArchivePreview.PreviewEffectsShape | apps/worker/lib/preservationScheme/handleArchivePreview.ts:50-119 | nothing is written over an archived preview; at most a file and a row update; a row update sets only the preview column of this link; a file is the screenshot at its fixed path and comes first; two entries are that file, then the row pointing at it; a rejecting call updates no row |
| ArchivePreview.PreviewReplay | apps/worker/lib/preservationScheme/handleArchivePreview.ts:75-119 | the writes of preview selection leave the row with the generated og preview when it was accepted, with the screenshot path when the screenshot was kept and both writes succeeded, and otherwise unchanged |
| ArchivePreview.StoredPreviewIsFinal | apps/worker/lib/preservationScheme/handleArchivePreview.ts:75-96 | once the screenshot preview is stored, no og image is accepted over it and the fallback no longer runs |
| ArchiveHandler.Skipped | apps/worker/lib/archiveHandler.ts:27-55 | the short-circuit row has all five artifact columns `"unavailable"`, so it is resolved; `aiTagged` becomes true only if tagging is enabled, the loaded link was untagged and a provider key is set, and is otherwise unchanged; name and type are kept; `lastPreserved` is the current time |
| ArchiveHandler.ArchivalTags | apps/worker/lib/archiveHandler.ts:101 | a tag is kept iff it is in the list and archival |
| ArchiveHandler.AnyTag | apps/worker/lib/archiveHandler.ts:105-114 | true iff some tag has the flag |
| ArchiveHandler.ResolveSettings | apps/worker/lib/archiveHandler.ts:101-123 | with an archival tag, every setting is the OR of its flag over the archival tags; otherwise every setting is the owner's, with `aiTag` iff the tagging method is not DISABLED |
| ArchiveHandler.TagsOverrideUser | apps/worker/lib/archiveHandler.ts:101-123 | with an archival tag, the owner's defaults play no part in the settings |
| ArchiveHandler.Classify | apps/worker/lib/archiveHandler.ts:300-308 | PDF iff the type contains `application/pdf`; image iff it does not and starts with `image`; the extension is jpeg iff it is an image containing `image/jpeg`, else png |
| ArchiveHandler.DetermineLinkType | apps/worker/lib/archiveHandler.ts:287-316 | without a URL, nothing is probed or written and the result is url/png; otherwise the result is `Classify` of the probed type, and exactly the `type` column is updated |
| ArchiveHandler.PageStepsUpToFacts | apps/worker/lib/archiveHandler.ts:197-237 | among the first k page steps, a step runs iff its condition holds; they follow the navigation in the fixed order |
| ArchiveHandler.UpToPrefix | apps/worker/lib/archiveHandler.ts:197-237 | stopping after any page step leaves a prefix of the full page run |
| ArchiveHandler.Planned | apps/worker/lib/archiveHandler.ts:139-237 | the image branch runs iff the type is image and the image column is empty, and then alone; likewise the PDF branch; otherwise the page loads iff there is a URL, and then preview, readability, screenshot/PDF, tagging and monolith each run iff their gate holds; the steps keep the fixed order, each at most once |
| ArchiveHandler.PageStepsMembers | apps/worker/lib/archiveHandler.ts:196-237 | the page run starts with the navigation, never holds a branch step, holds each capture step iff its gate holds, and is the navigation alone iff no gate holds |
| ArchiveHandler.PageRestMembers | apps/worker/lib/archiveHandler.ts:196-237 | after the navigation come exactly the page steps whose gate holds |
| ArchiveHandler.PageStepsOrdered | apps/worker/lib/archiveHandler.ts:146-237 | the navigation precedes every page step, and those keep their fixed order |
| ArchiveHandler.FinalName | apps/worker/lib/archiveHandler.ts:253-259 | the stored name changes iff the title is non-empty, differs, and the stored name is exactly `"Just a moment..."`; it then becomes the title |
| ArchiveHandler.Finalize | apps/worker/lib/archiveHandler.ts:251-277 | the row is resolved; every truthy artifact column is kept and every falsy one becomes `"unavailable"`; `aiTagged` holds iff it did or tagging is enabled; the name follows `FinalName`; `lastPreserved` is the current time |
| ArchiveHandler.FinalizeIdempotent | apps/worker/lib/archiveHandler.ts:251-277 | reconciling twice is reconciling once, up to the timestamp |
| ArchiveHandler.FinalizeResolved | apps/worker/lib/archiveHandler.ts:251-277 | reconciling a row with nothing pending and no tagging owed changes only its name (by the challenge-title rule) and its timestamp |
| ArchiveHandler.ResolvedPlansNoCapture | apps/worker/lib/archiveHandler.ts:139-237 | a link with nothing pending and no tagging owed plans the page load alone (or nothing, without a URL) |
| ArchiveHandler.RerunCapturesNothing | apps/worker/lib/archiveHandler.ts:139-237 | after a reconciled run, the next run of the link plans no capture: at most the page load |
| ArchiveHandler.SkipDiscardsLocators | apps/worker/lib/archiveHandler.ts:35-39 | the short-circuit replaces a stored locator with `"unavailable"`, while reconciliation keeps it |
| ArchiveHandler.Perform | apps/worker/lib/archiveHandler.ts:140-143 | an awaited collaborator either applies its patch to the row and journals it, or fails with its fault and writes nothing |
| ArchiveHandler.LoadFault | apps/worker/lib/archiveHandler.ts:145-194 | the load phase rejects, with some fault, exactly when `LoadFails` holds |
| ArchiveHandler.LoadPage | apps/worker/lib/archiveHandler.ts:145-194 | the load phase fails iff navigation or its title read, the solver-HTML fallback (when it applies), the stored-snapshot read or substitution (for an `.html` snapshot), or the description or content read throws (`LoadFails`), and then with the fault of the first of these, in that order (`LoadFault`); the title is the one read last, or empty after a failed navigation; the page is navigated iff navigation succeeded, replaced by the solver's HTML iff the fallback applied and succeeded, and by the snapshot iff that was reached and read back as HTML, in that order; nothing is written |
| ArchiveHandler.RunStep | apps/worker/lib/archiveHandler.ts:139-237 | a collaborator step fails with its collaborator's fault; preview selection fails with the deadline when it fires, otherwise exactly when `handleArchivePreview` rejects (evaluation, screenshot, file write or row update); the journal grows by the step's `StepEffects`, the row becomes `Replay` of them, and no other row changes |
| ArchiveHandler.GatedStep | apps/worker/lib/archiveHandler.ts:196-237 | the k-th capture step aborts the run iff its gate holds and it fails (`StepFault`), and then with its own fault; a passing or skipped step completes; a failing monolith aborts only through the deadline, because its own error is caught; a closed gate leaves the table and journal unchanged; an open gate writes exactly the step's `StepEffects`; afterwards the journal and the row are those of the steps started so far (`RunSoFar`) |
| ArchiveHandler.Started | apps/worker/lib/archiveHandler.ts:196-237 | the steps started up to the k-th capture step are a prefix of the page run that begins with the navigation, and end with that step when it ran |
| ArchiveHandler.StartedStep | apps/worker/lib/archiveHandler.ts:196-237 | reaching the k-th capture step adds it to the started steps iff its gate holds, and otherwise adds nothing |
| ArchiveHandler.RunCaptures | apps/worker/lib/archiveHandler.ts:196-237 | for a page that loaded, the navigation and the capture steps whose gates hold run in order until the first that fails (`RanUntilFailure` over `[Load] + PageSteps`): the run completes with all of them iff none fails, and otherwise aborts at the first failing capture step with its fault; the journal grows by `TraceEffects` of the trace and the row is `Replay` of the starting row over them |
| ArchiveHandler.CapturesFrom | apps/worker/lib/archiveHandler.ts:196-237 | from the k-th capture step on, given that none of the steps started before it failed, the run ends as `CapturesEnded` describes: up to and including the first failing step, or through the last; the journal and the row are those of the started steps |
| ArchiveHandler.CapturesAfter | apps/worker/lib/archiveHandler.ts:196-237 | after the k-th capture step ended as `GateOutcome` says, the run stops there when that step aborted or was the last, and otherwise goes on with the next; either way it ends as `CapturesEnded` describes, with the journal and the row of the started steps |
| ArchiveHandler.StartedEnds | apps/worker/lib/archiveHandler.ts:196-237 | when the k-th capture step aborts, or passes as the last, the steps started so far are a page run that stopped at its first failure |
| ArchiveHandler.StartedPasses | apps/worker/lib/archiveHandler.ts:196-237 | a capture step that is skipped or passes adds no failing step to those started |
| ArchiveHandler.CapturePage | apps/worker/lib/archiveHandler.ts:145-238 | the navigation and the gated capture steps run until the first that fails (`RanUntilFailure`), so the run completes iff no step fails; it aborts at the load iff `LoadFails`, with the navigation alone in the trace, the fault of `LoadFault` and nothing written; a failing monolith aborts only through the deadline; the title is `PageTitle`; the page sources are those of `LoadPage`; the journal and the row are those of the started steps |
| ArchiveHandler.Reconcile | apps/worker/lib/archiveHandler.ts:246-281 | a row that still exists is re-read and updated to `Finalize` of the re-read row, and that update is the last journal entry; a row that is gone gets its files removed and no update; no other row changes |
| ArchiveHandler.CaptureAlone | apps/worker/lib/archiveHandler.ts:139-144 | the image or PDF branch runs its one handler and ends the run; it completes iff the handler succeeds and aborts with the handler's fault otherwise (`RanUntilFailure` over that one step); the journal and the row are those of that one step |
| ArchiveHandler.CaptureLink | apps/worker/lib/archiveHandler.ts:139-238 | the planned steps run until the first that fails (`RanUntilFailure` over `Planned`): the run completes iff no planned step fails and otherwise aborts at the first failing one with its fault, so the image or PDF branch completes iff its handler succeeds; it aborts at the load iff the page was loaded and `LoadFails`; the title, the solver's HTML and the snapshot are those of the load phase when the page was loaded, and absent otherwise; the journal grows by `TraceEffects` of the trace and the row is `Replay` of the starting row over them |
| ArchiveHandler.OpenSession | apps/worker/lib/archiveHandler.ts:70-94 | the context options are the defaults with the solver's user agent when it gave a non-empty one; cookies are added iff the status is not error, fail or skip and a solution exists, and they are the solution's cookies |
| ArchiveHandler.PreserveLink | apps/worker/lib/archiveHandler.ts:125-283 | a run whose session is open establishes `RanAsSpecified`: the settings and classification; the planned steps run until the first that fails (`RanUntilFailure`), so it completes iff no planned step fails; the load-phase failure, sources and title; the re-read row is the starting row with its type stored and `Replay`ed over the steps' writes; the reconciled row is `Finalize` of it and is resolved; the whole journal is the type update, the steps' writes, then the reconciling update (or, for a row deleted meanwhile, the deletion and the file removal); no other row changes |
| ArchiveHandler.ArchiveLink | apps/worker/lib/archiveHandler.ts:21-284 | the run short-circuits iff preservation is disabled or the URL is not http(s), and then makes exactly one update, to `Skipped`; otherwise the session is `SessionSetUp` from the solver's answer; a context, cookie or page set-up that rejects ends the run with table and journal unchanged; otherwise the run is `RanAsSpecified` from the starting row, so its steps run until the first that fails and it completes iff none does; no other row is ever touched |
| ArchiveHandler.StopsAtFirstFailure | apps/worker/lib/archiveHandler.ts:126-238 | a run of awaited steps that stops at its first failure completes iff no step of its plan fails; an aborted one started exactly the plan up to and including the first failing step, and none before it fails |
| ArchiveHandler.NoneFailAppend | apps/worker/lib/archiveHandler.ts:196-237 | a passing step appended to steps none of which failed keeps them free of failures |
| ArchiveHandler.RunEndsAtFirstFailure | apps/worker/lib/archiveHandler.ts:125-238 | a run completes iff none of its planned steps fails; an aborted run's trace is the plan up to and including the first failing step, and it aborts with that step's own fault |
| ArchiveHandler.QuietRunCompletes | apps/worker/lib/archiveHandler.ts:139-237 | a run in which the page loads, the preview is selected in time, every collaborator succeeds and the monolith meets no deadline completes its whole plan |
| ArchiveHandler.RerunOnlyRestamps | apps/worker/lib/archiveHandler.ts:125-277 | a run over a link with nothing pending and no tagging owed starts at most the page load, writes nothing but the type update and the reconciling update, and leaves the row changed only in type, name (by the challenge-title rule) and timestamp |
| ArchiveHandler.RerunIdempotent | apps/worker/lib/archiveHandler.ts:125-277 | after a run that keeps its row, a second run over the row it left behind starts at most the page load and changes only the type, the name rule and the timestamp |

## Left out

- Playwright, Prisma, the filesystem, axios, `fetchHeaders` and `readFile` are not modelled. Their results are fields of `World`, the environment map, the device profile, or the `now` parameter.
- `launchBrowser` and `connectOverCDP` are not modelled. They are browser launch I/O, and only the options they receive are modelled.
- `createFolder` (archiveHandler.ts lines 98-99) is left out. It is fire-and-forget and changes no row.
- `newContext`, `addCookies` and `newPage` are modelled only by whether they reject (`Setup`). Cookies are modelled as the value `addCookies` would receive.
- ArchiveHandler.ArchiveLink: a set-up that rejects leaves the deadline timer armed and the context unclosed; neither is modelled, only that nothing is written.
- `context.close()` is left out. Its error is swallowed and it changes no row.
- `sendToWayback` is left out. It is fire-and-forget, so only the decision to submit is kept (PreserveLink's `wayback`).
- The `Promise.race` timer and the `AbortController` are reduced to a `Timeout` fault of the step that is running when the deadline fires. That fault ends the run and still reaches reconciliation.
- A deadline that fires before the `try` is not modelled. The timer is armed at archiveHandler.ts lines 59-68, before `solveCaptcha` (line 72) and the session set-up (lines 79-96), and the model lets it fire only while the load phase or a capture step is running.
- The deadline firing during the content-type probe (archiveHandler.ts line 129) is not modelled. The probe always completes and its type update is always made.
- ArchiveHandler.RunStep: the deadline during preview selection is modelled as firing before any of its writes. A deadline between the screenshot file and its row update is not modelled.
- The Prisma calls of the run itself (the type update, the `finally` re-read and its update, `removeFiles`) are modelled as succeeding. A rejection there is not modelled.
- Collaborators that keep running after the deadline are not modelled. Any write they make after the race settles is left out.
- `BROWSER_TIMEOUT` and the deadline's length are left out, because only the deadline's firing matters.
- The collaborators `imageHandler`, `pdfHandler`, `handleReadability`, `handleScreenshotAndPdf`, `autoTagLink`, `handleMonolith` and `generatePreview` are opaque. Each is an outcome that either applies a patch to the row or fails before writing anything.
- The meta description and page content that are passed to those collaborators are not modelled.
- `isArchivalTag` is not part of this model. Each tag carries its verdict as `archival`.
- `new URL(...)` resolution is not modelled. It is an input that either fails (`BadUrl`) or lets the request proceed.
- `Number(PREVIEW_MAX_BUFFER)` is not modelled. Its result is an input (a real or NaN).
- The bytes of the screenshot and of the og image are left out. Only the screenshot's size matters to the code.
- Logging and the error values that are rethrown are not modelled. An aborted run is the `Aborted(step, fault)` outcome.
- The `finally` block's re-read is modelled with `link.id` in the table at the start of the run. A row deleted during the run is the `deleted` input, applied just before the re-read.
- Links.Store.Update requires the row to exist. A Prisma update of a missing row throws, and the model does not follow that error path, because the code reaches its updates only for a row it has just loaded or re-read.
- ArchiveHandler.PreserveLink: the wayback submission is stated only as the decision to submit. The submission itself is not modelled.
- ArchivePreview.PreviewPath: the contract states the prefix and the suffix, not the decimal digits of the collection and link ids in between.
- The trace is a modelling device. It records which awaited steps ran and in what order, and has no counterpart in the code.
