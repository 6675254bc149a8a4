/**
 * The preservation run for one link (apps/worker/lib/archiveHandler.ts): the short-circuit
 * for disabled preservation or non-http(s) URLs, archival-settings resolution, content-type
 * classification, the solver-driven session set-up, the ordered and gated capture steps
 * with the one-time challenge fallback, and the reconciliation that always runs afterwards.
 *
 * Browser, store, filesystem and network calls are inputs: the `World` of one run holds
 * what each of them yields.
 */
module ArchiveHandler {
  import opened Wrappers
  import opened Text
  import opened Links
  import opened Browser
  import opened ArchivePreview

  /** The title of the anti-bot interstitial page. */
  const ChallengeTitle := "Just a moment..."

  const DisablePreservation := "DISABLE_PRESERVATION"

  /** The variables whose presence means some AI tagging provider is configured. */
  const ProviderKeys: seq<string> := [
    "NEXT_PUBLIC_OLLAMA_ENDPOINT_URL",
    "OPENAI_API_KEY",
    "AZURE_API_KEY",
    "ANTHROPIC_API_KEY",
    "OPENROUTER_API_KEY",
    "PERPLEXITY_API_KEY"
  ]

  predicate ProvidersConfigured(env: Env) {
    exists i :: 0 <= i < |ProviderKeys| && IsSet(env, ProviderKeys[i])
  }

  datatype AiTaggingMethod = Disabled | Generate | Existing | Predefined

  /** The owner of the link's collection, with their archiving defaults. */
  datatype User = User(
    archiveAsScreenshot: bool,
    archiveAsMonolith: bool,
    archiveAsPDF: bool,
    archiveAsReadable: bool,
    archiveAsWaybackMachine: bool,
    aiTaggingMethod: AiTaggingMethod)

  /** A tag of the link; `archival` is the verdict of `isArchivalTag`, and a flag the
      database leaves null reads as false. */
  datatype Tag = Tag(
    archival: bool,
    archiveAsScreenshot: bool,
    archiveAsMonolith: bool,
    archiveAsPDF: bool,
    archiveAsReadable: bool,
    archiveAsWaybackMachine: bool,
    aiTag: bool)

  datatype ArchivalSettings = ArchivalSettings(
    archiveAsScreenshot: bool,
    archiveAsMonolith: bool,
    archiveAsPDF: bool,
    archiveAsReadable: bool,
    archiveAsWaybackMachine: bool,
    aiTag: bool)

  /** The link as the worker loaded it: `row` is the snapshot of its columns at that time. */
  datatype LinkInput = LinkInput(
    id: nat,
    collectionId: nat,
    url: Option<string>,
    tags: seq<Tag>,
    owner: User,
    row: LinkRecord)

  // ---------------------------------------------------------------------------
  // The short-circuit

  predicate PreservationDisabled(env: Env) {
    Lookup(env, DisablePreservation) == Some("true")
  }

  predicate IsHttpUrl(url: Option<string>) {
    url.Some? && (StartsWith(url.value, "http://") || StartsWith(url.value, "https://"))
  }

  /** The run captures nothing at all. */
  predicate ShortCircuits(env: Env, url: Option<string>) {
    PreservationDisabled(env) || !IsHttpUrl(url)
  }

  /** The single update of the short-circuit. */
  function SkipPatch(link: LinkInput, env: Env, now: int): Patch {
    Patch(None, None, Some(Unavailable), Some(Unavailable), Some(Unavailable), Some(Unavailable),
          Some(Unavailable),
          if link.owner.aiTaggingMethod != Disabled && !link.row.aiTagged && ProvidersConfigured(env)
          then Some(true) else None,
          Some(now))
  }

  /** The row after the short-circuit update. */
  function Skipped(row: LinkRecord, link: LinkInput, env: Env, now: int): (r: LinkRecord)
    ensures forall f: Field :: Get(r, f) == Some(Unavailable)
    ensures Resolved(r)
    // marked tagged only when tagging is on, was not done per the loaded link, and a provider exists
    ensures r.aiTagged == if link.owner.aiTaggingMethod != Disabled && !link.row.aiTagged && ProvidersConfigured(env)
                          then true else row.aiTagged
    ensures r.name == row.name && r.kind == row.kind && r.lastPreserved == Some(now)
  {
    Apply(row, SkipPatch(link, env, now))
  }

  // ---------------------------------------------------------------------------
  // Archival settings

  datatype Flag = ScreenshotFlag | MonolithFlag | PdfFlag | ReadableFlag | WaybackFlag | AiTagFlag

  function TagFlag(t: Tag, f: Flag): bool {
    match f
    case ScreenshotFlag => t.archiveAsScreenshot
    case MonolithFlag => t.archiveAsMonolith
    case PdfFlag => t.archiveAsPDF
    case ReadableFlag => t.archiveAsReadable
    case WaybackFlag => t.archiveAsWaybackMachine
    case AiTagFlag => t.aiTag
  }

  function SettingFlag(s: ArchivalSettings, f: Flag): bool {
    match f
    case ScreenshotFlag => s.archiveAsScreenshot
    case MonolithFlag => s.archiveAsMonolith
    case PdfFlag => s.archiveAsPDF
    case ReadableFlag => s.archiveAsReadable
    case WaybackFlag => s.archiveAsWaybackMachine
    case AiTagFlag => s.aiTag
  }

  /** `link.tags.filter(isArchivalTag)` */
  function ArchivalTags(tags: seq<Tag>): (r: seq<Tag>)
    ensures forall t :: t in r <==> t in tags && t.archival
  {
    if tags == [] then []
    else (if tags[0].archival then [tags[0]] else []) + ArchivalTags(tags[1..])
  }

  /** `tags.some((tag) => tag[f])` */
  function AnyTag(tags: seq<Tag>, f: Flag): (b: bool)
    ensures b <==> exists t :: t in tags && TagFlag(t, f)
  {
    if tags == [] then false
    else TagFlag(tags[0], f) || AnyTag(tags[1..], f)
  }

  function ResolveSettings(tags: seq<Tag>, user: User): (s: ArchivalSettings)
    // with an archival tag, each setting is the OR of that flag over the archival tags
    ensures (exists t :: t in tags && t.archival) ==>
      forall f :: SettingFlag(s, f) <==> exists t :: t in tags && t.archival && TagFlag(t, f)
    // otherwise everything is the owner's, and tagging follows the owner's method
    ensures (forall t :: t in tags ==> !t.archival) ==>
      && s.archiveAsScreenshot == user.archiveAsScreenshot
      && s.archiveAsMonolith == user.archiveAsMonolith
      && s.archiveAsPDF == user.archiveAsPDF
      && s.archiveAsReadable == user.archiveAsReadable
      && s.archiveAsWaybackMachine == user.archiveAsWaybackMachine
      && s.aiTag == (user.aiTaggingMethod != Disabled)
  {
    var archival := ArchivalTags(tags);
    if |archival| > 0 then
      assert archival[0] in archival;
      ArchivalSettings(
        AnyTag(archival, ScreenshotFlag),
        AnyTag(archival, MonolithFlag),
        AnyTag(archival, PdfFlag),
        AnyTag(archival, ReadableFlag),
        AnyTag(archival, WaybackFlag),
        AnyTag(archival, AiTagFlag))
    else
      ArchivalSettings(
        user.archiveAsScreenshot,
        user.archiveAsMonolith,
        user.archiveAsPDF,
        user.archiveAsReadable,
        user.archiveAsWaybackMachine,
        user.aiTaggingMethod != Disabled)
  }

  /** The two resolution paths are never merged: with an archival tag, the owner's defaults
      play no part at all. */
  lemma TagsOverrideUser(tags: seq<Tag>, u1: User, u2: User)
    requires exists t :: t in tags && t.archival
    ensures ResolveSettings(tags, u1) == ResolveSettings(tags, u2)
  {
  }

  // ---------------------------------------------------------------------------
  // Classification

  datatype ImageExtension = Png | Jpeg

  datatype Classification = Classification(kind: LinkType, ext: ImageExtension)

  /** The kind of resource announced by a `content-type` header (`None`: no header). */
  function Classify(contentType: Option<string>): (c: Classification)
    // the PDF test comes first
    ensures c.kind == PdfLink <==> contentType.Some? && Contains(contentType.value, "application/pdf")
    ensures c.kind == ImageLink <==>
      contentType.Some? && !Contains(contentType.value, "application/pdf") && StartsWith(contentType.value, "image")
    ensures c.ext == Jpeg <==>
      c.kind == ImageLink && contentType.Some? && Contains(contentType.value, "image/jpeg")
  {
    match contentType
    case None => Classification(UrlLink, Png)
    case Some(ct) =>
      if Contains(ct, "application/pdf") then Classification(PdfLink, Png)
      else if StartsWith(ct, "image") then
        Classification(ImageLink, if Contains(ct, "image/jpeg") then Jpeg else Png)
      else Classification(UrlLink, Png)
  }

  /** `determineLinkType`: without a URL nothing is probed or stored; otherwise the probe's
      content type is classified and the kind stored on the row. */
  method DetermineLinkType(store: Store, id: nat, url: Option<string>, contentType: Option<string>)
    returns (c: Classification, probed: bool)
    requires id in store.links
    modifies store
    ensures probed <==> Truthy(url)
    ensures !probed ==> c == Classification(UrlLink, Png)
    ensures !probed ==> store.links == old(store.links) && store.journal == old(store.journal)
    ensures probed ==> c == Classify(contentType)
    ensures probed ==> store.links == old(store.links)[id := old(store.links)[id].(kind := c.kind)]
    ensures probed ==> store.journal == old(store.journal) + [RowUpdated(id, Untouched.(kind := Some(c.kind)))]
  {
    if !Truthy(url) {
      return Classification(UrlLink, Png), false;
    }
    c := Classify(contentType);
    store.Update(id, Untouched.(kind := Some(c.kind)));
    probed := true;
  }

  // ---------------------------------------------------------------------------
  // The capture plan

  /** The awaited steps of a run, in their fixed order. `Load` navigates; the others capture. */
  datatype Step =
    | CaptureImage | CapturePdf | Load | MakePreview | ExtractReadable | ScreenshotAndPdf | AutoTag | ArchiveMonolith

  function Rank(s: Step): nat {
    match s
    case CaptureImage => 0
    case CapturePdf => 1
    case Load => 2
    case MakePreview => 3
    case ExtractReadable => 4
    case ScreenshotAndPdf => 5
    case AutoTag => 6
    case ArchiveMonolith => 7
  }

  /** Steps in strictly increasing rank: the fixed order, each step at most once. */
  predicate Ordered(steps: seq<Step>) {
    forall i, j :: 0 <= i < j < |steps| ==> Rank(steps[i]) < Rank(steps[j])
  }

  /** The step when its condition holds, nothing otherwise. */
  function Gate(b: bool, s: Step): (g: seq<Step>)
    ensures forall x :: x in g <==> b && x == s
    ensures |g| <= 1
  {
    if b then [s] else []
  }

  /** The auto-tagging step is owed. */
  predicate TaggingOwed(link: LinkInput, settings: ArchivalSettings, env: Env) {
    settings.aiTag && link.owner.aiTaggingMethod != Disabled && !link.row.aiTagged && ProvidersConfigured(env)
  }

  /** The capture steps of the page branch, in the order they are awaited. */
  const PageOrder: seq<Step> := [MakePreview, ExtractReadable, ScreenshotAndPdf, AutoTag, ArchiveMonolith]

  /** The condition, on the loaded link's columns and the settings, under which a page step runs. */
  predicate PageGate(link: LinkInput, settings: ArchivalSettings, env: Env, s: Step) {
    var row := link.row;
    match s
    case MakePreview => !Truthy(row.preview)
    case ExtractReadable => settings.archiveAsReadable && !Truthy(row.readable)
    case ScreenshotAndPdf => (settings.archiveAsScreenshot && !Truthy(row.image)) || (settings.archiveAsPDF && !Truthy(row.pdf))
    case AutoTag => TaggingOwed(link, settings, env)
    case ArchiveMonolith => settings.archiveAsMonolith && !Truthy(row.monolith) && Truthy(link.url)
    case _ => false
  }

  /** The page steps that run among the first `k` of `PageOrder`. */
  function PageStepsUpTo(link: LinkInput, settings: ArchivalSettings, env: Env, k: nat): seq<Step>
    requires k <= |PageOrder|
  {
    if k == 0 then []
    else PageStepsUpTo(link, settings, env, k - 1) + Gate(PageGate(link, settings, env, PageOrder[k - 1]), PageOrder[k - 1])
  }

  /** The first `k` page steps are those of the first `k` whose condition holds, in order. */
  lemma {:induction false} PageStepsUpToFacts(link: LinkInput, settings: ArchivalSettings, env: Env, k: nat)
    requires k <= |PageOrder|
    ensures var steps := PageStepsUpTo(link, settings, env, k);
      && (forall x :: x in steps <==> x in PageOrder[..k] && PageGate(link, settings, env, x))
      && (forall x :: x in steps ==> Rank(Load) < Rank(x) < Rank(Load) + 1 + k)
      && Ordered(steps)
  {
    if k > 0 {
      PageStepsUpToFacts(link, settings, env, k - 1);
      var prev := PageStepsUpTo(link, settings, env, k - 1);
      var s := PageOrder[k - 1];
      PageOrderRanks();
      assert Rank(s) == Rank(Load) + k;
      assert PageOrder[..k] == PageOrder[..k - 1] + [s];
      OrderedAppendGate(prev, PageGate(link, settings, env, s), s);
    }
  }

  /** The page steps follow the navigation in rank order. */
  lemma PageOrderRanks()
    ensures forall i :: 0 <= i < |PageOrder| ==> Rank(PageOrder[i]) == Rank(Load) + 1 + i
  {
  }

  /** Appending a step ranked above everything present keeps the order. */
  lemma OrderedAppendGate(steps: seq<Step>, b: bool, s: Step)
    requires Ordered(steps)
    requires forall x :: x in steps ==> Rank(x) < Rank(s)
    ensures Ordered(steps + Gate(b, s))
  {
    var r := steps + Gate(b, s);
    forall i, j | 0 <= i < j < |r| ensures Rank(r[i]) < Rank(r[j]) {
      if j >= |steps| {
        assert r[i] in steps;
      }
    }
  }

  /** The steps of a page run that meets no failure, after the navigation. */
  function PageSteps(link: LinkInput, settings: ArchivalSettings, env: Env): seq<Step> {
    PageStepsUpTo(link, settings, env, |PageOrder|)
  }

  /** A page run stopped after the `k`-th step has started a prefix of the full run. */
  lemma {:induction false} UpToPrefix(link: LinkInput, settings: ArchivalSettings, env: Env, k: nat)
    requires k <= |PageOrder|
    ensures [Load] + PageStepsUpTo(link, settings, env, k) <= [Load] + PageSteps(link, settings, env)
    decreases |PageOrder| - k
  {
    if k < |PageOrder| {
      UpToPrefix(link, settings, env, k + 1);
      var a := [Load] + PageStepsUpTo(link, settings, env, k);
      var b := [Load] + PageStepsUpTo(link, settings, env, k + 1);
      assert b == a + Gate(PageGate(link, settings, env, PageOrder[k]), PageOrder[k]);
      assert a <= b;
    }
  }

  /** Every step a run without failures performs, given the settings and the classified kind. */
  function Planned(link: LinkInput, settings: ArchivalSettings, kind: LinkType, env: Env): (plan: seq<Step>)
    // the image and PDF branches run alone and end the run
    ensures CaptureImage in plan <==> kind == ImageLink && !Truthy(link.row.image)
    ensures CaptureImage in plan ==> plan == [CaptureImage]
    ensures CapturePdf in plan <==> kind == PdfLink && !Truthy(link.row.pdf)
    ensures CapturePdf in plan ==> plan == [CapturePdf]
    // a kind whose artifact exists falls through to the page
    ensures Load in plan <==> CaptureImage !in plan && CapturePdf !in plan && Truthy(link.url)
    ensures MakePreview in plan <==> Load in plan && !Truthy(link.row.preview)
    ensures ExtractReadable in plan <==> Load in plan && settings.archiveAsReadable && !Truthy(link.row.readable)
    ensures ScreenshotAndPdf in plan <==> (Load in plan &&
      ((settings.archiveAsScreenshot && !Truthy(link.row.image)) || (settings.archiveAsPDF && !Truthy(link.row.pdf))))
    ensures AutoTag in plan <==> Load in plan && TaggingOwed(link, settings, env)
    ensures ArchiveMonolith in plan <==> Load in plan && settings.archiveAsMonolith && !Truthy(link.row.monolith)
    // in their fixed order, each at most once
    ensures Ordered(plan)
  {
    if kind == ImageLink && !Truthy(link.row.image) then [CaptureImage]
    else if kind == PdfLink && !Truthy(link.row.pdf) then [CapturePdf]
    else if Truthy(link.url) then
      PageStepsMembers(link, settings, env);
      PageStepsOrdered(link, settings, env);
      [Load] + PageSteps(link, settings, env)
    else []
  }

  /** Which steps the page branch holds, the navigation first. */
  lemma PageStepsMembers(link: LinkInput, settings: ArchivalSettings, env: Env)
    ensures var plan := [Load] + PageSteps(link, settings, env);
      && Load in plan && CaptureImage !in plan && CapturePdf !in plan
      && (MakePreview in plan <==> PageGate(link, settings, env, MakePreview))
      && (ExtractReadable in plan <==> PageGate(link, settings, env, ExtractReadable))
      && (ScreenshotAndPdf in plan <==> PageGate(link, settings, env, ScreenshotAndPdf))
      && (AutoTag in plan <==> PageGate(link, settings, env, AutoTag))
      && (ArchiveMonolith in plan <==> PageGate(link, settings, env, ArchiveMonolith))
      && (plan == [Load] <==> forall s :: s in PageOrder ==> !PageGate(link, settings, env, s))
  {
    var rest := PageSteps(link, settings, env);
    PageRestMembers(link, settings, env);
    assert forall s :: s in [Load] + rest <==> s == Load || s in rest;
    assert [Load] + rest == [Load] <==> rest == [];
  }

  /** Which steps follow the navigation: exactly the page steps whose condition holds. */
  lemma PageRestMembers(link: LinkInput, settings: ArchivalSettings, env: Env)
    ensures var rest := PageSteps(link, settings, env);
      && Load !in rest && CaptureImage !in rest && CapturePdf !in rest
      && (forall s :: s in PageOrder ==> (s in rest <==> PageGate(link, settings, env, s)))
      && (rest == [] <==> forall s :: s in PageOrder ==> !PageGate(link, settings, env, s))
  {
    var rest := PageSteps(link, settings, env);
    PageStepsUpToFacts(link, settings, env, |PageOrder|);
    assert PageOrder[..|PageOrder|] == PageOrder;
    assert |rest| == 0 || rest[0] in rest;
  }

  /** The navigation precedes every page step, and those keep their order. */
  lemma PageStepsOrdered(link: LinkInput, settings: ArchivalSettings, env: Env)
    ensures Ordered([Load] + PageSteps(link, settings, env))
  {
    var rest := PageSteps(link, settings, env);
    PageStepsUpToFacts(link, settings, env, |PageOrder|);
    var plan := [Load] + rest;
    forall i, j | 0 <= i < j < |plan| ensures Rank(plan[i]) < Rank(plan[j]) {
      assert plan[j] == rest[j - 1];
      if i > 0 {
        assert plan[i] == rest[i - 1];
      }
    }
  }

  // ---------------------------------------------------------------------------
  // Reconciliation

  /** The stored name after the run: the new page title replaces it only when the stored
      name is still the challenge title, the title is non-empty, and it differs. */
  function FinalName(stored: string, title: string): (n: string)
    ensures n != stored <==> title != "" && title != stored && stored == ChallengeTitle
    ensures n == stored || n == title
  {
    if title == "" || stored == title || stored != ChallengeTitle then stored else title
  }

  function Fill(column: Option<string>): Option<string> {
    if Truthy(column) then None else Some(Unavailable)
  }

  /** The update of the `finally` block, computed from the re-read row. */
  function FinalizePatch(row: LinkRecord, title: string, tagging: AiTaggingMethod, now: int): Patch {
    Patch(Some(FinalName(row.name, title)), None,
          Fill(row.readable), Fill(row.image), Fill(row.monolith), Fill(row.pdf), Fill(row.preview),
          if tagging != Disabled && !row.aiTagged then Some(true) else None,
          Some(now))
  }

  /** The row after reconciliation. */
  function Finalize(row: LinkRecord, title: string, tagging: AiTaggingMethod, now: int): (r: LinkRecord)
    // nothing is left pending
    ensures Resolved(r)
    // a locator (any non-empty value) is never overwritten; only empty columns become "unavailable"
    ensures forall f: Field :: Truthy(Get(row, f)) ==> Get(r, f) == Get(row, f)
    ensures forall f: Field :: !Truthy(Get(row, f)) ==> Get(r, f) == Some(Unavailable)
    // tagging is stamped done whenever it is enabled, run or not
    ensures r.aiTagged <==> row.aiTagged || tagging != Disabled
    ensures r.name == FinalName(row.name, title)
    ensures r.kind == row.kind && r.lastPreserved == Some(now)
  {
    Apply(row, FinalizePatch(row, title, tagging, now))
  }

  /** Reconciling twice with the same title is reconciling once (up to the timestamp). */
  lemma FinalizeIdempotent(row: LinkRecord, title: string, tagging: AiTaggingMethod, t1: int, t2: int)
    ensures Finalize(Finalize(row, title, tagging, t1), title, tagging, t2) == Finalize(row, title, tagging, t2)
  {
  }

  /** Reconciling a row with nothing pending and no tagging owed only renames it (by the
      challenge-title rule) and stamps it. */
  lemma FinalizeResolved(row: LinkRecord, title: string, tagging: AiTaggingMethod, now: int)
    requires Resolved(row)
    requires row.aiTagged || tagging == Disabled
    ensures Finalize(row, title, tagging, now) == row.(name := FinalName(row.name, title), lastPreserved := Some(now))
  {
    var r := Finalize(row, title, tagging, now);
    assert Get(r, Readable) == row.readable && Get(r, Image) == row.image && Get(r, Monolith) == row.monolith;
    assert Get(r, Pdf) == row.pdf && Get(r, Preview) == row.preview;
  }

  /** A link whose artifact columns are all resolved and which owes no tagging plans no
      capture at all: a run only loads the page again. */
  lemma ResolvedPlansNoCapture(link: LinkInput, settings: ArchivalSettings, kind: LinkType, env: Env)
    requires Resolved(link.row)
    requires link.row.aiTagged || link.owner.aiTaggingMethod == Disabled
    ensures Planned(link, settings, kind, env) == if Truthy(link.url) then [Load] else []
  {
    assert Truthy(Get(link.row, Image)) && Truthy(Get(link.row, Pdf)) && Truthy(Get(link.row, Preview));
    assert Truthy(Get(link.row, Readable)) && Truthy(Get(link.row, Monolith));
    assert !TaggingOwed(link, settings, env);
    PageStepsMembers(link, settings, env);
  }

  /** After a reconciled run, the next run of the same link plans no capture at all: it
      only loads the page again. */
  lemma RerunCapturesNothing(link: LinkInput, row: LinkRecord, title: string, now: int,
                             settings: ArchivalSettings, kind: LinkType, env: Env)
    requires link.row == Finalize(row, title, link.owner.aiTaggingMethod, now)
    ensures Planned(link, settings, kind, env) == if Truthy(link.url) then [Load] else []
  {
    ResolvedPlansNoCapture(link, settings, kind, env);
  }

  /** The two paths differ on existing artifacts: the short-circuit replaces a stored locator
      with "unavailable", reconciliation keeps it. */
  lemma SkipDiscardsLocators(row: LinkRecord, link: LinkInput, env: Env, now: int, title: string, f: Field)
    requires Truthy(Get(row, f)) && Get(row, f) != Some(Unavailable)
    ensures Get(Skipped(row, link, env, now), f) != Get(row, f)
    ensures Get(Finalize(row, title, link.owner.aiTaggingMethod, now), f) == Get(row, f)
  {
  }

  // ---------------------------------------------------------------------------
  // The run

  datatype Fault = Error | Timeout

  /** What an opaque collaborator does: it stores what it produced, or it fails (its own
      error, or the deadline firing while it runs) before storing anything. */
  datatype StepOutcome = Done(patch: Patch) | Failed(fault: Fault)

  datatype Outcome = Completed | Aborted(step: Step, fault: Fault)

  /** Where the content of the page came from, in order. */
  datatype PageSource = Navigated | SolverHtml | MonolithHtml

  /** How opening the browser session goes: `browser.newContext`, `context.addCookies`
      (awaited only when cookies are added) or `context.newPage` may reject. */
  datatype Setup = Opened | ContextRejected | CookiesRejected | PageRejected

  /** Everything the foreign calls of one run yield. */
  datatype World = World(
    contentType: Option<string>,   // the `content-type` of the header probe
    solver: PostOutcome,           // the POST to FlareSolverr
    setup: Setup,                  // opening the browser context and its page
    load: Option<Fault>,           // navigation to the URL, or the first `page.title()`, fails
    title: string,                 // `page.title()` after navigation
    fallbackFault: Option<Fault>,  // setting the solver's HTML, or reading the title after it, fails
    retitle: string,               // `page.title()` after the solver's HTML replaced the page
    snapshotFault: Option<Fault>,  // reading a stored `.html` snapshot, or setting it as the page, fails
    monolithIsHtml: bool,          // a stored `.html` snapshot reads back as text/html
    contentFault: Option<Fault>,   // reading the meta description or `page.content()` fails
    page: Page,                    // what preview selection reads from the page
    og: OgFetch,
    shot: Shot,
    maxBuffer: Option<JsNumber>,   // `Number(PREVIEW_MAX_BUFFER)`, `None` when unset or empty
    save: Save,                    // the writes of a kept screenshot preview
    previewTimeout: bool,          // the deadline fires during preview selection
    image: StepOutcome,            // `imageHandler`
    pdf: StepOutcome,              // `pdfHandler`
    readable: StepOutcome,         // `handleReadability`
    exported: StepOutcome,         // `handleScreenshotAndPdf`
    tag: StepOutcome,              // `autoTagLink`
    monolith: StepOutcome,         // `handleMonolith`
    deleted: bool)                 // the row is deleted by someone else before the `finally` re-read

  /** Opening the session rejects before the `try`, so neither the steps nor the `finally`
      block run. */
  predicate SetupFails(setup: Setup, cookies: Option<seq<Cookie>>) {
    setup == ContextRejected || setup == PageRejected || (setup == CookiesRejected && cookies.Some?)
  }

  /** Awaits one opaque collaborator. */
  method Perform(store: Store, id: nat, o: StepOutcome) returns (fault: Option<Fault>)
    requires id in store.links
    modifies store
    ensures fault == if o.Failed? then Some(o.fault) else None
    ensures o.Done? ==> store.links == old(store.links)[id := Apply(old(store.links)[id], o.patch)]
    ensures o.Done? ==> store.journal == old(store.journal) + [RowUpdated(id, o.patch)]
    ensures o.Failed? ==> store.links == old(store.links) && store.journal == old(store.journal)
  {
    match o
    case Done(patch) =>
      store.Update(id, patch);
      fault := None;
    case Failed(f) =>
      fault := Some(f);
  }

  /** The solver's HTML replaces the page: the title after navigation is exactly the
      challenge title and the solver returned a non-empty response. */
  predicate FallsBack(title: string, captcha: CaptchaSolve) {
    title == ChallengeTitle && captcha.solution.Some? && Truthy(captcha.solution.value.response)
  }

  /** The stored monolith is an `.html` snapshot, which is read back to replace the page. */
  predicate SnapshotIsHtml(row: LinkRecord) {
    row.monolith.Some? && EndsWith(row.monolith.value, ".html")
  }

  /** The page cannot be prepared: navigation or the first title read fails, the solver's HTML
      cannot be set or the title after it read, the stored snapshot cannot be read or set,
      or the page's description or content cannot be read. */
  predicate LoadFails(row: LinkRecord, captcha: CaptchaSolve, world: World) {
    || world.load.Some?
    || (FallsBack(world.title, captcha) && world.fallbackFault.Some?)
    || (SnapshotIsHtml(row) && world.snapshotFault.Some?)
    || world.contentFault.Some?
  }

  /** The first call of the load phase that throws, in the order the page is prepared. */
  function LoadFault(row: LinkRecord, captcha: CaptchaSolve, world: World): (f: Option<Fault>)
    ensures f.Some? <==> LoadFails(row, captcha, world)
  {
    if world.load.Some? then world.load
    else if FallsBack(world.title, captcha) && world.fallbackFault.Some? then world.fallbackFault
    else if SnapshotIsHtml(row) && world.snapshotFault.Some? then world.snapshotFault
    else world.contentFault
  }

  /** `newLinkName` once the page is loaded: empty when the first title read fails, the title
      read after the solver's HTML when that substitution succeeds, the first title otherwise. */
  function PageTitle(captcha: CaptchaSolve, world: World): string {
    if world.load.Some? then ""
    else if FallsBack(world.title, captcha) && world.fallbackFault.None? then world.retitle
    else world.title
  }

  /** The solver's HTML replaced the page. */
  predicate SolverHtmlUsed(captcha: CaptchaSolve, world: World) {
    world.load.None? && FallsBack(world.title, captcha) && world.fallbackFault.None?
  }

  /** The stored snapshot replaced the page, after any substitution of the solver's HTML. */
  predicate SnapshotUsed(row: LinkRecord, captcha: CaptchaSolve, world: World) {
    && world.load.None? && !(FallsBack(world.title, captcha) && world.fallbackFault.Some?)
    && SnapshotIsHtml(row) && world.snapshotFault.None? && world.monolithIsHtml
  }

  function SourceRank(p: PageSource): nat {
    match p
    case Navigated => 0
    case SolverHtml => 1
    case MonolithHtml => 2
  }

  /** Each source at most once: the navigation, then the solver's HTML, then the snapshot. */
  predicate InSourceOrder(sources: seq<PageSource>) {
    forall i, j :: 0 <= i < j < |sources| ==> SourceRank(sources[i]) < SourceRank(sources[j])
  }

  /** Every row other than `id` exists in both tables or in neither, with the same columns. */
  ghost predicate OthersUnchanged(before: map<nat, LinkRecord>, after: map<nat, LinkRecord>, id: nat) {
    forall k :: k != id ==> (k in after <==> k in before) && (k in after ==> after[k] == before[k])
  }

  lemma OthersUnchangedTrans(m0: map<nat, LinkRecord>, m1: map<nat, LinkRecord>, m2: map<nat, LinkRecord>, id: nat)
    requires OthersUnchanged(m0, m1, id) && OthersUnchanged(m1, m2, id)
    ensures OthersUnchanged(m0, m2, id)
  {
  }

  /** What the collaborator behind a capture step (other than the preview) does. */
  function Collaborator(world: World, s: Step): StepOutcome
    requires s != Load && s != MakePreview
  {
    match s
    case CaptureImage => world.image
    case CapturePdf => world.pdf
    case ExtractReadable => world.readable
    case ScreenshotAndPdf => world.exported
    case AutoTag => world.tag
    case ArchiveMonolith => world.monolith
  }

  /** The fault a started step rejects with, if it does: the load phase at its first
      throwing call; preview selection on the deadline or when it rejects; the monolith only
      on the deadline, since its own error is caught and logged; any other collaborator when
      it fails. */
  function StepFault(link: LinkInput, captcha: CaptchaSolve, world: World, s: Step): Option<Fault> {
    match s
    case Load => LoadFault(link.row, captcha, world)
    case MakePreview =>
      if world.previewTimeout then Some(Timeout)
      else if PreviewRejects(link.row.preview, world.page, world.og, world.shot, world.maxBuffer, world.save)
      then Some(Error)
      else None
    case ArchiveMonolith => if world.monolith == Failed(Timeout) then Some(Timeout) else None
    case _ =>
      var o := Collaborator(world, s);
      if o.Failed? then Some(o.fault) else None
  }

  predicate Fails(link: LinkInput, captcha: CaptchaSolve, world: World, s: Step) {
    StepFault(link, captcha, world, s).Some?
  }

  /** None of `steps` fails. */
  predicate NoneFail(link: LinkInput, captcha: CaptchaSolve, world: World, steps: seq<Step>) {
    forall i :: 0 <= i < |steps| ==> !Fails(link, captcha, world, steps[i])
  }

  lemma NoneFailAppend(link: LinkInput, captcha: CaptchaSolve, world: World, steps: seq<Step>, s: Step)
    requires NoneFail(link, captcha, world, steps) && !Fails(link, captcha, world, s)
    ensures NoneFail(link, captcha, world, steps + [s])
  {
    assert forall i :: 0 <= i < |steps| ==> (steps + [s])[i] == steps[i];
  }

  /** The steps of `plan` were awaited in turn and the run stopped at the first that failed:
      the started steps are a prefix of the plan, none of them but the last fails, and the
      run completed with the whole plan or aborted with the last step's own fault. */
  predicate RanUntilFailure(link: LinkInput, captcha: CaptchaSolve, world: World, plan: seq<Step>,
                            trace: seq<Step>, outcome: Outcome) {
    && trace <= plan
    && (outcome.Completed? ==> trace == plan && NoneFail(link, captcha, world, trace))
    && (outcome.Aborted? ==>
          && |trace| > 0
          && trace[|trace| - 1] == outcome.step
          && StepFault(link, captcha, world, outcome.step) == Some(outcome.fault)
          && NoneFail(link, captcha, world, trace[..|trace| - 1]))
  }

  /** A run that stops at its first failure completes exactly when no planned step fails, and
      otherwise ends with the first failing planned step. */
  lemma StopsAtFirstFailure(link: LinkInput, captcha: CaptchaSolve, world: World, plan: seq<Step>,
                            trace: seq<Step>, outcome: Outcome)
    requires RanUntilFailure(link, captcha, world, plan, trace, outcome)
    ensures outcome.Completed? <==> NoneFail(link, captcha, world, plan)
    ensures outcome.Aborted? ==>
      && 0 < |trace| <= |plan|
      && trace == plan[..|trace|]
      && Fails(link, captcha, world, plan[|trace| - 1])
      && NoneFail(link, captcha, world, plan[..|trace| - 1])
  {
    if outcome.Aborted? {
      var n := |trace| - 1;
      assert plan[n] == trace[n];
      assert plan[..n] == trace[..n];
      assert !NoneFail(link, captcha, world, plan) by {
        assert Fails(link, captcha, world, plan[n]);
      }
    }
  }

  /** What a started step writes, in order: a collaborator its update unless it fails, the
      preview step what preview selection writes unless the deadline fires first. */
  function StepEffects(link: LinkInput, world: World, s: Step): seq<Effect> {
    match s
    case Load => []
    case MakePreview =>
      if world.previewTimeout then []
      else PreviewEffects(link.id, link.collectionId, link.row.preview, world.page, world.og,
                          world.shot, world.maxBuffer, world.save)
    case _ =>
      var o := Collaborator(world, s);
      if o.Done? then [RowUpdated(link.id, o.patch)] else []
  }

  /** What the started steps `trace` write, in order. */
  function TraceEffects(link: LinkInput, world: World, trace: seq<Step>): seq<Effect>
    decreases |trace|
  {
    if trace == [] then []
    else TraceEffects(link, world, trace[..|trace| - 1]) + StepEffects(link, world, trace[|trace| - 1])
  }

  lemma TraceEffectsAppend(link: LinkInput, world: World, trace: seq<Step>, s: Step)
    ensures TraceEffects(link, world, trace + [s]) == TraceEffects(link, world, trace) + StepEffects(link, world, s)
  {
    assert (trace + [s])[..|trace|] == trace;
  }

  /** Navigating alone writes nothing. */
  lemma LoadWritesNothing(link: LinkInput, world: World, trace: seq<Step>)
    requires trace <= [Load]
    ensures TraceEffects(link, world, trace) == []
  {
    if trace != [] {
      assert trace == [Load];
      assert trace[..0] == [];
    }
  }

  /** Since the journal stood at `j0` and the row at `r0`, the run has started the steps
      `trace`: the journal holds exactly their writes, in order, and the row is what those
      writes make of it. */
  predicate RunSoFar(link: LinkInput, world: World, trace: seq<Step>, j0: seq<Effect>, r0: LinkRecord,
                     journal: seq<Effect>, links: map<nat, LinkRecord>) {
    && link.id in links
    && journal == j0 + TraceEffects(link, world, trace)
    && links[link.id] == Replay(r0, link.id, TraceEffects(link, world, trace))
  }

  /** Starting one more step extends the journal by its writes and the row by their replay. */
  lemma RunAdvances(link: LinkInput, world: World, trace: seq<Step>, s: Step, j0: seq<Effect>, r0: LinkRecord,
                    journal: seq<Effect>, links: map<nat, LinkRecord>, journal': seq<Effect>, links': map<nat, LinkRecord>)
    requires RunSoFar(link, world, trace, j0, r0, journal, links)
    requires journal' == journal + StepEffects(link, world, s)
    requires link.id in links' && links'[link.id] == Replay(links[link.id], link.id, StepEffects(link, world, s))
    ensures RunSoFar(link, world, trace + [s], j0, r0, journal', links')
  {
    var prior, step := TraceEffects(link, world, trace), StepEffects(link, world, s);
    TraceEffectsAppend(link, world, trace, s);
    ReplayAppend(r0, link.id, prior, step);
    JournalAssoc(j0, prior, step);
  }

  /** Before any step, nothing is written. */
  lemma RunSoFarEmpty(link: LinkInput, world: World, j0: seq<Effect>, r0: LinkRecord, links: map<nat, LinkRecord>)
    requires link.id in links && links[link.id] == r0
    ensures RunSoFar(link, world, [], j0, r0, j0, links)
  {
    assert j0 + [] == j0;
  }

  /** Before any capture step, the navigation has written nothing. */
  lemma RunSoFarStart(link: LinkInput, world: World, j0: seq<Effect>, r0: LinkRecord, links: map<nat, LinkRecord>)
    requires link.id in links && links[link.id] == r0
    ensures RunSoFar(link, world, [Load], j0, r0, j0, links)
  {
    LoadWritesNothing(link, world, [Load]);
    assert j0 + [] == j0;
  }

  /** Runs one capture step after the navigation and reports how it failed, if it did. */
  method RunStep(store: Store, link: LinkInput, world: World, s: Step) returns (fault: Option<Fault>)
    requires link.id in store.links
    requires s != Load
    modifies store
    ensures s != MakePreview ==> fault == if Collaborator(world, s).Failed? then Some(Collaborator(world, s).fault) else None
    // preview selection fails on the deadline or when it rejects
    ensures s == MakePreview ==>
              fault == if world.previewTimeout then Some(Timeout)
                       else if PreviewRejects(link.row.preview, world.page, world.og, world.shot, world.maxBuffer, world.save)
                       then Some(Error) else None
    // what the step writes, and the row exactly as those writes leave it
    ensures store.journal == old(store.journal) + StepEffects(link, world, s)
    ensures link.id in store.links
    ensures store.links[link.id] == Replay(old(store.links)[link.id], link.id, StepEffects(link, world, s))
    ensures OthersUnchanged(old(store.links), store.links, link.id)
  {
    if s == MakePreview {
      if world.previewTimeout {
        return Some(Timeout);
      }
      var ogImage, headers, generated, fellBack, stored, rejected :=
        HandleArchivePreview(store, link.id, link.collectionId, link.row.preview,
                             world.page, world.og, world.shot, world.maxBuffer, world.save);
      fault := if rejected then Some(Error) else None;
    } else {
      var o := Collaborator(world, s);
      assert StepEffects(link, world, s) == if o.Done? then [RowUpdated(link.id, o.patch)] else [];
      if o.Done? {
        ReplayUpdate(store.links[link.id], link.id, o.patch);
      }
      fault := Perform(store, link.id, o);
    }
  }

  /** The load phase of the page branch: navigate, apply the challenge fallback at most
      once, substitute a stored HTML snapshot, and read the page. It fails at the first
      call that throws, and writes nothing. */
  method LoadPage(row: LinkRecord, captcha: CaptchaSolve, world: World)
    returns (fault: Option<Fault>, title: string, sources: seq<PageSource>)
    ensures fault.Some? <==> LoadFails(row, captcha, world)
    ensures fault == LoadFault(row, captcha, world)
    ensures title == PageTitle(captcha, world)
    ensures Navigated in sources <==> world.load.None?
    ensures SolverHtml in sources <==> SolverHtmlUsed(captcha, world)
    ensures MonolithHtml in sources <==> SnapshotUsed(row, captcha, world)
    ensures InSourceOrder(sources)
  {
    fault, title, sources := None, "", [];
    if world.load.Some? {
      return world.load, title, sources;
    }
    title := world.title;
    sources := [Navigated];
    if FallsBack(title, captcha) {
      if world.fallbackFault.Some? {
        return world.fallbackFault, title, sources;
      }
      sources := sources + [SolverHtml];
      title := world.retitle;
    }
    if SnapshotIsHtml(row) {
      if world.snapshotFault.Some? {
        return world.snapshotFault, title, sources;
      }
      if world.monolithIsHtml {
        sources := sources + [MonolithHtml];
      }
    }
    fault := world.contentFault;
  }

  /** The page branch: the load phase, then the capture steps. */
  method CapturePage(store: Store, link: LinkInput, settings: ArchivalSettings, env: Env,
                     captcha: CaptchaSolve, world: World)
    returns (trace: seq<Step>, outcome: Outcome, title: string, sources: seq<PageSource>)
    requires link.id in store.links
    requires Truthy(link.url)
    modifies store
    // the navigation and the capture steps, awaited in turn up to the first that fails
    ensures RanUntilFailure(link, captcha, world, [Load] + PageSteps(link, settings, env), trace, outcome)
    ensures |trace| > 0 && trace[0] == Load
    ensures outcome.Aborted? && outcome.step == Load <==> LoadFails(link.row, captcha, world)
    // a failing monolith ends the run only through the deadline
    ensures outcome.Aborted? && outcome.step == ArchiveMonolith ==> outcome.fault == Timeout
    ensures title == PageTitle(captcha, world)
    ensures Navigated in sources <==> world.load.None?
    ensures SolverHtml in sources <==> SolverHtmlUsed(captcha, world)
    ensures MonolithHtml in sources <==> SnapshotUsed(link.row, captcha, world)
    ensures InSourceOrder(sources)
    // the journal gains what the started steps write, and the row is what they make of it
    ensures RunSoFar(link, world, trace, old(store.journal), old(store.links)[link.id], store.journal, store.links)
    ensures OthersUnchanged(old(store.links), store.links, link.id)
  {
    var fault;
    fault, title, sources := LoadPage(link.row, captcha, world);
    if fault.Some? {
      UpToPrefix(link, settings, env, 0);
      RunSoFarStart(link, world, store.journal, store.links[link.id], store.links);
      assert [Load][..0] == [];
      return [Load], Aborted(Load, fault.value), title, sources;
    }
    trace, outcome := RunCaptures(store, link, settings, env, captcha, world);
  }

  /** How a gated capture step ends: it aborts the run exactly when its condition holds and
      it fails, and then with its own fault. */
  predicate GateOutcome(link: LinkInput, settings: ArchivalSettings, env: Env, captcha: CaptchaSolve, world: World,
                        s: Step, outcome: Outcome) {
    outcome ==
      if PageGate(link, settings, env, s) && Fails(link, captcha, world, s)
      then Aborted(s, StepFault(link, captcha, world, s).value)
      else Completed
  }

  /** The steps a page run has started once it reached the `k`-th capture step (`0`: only
      the navigation). */
  function Started(link: LinkInput, settings: ArchivalSettings, env: Env, k: nat): (trace: seq<Step>)
    requires k <= |PageOrder|
    ensures trace <= [Load] + PageSteps(link, settings, env)
    ensures |trace| > 0 && trace[0] == Load
    ensures 0 < k && PageGate(link, settings, env, PageOrder[k - 1]) ==> |trace| > 1 && trace[|trace| - 1] == PageOrder[k - 1]
  {
    UpToPrefix(link, settings, env, k);
    [Load] + PageStepsUpTo(link, settings, env, k)
  }

  /** Reaching the `k`-th capture step adds it to the started steps exactly when its
      condition holds. */
  lemma StartedStep(link: LinkInput, settings: ArchivalSettings, env: Env, k: nat)
    requires 0 < k <= |PageOrder|
    ensures PageGate(link, settings, env, PageOrder[k - 1]) ==>
      Started(link, settings, env, k) == Started(link, settings, env, k - 1) + [PageOrder[k - 1]]
    ensures !PageGate(link, settings, env, PageOrder[k - 1]) ==>
      Started(link, settings, env, k) == Started(link, settings, env, k - 1)
  {
    var prev := PageStepsUpTo(link, settings, env, k - 1);
    var g := Gate(PageGate(link, settings, env, PageOrder[k - 1]), PageOrder[k - 1]);
    assert [Load] + (prev + g) == ([Load] + prev) + g;
    if g == [] {
      assert ([Load] + prev) + g == [Load] + prev;
    }
  }

  /** The `k`-th capture step of a loaded page: awaited when its condition holds. Its fault
      ends the branch, except a failing monolith, whose own error is caught and logged so
      that only the deadline ends the run there. `j0` and `r0` are the journal and the row
      when the captures began. */
  method GatedStep(store: Store, link: LinkInput, settings: ArchivalSettings, env: Env, ghost captcha: CaptchaSolve,
                   world: World, k: nat, ghost j0: seq<Effect>, ghost r0: LinkRecord)
    returns (outcome: Outcome)
    requires 0 < k <= |PageOrder|
    requires RunSoFar(link, world, Started(link, settings, env, k - 1), j0, r0, store.journal, store.links)
    modifies store
    ensures GateOutcome(link, settings, env, captcha, world, PageOrder[k - 1], outcome)
    ensures outcome.Aborted? && outcome.step == ArchiveMonolith ==> outcome.fault == Timeout
    // a closed gate changes nothing; an open one writes what the step writes
    ensures !PageGate(link, settings, env, PageOrder[k - 1]) ==>
      store.links == old(store.links) && store.journal == old(store.journal)
    ensures PageGate(link, settings, env, PageOrder[k - 1]) ==>
      store.journal == old(store.journal) + StepEffects(link, world, PageOrder[k - 1])
    ensures RunSoFar(link, world, Started(link, settings, env, k), j0, r0, store.journal, store.links)
    ensures OthersUnchanged(old(store.links), store.links, link.id)
  {
    var s := PageOrder[k - 1];
    StartedStep(link, settings, env, k);
    outcome := Completed;
    if PageGate(link, settings, env, s) {
      ghost var journal, links := store.journal, store.links;
      var fault := RunStep(store, link, world, s);
      RunAdvances(link, world, Started(link, settings, env, k - 1), s, j0, r0, journal, links, store.journal, store.links);
      if s == ArchiveMonolith && fault != Some(Timeout) {
        fault := None;
      }
      assert fault == StepFault(link, captcha, world, s);
      if fault.Some? {
        outcome := Aborted(s, fault.value);
      }
    }
  }

  /** How the capture steps of a loaded page end: the page run, begun by the navigation,
      awaited in turn up to its first failing capture step. */
  predicate CapturesEnded(link: LinkInput, settings: ArchivalSettings, env: Env, captcha: CaptchaSolve, world: World,
                          trace: seq<Step>, outcome: Outcome) {
    && RanUntilFailure(link, captcha, world, [Load] + PageSteps(link, settings, env), trace, outcome)
    && |trace| > 0 && trace[0] == Load
    && (outcome.Aborted? ==> |trace| > 1 && outcome.step != Load)
  }

  /** Stopping at the `k`-th capture step, by its failure or (at the last one) by completing,
      ends the captures as planned. */
  lemma StartedEnds(link: LinkInput, settings: ArchivalSettings, env: Env, captcha: CaptchaSolve, world: World,
                    k: nat, outcome: Outcome)
    requires 0 < k <= |PageOrder|
    requires NoneFail(link, captcha, world, Started(link, settings, env, k - 1))
    requires GateOutcome(link, settings, env, captcha, world, PageOrder[k - 1], outcome)
    requires outcome.Completed? ==> k == |PageOrder|
    ensures CapturesEnded(link, settings, env, captcha, world, Started(link, settings, env, k), outcome)
  {
    PageOrderRanks();
    StartedStep(link, settings, env, k);
    var prev, s := Started(link, settings, env, k - 1), PageOrder[k - 1];
    if PageGate(link, settings, env, s) {
      assert (prev + [s])[..|prev|] == prev;
      if !Fails(link, captcha, world, s) {
        NoneFailAppend(link, captcha, world, prev, s);
      }
    }
  }

  /** A capture step that is skipped or passes keeps the started steps free of failures. */
  lemma StartedPasses(link: LinkInput, settings: ArchivalSettings, env: Env, captcha: CaptchaSolve, world: World,
                      k: nat)
    requires 0 < k <= |PageOrder|
    requires NoneFail(link, captcha, world, Started(link, settings, env, k - 1))
    requires PageGate(link, settings, env, PageOrder[k - 1]) ==> !Fails(link, captcha, world, PageOrder[k - 1])
    ensures NoneFail(link, captcha, world, Started(link, settings, env, k))
  {
    StartedStep(link, settings, env, k);
    if PageGate(link, settings, env, PageOrder[k - 1]) {
      NoneFailAppend(link, captcha, world, Started(link, settings, env, k - 1), PageOrder[k - 1]);
    }
  }

  /** The capture steps of a loaded page from the `k`-th on, each awaited in turn until one
      fails. `j0` and `r0` are the journal and the row when the captures began. */
  method CapturesFrom(store: Store, link: LinkInput, settings: ArchivalSettings, env: Env, ghost captcha: CaptchaSolve,
                      world: World, k: nat, ghost j0: seq<Effect>, ghost r0: LinkRecord)
    returns (trace: seq<Step>, outcome: Outcome)
    requires 0 < k <= |PageOrder|
    requires NoneFail(link, captcha, world, Started(link, settings, env, k - 1))
    requires RunSoFar(link, world, Started(link, settings, env, k - 1), j0, r0, store.journal, store.links)
    modifies store
    decreases |PageOrder| - k, 1
    ensures CapturesEnded(link, settings, env, captcha, world, trace, outcome)
    ensures RunSoFar(link, world, trace, j0, r0, store.journal, store.links)
    ensures OthersUnchanged(old(store.links), store.links, link.id)
  {
    outcome := GatedStep(store, link, settings, env, captcha, world, k, j0, r0);
    ghost var before := store.links;
    trace, outcome := CapturesAfter(store, link, settings, env, captcha, world, k, outcome, j0, r0);
    OthersUnchangedTrans(old(store.links), before, store.links, link.id);
  }

  /** What follows the `k`-th capture step, given how it ended: the run stops when it
      aborted or was the last, and goes on with the next otherwise. */
  method CapturesAfter(store: Store, link: LinkInput, settings: ArchivalSettings, env: Env, ghost captcha: CaptchaSolve,
                       world: World, k: nat, stepOutcome: Outcome, ghost j0: seq<Effect>, ghost r0: LinkRecord)
    returns (trace: seq<Step>, outcome: Outcome)
    requires 0 < k <= |PageOrder|
    requires NoneFail(link, captcha, world, Started(link, settings, env, k - 1))
    requires GateOutcome(link, settings, env, captcha, world, PageOrder[k - 1], stepOutcome)
    requires RunSoFar(link, world, Started(link, settings, env, k), j0, r0, store.journal, store.links)
    modifies store
    decreases |PageOrder| - k, 0
    ensures CapturesEnded(link, settings, env, captcha, world, trace, outcome)
    ensures RunSoFar(link, world, trace, j0, r0, store.journal, store.links)
    ensures OthersUnchanged(old(store.links), store.links, link.id)
  {
    if stepOutcome.Aborted? || k == |PageOrder| {
      StartedEnds(link, settings, env, captcha, world, k, stepOutcome);
      return Started(link, settings, env, k), stepOutcome;
    }
    StartedPasses(link, settings, env, captcha, world, k);
    trace, outcome := CapturesFrom(store, link, settings, env, captcha, world, k + 1, j0, r0);
  }

  /** The capture steps of a loaded page, each awaited in turn. */
  method RunCaptures(store: Store, link: LinkInput, settings: ArchivalSettings, env: Env, ghost captcha: CaptchaSolve,
                     world: World)
    returns (trace: seq<Step>, outcome: Outcome)
    requires link.id in store.links
    requires !LoadFails(link.row, captcha, world)
    modifies store
    ensures CapturesEnded(link, settings, env, captcha, world, trace, outcome)
    // the journal gains what the started steps write, and the row is what they make of it
    ensures RunSoFar(link, world, trace, old(store.journal), old(store.links)[link.id], store.journal, store.links)
    ensures OthersUnchanged(old(store.links), store.links, link.id)
  {
    ghost var j0, r0 := store.journal, store.links[link.id];
    RunSoFarStart(link, world, j0, r0, store.links);
    assert Started(link, settings, env, 0) == [Load];
    assert !Fails(link, captcha, world, Load);
    trace, outcome := CapturesFrom(store, link, settings, env, captcha, world, 1, j0, r0);
  }

  /** The `finally` block: re-read the row (which someone may have deleted meanwhile), then
      either reconcile it or remove the link's files. */
  method Reconcile(store: Store, link: LinkInput, title: string, deleted: bool, now: int)
    returns (reread: Option<LinkRecord>)
    requires link.id in store.links
    modifies store
    ensures reread.Some? <==> !deleted
    ensures reread.Some? ==> reread.value == old(store.links)[link.id]
    ensures !deleted ==> link.id in store.links
    ensures !deleted ==> store.links[link.id] == Finalize(reread.value, title, link.owner.aiTaggingMethod, now)
    ensures !deleted ==> store.journal == old(store.journal) + [RowUpdated(link.id, FinalizePatch(reread.value, title, link.owner.aiTaggingMethod, now))]
    ensures !deleted ==> Resolved(store.links[link.id])
    ensures !deleted ==> (|store.journal| > 0 &&
      store.journal[|store.journal| - 1] == RowUpdated(link.id, FinalizePatch(reread.value, title, link.owner.aiTaggingMethod, now)))
    // a row that is gone gets its files removed and no update
    ensures deleted ==> link.id !in store.links
    ensures deleted ==> store.journal == old(store.journal) + [RowDeleted(link.id), FilesRemoved(link.id, link.collectionId)]
    ensures deleted ==> (|store.journal| >= 2 &&
      store.journal[|store.journal| - 2..] == [RowDeleted(link.id), FilesRemoved(link.id, link.collectionId)])
    ensures OthersUnchanged(old(store.links), store.links, link.id)
  {
    if deleted {
      store.Delete(link.id);
    }
    reread := store.Find(link.id);
    if reread.Some? {
      var stored := reread.value;
      var newLinkName := title;
      if newLinkName == "" || stored.name == newLinkName || stored.name != ChallengeTitle {
        newLinkName := stored.name;
      }
      var patch := Patch(
        Some(newLinkName), None,
        if !Truthy(stored.readable) then Some(Unavailable) else None,
        if !Truthy(stored.image) then Some(Unavailable) else None,
        if !Truthy(stored.monolith) then Some(Unavailable) else None,
        if !Truthy(stored.pdf) then Some(Unavailable) else None,
        if !Truthy(stored.preview) then Some(Unavailable) else None,
        if link.owner.aiTaggingMethod != Disabled && !stored.aiTagged then Some(true) else None,
        Some(now));
      assert patch == FinalizePatch(stored, title, link.owner.aiTaggingMethod, now);
      store.Update(link.id, patch);
    } else {
      store.RemoveFiles(link.id, link.collectionId);
    }
  }

  /** What one run did, for the caller's inspection. */
  datatype RunReport =
    | SkippedRun
    | SetupFailed(
        solve: SolveAttempt,
        options: ContextOptions,
        cookies: Option<seq<Cookie>>)
    | Ran(
        solve: SolveAttempt,              // the solver request sent (if any) and its result
        options: ContextOptions,          // the options the browser context was opened with
        cookies: Option<seq<Cookie>>,     // the cookies added to the context, if any were
        settings: ArchivalSettings,
        classified: Classification,
        wayback: bool,                    // the fire-and-forget Wayback submission was issued
        trace: seq<Step>,                 // the steps started, in order
        outcome: Outcome,                 // `Aborted` is re-thrown after reconciliation
        sources: seq<PageSource>,
        title: string,                    // `newLinkName` before reconciliation
        reread: Option<LinkRecord>)       // the row the `finally` block found

  /** The session is given the solver's cookies: the solver did not report a failure or a
      skip, and it returned a solution. */
  predicate CookiesAdded(captcha: CaptchaSolve) {
    captcha.status !in {Some("error"), Some("fail"), Some("skip")} && captcha.solution.Some?
  }

  /** The image or PDF capture of a link whose type calls for it: the one step of its run. */
  method CaptureAlone(store: Store, link: LinkInput, ghost captcha: CaptchaSolve, world: World, s: Step)
    returns (trace: seq<Step>, outcome: Outcome)
    requires link.id in store.links
    requires s == CaptureImage || s == CapturePdf
    modifies store
    ensures trace == [s]
    ensures outcome == if Collaborator(world, s).Failed? then Aborted(s, Collaborator(world, s).fault) else Completed
    ensures RanUntilFailure(link, captcha, world, [s], trace, outcome)
    ensures RunSoFar(link, world, trace, old(store.journal), old(store.links)[link.id], store.journal, store.links)
    ensures OthersUnchanged(old(store.links), store.links, link.id)
  {
    ghost var j0, links0 := store.journal, store.links;
    RunSoFarEmpty(link, world, j0, links0[link.id], links0);
    var fault := RunStep(store, link, world, s);
    RunAdvances(link, world, [], s, j0, links0[link.id], j0, links0, store.journal, store.links);
    trace := [s];
    assert [] + [s] == trace;
    outcome := if fault.Some? then Aborted(s, fault.value) else Completed;
    assert trace[..0] == [];
  }

  /** The branch a run takes after classification: the image or PDF capture alone when
      that kind's artifact is missing, the page otherwise. */
  method CaptureLink(store: Store, link: LinkInput, settings: ArchivalSettings, kind: LinkType, env: Env,
                     captcha: CaptchaSolve, world: World)
    returns (trace: seq<Step>, outcome: Outcome, title: string, sources: seq<PageSource>)
    requires link.id in store.links
    requires Truthy(link.url)
    modifies store
    // the planned steps, awaited in turn up to the first that fails
    ensures RanUntilFailure(link, captcha, world, Planned(link, settings, kind, env), trace, outcome)
    ensures outcome.Aborted? && outcome.step == Load <==> Load in trace && LoadFails(link.row, captcha, world)
    ensures title == if Load in trace then PageTitle(captcha, world) else ""
    ensures Navigated in sources <==> Load in trace && world.load.None?
    ensures SolverHtml in sources <==> Load in trace && SolverHtmlUsed(captcha, world)
    ensures MonolithHtml in sources <==> Load in trace && SnapshotUsed(link.row, captcha, world)
    ensures InSourceOrder(sources)
    // the journal gains what the started steps write, and the row is what they make of it
    ensures RunSoFar(link, world, trace, old(store.journal), old(store.links)[link.id], store.journal, store.links)
    ensures OthersUnchanged(old(store.links), store.links, link.id)
  {
    trace, outcome, title, sources := [], Completed, "", [];
    if kind == ImageLink && !Truthy(link.row.image) {
      assert Planned(link, settings, kind, env) == [CaptureImage];
      trace, outcome := CaptureAlone(store, link, captcha, world, CaptureImage);
    } else if kind == PdfLink && !Truthy(link.row.pdf) {
      assert Planned(link, settings, kind, env) == [CapturePdf];
      trace, outcome := CaptureAlone(store, link, captcha, world, CapturePdf);
    } else {
      // the short-circuit let only http(s) URLs through, so archiveHandler's `link.url` test holds here
      assert Planned(link, settings, kind, env) == [Load] + PageSteps(link, settings, env);
      trace, outcome, title, sources := CapturePage(store, link, settings, env, captcha, world);
      assert trace[0] in trace;
    }
  }

  /** The browser context of a run, from the solver's answer: the default options, the
      solver's user agent when it gave one, and the solver's cookies unless it reported a
      failure or a skip. */
  predicate SessionSetUp(env: Env, device: DeviceProfile, url: string, post: PostOutcome,
                         attempt: SolveAttempt, options: ContextOptions, cookies: Option<seq<Cookie>>) {
    && attempt == SolveCaptcha(env, url, DefaultMaxTimeout, post)
    && options.(userAgent := device.userAgent) == GetDefaultContextOptions(env, device)
    && options.userAgent == (if Truthy(attempt.result.userAgent) then attempt.result.userAgent.value else device.userAgent)
    && (cookies.Some? <==> CookiesAdded(attempt.result))
    && (cookies.Some? ==> cookies.value == attempt.result.solution.value.cookies)
  }

  /** The browser context of a run: the options, the solver's answer and the cookies. */
  method OpenSession(env: Env, device: DeviceProfile, url: string, post: PostOutcome)
    returns (attempt: SolveAttempt, options: ContextOptions, cookies: Option<seq<Cookie>>)
    ensures SessionSetUp(env, device, url, post, attempt, options, cookies)
  {
    options := GetDefaultContextOptions(env, device);
    attempt := SolveCaptcha(env, url, DefaultMaxTimeout, post);
    var captchaSolve := attempt.result;
    if Truthy(captchaSolve.userAgent) {
      options := options.(userAgent := captchaSolve.userAgent.value);
    }
    cookies := None;
    if captchaSolve.status == Some("error") || captchaSolve.status == Some("fail") || captchaSolve.status == Some("skip") {
      // only logged
    } else if captchaSolve.solution.Some? {
      cookies := Some(captchaSolve.solution.value.cookies);
    }
  }

  /** What a run that got past the session set-up guarantees, stated over what it produced,
      the row `before` and journal `journal0` it started from, and the Link table and
      journal it leaves behind. */
  predicate RanAsSpecified(link: LinkInput, env: Env, world: World, now: int, captcha: CaptchaSolve,
                           settings: ArchivalSettings, classified: Classification, wayback: bool,
                           trace: seq<Step>, outcome: Outcome, sources: seq<PageSource>, title: string,
                           reread: Option<LinkRecord>, before: LinkRecord, journal0: seq<Effect>,
                           links: map<nat, LinkRecord>, journal: seq<Effect>)
  {
    // settings, classification and the steps, in order, up to the first failure
    && settings == ResolveSettings(link.tags, link.owner)
    && classified == Classify(world.contentType)
    && (wayback <==> settings.archiveAsWaybackMachine)
    && RanUntilFailure(link, captcha, world, Planned(link, settings, classified.kind, env), trace, outcome)
    && (outcome.Aborted? && outcome.step == Load <==> Load in trace && LoadFails(link.row, captcha, world))
    // the page: navigated, then the solver's HTML (only on the exact challenge title), then a snapshot
    && InSourceOrder(sources)
    && (Navigated in sources <==> Load in trace && world.load.None?)
    && (SolverHtml in sources <==> Load in trace && SolverHtmlUsed(captcha, world))
    && (MonolithHtml in sources <==> Load in trace && SnapshotUsed(link.row, captcha, world))
    && title == (if Load in trace then PageTitle(captcha, world) else "")
    // the row the `finally` block re-reads: the starting row with its type stored, then
    // every write of the started steps
    && (reread.Some? <==> !world.deleted)
    && (!world.deleted ==>
          && reread.value == Replay(before.(kind := classified.kind), link.id, TraceEffects(link, world, trace))
          && link.id in links
          && links[link.id] == Finalize(reread.value, title, link.owner.aiTaggingMethod, now)
          && Resolved(links[link.id])
          && journal == journal0 + [RowUpdated(link.id, Untouched.(kind := Some(classified.kind)))]
                                 + TraceEffects(link, world, trace)
                                 + [RowUpdated(link.id, FinalizePatch(reread.value, title, link.owner.aiTaggingMethod, now))])
    // a row deleted meanwhile: its files are removed and nothing is written to it
    && (world.deleted ==>
          && link.id !in links
          && journal == journal0 + [RowUpdated(link.id, Untouched.(kind := Some(classified.kind)))]
                                 + TraceEffects(link, world, trace)
                                 + [RowDeleted(link.id), FilesRemoved(link.id, link.collectionId)])
  }

  /** The `try` and `finally` of a run whose session is open: settings, classification, the
      capture branch, and the reconciliation. */
  method PreserveLink(store: Store, link: LinkInput, env: Env, world: World, now: int, captcha: CaptchaSolve)
    returns (settings: ArchivalSettings, classified: Classification, wayback: bool,
             trace: seq<Step>, outcome: Outcome, sources: seq<PageSource>, title: string,
             reread: Option<LinkRecord>)
    requires link.id in store.links
    requires IsHttpUrl(link.url)
    modifies store
    ensures RanAsSpecified(link, env, world, now, captcha, settings, classified, wayback, trace, outcome,
                           sources, title, reread, old(store.links)[link.id], old(store.journal),
                           store.links, store.journal)
    // no other row is touched
    ensures OthersUnchanged(old(store.links), store.links, link.id)
  {
    settings := ResolveSettings(link.tags, link.owner);
    ghost var before := store.links;
    var probed;
    classified, probed := DetermineLinkType(store, link.id, link.url, world.contentType);
    wayback := settings.archiveAsWaybackMachine && Truthy(link.url);
    OthersUnchangedTrans(old(store.links), before, store.links, link.id);

    before := store.links;
    trace, outcome, title, sources := CaptureLink(store, link, settings, classified.kind, env, captcha, world);
    OthersUnchangedTrans(old(store.links), before, store.links, link.id);

    before := store.links;
    reread := Reconcile(store, link, title, world.deleted, now);
    OthersUnchangedTrans(old(store.links), before, store.links, link.id);
  }

  /** `archiveHandler(link, browser)` at time `now`. */
  method ArchiveLink(store: Store, link: LinkInput, env: Env, device: DeviceProfile, world: World, now: int)
    returns (rep: RunReport)
    requires link.id in store.links
    modifies store
    // the short-circuit: one update, nothing captured
    ensures rep.SkippedRun? <==> ShortCircuits(env, link.url)
    ensures rep.SkippedRun? ==>
      store.links == old(store.links)[link.id := Skipped(old(store.links)[link.id], link, env, now)]
    ensures rep.SkippedRun? ==> store.journal == old(store.journal) + [RowUpdated(link.id, SkipPatch(link, env, now))]
    // otherwise the session is opened from the solver's answer
    ensures !rep.SkippedRun? ==> SessionSetUp(env, device, link.url.value, world.solver, rep.solve, rep.options, rep.cookies)
    // a session that cannot be opened rejects before the `try`: nothing is written at all
    ensures !rep.SkippedRun? ==> (rep.SetupFailed? <==> SetupFails(world.setup, rep.cookies))
    ensures rep.SetupFailed? ==> store.links == old(store.links) && store.journal == old(store.journal)
    // otherwise the run does what `PreserveLink` promises
    ensures rep.Ran? ==>
      RanAsSpecified(link, env, world, now, rep.solve.result, rep.settings, rep.classified, rep.wayback,
                     rep.trace, rep.outcome, rep.sources, rep.title, rep.reread,
                     old(store.links)[link.id], old(store.journal), store.links, store.journal)
    // no other row is touched
    ensures OthersUnchanged(old(store.links), store.links, link.id)
  {
    if PreservationDisabled(env) || !IsHttpUrl(link.url) {
      store.Update(link.id, SkipPatch(link, env, now));
      return SkippedRun;
    }
    var attempt, options, cookies := OpenSession(env, device, link.url.value, world.solver);
    if SetupFails(world.setup, cookies) {
      return SetupFailed(attempt, options, cookies);
    }
    var settings, classified, wayback, trace, outcome, sources, title, reread :=
      PreserveLink(store, link, env, world, now, attempt.result);
    rep := Ran(attempt, options, cookies, settings, classified, wayback, trace, outcome, sources, title, reread);
  }

  /** Re-running a link whose artifact columns are all resolved and which owes no tagging,
      from the row it was loaded with, rewrites only its type, its name (by the
      challenge-title rule) and its timestamp. */
  lemma RerunOnlyRestamps(link: LinkInput, env: Env, world: World, now: int, captcha: CaptchaSolve,
                          settings: ArchivalSettings, classified: Classification, wayback: bool,
                          trace: seq<Step>, outcome: Outcome, sources: seq<PageSource>, title: string,
                          reread: Option<LinkRecord>, journal0: seq<Effect>,
                          links: map<nat, LinkRecord>, journal: seq<Effect>)
    requires IsHttpUrl(link.url)
    requires Resolved(link.row)
    requires link.row.aiTagged || link.owner.aiTaggingMethod == Disabled
    requires !world.deleted
    requires RanAsSpecified(link, env, world, now, captcha, settings, classified, wayback, trace, outcome,
                            sources, title, reread, link.row, journal0, links, journal)
    ensures trace <= [Load]
    ensures link.id in links
    ensures links[link.id] ==
      link.row.(kind := classified.kind, name := FinalName(link.row.name, title), lastPreserved := Some(now))
    ensures journal == journal0 + [RowUpdated(link.id, Untouched.(kind := Some(classified.kind))),
                                   RowUpdated(link.id, FinalizePatch(reread.value, title, link.owner.aiTaggingMethod, now))]
  {
    ResolvedPlansNoCapture(link, settings, classified.kind, env);
    LoadWritesNothing(link, world, trace);
    var typed := link.row.(kind := classified.kind);
    assert TraceEffects(link, world, trace) == [];
    assert reread.value == typed;
    JournalAround(journal0, RowUpdated(link.id, Untouched.(kind := Some(classified.kind))),
                  RowUpdated(link.id, FinalizePatch(reread.value, title, link.owner.aiTaggingMethod, now)));
    ResolvedRetyped(link.row, classified.kind);
    FinalizeResolved(typed, title, link.owner.aiTaggingMethod, now);
  }

  /** A run that keeps its row leaves it with nothing pending and no tagging owed, so a
      second run over that row only stores its type, renames it and stamps it again. */
  lemma RerunIdempotent(link: LinkInput, env: Env, journal0: seq<Effect>,
                        world1: World, now1: int, captcha1: CaptchaSolve, settings1: ArchivalSettings,
                        classified1: Classification, wayback1: bool, trace1: seq<Step>, outcome1: Outcome,
                        sources1: seq<PageSource>, title1: string, reread1: Option<LinkRecord>,
                        links1: map<nat, LinkRecord>, journal1: seq<Effect>,
                        world2: World, now2: int, captcha2: CaptchaSolve, settings2: ArchivalSettings,
                        classified2: Classification, wayback2: bool, trace2: seq<Step>, outcome2: Outcome,
                        sources2: seq<PageSource>, title2: string, reread2: Option<LinkRecord>,
                        links2: map<nat, LinkRecord>, journal2: seq<Effect>)
    requires IsHttpUrl(link.url)
    requires !world1.deleted && !world2.deleted
    requires RanAsSpecified(link, env, world1, now1, captcha1, settings1, classified1, wayback1, trace1, outcome1,
                            sources1, title1, reread1, link.row, journal0, links1, journal1)
    requires link.id in links1
    requires RanAsSpecified(link.(row := links1[link.id]), env, world2, now2, captcha2, settings2, classified2,
                            wayback2, trace2, outcome2, sources2, title2, reread2, links1[link.id], journal1,
                            links2, journal2)
    ensures trace2 <= [Load]
    ensures link.id in links2
    ensures links2[link.id] == links1[link.id].(kind := classified2.kind,
                                                name := FinalName(links1[link.id].name, title2),
                                                lastPreserved := Some(now2))
  {
    var row1 := links1[link.id];
    assert row1 == Finalize(reread1.value, title1, link.owner.aiTaggingMethod, now1);
    assert row1.aiTagged || link.owner.aiTaggingMethod == Disabled;
    var link2 := link.(row := row1);
    RerunOnlyRestamps(link2, env, world2, now2, captcha2, settings2, classified2, wayback2, trace2, outcome2,
                      sources2, title2, reread2, journal1, links2, journal2);
  }

  /** A run completes exactly when none of its planned steps fails, and otherwise stops at
      the first planned step that fails, with that step's fault. */
  lemma RunEndsAtFirstFailure(link: LinkInput, env: Env, world: World, now: int, captcha: CaptchaSolve,
                              settings: ArchivalSettings, classified: Classification, wayback: bool,
                              trace: seq<Step>, outcome: Outcome, sources: seq<PageSource>, title: string,
                              reread: Option<LinkRecord>, before: LinkRecord, journal0: seq<Effect>,
                              links: map<nat, LinkRecord>, journal: seq<Effect>)
    requires RanAsSpecified(link, env, world, now, captcha, settings, classified, wayback, trace, outcome,
                            sources, title, reread, before, journal0, links, journal)
    ensures outcome.Completed? <==> NoneFail(link, captcha, world, Planned(link, settings, classified.kind, env))
    ensures outcome.Aborted? ==>
      var plan := Planned(link, settings, classified.kind, env);
      && trace == plan[..|trace|]
      && Fails(link, captcha, world, outcome.step)
      && StepFault(link, captcha, world, outcome.step) == Some(outcome.fault)
      && NoneFail(link, captcha, world, plan[..|trace| - 1])
  {
    StopsAtFirstFailure(link, captcha, world, Planned(link, settings, classified.kind, env), trace, outcome);
  }

  /** A run in which the page loads, the preview is selected in time and no collaborator
      fails completes every planned step. */
  lemma QuietRunCompletes(link: LinkInput, env: Env, world: World, now: int, captcha: CaptchaSolve,
                          settings: ArchivalSettings, classified: Classification, wayback: bool,
                          trace: seq<Step>, outcome: Outcome, sources: seq<PageSource>, title: string,
                          reread: Option<LinkRecord>, before: LinkRecord, journal0: seq<Effect>,
                          links: map<nat, LinkRecord>, journal: seq<Effect>)
    requires RanAsSpecified(link, env, world, now, captcha, settings, classified, wayback, trace, outcome,
                            sources, title, reread, before, journal0, links, journal)
    requires !LoadFails(link.row, captcha, world)
    requires !world.previewTimeout
    requires !PreviewRejects(link.row.preview, world.page, world.og, world.shot, world.maxBuffer, world.save)
    requires world.image.Done? && world.pdf.Done? && world.readable.Done? && world.exported.Done? && world.tag.Done?
    requires world.monolith != Failed(Timeout)
    ensures outcome.Completed?
    ensures trace == Planned(link, settings, classified.kind, env)
  {
    var plan := Planned(link, settings, classified.kind, env);
    forall i | 0 <= i < |plan|
      ensures !Fails(link, captcha, world, plan[i])
    {
      assert StepFault(link, captcha, world, plan[i]).None?;
    }
    RunEndsAtFirstFailure(link, env, world, now, captcha, settings, classified, wayback, trace, outcome,
                          sources, title, reread, before, journal0, links, journal);
  }
}
