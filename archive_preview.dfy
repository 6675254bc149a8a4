/**
 * Preview selection for a loaded page (apps/worker/lib/preservationScheme/handleArchivePreview.ts):
 * the Open Graph / Twitter-card image found by a fixed selector priority, its acceptance
 * as the preview, and the screenshot fallback with its size ceiling and fixed path.
 */
module ArchivePreview {
  import opened Wrappers
  import opened Text
  import opened Links

  /** The meta selectors, highest priority first. */
  const Selectors: seq<string> := [
    "meta[property=\"og:image\"]",
    "meta[property=\"og:image:secure_url\"]",
    "meta[name=\"og:image\"]",
    "meta[name=\"twitter:image\"]",
    "meta[name=\"twitter:image:src\"]",
    "meta[name=\"image\"]",
    "meta[itemprop=\"image\"]"
  ]

  /** The document as `querySelector` sees it: a selector that matches some element maps to
      that element's `content` attribute (`None` when the attribute is missing). */
  type Dom = map<string, Option<string>>

  /** The selector matches an element whose `content` is a non-empty string. */
  predicate HasContent(dom: Dom, sel: string) {
    sel in dom && Truthy(dom[sel])
  }

  /** The position of the first selector with content, or `|sels|` when there is none. */
  function FirstMatch(dom: Dom, sels: seq<string>): (k: nat)
    ensures k <= |sels|
    ensures forall j :: 0 <= j < k ==> !HasContent(dom, sels[j])
    ensures k < |sels| ==> HasContent(dom, sels[k])
    decreases |sels|
  {
    if sels == [] then 0
    else if HasContent(dom, sels[0]) then 0
    else 1 + FirstMatch(dom, sels[1..])
  }

  /** The content of the first selector (in the given order) whose element has non-empty
      content; elements with empty or missing content are passed over. */
  function FirstContent(dom: Dom, sels: seq<string>): (r: Option<string>)
    ensures r.None? <==> forall j :: 0 <= j < |sels| ==> !HasContent(dom, sels[j])
    ensures r.Some? ==> r.value != ""
    ensures r.Some? ==>
      exists i :: 0 <= i < |sels| && HasContent(dom, sels[i]) && dom[sels[i]] == r &&
        forall j :: 0 <= j < i ==> !HasContent(dom, sels[j])
  {
    var k := FirstMatch(dom, sels);
    if k < |sels| then dom[sels[k]] else None
  }

  /** The selector search of `handleArchivePreview`: a loop that returns the first content found. */
  method FindOgImage(dom: Dom) returns (r: Option<string>)
    ensures r == FirstContent(dom, Selectors)
  {
    var i := 0;
    while i < |Selectors|
      invariant 0 <= i <= |Selectors|
      invariant forall j :: 0 <= j < i ==> !HasContent(dom, Selectors[j])
    {
      var sel := Selectors[i];
      var content := if sel in dom then dom[sel] else None;
      if Truthy(content) {
        return content;
      }
      i := i + 1;
    }
    return None;
  }

  /** The request headers for the image fetch: always the page as referrer, the browser's
      user agent only when one was obtained. */
  function RequestHeaders(pageUrl: string, userAgent: Option<string>): (h: map<string, string>)
    ensures "Referer" in h && h["Referer"] == pageUrl
    ensures "User-Agent" in h <==> Truthy(userAgent)
    ensures "User-Agent" in h ==> h["User-Agent"] == userAgent.value
    ensures h.Keys <= {"Referer", "User-Agent"}
  {
    var h := map["Referer" := pageUrl];
    if Truthy(userAgent) then h["User-Agent" := userAgent.value] else h
  }

  /** The existing preview is already an archived file (`link.preview?.startsWith("archive")`). */
  predicate ArchivedPreview(preview: Option<string>) {
    preview.Some? && StartsWith(preview.value, "archive")
  }

  /** The page, as far as preview selection reads it: its URL, its metadata (`None` when the
      selector evaluation rejects), and the `navigator.userAgent` it reports (`None` when
      reading it failed or gave nothing). */
  datatype Page = Page(url: string, dom: Option<Dom>, userAgent: Option<string>)

  /** What the og:image path meets: `new URL(...)` throws, the request throws, or a response
      arrives. `generated` is the preview locator `generatePreview` stored when it returned
      true; `None` when it returned false or threw. */
  datatype OgFetch =
    | BadUrl
    | RequestThrew
    | Responded(ok: bool, contentType: Option<string>, generated: Option<string>)

  /** The og:image response may become the preview. */
  predicate Acceptable(og: OgFetch, preview: Option<string>) {
    && og.Responded? && og.ok
    && og.contentType.Some? && StartsWith(og.contentType.value, "image")
    && !ArchivedPreview(preview)
  }

  /** The page screenshot: it throws, or it has a size in bytes. */
  datatype Shot = ShotThrew | Shot(size: nat)

  /** How the two writes of a kept screenshot go: both succeed, `createFile` rejects, or the
      row update rejects after the file was written. */
  datatype Save = Saved | FileRejected | RowRejected

  /** A JavaScript number as `Number(...)` produces it from the environment. */
  datatype JsNumber = Num(value: real) | NaN

  const MiB: real := 1048576.0
  const DefaultMaxBuffer: real := 10.0

  /** The screenshot is larger than `1024 * 1024 * Number(PREVIEW_MAX_BUFFER || 10)` bytes;
      `maxBuffer` is `None` when the variable is unset or empty. A NaN ceiling discards nothing. */
  predicate Exceeds(size: nat, maxBuffer: Option<JsNumber>) {
    var n := maxBuffer.GetOr(Num(DefaultMaxBuffer));
    n.Num? && size as real > MiB * n.value
  }

  /** With the default ceiling, exactly 10 MiB is kept and one byte more is discarded. */
  lemma DefaultCeiling(size: nat)
    ensures Exceeds(size, None) <==> size > 10485760
  {
  }

  /** Where the screenshot preview of a link is written, and what the row then holds. */
  function PreviewPath(collectionId: nat, id: nat): (p: string)
    ensures StartsWith(p, "archives/preview/")
    ensures ArchivedPreview(Some(p))
    ensures EndsWith(p, ".jpeg")
  {
    var p := "archives/preview/" + Decimal(collectionId) + "/" + Decimal(id) + ".jpeg";
    assert p[..17] == "archives/preview/";
    EndsWithAppend("archives/preview/" + Decimal(collectionId) + "/" + Decimal(id), ".jpeg");
    p
  }

  function SetPreview(locator: string): Patch {
    Untouched.(preview := Some(locator))
  }

  /** The og:image found in the page is requested and the preview generated from it. */
  predicate OgAccepted(preview: Option<string>, page: Page, og: OgFetch) {
    && page.dom.Some? && FirstContent(page.dom.value, Selectors).Some?
    && Acceptable(og, preview) && og.generated.Some?
  }

  /** The screenshot fallback is taken: the page's metadata was read, no og:image preview
      was generated, and the preview is not an archived file already. */
  predicate ScreenshotOwed(preview: Option<string>, page: Page, og: OgFetch) {
    page.dom.Some? && !OgAccepted(preview, page, og) && !ArchivedPreview(preview)
  }

  /** `handleArchivePreview` rejects: the selector evaluation fails, or the fallback
      screenshot throws, or one of the writes of a screenshot within the ceiling fails. */
  predicate PreviewRejects(preview: Option<string>, page: Page, og: OgFetch, shot: Shot,
                           maxBuffer: Option<JsNumber>, save: Save) {
    || page.dom.None?
    || (ScreenshotOwed(preview, page, og) &&
        (shot.ShotThrew? || (!Exceeds(shot.size, maxBuffer) && save != Saved)))
  }

  /** What `handleArchivePreview` writes, in order, for the link `id` in `collectionId` whose
      preview column held `preview` when the run started. */
  function PreviewEffects(id: nat, collectionId: nat, preview: Option<string>, page: Page, og: OgFetch,
                          shot: Shot, maxBuffer: Option<JsNumber>, save: Save): seq<Effect> {
    if OgAccepted(preview, page, og) then [RowUpdated(id, SetPreview(og.generated.value))]
    else if ScreenshotOwed(preview, page, og) then ScreenshotEffects(id, collectionId, shot, maxBuffer, save)
    else []
  }

  /** The shape of what preview selection writes. */
  lemma PreviewEffectsShape(id: nat, collectionId: nat, preview: Option<string>, page: Page, og: OgFetch,
                            shot: Shot, maxBuffer: Option<JsNumber>, save: Save, e: seq<Effect>)
    requires e == PreviewEffects(id, collectionId, preview, page, og, shot, maxBuffer, save)
    // nothing is written over an archived preview
    ensures ArchivedPreview(preview) ==> e == []
    // at most one file and one row update, which sets the preview column of this link only
    ensures |e| <= 2
    ensures forall i :: 0 <= i < |e| && e[i].RowUpdated? ==>
      e[i].id == id && e[i].patch.preview.Some? && e[i].patch == SetPreview(e[i].patch.preview.value)
    // a file written is the screenshot at its fixed path, written before the row update,
    // and a row update after it stores that very path
    ensures forall i :: 0 <= i < |e| && e[i].FileCreated? ==> i == 0 && e[i].path == PreviewPath(collectionId, id)
    ensures |e| == 2 ==>
      e == [FileCreated(PreviewPath(collectionId, id)), RowUpdated(id, SetPreview(PreviewPath(collectionId, id)))]
    // a rejected call stores no preview in the row
    ensures PreviewRejects(preview, page, og, shot, maxBuffer, save) ==> forall i :: 0 <= i < |e| ==> !e[i].RowUpdated?
  {
    var path := PreviewPath(collectionId, id);
    if OgAccepted(preview, page, og) {
      assert e == [RowUpdated(id, SetPreview(og.generated.value))];
    } else if !ScreenshotOwed(preview, page, og) || shot.ShotThrew? || Exceeds(shot.size, maxBuffer) {
      assert e == [];
    } else if save == Saved {
      assert e == [FileCreated(path), RowUpdated(id, SetPreview(path))];
    } else if save == RowRejected {
      assert e == [FileCreated(path)];
    } else {
      assert e == [];
    }
  }

  /** The row as preview selection's writes leave it: only its preview column changes, to the
      generated og:image preview or to the stored screenshot. */
  lemma PreviewReplay(row: LinkRecord, id: nat, collectionId: nat, preview: Option<string>, page: Page, og: OgFetch,
                      shot: Shot, maxBuffer: Option<JsNumber>, save: Save)
    ensures Replay(row, id, PreviewEffects(id, collectionId, preview, page, og, shot, maxBuffer, save)) ==
      if OgAccepted(preview, page, og) then row.(preview := og.generated)
      else if ScreenshotOwed(preview, page, og) && shot.Shot? && !Exceeds(shot.size, maxBuffer) && save == Saved
      then row.(preview := Some(PreviewPath(collectionId, id)))
      else row
  {
    var e := PreviewEffects(id, collectionId, preview, page, og, shot, maxBuffer, save);
    if OgAccepted(preview, page, og) {
      ReplayUpdate(row, id, SetPreview(og.generated.value));
      SetPreviewApplies(row, og.generated.value);
    } else if ScreenshotOwed(preview, page, og) && shot.Shot? && !Exceeds(shot.size, maxBuffer) && save != FileRejected {
      var path := PreviewPath(collectionId, id);
      var file := [FileCreated(path)];
      ReplayUntouched(row, id, file);
      if save == Saved {
        assert e == file + [RowUpdated(id, SetPreview(path))];
        ReplayAppend(row, id, file, [RowUpdated(id, SetPreview(path))]);
        ReplayUpdate(row, id, SetPreview(path));
        SetPreviewApplies(row, path);
      } else {
        assert e == file;
      }
    } else {
      assert e == [];
    }
  }

  /** Storing a preview locator changes the preview column and nothing else. */
  lemma SetPreviewApplies(row: LinkRecord, locator: string)
    ensures Apply(row, SetPreview(locator)) == row.(preview := Some(locator))
  {
  }

  /** What the screenshot fallback writes: the file and then the row for a screenshot within
      the ceiling, as far as those writes succeed; nothing otherwise. */
  function ScreenshotEffects(id: nat, collectionId: nat, shot: Shot, maxBuffer: Option<JsNumber>, save: Save): seq<Effect> {
    if shot.ShotThrew? || Exceeds(shot.size, maxBuffer) then []
    else
      var path := PreviewPath(collectionId, id);
      match save
      case Saved => [FileCreated(path), RowUpdated(id, SetPreview(path))]
      case RowRejected => [FileCreated(path)]
      case FileRejected => []
  }

  /** `handleArchivePreview(link, page)` for the link `id` in `collectionId` whose preview
      column held `preview` when the run started. Besides its effects it reports the og image
      URL found in the page, the headers of the image request (if one was sent), whether the
      preview was generated from it, whether the screenshot was taken, the screenshot preview
      stored in the row (if any), and whether the call rejects. */
  method HandleArchivePreview(store: Store, id: nat, collectionId: nat, preview: Option<string>,
                              page: Page, og: OgFetch, shot: Shot, maxBuffer: Option<JsNumber>, save: Save)
    returns (ogImage: Option<string>, headers: Option<map<string, string>>, generated: bool,
             fellBack: bool, stored: Option<string>, rejected: bool)
    requires id in store.links
    modifies store
    ensures ogImage == if page.dom.Some? then FirstContent(page.dom.value, Selectors) else None
    // the image is requested only for a found og image whose URL resolves, always with the referrer
    ensures headers.Some? <==> ogImage.Some? && !og.BadUrl?
    ensures headers.Some? ==> headers.value == RequestHeaders(page.url, page.userAgent)
    // it becomes the preview only from an ok image response, and never over an archived preview
    ensures generated <==> ogImage.Some? && Acceptable(og, preview) && og.generated.Some?
    // the screenshot is the fallback, again never over an archived preview
    ensures fellBack <==> page.dom.Some? && !generated && !ArchivedPreview(preview)
    ensures rejected <==> page.dom.None? || (fellBack && (shot.ShotThrew? || (!Exceeds(shot.size, maxBuffer) && save != Saved)))
    ensures stored.Some? <==> fellBack && shot.Shot? && !Exceeds(shot.size, maxBuffer) && save == Saved
    ensures stored.Some? ==> stored.value == PreviewPath(collectionId, id)
    // what is written, in order
    ensures store.journal == old(store.journal) + PreviewEffects(id, collectionId, preview, page, og, shot, maxBuffer, save)
    // the row is what those writes make of it: the accepted og image or the stored screenshot
    // becomes the preview, and nothing else changes
    ensures store.links ==
      old(store.links)[id := Replay(old(store.links)[id], id, PreviewEffects(id, collectionId, preview, page, og, shot, maxBuffer, save))]
  {
    PreviewReplay(store.links[id], id, collectionId, preview, page, og, shot, maxBuffer, save);
    ogImage, headers, generated := None, None, false;
    fellBack, stored, rejected := false, None, false;
    ghost var effects := PreviewEffects(id, collectionId, preview, page, og, shot, maxBuffer, save);
    if page.dom.None? {
      assert effects == [];
      rejected := true;
      return;
    }
    ogImage := FindOgImage(page.dom.value);
    if ogImage.Some? {
      headers, generated := TryOgImage(store, id, preview, page, og);
    }
    assert generated == OgAccepted(preview, page, og);
    if !generated && !ArchivedPreview(preview) {
      assert effects == ScreenshotEffects(id, collectionId, shot, maxBuffer, save);
      fellBack := true;
      var written;
      written, stored, rejected := StoreScreenshot(store, id, collectionId, shot, maxBuffer, save);
    } else {
      assert effects == if generated then [RowUpdated(id, SetPreview(og.generated.value))] else [];
    }
  }

  /** The og:image path for a found image URL: the image is requested when the URL resolves,
      and the preview generated from an acceptable response is stored. Everything here that
      throws is caught and leaves the preview not generated. */
  method TryOgImage(store: Store, id: nat, preview: Option<string>, page: Page, og: OgFetch)
    returns (headers: Option<map<string, string>>, generated: bool)
    requires id in store.links
    modifies store
    ensures headers.Some? <==> !og.BadUrl?
    ensures headers.Some? ==> headers.value == RequestHeaders(page.url, page.userAgent)
    ensures generated <==> Acceptable(og, preview) && og.generated.Some?
    ensures generated ==> store.links == old(store.links)[id := old(store.links)[id].(preview := og.generated)]
    ensures generated ==> store.journal == old(store.journal) + [RowUpdated(id, SetPreview(og.generated.value))]
    ensures !generated ==> store.links == old(store.links) && store.journal == old(store.journal)
  {
    headers, generated := None, false;
    if !og.BadUrl? {
      headers := Some(RequestHeaders(page.url, page.userAgent));
      if Acceptable(og, preview) && og.generated.Some? {
        store.Update(id, SetPreview(og.generated.value));
        generated := true;
      }
    }
  }

  /** The screenshot fallback: a screenshot within the ceiling is written to the preview path
      and the row then points at it; a larger one is discarded; a failing screenshot or a
      failing write rejects. */
  method StoreScreenshot(store: Store, id: nat, collectionId: nat, shot: Shot, maxBuffer: Option<JsNumber>, save: Save)
    returns (written: Option<string>, stored: Option<string>, rejected: bool)
    requires id in store.links
    modifies store
    ensures rejected <==> shot.ShotThrew? || (!Exceeds(shot.size, maxBuffer) && save != Saved)
    ensures written.Some? <==> shot.Shot? && !Exceeds(shot.size, maxBuffer) && save != FileRejected
    ensures written.Some? ==> written.value == PreviewPath(collectionId, id)
    ensures stored.Some? <==> written.Some? && save == Saved
    ensures stored.Some? ==> stored == written
    // the file is written first, then the row gets the very same path; a file whose row
    // update failed is left behind
    ensures store.journal == old(store.journal) + ScreenshotEffects(id, collectionId, shot, maxBuffer, save)
    ensures stored.Some? ==> store.links == old(store.links)[id := old(store.links)[id].(preview := stored)]
    ensures stored.None? ==> store.links == old(store.links)
  {
    written, stored, rejected := None, None, false;
    match shot
    case ShotThrew =>
      rejected := true;
    case Shot(size) =>
      if !Exceeds(size, maxBuffer) {
        var path := PreviewPath(collectionId, id);
        if save == FileRejected {
          rejected := true;
          return;
        }
        store.CreateFile(path);
        written := Some(path);
        if save == RowRejected {
          rejected := true;
        } else {
          store.Update(id, SetPreview(path));
          stored := Some(path);
        }
      }
  }

  /** Once the screenshot preview is stored, a later preview pass for the same row neither
      accepts an og:image nor takes another screenshot. */
  lemma StoredPreviewIsFinal(collectionId: nat, id: nat, og: OgFetch)
    ensures !Acceptable(og, Some(PreviewPath(collectionId, id)))
    ensures ArchivedPreview(Some(PreviewPath(collectionId, id)))
  {
  }
}
