/**
 * The persisted Link row as the preservation pipeline sees it, the partial updates the
 * pipeline and its collaborators send, and the store: the rows plus an append-only
 * journal of every row update and file operation, in the order they happen.
 */
module Links {
  import opened Wrappers

  /** The stored `type` column. */
  datatype LinkType = UrlLink | PdfLink | ImageLink

  /** The five artifact columns. */
  datatype Field = Readable | Image | Monolith | Pdf | Preview

  const Unavailable := "unavailable"

  /** The columns of a Link row that the pipeline reads or writes. An artifact column holds a
      storage locator, `"unavailable"`, or nothing yet. */
  datatype LinkRecord = LinkRecord(
    name: string,
    kind: LinkType,
    readable: Option<string>,
    image: Option<string>,
    monolith: Option<string>,
    pdf: Option<string>,
    preview: Option<string>,
    aiTagged: bool,
    lastPreserved: Option<int>)

  function Get(r: LinkRecord, f: Field): Option<string> {
    match f
    case Readable => r.readable
    case Image => r.image
    case Monolith => r.monolith
    case Pdf => r.pdf
    case Preview => r.preview
  }

  /** JavaScript truthiness of a nullable string column. */
  predicate Truthy(o: Option<string>) {
    o.Some? && o.value != ""
  }

  /** Every artifact column holds a locator or `"unavailable"`: nothing is pending. */
  predicate Resolved(r: LinkRecord) {
    forall f: Field :: Truthy(Get(r, f))
  }

  /** The stored type has no bearing on what is pending. */
  lemma ResolvedRetyped(r: LinkRecord, kind: LinkType)
    requires Resolved(r)
    ensures Resolved(r.(kind := kind))
  {
    assert forall f: Field :: Get(r.(kind := kind), f) == Get(r, f);
  }

  /** A Prisma `update` payload: `None` leaves the column as it is (`undefined`). */
  datatype Patch = Patch(
    name: Option<string>,
    kind: Option<LinkType>,
    readable: Option<string>,
    image: Option<string>,
    monolith: Option<string>,
    pdf: Option<string>,
    preview: Option<string>,
    aiTagged: Option<bool>,
    lastPreserved: Option<int>)

  const Untouched := Patch(None, None, None, None, None, None, None, None, None)

  function PatchGet(p: Patch, f: Field): Option<string> {
    match f
    case Readable => p.readable
    case Image => p.image
    case Monolith => p.monolith
    case Pdf => p.pdf
    case Preview => p.preview
  }

  /** The row after an update: every column the patch names is replaced, the rest kept. */
  function Apply(r: LinkRecord, p: Patch): (r': LinkRecord)
    ensures forall f: Field :: Get(r', f) == (if PatchGet(p, f).Some? then PatchGet(p, f) else Get(r, f))
    ensures r'.name == p.name.GetOr(r.name) && r'.kind == p.kind.GetOr(r.kind)
    ensures r'.aiTagged == p.aiTagged.GetOr(r.aiTagged)
    ensures r'.lastPreserved == (if p.lastPreserved.Some? then p.lastPreserved else r.lastPreserved)
  {
    LinkRecord(
      p.name.GetOr(r.name),
      p.kind.GetOr(r.kind),
      if p.readable.Some? then p.readable else r.readable,
      if p.image.Some? then p.image else r.image,
      if p.monolith.Some? then p.monolith else r.monolith,
      if p.pdf.Some? then p.pdf else r.pdf,
      if p.preview.Some? then p.preview else r.preview,
      p.aiTagged.GetOr(r.aiTagged),
      if p.lastPreserved.Some? then p.lastPreserved else r.lastPreserved)
  }

  /** One effect on the store, in the order it happened. */
  datatype Effect =
    | RowUpdated(id: nat, patch: Patch)
    | RowDeleted(id: nat)
    | FileCreated(path: string)
    | FilesRemoved(linkId: nat, collectionId: nat)

  /** The row `id` as the journal entries `effects` leave `r`: each update of `id` is applied
      in order, and every other entry leaves it alone. */
  function Replay(r: LinkRecord, id: nat, effects: seq<Effect>): LinkRecord
    decreases |effects|
  {
    if effects == [] then r
    else
      var prior := Replay(r, id, effects[..|effects| - 1]);
      match effects[|effects| - 1]
      case RowUpdated(k, p) => if k == id then Apply(prior, p) else prior
      case _ => prior
  }

  /** A journal stretch without an update of the row leaves it as it was. */
  lemma {:induction false} ReplayUntouched(r: LinkRecord, id: nat, effects: seq<Effect>)
    requires forall i :: 0 <= i < |effects| ==> !(effects[i].RowUpdated? && effects[i].id == id)
    ensures Replay(r, id, effects) == r
    decreases |effects|
  {
    if effects != [] {
      ReplayUntouched(r, id, effects[..|effects| - 1]);
    }
  }

  /** Replaying one update of the row applies it. */
  lemma ReplayUpdate(r: LinkRecord, id: nat, p: Patch)
    ensures Replay(r, id, [RowUpdated(id, p)]) == Apply(r, p)
  {
    assert [RowUpdated(id, p)][..0] == [];
  }

  /** Replaying two stretches of journal is replaying the first, then the second. */
  lemma {:induction false} ReplayAppend(r: LinkRecord, id: nat, a: seq<Effect>, b: seq<Effect>)
    ensures Replay(r, id, a + b) == Replay(Replay(r, id, a), id, b)
    decreases |b|
  {
    if b == [] {
      assert a + b == a;
    } else {
      var b' := b[..|b| - 1];
      assert (a + b)[..|a + b| - 1] == a + b';
      assert (a + b)[|a + b| - 1] == b[|b| - 1];
      ReplayAppend(r, id, a, b');
    }
  }

  /** Journal stretches concatenate associatively. A sequence fact kept apart so that the
      proofs of the runs stay small for the solver; it models nothing of the worker. */
  lemma JournalAssoc(a: seq<Effect>, b: seq<Effect>, c: seq<Effect>)
    ensures (a + b) + c == a + (b + c)
  {
  }

  /** Two entries around an empty stretch are two entries in a row. A sequence fact kept
      apart so that the proofs of the runs stay small for the solver; it models nothing of
      the worker. */
  lemma JournalAround(j: seq<Effect>, a: Effect, b: Effect)
    ensures j + [a] + [] + [b] == j + [a, b]
  {
  }

  /** The Link table and the archive folder, as the pipeline sees them. */
  class Store {
    var links: map<nat, LinkRecord>
    var journal: seq<Effect>

    constructor (links: map<nat, LinkRecord>)
      ensures this.links == links && journal == []
    {
      this.links := links;
      journal := [];
    }

    /** `prisma.link.update({ where: { id }, data: patch })` */
    method Update(id: nat, patch: Patch)
      requires id in links
      modifies this
      ensures links == old(links)[id := Apply(old(links)[id], patch)]
      ensures journal == old(journal) + [RowUpdated(id, patch)]
    {
      links := links[id := Apply(links[id], patch)];
      journal := journal + [RowUpdated(id, patch)];
    }

    /** The row is deleted by someone else while a run is in flight. */
    method Delete(id: nat)
      modifies this
      ensures links == old(links) - {id}
      ensures journal == old(journal) + [RowDeleted(id)]
    {
      links := links - {id};
      journal := journal + [RowDeleted(id)];
    }

    /** `prisma.link.findUnique({ where: { id } })` */
    function Find(id: nat): (r: Option<LinkRecord>)
      reads this
      ensures r.Some? <==> id in links
      ensures r.Some? ==> r.value == links[id]
    {
      if id in links then Some(links[id]) else None
    }

    /** `createFile({ filePath: path, ... })` */
    method CreateFile(path: string)
      modifies this
      ensures links == old(links)
      ensures journal == old(journal) + [FileCreated(path)]
    {
      journal := journal + [FileCreated(path)];
    }

    /** `removeFiles(linkId, collectionId)` */
    method RemoveFiles(linkId: nat, collectionId: nat)
      modifies this
      ensures links == old(links)
      ensures journal == old(journal) + [FilesRemoved(linkId, collectionId)]
    {
      journal := journal + [FilesRemoved(linkId, collectionId)];
    }
  }
}
