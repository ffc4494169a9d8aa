/**
 What one source's sync run does to the records and to the points of its
 collection, as pure definitions, and what follows for incremental, full and
 interrupted runs.
 */
module EmbedSync {
  import opened EmbedState

  type Payload = map<string, string>
  type Vector = seq<real>

  datatype Document = Document(
    collection: string,
    sourceID: string,
    path: string,
    identity: string,
    text: string,
    contentHash: string,
    payload: Payload)

  datatype Source = Source(id: string, collection: string, enabled: bool)

  /** One point of the vector store. */
  datatype Stored = Stored(vector: Vector, sparseText: string, payload: Payload)

  /** The points of one collection. */
  type Shelf = map<PointID, Stored>

  // ------------------------------------------------- documents and records

  function DocKey(d: Document): string {
    IdentityKey(d.collection, d.sourceID, d.identity)
  }

  function DocHashKey(d: Document): string {
    HashKey(d.collection, d.sourceID, d.contentHash)
  }

  function OwnID(d: Document): PointID {
    DeterministicPointID(d.collection, d.sourceID, d.identity)
  }

  function RecordFor(d: Document, version: string): Record {
    Record(OwnID(d), d.sourceID, d.collection, d.path, d.identity, d.contentHash, version, 0)
  }

  function RecordsFor(ds: seq<Document>, version: string): seq<Record> {
    seq(|ds|, i requires 0 <= i < |ds| => RecordFor(ds[i], version))
  }

  function StoredFor(d: Document, embed: string -> Vector): Stored {
    Stored(embed(d.text), d.text, d.payload)
  }

  predicate Matches(r: Record, d: Document, version: string) {
    r.contentHash == d.contentHash && r.vectorVersion == version
  }

  function UpsertAll(shelf: Shelf, ds: seq<Document>, embed: string -> Vector): Shelf {
    if ds == [] then shelf
    else
      var last := ds[|ds| - 1];
      UpsertAll(shelf, ds[..|ds| - 1], embed)[OwnID(last) := StoredFor(last, embed)]
  }

  predicate Belong(ds: seq<Document>, source: Source) {
    forall d | d in ds :: d.collection == source.collection && d.sourceID == source.id
  }

  predicate DistinctIdentities(ds: seq<Document>) {
    forall i, j | 0 <= i < j < |ds| :: ds[i].identity != ds[j].identity
  }

  function NonEmpty(ds: seq<Document>): seq<Document> {
    if ds == [] then []
    else
      var last := ds[|ds| - 1];
      NonEmpty(ds[..|ds| - 1]) + if last.text == "" then [] else [last]
  }

  function Seen(ds: seq<Document>): set<string> {
    set d | d in ds && d.text != "" :: d.identity
  }

  predicate Known(p: Points, d: Document) {
    exists id | id in p :: KeyOf(p[id]) == DocKey(d)
  }

  /** The record of this identity exists with the document's hash and version. */
  predicate Current(p: Points, d: Document, version: string) {
    exists id | id in p :: KeyOf(p[id]) == DocKey(d) && Matches(p[id], d, version)
  }

  /** The documents an incremental run has to embed. */
  function Changed(p: Points, ds: seq<Document>, version: string): seq<Document> {
    if ds == [] then []
    else
      var last := ds[|ds| - 1];
      Changed(p, ds[..|ds| - 1], version) +
      if last.text == "" || Current(p, last, version) then [] else [last]
  }

  // ------------------------------------------------- one run

  datatype ScanState = ScanState(
    points: Points,
    shelf: Shelf,
    dirty: seq<Document>,
    unmodified: nat,
    moved: nat)

  function Start(p: Points, shelf: Shelf): ScanState {
    ScanState(p, shelf, [], 0, 0)
  }

  function UpdatePayload(shelf: Shelf, id: PointID, payload: Payload): Shelf {
    if id in shelf then shelf[id := shelf[id].(payload := payload)] else shelf
  }

  /** The record of a moved document keeps the point id it was found under. */
  function MovedRecord(m: Record, d: Document, version: string): Record {
    RecordFor(d, version).(pointID := m.pointID)
  }

  function Moved(s: ScanState, m: Record, d: Document, version: string, now: int): ScanState {
    s.(points := Put(s.points, Stamped(MovedRecord(m, d, version), now)),
       shelf := UpdatePayload(s.shelf, m.pointID, d.payload),
       moved := s.moved + 1)
  }

  ghost predicate NoUsableCopy(p: Points, d: Document, version: string) {
    || (forall id :: !HashMatch(p, DocHashKey(d), id))
    || (exists m :: IsNewest(p, DocHashKey(d), m) && !Matches(m, d, version))
  }

  /** One document of the scan loop. Which of several equally new records a
      hash lookup gives is left open. */
  ghost predicate DocStep(s: ScanState, s': ScanState, d: Document, full: bool, version: string) {
    if d.text == "" then s' == s
    else if !full && Current(s.points, d, version) then
      s' == s.(unmodified := s.unmodified + 1)
    else
      || (s' == s.(dirty := s.dirty + [d]) &&
          (full || Known(s.points, d) || NoUsableCopy(s.points, d, version)))
      || (!full && !Known(s.points, d) &&
          exists m, now ::
            IsNewest(s.points, DocHashKey(d), m) && Matches(m, d, version) &&
            s' == Moved(s, m, d, version, now))
  }

  ghost predicate Scan(ds: seq<Document>, full: bool, version: string, s0: ScanState, s: ScanState) {
    if ds == [] then s == s0
    else
      var rest, last := ds[..|ds| - 1], ds[|ds| - 1];
      exists mid :: Scan(rest, full, version, s0, mid) && DocStep(mid, s, last, full, version)
  }

  function PruneIDs(p: Points, sourceID: string, seen: set<string>): set<PointID> {
    set id | id in p && p[id].sourceID == sourceID && p[id].identity !in seen
  }

  function Timeless(p: Points): Points {
    map id | id in p :: p[id].(updatedAt := 0)
  }

  /** The records a run ends with, timestamps aside, after its scan left `p`
      and `dirty`. */
  function FinalRecords(p: Points, dirty: seq<Document>, docs: seq<Document>, source: Source, version: string)
    : Points
  {
    var q := PutAll(Timeless(p), RecordsFor(dirty, version));
    q - PruneIDs(q, source.id, Seen(docs))
  }

  function FinalShelf(
    p: Points, shelf: Shelf, dirty: seq<Document>, docs: seq<Document>, source: Source, version: string,
    embed: string -> Vector): Shelf
  {
    UpsertAll(shelf, dirty, embed) -
    PruneIDs(PutAll(Timeless(p), RecordsFor(dirty, version)), source.id, Seen(docs))
  }

  // ------------------------------------------------- standing assumptions

  function NamePrefix(collection: string, sourceID: string): string {
    collection + "\0" + sourceID + "\0"
  }

  /** The point id is derived from the record's own collection and source. */
  predicate WellNamed(r: Record) {
    && NulFree(r.collection) && NulFree(r.sourceID)
    && r.pointID.Uuid?
    && NamePrefix(r.collection, r.sourceID) <= r.pointID.name
  }

  /** The invariant of every reachable state. */
  predicate Sound(p: Points) {
    Keyed(p) && UniqueIdentities(p) && forall id | id in p :: WellNamed(p[id])
  }

  predicate Named(source: Source) {
    NulFree(source.id) && NulFree(source.collection)
  }

  /** Every record of the source lies in the source's collection. */
  predicate Homed(p: Points, source: Source) {
    forall id | id in p && p[id].sourceID == source.id :: p[id].collection == source.collection
  }

  /** Every record of the source in its collection has the id of its own identity. */
  predicate OwnIDs(p: Points, source: Source) {
    forall id | id in p && p[id].sourceID == source.id && p[id].collection == source.collection ::
      id == Uuid(KeyOf(p[id]))
  }

  /** A record and a document of one identity come from the same file. */
  predicate SamePaths(p: Points, ds: seq<Document>) {
    forall id, d | id in p && d in ds && KeyOf(p[id]) == DocKey(d) :: p[id].path == d.path
  }

  /** No document of a new identity has the hash of a stored record. */
  ghost predicate NoCopies(p: Points, ds: seq<Document>) {
    forall d | d in ds && d.text != "" && !Known(p, d) ::
      forall id :: !HashMatch(p, DocHashKey(d), id)
  }

  predicate Hashed(ds: seq<Document>, hash: string -> string) {
    forall d | d in ds :: d.contentHash == hash(d.text)
  }

  ghost predicate CollisionFree(hash: string -> string) {
    forall a, b | hash(a) == hash(b) :: a == b
  }

  /** Every record of the source in its collection with the current version is
      backed by a point whose vector was computed from a text with the record's
      hash. */
  predicate Backed(
    p: Points, shelf: Shelf, source: Source, version: string, hash: string -> string, embed: string -> Vector)
  {
    forall id | id in p && p[id].sourceID == source.id && p[id].collection == source.collection &&
                p[id].vectorVersion == version ::
      && id in shelf
      && hash(shelf[id].sparseText) == p[id].contentHash
      && shelf[id].vector == embed(shelf[id].sparseText)
  }

  predicate SameVectors(a: Shelf, b: Shelf) {
    && a.Keys == b.Keys
    && forall id | id in a :: a[id].vector == b[id].vector && a[id].sparseText == b[id].sparseText
  }

  // ------------------------------------------------- names

  lemma NameOfOneSource(c: string, s: string, c': string, s': string, name: string)
    requires NulFree(c) && NulFree(s) && NulFree(c') && NulFree(s')
    requires NamePrefix(c, s) <= name && NamePrefix(c', s') <= name
    ensures c == c' && s == s'
  {
    var x, y := name[|NamePrefix(c, s)|..], name[|NamePrefix(c', s')|..];
    assert name == IdentityKey(c, s, x) && name == IdentityKey(c', s', y);
    KeysAreInjective(c, s, x, c', s', y);
  }

  lemma OwnIDIsNamed(d: Document)
    ensures NamePrefix(d.collection, d.sourceID) <= OwnID(d).name
    ensures OwnID(d) == Uuid(DocKey(d))
  {
  }

  /** Documents of one source are told apart by identity. */
  lemma OwnIDsDiffer(d: Document, e: Document, source: Source)
    requires Belong([d, e], source)
    ensures DocKey(d) == DocKey(e) <==> d.identity == e.identity
    ensures OwnID(d) == OwnID(e) <==> d.identity == e.identity
  {
    assert d in [d, e] && e in [d, e];
    KeysOfOneSource(source.collection, source.id, d.identity, e.identity);
  }

  /** A record with a document's key, or a well-named record at a document's
      id, is of the document's source and collection. */
  lemma RecordOfDoc(r: Record, d: Document, source: Source)
    requires WellNamed(r) && Named(source) && Belong([d], source)
    ensures KeyOf(r) == DocKey(d) ==>
      r.sourceID == source.id && r.collection == source.collection && r.identity == d.identity
    ensures r.pointID == OwnID(d) ==> r.sourceID == source.id && r.collection == source.collection
    ensures HashKeyOf(r) == DocHashKey(d) ==>
      r.sourceID == source.id && r.collection == source.collection && r.contentHash == d.contentHash
  {
    assert d in [d];
    KeysAreInjective(r.collection, r.sourceID, r.identity, d.collection, d.sourceID, d.identity);
    KeysAreInjective(r.collection, r.sourceID, r.contentHash, d.collection, d.sourceID, d.contentHash);
    if r.pointID == OwnID(d) {
      OwnIDIsNamed(d);
      NameOfOneSource(r.collection, r.sourceID, d.collection, d.sourceID, r.pointID.name);
    }
  }

  // ------------------------------------------------- closed forms

  /** `q` is `p` with the documents' records put over it: each document's
      record is there, and of the old records those remain that no document
      displaces. */
  ghost predicate Overlaid(p: Points, ds: seq<Document>, version: string, q: Points) {
    && (forall d | d in ds :: OwnID(d) in q && q[OwnID(d)] == RecordFor(d, version))
    && (forall id | id in q :: (exists d | d in ds :: id == OwnID(d)) || (id in p && q[id] == p[id]))
    && (forall id, d | id in q && d in ds && KeyOf(q[id]) == DocKey(d) :: id == OwnID(d))
    && (forall id | id in p && (forall d | d in ds :: id != OwnID(d) && KeyOf(p[id]) != DocKey(d)) :: id in q)
  }

  lemma {:induction false} PutAllIs(p: Points, ds: seq<Document>, version: string)
    requires forall i, j | 0 <= i < j < |ds| :: DocKey(ds[i]) != DocKey(ds[j])
    ensures Overlaid(p, ds, version, PutAll(p, RecordsFor(ds, version)))
  {
    hide PutAll, RecordsFor, RecordFor, Put, Overlaid, DocKey;
    if ds == [] {
      NothingPut(p, version);
    } else {
      var n := |ds| - 1;
      var rest, last := ds[..n], ds[n];
      assert ds == rest + [last];
      PutAllIs(p, rest, version);
      PutAllSnoc(p, rest, last, version);
      assert forall d | d in rest :: DocKey(d) != DocKey(last);
      OverlaidStep(p, rest, last, version, PutAll(p, RecordsFor(rest, version)));
    }
  }

  lemma NothingPut(p: Points, version: string)
    ensures Overlaid(p, [], version, PutAll(p, RecordsFor([], version)))
  {
  }

  lemma PutAllSnoc(p: Points, rest: seq<Document>, last: Document, version: string)
    ensures PutAll(p, RecordsFor(rest + [last], version)) ==
            Put(PutAll(p, RecordsFor(rest, version)), RecordFor(last, version))
  {
    assert RecordsFor(rest + [last], version)[..|rest|] == RecordsFor(rest, version);
  }

  lemma OverlaidStep(p: Points, rest: seq<Document>, last: Document, version: string, o: Points)
    requires Overlaid(p, rest, version, o) && forall d | d in rest :: DocKey(d) != DocKey(last)
    ensures Overlaid(p, rest + [last], version, Put(o, RecordFor(last, version)))
  {
    hide KeyOf, DocKey, OwnID, RecordFor, Put, Displaced;
    PutStep(o, rest, last, version);
    assert forall d :: d in rest + [last] <==> d in rest || d == last;
  }

  lemma PutStep(o: Points, rest: seq<Document>, last: Document, version: string)
    requires forall d | d in rest :: DocKey(d) != DocKey(last)
    requires forall d | d in rest :: OwnID(d) in o && o[OwnID(d)] == RecordFor(d, version)
    requires forall id, d | id in o && d in rest && KeyOf(o[id]) == DocKey(d) :: id == OwnID(d)
    ensures
      var q := Put(o, RecordFor(last, version));
      && q.Keys == o.Keys - Displaced(o, RecordFor(last, version)) + {OwnID(last)}
      && (forall d | d in rest + [last] :: OwnID(d) in q && q[OwnID(d)] == RecordFor(d, version))
      && (forall id | id in q && id != OwnID(last) :: id in o && q[id] == o[id])
      && (forall id, d | id in q && d in rest + [last] && KeyOf(q[id]) == DocKey(d) :: id == OwnID(d))
      && (forall id | id in o && id != OwnID(last) && KeyOf(o[id]) != DocKey(last) :: id in q)
  {
    assert KeyOf(RecordFor(last, version)) == DocKey(last);
    forall d | d in rest ensures OwnID(d) != OwnID(last) && KeyOf(RecordFor(d, version)) == DocKey(d) {
    }
  }

  lemma DistinctKeys(ds: seq<Document>, source: Source)
    requires Belong(ds, source) && DistinctIdentities(ds)
    ensures forall i, j | 0 <= i < j < |ds| :: DocKey(ds[i]) != DocKey(ds[j])
  {
    forall i, j | 0 <= i < j < |ds| ensures DocKey(ds[i]) != DocKey(ds[j]) {
      OwnIDsDiffer(ds[i], ds[j], source);
    }
  }

  ghost predicate Shelved(shelf: Shelf, ds: seq<Document>, embed: string -> Vector, t: Shelf) {
    && (forall d | d in ds :: OwnID(d) in t && t[OwnID(d)] == StoredFor(d, embed))
    && (forall id | id in t :: (exists d | d in ds :: id == OwnID(d)) || (id in shelf && t[id] == shelf[id]))
    && (forall id | id in shelf :: id in t)
  }

  lemma ShelvedHit(shelf: Shelf, ds: seq<Document>, embed: string -> Vector, t: Shelf, d: Document)
    requires Shelved(shelf, ds, embed, t) && d in ds
    ensures OwnID(d) in t && t[OwnID(d)] == StoredFor(d, embed)
  {
  }

  lemma ShelvedMiss(shelf: Shelf, ds: seq<Document>, embed: string -> Vector, t: Shelf, id: PointID)
    requires Shelved(shelf, ds, embed, t) && forall d | d in ds :: id != OwnID(d)
    ensures id in t <==> id in shelf
    ensures id in t ==> t[id] == shelf[id]
  {
  }

  lemma {:induction false} UpsertAllIs(shelf: Shelf, ds: seq<Document>, embed: string -> Vector)
    requires forall i, j | 0 <= i < j < |ds| :: DocKey(ds[i]) != DocKey(ds[j])
    ensures Shelved(shelf, ds, embed, UpsertAll(shelf, ds, embed))
  {
    if ds != [] {
      var n := |ds| - 1;
      assert ds == ds[..n] + [ds[n]];
      UpsertAllIs(shelf, ds[..n], embed);
      forall d | d in ds[..n] ensures OwnID(d) != OwnID(ds[n]) {
      }
    }
  }

  lemma {:induction false} UpsertAllAppend(shelf: Shelf, a: seq<Document>, b: seq<Document>, embed: string -> Vector)
    ensures UpsertAll(shelf, a + b, embed) == UpsertAll(UpsertAll(shelf, a, embed), b, embed)
    decreases |b|
  {
    if b == [] {
      assert a + b == a;
    } else {
      assert (a + b)[..|a + b| - 1] == a + b[..|b| - 1];
      UpsertAllAppend(shelf, a, b[..|b| - 1], embed);
    }
  }

  /** A filtered list holds the chosen documents in order. */
  lemma {:induction false} ChangedIs(p: Points, ds: seq<Document>, version: string)
    requires DistinctIdentities(ds)
    ensures DistinctIdentities(Changed(p, ds, version))
    ensures forall d :: d in Changed(p, ds, version) <==> d in ds && d.text != "" && !Current(p, d, version)
  {
    if ds != [] {
      var n := |ds| - 1;
      assert ds == ds[..n] + [ds[n]];
      ChangedIs(p, ds[..n], version);
      forall d | d in ds[..n] ensures d.identity != ds[n].identity {
      }
    }
  }

  lemma {:induction false} NonEmptyIs(ds: seq<Document>)
    requires DistinctIdentities(ds)
    ensures DistinctIdentities(NonEmpty(ds))
    ensures forall d :: d in NonEmpty(ds) <==> d in ds && d.text != ""
  {
    if ds != [] {
      var n := |ds| - 1;
      assert ds == ds[..n] + [ds[n]];
      NonEmptyIs(ds[..n]);
      forall d | d in ds[..n] ensures d.identity != ds[n].identity {
      }
    }
  }
}
