/**
 Stopping an incremental run and running again from the persisted state.

 The run is cut where the changed documents of `a`, the first part of the
 scanned documents `a + b`, have been checkpointed.
 */
module EmbedResume {
  import opened EmbedState
  import opened EmbedSync
  import opened EmbedTheorems
  import opened EmbedRun
  import opened EmbedService

  /** The conditions under which incremental runs refine full ones. */
  ghost predicate Ready(p: Points, source: Source, docs: seq<Document>) {
    && Sound(p) && Named(source) && OwnIDs(p, source)
    && Belong(docs, source) && DistinctIdentities(docs) && SamePaths(p, docs)
    && NoCopies(p, docs)
  }

  /** `kept` is the state after the changed documents of `a` were checkpointed. */
  ghost predicate Checkpointed(p: Points, a: seq<Document>, version: string, kept: Points) {
    && Keyed(kept) && UniqueIdentities(kept)
    && Timeless(kept) == PutAll(Timeless(p), RecordsFor(Changed(p, a, version), version))
  }

  /** No document still to come is new and has the content of a document
      already checkpointed. */
  ghost predicate NoLateCopy(p: Points, a: seq<Document>, b: seq<Document>, version: string) {
    forall d, e | d in Changed(p, b, version) && !Known(p, d) && e in Changed(p, a, version) ::
      d.contentHash != e.contentHash
  }

  ghost predicate LateCopy(p: Points, a: seq<Document>, version: string, d: Document) {
    d.text != "" && !Known(p, d) && exists e | e in Changed(p, a, version) :: d.contentHash == e.contentHash
  }

  lemma LateCopyStep(p: Points, a: seq<Document>, b: seq<Document>, d: Document, version: string)
    ensures NoLateCopy(p, a, b + [d], version) <==>
      NoLateCopy(p, a, b, version) && !LateCopy(p, a, version, d)
  {
    assert (b + [d])[..|b|] == b;
  }

  lemma Parts(a: seq<Document>, b: seq<Document>)
    requires DistinctIdentities(a + b)
    ensures DistinctIdentities(a) && DistinctIdentities(b)
    ensures forall d, e | d in a && e in b :: d.identity != e.identity
  {
    var ab := a + b;
    assert forall i | 0 <= i < |a| :: ab[i] == a[i];
    assert forall j | 0 <= j < |b| :: ab[|a| + j] == b[j];
  }

  /** One record of the checkpointed state: a checkpointed document's, or an
      old one that none of them replaced. */
  lemma KeptAt(p: Points, source: Source, a: seq<Document>, b: seq<Document>, version: string, kept: Points, id: PointID)
    requires Ready(p, source, a + b) && Checkpointed(p, a, version, kept)
    ensures id in kept ==>
      || (exists e | e in Changed(p, a, version) :: id == OwnID(e) && kept[id].(updatedAt := 0) == RecordFor(e, version))
      || (id in p && kept[id].(updatedAt := 0) == Timeless(p)[id])
    ensures id in p && (forall e | e in Changed(p, a, version) :: id != OwnID(e)) ==>
      id in kept && kept[id].(updatedAt := 0) == Timeless(p)[id]
    ensures forall e | e in Changed(p, a, version) && id == OwnID(e) ::
      id in kept && kept[id].(updatedAt := 0) == RecordFor(e, version)
  {
    hide Changed, PutAll, RecordsFor, DistinctIdentities, IdentityKey, HashMatch, NoCopies;
    Parts(a, b);
    var changed := Changed(p, a, version);
    ChangedIs(p, a, version);
    DistinctKeys(changed, source);
    PutAllIs(Timeless(p), changed, version);
    assert Timeless(kept).Keys == kept.Keys;
    if id in p {
      forall e | e in changed && KeyOf(Timeless(p)[id]) == DocKey(e) ensures id == OwnID(e) {
        assert e in a + b;
        CurrentRecord(p, source, e, version, id);
      }
    }
  }

  /** Every non-empty document of the checkpointed part is current on the rerun. */
  lemma DoneIsCurrent(
    p: Points, source: Source, a: seq<Document>, b: seq<Document>, version: string, kept: Points, d: Document)
    requires Ready(p, source, a + b) && Checkpointed(p, a, version, kept)
    requires d in a && d.text != ""
    ensures Current(kept, d, version)
  {
    Parts(a, b);
    ChangedIs(p, a, version);
    assert d in a + b;
    KeptAt(p, source, a, b, version, kept, OwnID(d));
    if d !in Changed(p, a, version) {
      var id :| id in p && KeyOf(p[id]) == DocKey(d) && Matches(p[id], d, version);
      CurrentRecord(p, source, d, version, id);
      forall e | e in Changed(p, a, version) ensures OwnID(e) != OwnID(d) {
        OwnIDsDiffer(d, e, source);
      }
    }
    assert kept[OwnID(d)].(updatedAt := 0) == RecordFor(d, version);
    assert KeyOf(kept[OwnID(d)]) == DocKey(d) && Matches(kept[OwnID(d)], d, version);
  }

  /** The rest of the documents looks on the rerun as it did before. */
  lemma RestIsSame(
    p: Points, source: Source, a: seq<Document>, b: seq<Document>, version: string, kept: Points, d: Document)
    requires Ready(p, source, a + b) && Checkpointed(p, a, version, kept)
    requires d in b
    ensures Known(kept, d) <==> Known(p, d)
    ensures Current(kept, d, version) <==> Current(p, d, version)
  {
    Parts(a, b);
    ChangedIs(p, a, version);
    assert d in a + b;
    forall e | e in Changed(p, a, version) ensures OwnID(e) != OwnID(d) && DocKey(e) != DocKey(d) {
      OwnIDsDiffer(d, e, source);
    }
    forall id | id in kept && KeyOf(kept[id]) == DocKey(d)
      ensures id in p && kept[id].(updatedAt := 0) == Timeless(p)[id] && KeyOf(p[id]) == DocKey(d)
    {
      KeptAt(p, source, a, b, version, kept, id);
      assert forall e | kept[id].(updatedAt := 0) == RecordFor(e, version) :: KeyOf(kept[id]) == DocKey(e);
    }
    forall id | id in p && KeyOf(p[id]) == DocKey(d)
      ensures id in kept && kept[id].(updatedAt := 0) == Timeless(p)[id] && KeyOf(kept[id]) == DocKey(d)
    {
      CurrentRecord(p, source, d, version, id);
      KeptAt(p, source, a, b, version, kept, id);
    }
  }

  lemma {:induction false} ChangedSame(p: Points, q: Points, ds: seq<Document>, version: string)
    requires forall d | d in ds :: Current(p, d, version) <==> Current(q, d, version)
    ensures Changed(p, ds, version) == Changed(q, ds, version)
  {
    if ds != [] {
      assert ds[|ds| - 1] in ds;
      ChangedSame(p, q, ds[..|ds| - 1], version);
    }
  }

  /** A new document of the rest finds by hash exactly the checkpointed
      documents of its content, and they match it. */
  lemma CopiesAreCheckpointed(
    p: Points, source: Source, a: seq<Document>, b: seq<Document>, version: string, kept: Points, d: Document,
    id: PointID)
    requires Ready(p, source, a + b) && Checkpointed(p, a, version, kept)
    requires d in b && d.text != "" && !Known(p, d)
    ensures HashMatch(kept, DocHashKey(d), id) <==>
      exists e | e in Changed(p, a, version) :: id == OwnID(e) && e.contentHash == d.contentHash
    ensures HashMatch(kept, DocHashKey(d), id) ==> Matches(kept[id], d, version)
  {
    assert d in a + b;
    Parts(a, b);
    ChangedIs(p, a, version);
    KeptAt(p, source, a, b, version, kept, id);
    forall e | e in Changed(p, a, version)
      ensures HashKeyOf(RecordFor(e, version)) == DocHashKey(d) <==> e.contentHash == d.contentHash
    {
      assert e in a + b;
      KeysOfOneSource(source.collection, source.id, e.contentHash, d.contentHash);
    }
    assert !HashMatch(p, DocHashKey(d), id);
    assert id in p && id in kept && kept[id].(updatedAt := 0) == Timeless(p)[id] ==>
      HashKeyOf(p[id]) == HashKeyOf(kept[id]);
  }

  // ------------------------------------------------- the benign direction

  lemma QuietRerun(
    p: Points, source: Source, a: seq<Document>, b: seq<Document>, version: string, kept: Points, held: Shelf,
    s: ScanState)
    requires Ready(p, source, a + b) && Checkpointed(p, a, version, kept)
    requires NoLateCopy(p, a, b, version)
    requires Scan(a + b, false, version, Start(kept, held), s)
    ensures s.points == kept && s.shelf == held && s.dirty == Changed(p, b, version)
  {
    Parts(a, b);
    forall d | d in a && d.text != "" ensures Current(kept, d, version) && Known(kept, d) {
      DoneIsCurrent(p, source, a, b, version, kept, d);
    }
    ChangedIs(p, b, version);
    forall d | d in b && d.text != "" && !Known(kept, d)
      ensures forall id :: !HashMatch(kept, DocHashKey(d), id)
    {
      RestIsSame(p, source, a, b, version, kept, d);
      forall id ensures !HashMatch(kept, DocHashKey(d), id) {
        CopiesAreCheckpointed(p, source, a, b, version, kept, d, id);
      }
    }
    assert NoCopies(kept, a + b);
    QuietScan(a + b, version, Start(kept, held), s);
    ChangedAppend(kept, a, b, version);
    NothingChanged(kept, a, version);
    forall d | d in b ensures Current(p, d, version) <==> Current(kept, d, version) {
      RestIsSame(p, source, a, b, version, kept, d);
    }
    ChangedSame(p, kept, b, version);
  }

  // ------------------------------------------------- the other direction

  /** A checkpointed document no longer has its record at its own id. */
  ghost predicate Taken(q: Points, done: seq<Document>) {
    exists e | e in done :: !(OwnID(e) in q && q[OwnID(e)].identity == e.identity)
  }

  lemma TakenStays(s: ScanState, s': ScanState, done: seq<Document>, d: Document, source: Source, version: string)
    requires DocStep(s, s', d, false, version)
    requires Taken(s.points, done) && forall e | e in done :: e.identity != d.identity
    ensures Taken(s'.points, done)
  {
    var e :| e in done && !(OwnID(e) in s.points && s.points[OwnID(e)].identity == e.identity);
  }

  /** Scanning documents of the rest from the checkpointed state either changes
      no record or takes a checkpointed document's record, the latter exactly
      when a late copy was met. */
  lemma {:induction false} RestScan(
    p: Points, source: Source, a: seq<Document>, b: seq<Document>, version: string, kept: Points,
    ds: seq<Document>, s0: ScanState, s: ScanState)
    requires Ready(p, source, a + b) && Checkpointed(p, a, version, kept)
    requires (forall d | d in ds :: d in b) && s0.points == kept && Scan(ds, false, version, s0, s)
    ensures if NoLateCopy(p, a, ds, version) then s.points == kept
            else Taken(s.points, Changed(p, a, version))
    decreases |ds|
  {
    if ds == [] {
      assert Changed(p, ds, version) == [];
    } else {
      var rest, last := ds[..|ds| - 1], ds[|ds| - 1];
      assert ds == rest + [last];
      var mid :| Scan(rest, false, version, s0, mid) && DocStep(mid, s, last, false, version);
      hide *;
      RestScan(p, source, a, b, version, kept, rest, s0, mid);
      LateCopyStep(p, a, rest, last, version);
      if NoLateCopy(p, a, rest, version) {
        RestStep(p, source, a, b, version, kept, mid, s, last);
      } else {
        DoneAreNamed(p, source, a, b, version, last);
        TakenStays(mid, s, Changed(p, a, version), last, source, version);
      }
    }
  }

  lemma DoneAreNamed(p: Points, source: Source, a: seq<Document>, b: seq<Document>, version: string, d: Document)
    requires Ready(p, source, a + b) && d in b
    ensures forall e | e in Changed(p, a, version) :: e.identity != d.identity
    ensures !Known(p, d) ==> !Current(p, d, version)
  {
    Parts(a, b);
    ChangedIs(p, a, version);
  }

  lemma RestStep(
    p: Points, source: Source, a: seq<Document>, b: seq<Document>, version: string, kept: Points,
    s: ScanState, s': ScanState, d: Document)
    requires Ready(p, source, a + b) && Checkpointed(p, a, version, kept)
    requires s.points == kept && d in b && DocStep(s, s', d, false, version)
    ensures if LateCopy(p, a, version, d) then Taken(s'.points, Changed(p, a, version))
            else s'.points == kept
  {
    hide Ready, Checkpointed, Changed, Known, Current, HashKeyOf, HashKey, IdentityKey, KeyOf;
    RestIsSame(p, source, a, b, version, kept, d);
    DoneAreNamed(p, source, a, b, version, d);
    if d.text != "" && !Known(p, d) {
      forall id
        ensures HashMatch(kept, DocHashKey(d), id) <==>
          exists e | e in Changed(p, a, version) :: id == OwnID(e) && e.contentHash == d.contentHash
        ensures HashMatch(kept, DocHashKey(d), id) ==> Matches(kept[id], d, version)
      {
        CopiesAreCheckpointed(p, source, a, b, version, kept, d, id);
      }
      if e :| e in Changed(p, a, version) && e.contentHash == d.contentHash {
        assert HashMatch(kept, DocHashKey(d), OwnID(e));
        var m, now :| IsNewest(kept, DocHashKey(d), m) && Matches(m, d, version) && s' == Moved(s, m, d, version, now);
        var f :| f in Changed(p, a, version) && m.pointID == OwnID(f);
        assert s'.points[OwnID(f)].identity == d.identity;
      }
    }
  }

  /** A taken record stays lost to the end of the run. */
  lemma TakenIsFinal(
    q: Points, done: seq<Document>, dirty: seq<Document>, docs: seq<Document>, source: Source, version: string)
    requires Taken(q, done)
    requires Belong(dirty, source) && DistinctIdentities(dirty) && Belong(done, source)
    requires forall d, e | d in dirty && e in done :: d.identity != e.identity
    ensures Taken(FinalRecords(q, dirty, docs, source, version), done)
  {
    var e :| e in done && !(OwnID(e) in q && q[OwnID(e)].identity == e.identity);
    DistinctKeys(dirty, source);
    PutAllIs(Timeless(q), dirty, version);
    forall d | d in dirty ensures OwnID(d) != OwnID(e) {
      OwnIDsDiffer(d, e, source);
    }
  }

  lemma UninterruptedKeeps(
    p: Points, source: Source, a: seq<Document>, b: seq<Document>, version: string)
    requires Ready(p, source, a + b)
    ensures !Taken(FinalRecords(p, Changed(p, a + b, version), a + b, source, version), Changed(p, a, version))
  {
    var docs := a + b;
    var changed := Changed(p, docs, version);
    ChangedIs(p, docs, version);
    ChangedAppend(p, a, b, version);
    DistinctKeys(changed, source);
    PutAllIs(Timeless(p), changed, version);
    forall e | e in Changed(p, a, version)
      ensures
        var q := FinalRecords(p, changed, docs, source, version);
        OwnID(e) in q && q[OwnID(e)].identity == e.identity
    {
      assert e in changed && e.identity in Seen(docs);
    }
  }

  /** The rerun passes over everything that was checkpointed. */
  lemma DoneIsSkipped(
    p: Points, source: Source, a: seq<Document>, b: seq<Document>, version: string, kept: Points, held: Shelf,
    s: ScanState) returns (mid: ScanState)
    requires Ready(p, source, a + b) && Checkpointed(p, a, version, kept)
    requires Scan(a + b, false, version, Start(kept, held), s)
    ensures mid.points == kept && mid.dirty == [] && Scan(b, false, version, mid, s)
    ensures forall d | d in s.dirty :: d in b
  {
    Parts(a, b);
    mid := ScanSplits(a, b, false, version, Start(kept, held), s);
    forall d | d in a && d.text != "" ensures Current(kept, d, version) && Known(kept, d) {
      DoneIsCurrent(p, source, a, b, version, kept, d);
    }
    NothingChanged(kept, a, version);
    QuietScan(a, version, Start(kept, held), mid);
    DirtyIsPart(b, false, version, mid, s);
  }

  /** Stopping an incremental run and rerunning it from the persisted state
      embeds nothing that was checkpointed. It ends with the records of an
      uninterrupted run if and only if no late copy was still to come. */
  lemma StopAndResume(
    p: Points, source: Source, a: seq<Document>, b: seq<Document>, version: string, kept: Points, held: Shelf,
    s: ScanState)
    requires Ready(p, source, a + b) && Checkpointed(p, a, version, kept)
    requires Scan(a + b, false, version, Start(kept, held), s)
    ensures forall d | d in s.dirty :: d !in Changed(p, a, version)
    ensures FinalRecords(s.points, s.dirty, a + b, source, version) ==
            FinalRecords(p, Changed(p, a + b, version), a + b, source, version)
            <==> NoLateCopy(p, a, b, version)
  {
    var mid := DoneIsSkipped(p, source, a, b, version, kept, held, s);
    forall d | d in s.dirty ensures d !in Changed(p, a, version) {
      DoneAreNamed(p, source, a, b, version, d);
    }
    if NoLateCopy(p, a, b, version) {
      QuietRerun(p, source, a, b, version, kept, held, s);
      ResumedRecords(p, a, b, version, kept);
      hide PutAll, RecordsFor, Changed, PruneIDs, Seen, NoLateCopy, Ready, Checkpointed, Scan;
    } else {
      RestScan(p, source, a, b, version, kept, b, mid, s);
      LostRecords(p, source, a, b, version, mid, s);
      UninterruptedKeeps(p, source, a, b, version);
      hide *;
    }
  }

  lemma ResumedRecords(p: Points, a: seq<Document>, b: seq<Document>, version: string, kept: Points)
    requires Checkpointed(p, a, version, kept)
    ensures PutAll(Timeless(kept), RecordsFor(Changed(p, b, version), version)) ==
            PutAll(Timeless(p), RecordsFor(Changed(p, a + b, version), version))
  {
    var x, y := Changed(p, a, version), Changed(p, b, version);
    ChangedAppend(p, a, b, version);
    assert RecordsFor(x + y, version) == RecordsFor(x, version) + RecordsFor(y, version);
    PutAllAppend(Timeless(p), RecordsFor(x, version), RecordsFor(y, version));
    hide PutAll, Changed;
  }

  lemma LostRecords(
    p: Points, source: Source, a: seq<Document>, b: seq<Document>, version: string, mid: ScanState, s: ScanState)
    requires Ready(p, source, a + b)
    requires mid.dirty == [] && Scan(b, false, version, mid, s)
    requires Taken(s.points, Changed(p, a, version))
    ensures Taken(FinalRecords(s.points, s.dirty, a + b, source, version), Changed(p, a, version))
  {
    Parts(a, b);
    ChangedIs(p, a, version);
    DirtyIsPart(b, false, version, mid, s);
    TakenIsFinal(s.points, Changed(p, a, version), s.dirty, a + b, source, version);
  }

  /** The vector store too ends as after an uninterrupted run, whatever part of
      the batch in flight had reached it and whether or not pruning had begun. */
  lemma ResumedShelf(
    p: Points, shelf: Shelf, source: Source, a: seq<Document>, b: seq<Document>, version: string,
    embed: string -> Vector, kept: Points, n: nat, gone: set<PointID>, s: ScanState)
    requires Ready(p, source, a + b) && Checkpointed(p, a, version, kept) && NoLateCopy(p, a, b, version)
    requires n <= |Changed(p, b, version)|
    requires gone <= PruneIDs(
      PutAll(Timeless(p), RecordsFor(Changed(p, a + b, version), version)), source.id, Seen(a + b))
    requires
      var held := UpsertAll(shelf, Changed(p, a, version) + Changed(p, b, version)[..n], embed) - gone;
      Scan(a + b, false, version, Start(kept, held), s)
    ensures FinalShelf(s.points, s.shelf, s.dirty, a + b, source, version, embed) ==
            FinalShelf(p, shelf, Changed(p, a + b, version), a + b, source, version, embed)
  {
    var x, y := Changed(p, a, version), Changed(p, b, version);
    var held := UpsertAll(shelf, x + y[..n], embed) - gone;
    QuietRerun(p, source, a, b, version, kept, held, s);
    ResumedRecords(p, a, b, version, kept);
    ChangedAppend(p, a, b, version);
    ChangedIs(p, a + b, version);
    DistinctKeys(x + y, source);
    var all := PruneIDs(PutAll(Timeless(p), RecordsFor(x + y, version)), source.id, Seen(a + b));
    UpsertTwice(shelf, x, y, n, gone, all, embed);
    hide PutAll, RecordsFor, Changed, PruneIDs, Seen, NoLateCopy, Ready, Checkpointed, Scan, UpsertAll;
  }

  lemma UpsertTwice(
    shelf: Shelf, x: seq<Document>, y: seq<Document>, n: nat, gone: set<PointID>, all: set<PointID>,
    embed: string -> Vector)
    requires n <= |y| && gone <= all
    requires forall i, j | 0 <= i < j < |x + y| :: DocKey((x + y)[i]) != DocKey((x + y)[j])
    ensures UpsertAll(UpsertAll(shelf, x + y[..n], embed) - gone, y, embed) - all ==
            UpsertAll(shelf, x + y, embed) - all
  {
    hide UpsertAll, Shelved, OwnID, StoredFor, DocKey;
    var z := x + y[..n];
    assert forall i | 0 <= i < |z| :: z[i] == (x + y)[i];
    assert forall i | 0 <= i < |y| :: y[i] == (x + y)[|x| + i];
    var part := UpsertAll(shelf, z, embed);
    UpsertAllIs(shelf, z, embed);
    UpsertAllIs(part - gone, y, embed);
    UpsertAllIs(shelf, x + y, embed);
    var l, r := UpsertAll(part - gone, y, embed), UpsertAll(shelf, x + y, embed);
    forall id | id !in all ensures id in l <==> id in r
      ensures id in l ==> l[id] == r[id]
    {
      UpsertTwiceAt(shelf, x, y, n, gone, embed, part, l, r, id);
    }
    AgreeOutside(l, r, all);
  }

  lemma AgreeOutside(l: Shelf, r: Shelf, all: set<PointID>)
    requires forall id | id !in all :: (id in l <==> id in r) && (id in l ==> l[id] == r[id])
    ensures l - all == r - all
  {
  }

  lemma UpsertTwiceAt(
    shelf: Shelf, x: seq<Document>, y: seq<Document>, n: nat, gone: set<PointID>, embed: string -> Vector,
    part: Shelf, l: Shelf, r: Shelf, id: PointID)
    requires n <= |y| && id !in gone
    requires Shelved(shelf, x + y[..n], embed, part)
    requires Shelved(part - gone, y, embed, l) && Shelved(shelf, x + y, embed, r)
    ensures id in l <==> id in r
    ensures id in l ==> l[id] == r[id]
  {
    hide Shelved, OwnID, StoredFor;
    if d :| d in y && id == OwnID(d) {
      ShelvedHit(part - gone, y, embed, l, d);
      ShelvedHit(shelf, x + y, embed, r, d);
    } else if d :| d in x && id == OwnID(d) {
      ShelvedHit(shelf, x + y[..n], embed, part, d);
      ShelvedMiss(part - gone, y, embed, l, id);
      ShelvedHit(shelf, x + y, embed, r, d);
    } else {
      ShelvedMiss(shelf, x + y[..n], embed, part, id);
      ShelvedMiss(part - gone, y, embed, l, id);
      ShelvedMiss(shelf, x + y, embed, r, id);
    }
  }

  // ------------------------------------------------- any interrupted run

  /** Every number of checkpointed documents is a cut of the scanned ones. */
  lemma {:induction false} CutAt(p: Points, docs: seq<Document>, version: string, k: nat) returns (n: nat)
    requires k <= |Changed(p, docs, version)|
    ensures n <= |docs| && Changed(p, docs[..n], version) == Changed(p, docs, version)[..k]
  {
    if k == |Changed(p, docs, version)| {
      n := |docs|;
      assert docs[..n] == docs;
    } else {
      var rest := docs[..|docs| - 1];
      assert Changed(p, rest, version) == Changed(p, docs, version)[..|Changed(p, rest, version)|];
      n := CutAt(p, rest, version, k);
      assert rest[..n] == docs[..n];
    }
  }

  lemma SplitAt(p: Points, docs: seq<Document>, version: string, k: nat)
    returns (a: seq<Document>, b: seq<Document>)
    requires k <= |Changed(p, docs, version)|
    ensures docs == a + b
    ensures Changed(p, a, version) == Changed(p, docs, version)[..k]
    ensures Changed(p, b, version) == Changed(p, docs, version)[k..]
  {
    var n := CutAt(p, docs, version, k);
    a, b := docs[..n], docs[n..];
    ChangedAppend(p, a, b, version);
    hide Changed;
    assert docs == a + b;
  }

  /** A document still to be embedded is new and has the content of one of the
      first `k`, which were checkpointed. */
  ghost predicate CopyAcross(p: Points, dirty: seq<Document>, k: nat)
    requires k <= |dirty|
  {
    exists i, j | 0 <= i < k <= j < |dirty| ::
      !Known(p, dirty[j]) && dirty[j].contentHash == dirty[i].contentHash
  }

  /** A rerun that starts from the records of the first `k` changed documents, over a
      collection that holds the points of the first `sent`, embeds none of those
      `k`. Records and points then equal those of an uninterrupted run, unless a
      copy lies across the cut: then the records differ. */
  lemma ResumeFrom(
    p: Points, shelf: Shelf, source: Source, docs: seq<Document>, version: string, embed: string -> Vector, k: nat,
    sent: nat, gone: set<PointID>, kept: Points, shelf': Shelf, rerun: ScanState)
    requires Ready(p, source, docs) && k <= sent <= |Changed(p, docs, version)|
    requires Keyed(kept) && UniqueIdentities(kept)
    requires
      var dirty := Changed(p, docs, version);
      && Timeless(kept) == PutAll(Timeless(p), RecordsFor(dirty[..k], version))
      && shelf' == UpsertAll(shelf, dirty[..sent], embed) - gone
      && gone <= PruneIDs(PutAll(Timeless(p), RecordsFor(dirty, version)), source.id, Seen(docs))
    requires Scan(docs, false, version, Start(kept, shelf'), rerun)
    ensures Resumed(p, shelf, source, docs, version, embed, k, rerun)
  {
    hide Ready, Scan, Changed, UpsertAll, NoLateCopy, CopyAcross, FinalRecords, FinalShelf, PruneIDs, Seen, PutAll,
         RecordsFor, Keyed, UniqueIdentities;
    var dirty := Changed(p, docs, version);
    var a, b := SplitAt(p, docs, version, k);
    CopyAcrossIs(p, a, b, version);
    StopAndResume(p, source, a, b, version, kept, shelf', rerun);
    if NoLateCopy(p, a, b, version) {
      var n := sent - k;
      assert dirty[..sent] == dirty[..k] + dirty[k..][..n];
      ResumedShelf(p, shelf, source, a, b, version, embed, kept, n, gone, rerun);
    }
  }

  /** How a rerun compares with an uninterrupted run. */
  ghost predicate Resumed(
    p: Points, shelf: Shelf, source: Source, docs: seq<Document>, version: string, embed: string -> Vector, k: nat,
    rerun: ScanState)
  {
    var dirty := Changed(p, docs, version);
    && k <= |dirty|
    && (forall d | d in rerun.dirty :: d !in dirty[..k])
    && (FinalRecords(rerun.points, rerun.dirty, docs, source, version) ==
          FinalRecords(p, dirty, docs, source, version)
        <==> !CopyAcross(p, dirty, k))
    && (!CopyAcross(p, dirty, k) ==>
          FinalShelf(rerun.points, rerun.shelf, rerun.dirty, docs, source, version, embed) ==
          FinalShelf(p, shelf, dirty, docs, source, version, embed))
  }

  /** Whatever an incremental run that stopped early left on disk and in the
      vector store, a rerun on the same documents after a restart embeds nothing
      that was checkpointed. Records and points then equal those of an
      uninterrupted run, unless a copy lies across the cut: then the records
      differ. */
  lemma ResumeAfterInterruption(
    p: Points, runs: Runs, shelf: Shelf, disk: seq<Line>, source: Source, docs: seq<Document>, version: string,
    embed: string -> Vector, cut: Cut, p': Points, shelf': Shelf, disk': seq<Line>, rerun: ScanState)
    requires Ready(p, source, docs) && Decode(disk) == Loaded(p, runs)
    requires Interrupted(p, shelf, disk, source, docs, false, version, embed, cut, p', shelf', disk')
    requires Decode(disk').Loaded? && Scan(docs, false, version, Start(Decode(disk').points, shelf'), rerun)
    ensures Resumed(p, shelf, source, docs, version, embed, cut.kept, rerun)
  {
    hide Scan, Changed, UpsertAll, PruneIDs, Seen, Decode, Resumed, FinalRecords;
    var dirty := Changed(p, docs, version);
    var kept := Decode(disk').points;
    assert cut.kept == 0 ==> RecordsFor(dirty[..cut.kept], version) == [];
    assert Timeless(kept) == PutAll(Timeless(p), RecordsFor(dirty[..cut.kept], version));
    ResumeFrom(p, shelf, source, docs, version, embed, cut.kept, cut.sent, cut.gone, kept, shelf', rerun);
  }

  /** The same within the process: a rerun from what the stopped run left in memory
      embeds nothing whose record is there. */
  lemma RerunAfterInterruption(
    p: Points, shelf: Shelf, disk: seq<Line>, source: Source, docs: seq<Document>, version: string,
    embed: string -> Vector, cut: Cut, p': Points, shelf': Shelf, disk': seq<Line>, rerun: ScanState)
    requires Ready(p, source, docs) && Sound(p')
    requires Interrupted(p, shelf, disk, source, docs, false, version, embed, cut, p', shelf', disk')
    requires Scan(docs, false, version, Start(p', shelf'), rerun)
    ensures Resumed(p, shelf, source, docs, version, embed, cut.held, rerun)
  {
    hide Scan, Changed, UpsertAll, PruneIDs, Seen, Resumed, FinalRecords, PutAll, RecordsFor, CheckpointHolds;
    var dirty := Changed(p, docs, version);
    if cut.pruned {
      assert dirty[..|dirty|] == dirty;
      RerunWhenDone(p, shelf, source, docs, version, embed, cut.gone, p', shelf', rerun);
    } else {
      ResumeFrom(p, shelf, source, docs, version, embed, cut.held, cut.sent, cut.gone, p', shelf', rerun);
    }
  }

  /** When all was done but the result was not stored, the rerun changes nothing. */
  lemma RerunWhenDone(
    p: Points, shelf: Shelf, source: Source, docs: seq<Document>, version: string, embed: string -> Vector,
    gone: set<PointID>, p': Points, shelf': Shelf, rerun: ScanState)
    requires Ready(p, source, docs)
    requires
      var dirty := Changed(p, docs, version);
      && Timeless(p') == FinalRecords(p, dirty, docs, source, version)
      && shelf' == UpsertAll(shelf, dirty, embed) - gone
      && gone == PruneIDs(PutAll(Timeless(p), RecordsFor(dirty, version)), source.id, Seen(docs))
    requires Scan(docs, false, version, Start(p', shelf'), rerun)
    ensures Resumed(p, shelf, source, docs, version, embed, |Changed(p, docs, version)|, rerun)
  {
    hide Scan, Changed, NonEmpty, UpsertAll, PruneIDs, Seen, PutAll, RecordsFor, Sound, OwnIDs, SamePaths;
    var full := Start(p, shelf).(dirty := NonEmpty(docs));
    FullScanIs(docs, version, Start(p, shelf));
    assert [] + NonEmpty(docs) == NonEmpty(docs);
    SameRecords(p, source, docs, version);
    RerunAfterFullIsQuiet(p, shelf, source, docs, version, embed, full, p', shelf', rerun);
    NothingMore(p', shelf', docs, source, version, embed);
  }

  lemma NothingMore(
    p: Points, shelf: Shelf, docs: seq<Document>, source: Source, version: string, embed: string -> Vector)
    requires PruneIDs(p, source.id, Seen(docs)) == {}
    ensures FinalRecords(p, [], docs, source, version) == Timeless(p)
    ensures FinalShelf(p, shelf, [], docs, source, version, embed) == shelf
  {
    TimelessKeeps(p);
    assert PutAll(Timeless(p), RecordsFor([], version)) == Timeless(p);
    assert PruneIDs(Timeless(p), source.id, Seen(docs)) == {};
    assert Timeless(p) - {} == Timeless(p) && shelf - {} == shelf;
  }

  lemma CopyAcrossIs(p: Points, a: seq<Document>, b: seq<Document>, version: string)
    ensures
      var x, y := Changed(p, a, version), Changed(p, b, version);
      Changed(p, a + b, version) == x + y && (CopyAcross(p, x + y, |x|) <==> !NoLateCopy(p, a, b, version))
  {
    var x, y := Changed(p, a, version), Changed(p, b, version);
    ChangedAppend(p, a, b, version);
    if d, e :| d in y && !Known(p, d) && e in x && d.contentHash == e.contentHash {
      var i :| 0 <= i < |x| && x[i] == e;
      var j :| 0 <= j < |y| && y[j] == d;
      assert (x + y)[i] == e && (x + y)[|x| + j] == d;
    }
  }

  /** Two new files of equal content are enough for a copy to lie across a cut. */
  lemma CopyAcrossExample()
    ensures exists p, source, docs, version, k: nat ::
      Ready(p, source, docs) && k <= |Changed(p, docs, version)| && CopyAcross(p, Changed(p, docs, version), k)
  {
    var p: Points := map[];
    var d := Document("core", "notes", "/memory/a.md", "/memory/a.md", "same", "h", map[]);
    var e := d.(path := "/memory/b.md", identity := "/memory/b.md");
    var source, docs := Source("notes", "core", true), [d, e];
    assert Ready(p, source, docs);
    assert docs[..1] == [d] && docs[..1][..0] == [];
    assert Changed(p, [], "v") == [];
    assert Changed(p, [d], "v") == [d] by { assert [d][..0] == []; }
    assert Changed(p, docs, "v") == [d, e];
    assert CopyAcross(p, [d, e], 1) by { assert [d, e][1].contentHash == [d, e][0].contentHash; }
  }
}
