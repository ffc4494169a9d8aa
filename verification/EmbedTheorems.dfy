/**
 Incremental runs against full ones, full runs against the scanned documents,
 and interrupted runs against uninterrupted ones.
 */
module EmbedTheorems {
  import opened EmbedState
  import opened EmbedSync

  // ------------------------------------------------- what a scan leaves

  /** A full scan marks every non-empty document and touches nothing. */
  lemma {:induction false} FullScan(ds: seq<Document>, version: string, s0: ScanState, s: ScanState)
    requires Scan(ds, true, version, s0, s)
    ensures s == s0.(dirty := s0.dirty + NonEmpty(ds))
  {
    if ds != [] {
      var rest, last := ds[..|ds| - 1], ds[|ds| - 1];
      var mid :| Scan(rest, true, version, s0, mid) && DocStep(mid, s, last, true, version);
      FullScan(rest, version, s0, mid);
    }
  }

  /** A full scan can always be taken to its end. */
  lemma {:induction false} FullScanIs(ds: seq<Document>, version: string, s0: ScanState)
    ensures Scan(ds, true, version, s0, s0.(dirty := s0.dirty + NonEmpty(ds)))
  {
    if ds == [] {
      assert s0.dirty + NonEmpty(ds) == s0.dirty;
    } else {
      var rest, last := ds[..|ds| - 1], ds[|ds| - 1];
      FullScanIs(rest, version, s0);
      var mid, s := s0.(dirty := s0.dirty + NonEmpty(rest)), s0.(dirty := s0.dirty + NonEmpty(ds));
      assert DocStep(mid, s, last, true, version);
    }
  }

  /** Every non-empty document is unchanged, moved or embedded. */
  lemma {:induction false} ScanCounts(
    ds: seq<Document>, full: bool, version: string, s0: ScanState, s: ScanState)
    requires Scan(ds, full, version, s0, s)
    ensures s.unmodified + |s.dirty| + s.moved == s0.unmodified + |s0.dirty| + s0.moved + |NonEmpty(ds)|
  {
    if ds != [] {
      hide DocStep;
      var rest, last := ds[..|ds| - 1], ds[|ds| - 1];
      var mid :| Scan(rest, full, version, s0, mid) && DocStep(mid, s, last, full, version);
      ScanCounts(rest, full, version, s0, mid);
      StepCounts(mid, s, last, full, version);
    }
  }

  lemma StepCounts(s: ScanState, s': ScanState, d: Document, full: bool, version: string)
    requires DocStep(s, s', d, full, version)
    ensures s'.unmodified + |s'.dirty| + s'.moved ==
            s.unmodified + |s.dirty| + s.moved + if d.text == "" then 0 else 1
  {
  }

  lemma {:induction false} MovedGrows(ds: seq<Document>, full: bool, version: string, s0: ScanState, s: ScanState)
    requires Scan(ds, full, version, s0, s)
    ensures s.moved >= s0.moved
  {
    if ds != [] {
      var rest, last := ds[..|ds| - 1], ds[|ds| - 1];
      var mid :| Scan(rest, full, version, s0, mid) && DocStep(mid, s, last, full, version);
      MovedGrows(rest, full, version, s0, mid);
    }
  }

  lemma UnmovedStep(s: ScanState, s': ScanState, d: Document, version: string)
    requires DocStep(s, s', d, false, version) && s'.moved == s.moved
    ensures s' ==
      if d.text == "" then s
      else if Current(s.points, d, version) then s.(unmodified := s.unmodified + 1)
      else s.(dirty := s.dirty + [d])
  {
  }

  /** An incremental scan that moved no record marks the changed documents and
      touches nothing. */
  lemma {:induction false} UnmovedScan(ds: seq<Document>, version: string, s0: ScanState, s: ScanState)
    requires Scan(ds, false, version, s0, s) && s.moved == s0.moved
    ensures s.points == s0.points && s.shelf == s0.shelf
    ensures s.dirty == s0.dirty + Changed(s0.points, ds, version)
  {
    if ds != [] {
      hide DocStep, Current;
      var rest, last := ds[..|ds| - 1], ds[|ds| - 1];
      assert ds == rest + [last];
      var mid :| Scan(rest, false, version, s0, mid) && DocStep(mid, s, last, false, version);
      MovedGrows(rest, false, version, s0, mid);
      StepGrows(mid, s, last, false, version);
      UnmovedScan(rest, version, s0, mid);
      UnmovedStep(mid, s, last, version);
    }
  }

  lemma StepGrows(s: ScanState, s': ScanState, d: Document, full: bool, version: string)
    requires DocStep(s, s', d, full, version)
    ensures s'.moved >= s.moved && s'.points.Keys <= s.points.Keys
    ensures s'.dirty == s.dirty || s'.dirty == s.dirty + [d]
    ensures s'.moved > s.moved ==> !Known(s.points, d) && d.text != "" && s'.dirty == s.dirty
  {
  }

  lemma {:induction false} DirtyIsPart(ds: seq<Document>, full: bool, version: string, s0: ScanState, s: ScanState)
    requires Scan(ds, full, version, s0, s) && s0.dirty == [] && DistinctIdentities(ds)
    ensures DistinctIdentities(s.dirty) && forall d | d in s.dirty :: d in ds
  {
    if ds != [] {
      hide DocStep;
      var rest, last := ds[..|ds| - 1], ds[|ds| - 1];
      assert ds == rest + [last];
      var mid :| Scan(rest, full, version, s0, mid) && DocStep(mid, s, last, full, version);
      DirtyIsPart(rest, full, version, s0, mid);
      StepGrows(mid, s, last, full, version);
      forall d | d in rest ensures d.identity != last.identity {
      }
    }
  }

  /** Without copies an incremental scan moves nothing. */
  lemma {:induction false} NeverMoves(ds: seq<Document>, version: string, s0: ScanState, s: ScanState)
    requires Scan(ds, false, version, s0, s) && NoCopies(s0.points, ds)
    ensures s.moved == s0.moved
  {
    if ds != [] {
      hide DocStep, Known, HashMatch, DocHashKey;
      var rest, last := ds[..|ds| - 1], ds[|ds| - 1];
      assert ds == rest + [last];
      var mid :| Scan(rest, false, version, s0, mid) && DocStep(mid, s, last, false, version);
      assert NoCopies(s0.points, rest) && NoCopies(s0.points, [last]);
      NeverMoves(rest, version, s0, mid);
      UnmovedScan(rest, version, s0, mid);
      QuietStep(mid, s, last, version);
    }
  }

  lemma QuietStep(s: ScanState, s': ScanState, d: Document, version: string)
    requires DocStep(s, s', d, false, version) && NoCopies(s.points, [d])
    ensures s'.moved == s.moved
  {
    assert d in [d];
  }

  /** So it marks the changed documents and touches nothing. */
  lemma QuietScan(ds: seq<Document>, version: string, s0: ScanState, s: ScanState)
    requires Scan(ds, false, version, s0, s)
    requires NoCopies(s0.points, ds)
    ensures s.points == s0.points && s.shelf == s0.shelf && s.moved == s0.moved
    ensures s.dirty == s0.dirty + Changed(s0.points, ds, version)
    ensures s.unmodified + |s.dirty| == s0.unmodified + |s0.dirty| + |NonEmpty(ds)|
  {
    hide *;
    NeverMoves(ds, version, s0, s);
    UnmovedScan(ds, version, s0, s);
    ScanCounts(ds, false, version, s0, s);
  }

  lemma {:induction false} ScanSplits(
    a: seq<Document>, b: seq<Document>, full: bool, version: string, s0: ScanState, s: ScanState)
    returns (mid: ScanState)
    requires Scan(a + b, full, version, s0, s)
    ensures Scan(a, full, version, s0, mid) && Scan(b, full, version, mid, s)
    decreases |b|
  {
    if b == [] {
      assert a + b == a;
      mid := s;
    } else {
      var n := |b| - 1;
      assert (a + b)[..|a + b| - 1] == a + b[..n];
      var t :| Scan(a + b[..n], full, version, s0, t) && DocStep(t, s, b[n], full, version);
      mid := ScanSplits(a, b[..n], full, version, s0, t);
    }
  }

  lemma {:induction false} ChangedAppend(p: Points, a: seq<Document>, b: seq<Document>, version: string)
    ensures Changed(p, a + b, version) == Changed(p, a, version) + Changed(p, b, version)
    decreases |b|
  {
    if b == [] {
      assert a + b == a;
    } else {
      assert (a + b)[..|a + b| - 1] == a + b[..|b| - 1];
      ChangedAppend(p, a, b[..|b| - 1], version);
    }
  }

  // ------------------------------------------------- timestamps aside

  lemma TimelessKeeps(p: Points)
    ensures Sound(p) ==> Sound(Timeless(p))
    ensures forall d :: Known(Timeless(p), d) <==> Known(p, d)
    ensures forall d, version :: Current(Timeless(p), d, version) <==> Current(p, d, version)
    ensures forall source, seen :: PruneIDs(Timeless(p), source, seen) == PruneIDs(p, source, seen)
  {
    var t := Timeless(p);
    assert t.Keys == p.Keys;
    assert forall id | id in p :: KeyOf(t[id]) == KeyOf(p[id]);
  }

  // ------------------------------------------------- incremental against full

  /** A current document of an own-id source already has the record a full run
      would write. */
  lemma CurrentRecord(p: Points, source: Source, d: Document, version: string, id: PointID)
    requires Sound(p) && Named(source) && OwnIDs(p, source) && Belong([d], source)
    requires SamePaths(p, [d])
    requires id in p && KeyOf(p[id]) == DocKey(d)
    ensures id == OwnID(d)
    ensures Matches(p[id], d, version) ==> Timeless(p)[id] == RecordFor(d, version)
  {
    assert d in [d];
    RecordOfDoc(p[id], d, source);
    OwnIDIsNamed(d);
  }

  /** Leaving out documents whose record is already there makes no difference. */
  lemma OverlaySame(
    t: Points, some: seq<Document>, all: seq<Document>, version: string, q: Points, r: Points)
    requires Overlaid(t, some, version, q) && Overlaid(t, all, version, r)
    requires forall d | d in some :: d in all
    requires forall d, e | d in all && e in all && OwnID(d) == OwnID(e) :: d == e
    requires forall id, d | id in t && d in all && KeyOf(t[id]) == DocKey(d) :: id == OwnID(d)
    requires forall d | d in all && d !in some :: OwnID(d) in t && t[OwnID(d)] == RecordFor(d, version)
    ensures q == r
  {
    forall id
      ensures id in q <==> id in r
      ensures id in q ==> q[id] == r[id]
    {
      OverlaySameAt(t, some, all, version, q, r, id);
    }
  }

  lemma RecordKey(d: Document, version: string)
    ensures KeyOf(RecordFor(d, version)) == DocKey(d)
  {
  }

  lemma OverlaySameAt(
    t: Points, some: seq<Document>, all: seq<Document>, version: string, q: Points, r: Points, id: PointID)
    requires Overlaid(t, some, version, q) && Overlaid(t, all, version, r)
    requires forall d | d in some :: d in all
    requires forall d, e | d in all && e in all && OwnID(d) == OwnID(e) :: d == e
    requires forall id, d | id in t && d in all && KeyOf(t[id]) == DocKey(d) :: id == OwnID(d)
    requires forall d | d in all && d !in some :: OwnID(d) in t && t[OwnID(d)] == RecordFor(d, version)
    ensures id in q <==> id in r
    ensures id in q ==> q[id] == r[id]
  {
    hide KeyOf, DocKey, OwnID, RecordFor;
    if d :| d in all && id == OwnID(d) {
      if d !in some {
        RecordKey(d, version);
        forall e | e in some ensures OwnID(d) != OwnID(e) && DocKey(d) != DocKey(e) {
        }
      }
    }
  }

  lemma SameRecords(p: Points, source: Source, ds: seq<Document>, version: string)
    requires Sound(p) && Named(source) && OwnIDs(p, source)
    requires Belong(ds, source) && DistinctIdentities(ds) && SamePaths(p, ds)
    ensures PutAll(Timeless(p), RecordsFor(Changed(p, ds, version), version)) ==
            PutAll(Timeless(p), RecordsFor(NonEmpty(ds), version))
  {
    var t, changed, all := Timeless(p), Changed(p, ds, version), NonEmpty(ds);
    ChangedIs(p, ds, version);
    NonEmptyIs(ds);
    DistinctKeys(changed, source);
    DistinctKeys(all, source);
    PutAllIs(t, changed, version);
    PutAllIs(t, all, version);
    forall d | d in all && d !in changed
      ensures OwnID(d) in t && t[OwnID(d)] == RecordFor(d, version)
    {
      var id :| id in p && KeyOf(p[id]) == DocKey(d) && Matches(p[id], d, version);
      CurrentRecord(p, source, d, version, id);
    }
    forall id, d | id in t && d in all && KeyOf(t[id]) == DocKey(d) ensures id == OwnID(d) {
      assert KeyOf(p[id]) == KeyOf(t[id]);
      CurrentRecord(p, source, d, version, id);
    }
    OneDocPerID(all, source);
    hide *;
    OverlaySame(t, changed, all, version,
      PutAll(t, RecordsFor(changed, version)), PutAll(t, RecordsFor(all, version)));
  }

  lemma OneDocPerID(ds: seq<Document>, source: Source)
    requires Belong(ds, source) && DistinctIdentities(ds)
    ensures forall d, e | d in ds && e in ds && OwnID(d) == OwnID(e) :: d == e
  {
    forall d, e | d in ds && e in ds && OwnID(d) == OwnID(e) ensures d == e {
      OwnIDsDiffer(d, e, source);
      var i, j :| 0 <= i < |ds| && 0 <= j < |ds| && ds[i] == d && ds[j] == e;
    }
  }

  /** An incremental run ends with the records of a full run if and only if it
      moved none. Then it also ends with the full run's point ids and vectors,
      payloads agree exactly when the unchanged documents' payloads were already
      stored, and it has embedded exactly what was not current. */
  lemma IncrementalRefinesFull(
    p: Points, shelf: Shelf, source: Source, docs: seq<Document>, version: string,
    hash: string -> string, embed: string -> Vector, inc: ScanState, full: ScanState)
    requires Sound(p) && Named(source) && OwnIDs(p, source)
    requires Belong(docs, source) && DistinctIdentities(docs) && SamePaths(p, docs)
    requires CollisionFree(hash) && Hashed(docs, hash) && Backed(p, shelf, source, version, hash, embed)
    requires Scan(docs, false, version, Start(p, shelf), inc)
    requires Scan(docs, true, version, Start(p, shelf), full)
    ensures (FinalRecords(inc.points, inc.dirty, docs, source, version) ==
             FinalRecords(full.points, full.dirty, docs, source, version)) <==> inc.moved == 0
    ensures inc.moved == 0 ==>
      var a := FinalShelf(inc.points, inc.shelf, inc.dirty, docs, source, version, embed);
      var b := FinalShelf(full.points, full.shelf, full.dirty, docs, source, version, embed);
      && SameVectors(a, b)
      && (a == b <==> forall d | d in docs && d.text != "" && Current(p, d, version) ::
            OwnID(d) in shelf && shelf[OwnID(d)].payload == d.payload)
      && (forall d :: d in inc.dirty <==> d in docs && d.text != "" && !Current(p, d, version))
  {
    hide Scan, Sound, OwnIDs, SamePaths, Backed, Hashed, CollisionFree, Belong, DistinctIdentities,
      Changed, NonEmpty, PutAll, RecordsFor, UpsertAll, PruneIDs, Seen, SameVectors, Current, OwnID;
    if inc.moved == 0 {
      UnmovedScan(docs, version, Start(p, shelf), inc);
      FullScan(docs, version, Start(p, shelf), full);
      ChangedIs(p, docs, version);
      SameRecords(p, source, docs, version);
      assert inc.dirty == Changed(p, docs, version) && full.dirty == NonEmpty(docs);
      var q := PutAll(Timeless(p), RecordsFor(NonEmpty(docs), version));
      SameShelves(p, shelf, source, docs, version, hash, embed, PruneIDs(q, source.id, Seen(docs)));
    } else {
      MovedDiffers(p, shelf, source, docs, version, embed, inc, full);
    }
  }

  lemma PutAllKeys(p: Points, rs: seq<Record>)
    ensures forall id | id in PutAll(p, rs) :: id in p || exists r | r in rs :: id == r.pointID
  {
    if rs != [] {
      var rest, last := rs[..|rs| - 1], rs[|rs| - 1];
      assert rs == rest + [last];
      PutAllKeys(p, rest);
    }
  }

  /** The document whose record was moved first was unknown and is not embedded. */
  ghost predicate Bereft(p: Points, s: ScanState, ds: seq<Document>, d: Document) {
    && d in ds && d.text != "" && !Known(p, d)
    && forall e | e in s.dirty :: e.identity != d.identity
  }

  lemma UnknownHasNoPoint(p: Points, source: Source, d: Document)
    requires Sound(p) && Named(source) && OwnIDs(p, source) && Belong([d], source) && !Known(p, d)
    ensures OwnID(d) !in p
  {
    if OwnID(d) in p {
      RecordOfDoc(p[OwnID(d)], d, source);
      OwnIDIsNamed(d);
    }
  }

  lemma {:induction false} FirstMoveBereaves(
    ds: seq<Document>, version: string, s0: ScanState, s: ScanState) returns (d: Document)
    requires Scan(ds, false, version, s0, s) && s.moved > s0.moved && s0.dirty == []
    requires DistinctIdentities(ds)
    ensures Bereft(s0.points, s, ds, d)
  {
    hide DocStep, Known, DistinctIdentities;
    var rest, last := ds[..|ds| - 1], ds[|ds| - 1];
    assert ds == rest + [last];
    LastApart(ds);
    var mid :| Scan(rest, false, version, s0, mid) && DocStep(mid, s, last, false, version);
    MovedGrows(rest, false, version, s0, mid);
    StepGrows(mid, s, last, false, version);
    if mid.moved > s0.moved {
      d := FirstMoveBereaves(rest, version, s0, mid);
    } else {
      d := last;
      assert last in ds;
      UnmovedScan(rest, version, s0, mid);
      ChangedIs(s0.points, rest, version);
    }
  }

  lemma LastApart(ds: seq<Document>)
    requires ds != [] && DistinctIdentities(ds)
    ensures DistinctIdentities(ds[..|ds| - 1])
    ensures forall d | d in ds[..|ds| - 1] :: d.identity != ds[|ds| - 1].identity
  {
  }

  lemma {:induction false} KeysShrink(ds: seq<Document>, full: bool, version: string, s0: ScanState, s: ScanState)
    requires Scan(ds, full, version, s0, s)
    ensures s.points.Keys <= s0.points.Keys
  {
    if ds != [] {
      hide DocStep;
      var rest, last := ds[..|ds| - 1], ds[|ds| - 1];
      var mid :| Scan(rest, full, version, s0, mid) && DocStep(mid, s, last, full, version);
      KeysShrink(rest, full, version, s0, mid);
      StepGrows(mid, s, last, full, version);
    }
  }

  lemma MovedDiffers(
    p: Points, shelf: Shelf, source: Source, docs: seq<Document>, version: string, embed: string -> Vector,
    inc: ScanState, full: ScanState)
    requires Sound(p) && Named(source) && OwnIDs(p, source)
    requires Belong(docs, source) && DistinctIdentities(docs)
    requires Scan(docs, false, version, Start(p, shelf), inc) && inc.moved > 0
    requires Scan(docs, true, version, Start(p, shelf), full)
    ensures FinalRecords(inc.points, inc.dirty, docs, source, version) !=
            FinalRecords(full.points, full.dirty, docs, source, version)
  {
    hide Scan, Sound, OwnIDs, DistinctIdentities, PutAll, Seen, PruneIDs;
    var d := FirstMoveBereaves(docs, version, Start(p, shelf), inc);
    UnknownHasNoPoint(p, source, d);
    KeysShrink(docs, false, version, Start(p, shelf), inc);
    FullSyncExact(p, shelf, source, docs, version, embed, full);
    DirtyFromDocs(docs, false, version, Start(p, shelf), inc);
    var rs := RecordsFor(inc.dirty, version);
    PutAllKeys(Timeless(inc.points), rs);
    forall r | r in rs ensures r.pointID != OwnID(d) {
      var i :| 0 <= i < |rs| && rs[i] == r;
      var e := inc.dirty[i];
      assert e in inc.dirty && e in docs;
      OwnIDsDiffer(d, e, source);
    }
    assert OwnID(d) !in PutAll(Timeless(inc.points), rs);
  }

  lemma {:induction false} DirtyFromDocs(
    ds: seq<Document>, full: bool, version: string, s0: ScanState, s: ScanState)
    requires Scan(ds, full, version, s0, s)
    ensures forall d | d in s.dirty :: d in s0.dirty || d in ds
  {
    if ds != [] {
      var rest, last := ds[..|ds| - 1], ds[|ds| - 1];
      assert ds == rest + [last];
      var mid :| Scan(rest, full, version, s0, mid) && DocStep(mid, s, last, full, version);
      DirtyFromDocs(rest, full, version, s0, mid);
      StepGrows(mid, s, last, full, version);
      hide DocStep;
    }
  }

  // ------------------------------------------------- when a record is moved

  /** A new document may take over a record: a newest one of its content is
      current. */
  ghost predicate MayTake(p: Points, d: Document, version: string) {
    d.text != "" && !Known(p, d) && exists m :: IsNewest(p, DocHashKey(d), m) && Matches(m, d, version)
  }

  /** Which of equally new records a lookup gives makes no difference. */
  ghost predicate Untied(p: Points, d: Document, version: string) {
    forall m, n | IsNewest(p, DocHashKey(d), m) && IsNewest(p, DocHashKey(d), n) ::
      Matches(m, d, version) <==> Matches(n, d, version)
  }

  lemma TakeStep(s: ScanState, s': ScanState, d: Document, version: string)
    requires DocStep(s, s', d, false, version)
    ensures !MayTake(s.points, d, version) ==> s'.moved == s.moved
    ensures MayTake(s.points, d, version) && Untied(s.points, d, version) ==> s'.moved > s.moved
  {
    if MayTake(s.points, d, version) {
      var m :| IsNewest(s.points, DocHashKey(d), m) && Matches(m, d, version);
      assert HashMatch(s.points, DocHashKey(d), m.pointID);
    }
  }

  /** What a move does: a newest and current record of the document's content takes
      the document's identity and path and keeps its point id; its point gets the
      document's payload and keeps vector and text; all other records and points are
      as they were. */
  lemma MoveTells(s: ScanState, s': ScanState, d: Document, full: bool, version: string) returns (id: PointID)
    requires Keyed(s.points) && DocStep(s, s', d, full, version) && s'.moved != s.moved
    ensures !full && d.text != "" && !Known(s.points, d) && s'.moved == s.moved + 1 && s'.dirty == s.dirty
    ensures id in s.points && s.points[id].contentHash == d.contentHash && s.points[id].vectorVersion == version
    ensures IsNewest(s.points, DocHashKey(d), s.points[id])
    ensures s'.points.Keys == s.points.Keys && id in s'.points
    ensures
      var r := s'.points[id];
      && r.pointID == id && r.identity == d.identity && r.path == d.path && r.contentHash == d.contentHash
      && r.collection == d.collection && r.sourceID == d.sourceID && r.vectorVersion == version
    ensures forall x | x in s.points && x != id :: s'.points[x] == s.points[x]
    ensures s'.shelf.Keys == s.shelf.Keys && forall x | x in s.shelf && x != id :: s'.shelf[x] == s.shelf[x]
    ensures id in s.shelf ==> s'.shelf[id] == s.shelf[id].(payload := d.payload)
  {
    var m, now :| IsNewest(s.points, DocHashKey(d), m) && Matches(m, d, version) && s' == Moved(s, m, d, version, now);
    id := m.pointID;
    var r := Stamped(MovedRecord(m, d, version), now);
    assert KeyOf(r) == DocKey(d);
    assert Displaced(s.points, r) == {id};
  }

  /** Whether an incremental scan moves a record can be told beforehand. */
  lemma {:induction false} TakenExactly(ds: seq<Document>, version: string, s0: ScanState, s: ScanState)
    requires Scan(ds, false, version, s0, s)
    requires forall d | d in ds :: Untied(s0.points, d, version)
    ensures s.moved == s0.moved <==> forall d | d in ds :: !MayTake(s0.points, d, version)
  {
    hide DocStep, Untied, MayTake;
    if ds != [] {
      var rest, last := ds[..|ds| - 1], ds[|ds| - 1];
      assert ds == rest + [last];
      var mid :| Scan(rest, false, version, s0, mid) && DocStep(mid, s, last, false, version);
      TakenExactly(rest, version, s0, mid);
      MovedGrows(rest, false, version, s0, mid);
      StepGrows(mid, s, last, false, version);
      if mid.moved == s0.moved {
        UnmovedScan(rest, version, s0, mid);
        TakeStep(mid, s, last, version);
      }
    }
  }

  /** An incremental run ends with a full run's records if and only if no new
      document finds a current record among the newest of its content. */
  lemma RefinementExactly(
    p: Points, shelf: Shelf, source: Source, docs: seq<Document>, version: string,
    hash: string -> string, embed: string -> Vector, inc: ScanState, full: ScanState)
    requires Sound(p) && Named(source) && OwnIDs(p, source)
    requires Belong(docs, source) && DistinctIdentities(docs) && SamePaths(p, docs)
    requires CollisionFree(hash) && Hashed(docs, hash) && Backed(p, shelf, source, version, hash, embed)
    requires Scan(docs, false, version, Start(p, shelf), inc)
    requires Scan(docs, true, version, Start(p, shelf), full)
    requires forall d | d in docs :: Untied(p, d, version)
    ensures (FinalRecords(inc.points, inc.dirty, docs, source, version) ==
             FinalRecords(full.points, full.dirty, docs, source, version)) <==>
            forall d | d in docs :: !MayTake(p, d, version)
  {
    IncrementalRefinesFull(p, shelf, source, docs, version, hash, embed, inc, full);
    TakenExactly(docs, version, Start(p, shelf), inc);
    hide *;
  }

  lemma SameShelves(
    p: Points, shelf: Shelf, source: Source, docs: seq<Document>, version: string,
    hash: string -> string, embed: string -> Vector, gone: set<PointID>)
    requires Sound(p) && Named(source) && OwnIDs(p, source)
    requires Belong(docs, source) && DistinctIdentities(docs) && SamePaths(p, docs)
    requires CollisionFree(hash) && Hashed(docs, hash) && Backed(p, shelf, source, version, hash, embed)
    requires gone == PruneIDs(PutAll(Timeless(p), RecordsFor(NonEmpty(docs), version)), source.id, Seen(docs))
    ensures
      var a := UpsertAll(shelf, Changed(p, docs, version), embed) - gone;
      var b := UpsertAll(shelf, NonEmpty(docs), embed) - gone;
      && SameVectors(a, b)
      && (a == b <==> forall d | d in docs && d.text != "" && Current(p, d, version) ::
            OwnID(d) in shelf && shelf[OwnID(d)].payload == d.payload)
  {
    var changed, all := Changed(p, docs, version), NonEmpty(docs);
    ChangedIs(p, docs, version);
    NonEmptyIs(docs);
    DistinctKeys(changed, source);
    DistinctKeys(all, source);
    UpsertAllIs(shelf, changed, embed);
    UpsertAllIs(shelf, all, embed);
    OneDocPerID(all, source);
    forall d | d in all && d !in changed
      ensures OwnID(d) in shelf && shelf[OwnID(d)].vector == embed(d.text) && shelf[OwnID(d)].sparseText == d.text
    {
      CurrentIsBacked(p, shelf, source, docs, version, hash, embed, d);
    }
    forall d | d in all ensures OwnID(d) !in gone {
      NotPruned(p, source, docs, version, d);
    }
    assert forall d :: d in all && d !in changed <==> d in docs && d.text != "" && Current(p, d, version);
    hide *;
    ShelvesSame(shelf, changed, all, embed, UpsertAll(shelf, changed, embed), UpsertAll(shelf, all, embed), gone);
  }

  lemma CurrentIsBacked(
    p: Points, shelf: Shelf, source: Source, docs: seq<Document>, version: string,
    hash: string -> string, embed: string -> Vector, d: Document)
    requires Sound(p) && Named(source) && OwnIDs(p, source)
    requires Belong(docs, source) && SamePaths(p, docs)
    requires CollisionFree(hash) && Hashed(docs, hash) && Backed(p, shelf, source, version, hash, embed)
    requires d in docs && Current(p, d, version)
    ensures OwnID(d) in shelf && shelf[OwnID(d)].vector == embed(d.text) && shelf[OwnID(d)].sparseText == d.text
  {
    var id :| id in p && KeyOf(p[id]) == DocKey(d) && Matches(p[id], d, version);
    CurrentRecord(p, source, d, version, id);
    RecordOfDoc(p[id], d, source);
  }

  /** The point of a scanned document is never pruned. */
  lemma NotPruned(p: Points, source: Source, docs: seq<Document>, version: string, d: Document)
    requires Belong(docs, source) && DistinctIdentities(docs)
    requires d in NonEmpty(docs)
    ensures OwnID(d) !in
      PruneIDs(PutAll(Timeless(p), RecordsFor(NonEmpty(docs), version)), source.id, Seen(docs))
  {
    NonEmptyIs(docs);
    DistinctKeys(NonEmpty(docs), source);
    PutAllIs(Timeless(p), NonEmpty(docs), version);
    assert d.identity in Seen(docs);
  }

  lemma ShelvesSame(
    shelf: Shelf, some: seq<Document>, all: seq<Document>, embed: string -> Vector,
    a: Shelf, b: Shelf, gone: set<PointID>)
    requires Shelved(shelf, some, embed, a) && Shelved(shelf, all, embed, b)
    requires forall d | d in some :: d in all
    requires forall d, e | d in all && e in all && OwnID(d) == OwnID(e) :: d == e
    requires forall d | d in all && d !in some ::
      OwnID(d) in shelf && shelf[OwnID(d)].vector == embed(d.text) && shelf[OwnID(d)].sparseText == d.text
    requires forall d | d in all :: OwnID(d) !in gone
    ensures SameVectors(a - gone, b - gone)
    ensures a - gone == b - gone <==>
      forall d | d in all && d !in some :: shelf[OwnID(d)].payload == d.payload
  {
    hide Shelved;
    forall id
      ensures id in a <==> id in b
      ensures id in a ==> a[id].vector == b[id].vector && a[id].sparseText == b[id].sparseText
      ensures id in a && a[id] != b[id] ==>
        exists d | d in all && d !in some :: shelf[OwnID(d)].payload != d.payload
    {
      ShelvesSameAt(shelf, some, all, embed, a, b, id);
    }
    if d :| d in all && d !in some && shelf[OwnID(d)].payload != d.payload {
      ShelvesSameAt(shelf, some, all, embed, a, b, OwnID(d));
      assert (a - gone)[OwnID(d)] != (b - gone)[OwnID(d)];
    } else {
      assert a == b;
    }
  }

  lemma ShelvesSameAt(
    shelf: Shelf, some: seq<Document>, all: seq<Document>, embed: string -> Vector, a: Shelf, b: Shelf, id: PointID)
    requires Shelved(shelf, some, embed, a) && Shelved(shelf, all, embed, b)
    requires forall d | d in some :: d in all
    requires forall d, e | d in all && e in all && OwnID(d) == OwnID(e) :: d == e
    requires forall d | d in all && d !in some ::
      OwnID(d) in shelf && shelf[OwnID(d)].vector == embed(d.text) && shelf[OwnID(d)].sparseText == d.text
    ensures id in a <==> id in b
    ensures id in a ==> a[id].vector == b[id].vector && a[id].sparseText == b[id].sparseText
    ensures id in a && a[id] != b[id] ==>
      exists d | d in all && d !in some :: shelf[OwnID(d)].payload != d.payload
    ensures forall d | d in all && d !in some && id == OwnID(d) ::
      id in a && a[id] == shelf[id] && b[id] == StoredFor(d, embed)
  {
    hide OwnID, Shelved;
    if d :| d in some && id == OwnID(d) {
      ShelvedHit(shelf, some, embed, a, d);
      ShelvedHit(shelf, all, embed, b, d);
    } else if d :| d in all && id == OwnID(d) {
      ShelvedMiss(shelf, some, embed, a, id);
      ShelvedHit(shelf, all, embed, b, d);
    } else {
      ShelvedMiss(shelf, some, embed, a, id);
      ShelvedMiss(shelf, all, embed, b, id);
    }
  }

  // ------------------------------------------------- full against the documents

  ghost predicate Own(docs: seq<Document>, id: PointID) {
    exists d | d in docs && d.text != "" :: id == OwnID(d)
  }

  /** A record of the source that lies in another collection and has a scanned
      identity: a run neither replaces nor prunes it. */
  predicate Stray(p: Points, source: Source, docs: seq<Document>, id: PointID) {
    && id in p && p[id].sourceID == source.id && p[id].collection != source.collection
    && p[id].identity in Seen(docs)
  }

  /** After a full run every non-empty document has its record, at the id of its
      own identity with the current hash and version, and its point holds the
      current vector and payload. The source's other records are exactly the
      strays, so it has none if and only if there was no stray; and records of
      other sources are as before. */
  lemma FullSyncExact(
    p: Points, shelf: Shelf, source: Source, docs: seq<Document>, version: string,
    embed: string -> Vector, s: ScanState)
    requires Sound(p) && Named(source)
    requires Belong(docs, source) && DistinctIdentities(docs)
    requires Scan(docs, true, version, Start(p, shelf), s)
    ensures
      var q := FinalRecords(s.points, s.dirty, docs, source, version);
      var t := FinalShelf(s.points, s.shelf, s.dirty, docs, source, version, embed);
      && (forall d | d in docs && d.text != "" ::
            && OwnID(d) in q && q[OwnID(d)] == RecordFor(d, version)
            && OwnID(d) in t && t[OwnID(d)] == StoredFor(d, embed))
      && (forall id | !Own(docs, id) ::
            id in q && q[id].sourceID == source.id <==> Stray(p, source, docs, id))
      && ((forall id | id in q && q[id].sourceID == source.id :: Own(docs, id)) <==>
            forall id :: !Stray(p, source, docs, id))
      && (forall id | id in p && p[id].sourceID != source.id :: id in q && q[id] == Timeless(p)[id])
      && (forall id | id in q && !Own(docs, id) :: id in p && q[id] == Timeless(p)[id])
  {
    FullScan(docs, version, Start(p, shelf), s);
    assert s.dirty == NonEmpty(docs);
    var q := FinalRecords(s.points, s.dirty, docs, source, version);
    forall d | d in docs && d.text != ""
      ensures OwnID(d) in q && q[OwnID(d)] == RecordFor(d, version)
      ensures
        var t := FinalShelf(s.points, s.shelf, s.dirty, docs, source, version, embed);
        OwnID(d) in t && t[OwnID(d)] == StoredFor(d, embed)
    {
      FullRecordsAt(p, source, docs, version, OwnID(d));
      FullShelfAt(shelf, source, docs, embed, OwnID(d));
    }
    hide PutAll, RecordsFor, NonEmpty, UpsertAll, Seen, RecordFor, StoredFor, OwnID;
    forall id
      ensures !Own(docs, id) ==> (id in q && q[id].sourceID == source.id <==> Stray(p, source, docs, id))
      ensures id in p && p[id].sourceID != source.id ==> id in q && q[id] == Timeless(p)[id]
      ensures id in q && !Own(docs, id) ==> id in p && q[id] == Timeless(p)[id]
      ensures Stray(p, source, docs, id) ==> !Own(docs, id)
    {
      FullRecordsAt(p, source, docs, version, id);
    }
  }

  /** What becomes of one id when all documents' records are put. */
  lemma FullRecordsAt(p: Points, source: Source, docs: seq<Document>, version: string, id: PointID)
    requires Sound(p) && Named(source)
    requires Belong(docs, source) && DistinctIdentities(docs)
    ensures
      var o := PutAll(Timeless(p), RecordsFor(NonEmpty(docs), version));
      && (forall d | d in docs && d.text != "" && id == OwnID(d) ::
            id in o && o[id] == RecordFor(d, version) && d.identity in Seen(docs))
      && (!Own(docs, id) ==>
            if id in p && p[id].sourceID == source.id && p[id].collection == source.collection &&
               p[id].identity in Seen(docs) then id !in o
            else (id in o <==> id in p) && (id in o ==> o[id] == Timeless(p)[id]))
      && (Own(docs, id) && id in p ==> p[id].sourceID == source.id && p[id].collection == source.collection)
  {
    hide PutAll, RecordsFor, NonEmpty, IdentityKey, HashKey, HashKeyOf, DocHashKey, DistinctIdentities;
    var all := NonEmpty(docs);
    NonEmptyIs(docs);
    DistinctKeys(all, source);
    PutAllIs(Timeless(p), all, version);
    if id in p {
      forall d | d in all
        ensures KeyOf(Timeless(p)[id]) == DocKey(d) <==>
          p[id].sourceID == source.id && p[id].collection == source.collection && p[id].identity == d.identity
        ensures id == OwnID(d) ==> p[id].sourceID == source.id && p[id].collection == source.collection
      {
        RecordOfDoc(p[id], d, source);
      }
      if !Own(docs, id) && p[id].sourceID == source.id && p[id].identity in Seen(docs) {
        var d :| d in docs && d.text != "" && d.identity == p[id].identity;
        assert d in all;
      }
    }
  }

  lemma FullShelfAt(shelf: Shelf, source: Source, docs: seq<Document>, embed: string -> Vector, id: PointID)
    requires Belong(docs, source) && DistinctIdentities(docs)
    ensures
      var t := UpsertAll(shelf, NonEmpty(docs), embed);
      && (forall d | d in docs && d.text != "" && id == OwnID(d) :: id in t && t[id] == StoredFor(d, embed))
      && (id in shelf ==> id in t) && (id in t ==> id in shelf || Own(docs, id))
  {
    NonEmptyIs(docs);
    DistinctKeys(NonEmpty(docs), source);
    UpsertAllIs(shelf, NonEmpty(docs), embed);
  }

  lemma {:induction false} NothingChanged(p: Points, ds: seq<Document>, version: string)
    requires forall d | d in ds && d.text != "" :: Current(p, d, version)
    ensures Changed(p, ds, version) == []
  {
    if ds != [] {
      assert ds[|ds| - 1] in ds;
      NothingChanged(p, ds[..|ds| - 1], version);
    }
  }

  /** An incremental run straight after a full one embeds, moves and prunes
      nothing and counts every non-empty document as unchanged. */
  lemma RerunAfterFullIsQuiet(
    p: Points, shelf: Shelf, source: Source, docs: seq<Document>, version: string,
    embed: string -> Vector, s: ScanState, now: Points, held: Shelf, rerun: ScanState)
    requires Sound(p) && Named(source)
    requires Belong(docs, source) && DistinctIdentities(docs)
    requires Scan(docs, true, version, Start(p, shelf), s)
    requires Timeless(now) == FinalRecords(s.points, s.dirty, docs, source, version)
    requires Scan(docs, false, version, Start(now, held), rerun)
    ensures rerun.dirty == [] && rerun.moved == 0 && rerun.points == now && rerun.shelf == held
    ensures rerun.unmodified == |NonEmpty(docs)|
    ensures PruneIDs(now, source.id, Seen(docs)) == {}
  {
    hide Scan, Sound, FinalRecords, FinalShelf, NonEmpty, Changed, DistinctIdentities, Belong, OwnID, StoredFor,
         IdentityKey;
    FullSyncExact(p, shelf, source, docs, version, embed, s);
    var q := Timeless(now);
    assert q.Keys == now.Keys;
    forall d | d in docs && d.text != "" ensures Current(now, d, version) {
      assert q[OwnID(d)] == now[OwnID(d)].(updatedAt := 0);
      assert KeyOf(now[OwnID(d)]) == DocKey(d);
    }
    assert forall d | d in docs && d.text != "" :: Known(now, d);
    NothingChanged(now, docs, version);
    QuietScan(docs, version, Start(now, held), rerun);
    forall id | id in now && now[id].sourceID == source.id ensures now[id].identity in Seen(docs) {
      assert q[id].sourceID == source.id && q[id].identity == now[id].identity;
      if d :| d in docs && d.text != "" && id == OwnID(d) {
        assert q[id].identity == d.identity;
      } else {
        assert !Own(docs, id);
      }
    }
  }

  /** A full run forgets a point without deleting it from the vector store
      exactly when the point's record lies in the source's collection, its identity
      is still scanned, and the point has no scanned document's own id. */
  lemma FullSyncOrphans(
    p: Points, shelf: Shelf, source: Source, docs: seq<Document>, version: string,
    embed: string -> Vector, s: ScanState, id: PointID)
    requires Sound(p) && Named(source)
    requires Belong(docs, source) && DistinctIdentities(docs)
    requires Scan(docs, true, version, Start(p, shelf), s)
    requires id in p && p[id].sourceID == source.id && id in shelf
    ensures
      var q := FinalRecords(s.points, s.dirty, docs, source, version);
      var t := FinalShelf(s.points, s.shelf, s.dirty, docs, source, version, embed);
      id in t && id !in q <==>
      && p[id].collection == source.collection && p[id].identity in Seen(docs)
      && forall d | d in docs && d.text != "" :: id != OwnID(d)
  {
    FullScan(docs, version, Start(p, shelf), s);
    assert s.dirty == NonEmpty(docs);
    FullRecordsAt(p, source, docs, version, id);
    FullShelfAt(shelf, source, docs, embed, id);
  }

  // ------------------------------------------------- the conditions come back

  /** The source's records in its collection are exactly its non-empty documents',
      current and at their own ids, and their points hold the current vector and
      payload. */
  ghost predicate Settled(
    p: Points, shelf: Shelf, source: Source, docs: seq<Document>, version: string, embed: string -> Vector)
  {
    && (forall d | d in docs && d.text != "" ::
          && OwnID(d) in p && p[OwnID(d)].(updatedAt := 0) == RecordFor(d, version)
          && OwnID(d) in shelf && shelf[OwnID(d)] == StoredFor(d, embed))
    && (forall id | id in p && p[id].sourceID == source.id && p[id].collection == source.collection ::
          Own(docs, id))
  }

  /** A full run settles its source; of the source's records elsewhere exactly the
      strays are left. */
  lemma FullSettles(
    p: Points, shelf: Shelf, source: Source, docs: seq<Document>, version: string, embed: string -> Vector,
    s: ScanState, p': Points, shelf': Shelf)
    requires Sound(p) && Named(source) && Belong(docs, source) && DistinctIdentities(docs)
    requires Scan(docs, true, version, Start(p, shelf), s)
    requires Timeless(p') == FinalRecords(s.points, s.dirty, docs, source, version)
    requires shelf' == FinalShelf(s.points, s.shelf, s.dirty, docs, source, version, embed)
    ensures Settled(p', shelf', source, docs, version, embed)
    ensures forall id :: Stray(p, source, docs, id) <==>
      id in p' && p'[id].sourceID == source.id && p'[id].collection != source.collection
  {
    hide Scan, Sound, FinalRecords, FinalShelf, DistinctIdentities, Seen, OwnID, RecordFor, StoredFor;
    FullSyncExact(p, shelf, source, docs, version, embed, s);
    var q := Timeless(p');
    assert q.Keys == p'.Keys && forall id | id in p' :: q[id] == p'[id].(updatedAt := 0);
    forall id
      ensures Own(docs, id) ==> id in p' && q[id].collection == source.collection && !Stray(p, source, docs, id)
    {
      FullRecordsAt(p, source, docs, version, id);
      if d :| d in docs && d.text != "" && id == OwnID(d) {
        assert q[OwnID(d)] == RecordFor(d, version);
        HomeOfRecord(d, version);
      }
    }
  }

  lemma HomeOfRecord(d: Document, version: string)
    ensures RecordFor(d, version).collection == d.collection && RecordFor(d, version).sourceID == d.sourceID
  {
  }

  lemma SettledMeans(
    p: Points, shelf: Shelf, source: Source, docs: seq<Document>, version: string, hash: string -> string,
    embed: string -> Vector)
    requires Settled(p, shelf, source, docs, version, embed) && Hashed(docs, hash)
    ensures OwnIDs(p, source) && Backed(p, shelf, source, version, hash, embed)
  {
    hide IdentityKey;
    forall id | id in p && p[id].sourceID == source.id && p[id].collection == source.collection
      ensures id == Uuid(KeyOf(p[id])) && id in shelf && hash(shelf[id].sparseText) == p[id].contentHash
      ensures shelf[id].vector == embed(shelf[id].sparseText)
    {
      var d :| d in docs && d.text != "" && id == OwnID(d);
      assert p[id].(updatedAt := 0) == RecordFor(d, version) && KeyOf(p[id]) == DocKey(d);
      OwnIDIsNamed(d);
    }
  }

  /** After a full run the conditions of the refinement hold, whatever held before,
      and the source's records all lie in its collection if and only if there was
      no stray. */
  lemma FullRestores(
    p: Points, shelf: Shelf, source: Source, docs: seq<Document>, version: string, hash: string -> string,
    embed: string -> Vector, s: ScanState, p': Points, shelf': Shelf)
    requires Sound(p) && Named(source)
    requires Belong(docs, source) && DistinctIdentities(docs) && Hashed(docs, hash)
    requires Scan(docs, true, version, Start(p, shelf), s)
    requires Timeless(p') == FinalRecords(s.points, s.dirty, docs, source, version)
    requires shelf' == FinalShelf(s.points, s.shelf, s.dirty, docs, source, version, embed)
    ensures Homed(p', source) <==> forall id :: !Stray(p, source, docs, id)
    ensures OwnIDs(p', source) && Backed(p', shelf', source, version, hash, embed)
  {
    hide Scan, Sound, FinalRecords, FinalShelf, DistinctIdentities, Belong, Hashed, Settled, Stray, OwnIDs, Backed;
    FullSettles(p, shelf, source, docs, version, embed, s, p', shelf');
    SettledMeans(p', shelf', source, docs, version, hash, embed);
  }

  lemma {:induction false} UpsertMisses(shelf: Shelf, ds: seq<Document>, embed: string -> Vector, id: PointID)
    requires id in shelf && forall d | d in ds :: id != OwnID(d)
    ensures id in UpsertAll(shelf, ds, embed) && UpsertAll(shelf, ds, embed)[id] == shelf[id]
  {
    hide OwnID;
    if ds != [] {
      assert ds[|ds| - 1] in ds;
      UpsertMisses(shelf, ds[..|ds| - 1], embed, id);
    }
  }

  /** An incremental run that moved no record keeps them. */
  lemma IncrementalRestores(
    p: Points, shelf: Shelf, source: Source, docs: seq<Document>, version: string, hash: string -> string,
    embed: string -> Vector, s: ScanState, p': Points, shelf': Shelf)
    requires Sound(p) && Named(source) && OwnIDs(p, source)
    requires Belong(docs, source) && DistinctIdentities(docs) && SamePaths(p, docs)
    requires CollisionFree(hash) && Hashed(docs, hash) && Backed(p, shelf, source, version, hash, embed)
    requires Scan(docs, false, version, Start(p, shelf), s) && s.moved == 0
    requires Timeless(p') == FinalRecords(s.points, s.dirty, docs, source, version)
    requires shelf' == FinalShelf(s.points, s.shelf, s.dirty, docs, source, version, embed)
    ensures OwnIDs(p', source) && Backed(p', shelf', source, version, hash, embed)
    ensures Homed(p, source) ==> Homed(p', source)
  {
    hide Scan, Sound, FinalRecords, FinalShelf, DistinctIdentities, Seen, OwnIDs, Belong, SamePaths, Hashed,
         CollisionFree, NonEmpty;
    var full := Start(p, shelf).(dirty := NonEmpty(docs));
    FullScanIs(docs, version, Start(p, shelf));
    assert [] + NonEmpty(docs) == NonEmpty(docs);
    IncrementalRefinesFull(p, shelf, source, docs, version, hash, embed, s, full);
    FullRestores(p, shelf, source, docs, version, hash, embed, full, p',
      FinalShelf(full.points, full.shelf, full.dirty, docs, source, version, embed));
  }

  // ------------------------------------------------- an emptied collection

  lemma {:induction false} EmptyShelfStays(ds: seq<Document>, full: bool, version: string, s0: ScanState, s: ScanState)
    requires Scan(ds, full, version, s0, s) && s0.shelf == map[]
    ensures s.shelf == map[]
  {
    if ds != [] {
      hide DocStep;
      var rest, last := ds[..|ds| - 1], ds[|ds| - 1];
      var mid :| Scan(rest, full, version, s0, mid) && DocStep(mid, s, last, full, version);
      EmptyShelfStays(rest, full, version, s0, mid);
      EmptyShelfStep(mid, s, last, full, version);
    }
  }

  lemma EmptyShelfStep(s: ScanState, s': ScanState, d: Document, full: bool, version: string)
    requires DocStep(s, s', d, full, version) && s.shelf == map[]
    ensures s'.shelf == map[]
  {
  }

  /** Over a collection that was emptied while its records stayed, a document ends
      with its point if and only if the run embeds it. */
  lemma EmptiedIsRefilled(
    p: Points, source: Source, docs: seq<Document>, version: string, embed: string -> Vector, s: ScanState,
    d: Document)
    requires Belong(docs, source) && DistinctIdentities(docs)
    requires Scan(docs, false, version, Start(p, map[]), s)
    requires d in docs && d.text != ""
    ensures OwnID(d) in FinalShelf(s.points, s.shelf, s.dirty, docs, source, version, embed) <==> d in s.dirty
  {
    hide Scan, PutAll, RecordsFor, UpsertAll, OwnID, KeyOf, DocKey;
    EmptyShelfStays(docs, false, version, Start(p, map[]), s);
    DirtyIsPart(docs, false, version, Start(p, map[]), s);
    var dirty := s.dirty;
    forall e | e in dirty ensures OwnID(e) == OwnID(d) ==> e.identity == d.identity {
      OwnIDsDiffer(d, e, source);
    }
    DistinctKeys(dirty, source);
    UpsertAllIs(map[], dirty, embed);
    PutAllIs(Timeless(s.points), dirty, version);
    OneOfIdentity(docs, d);
  }

  ghost predicate RefillsChanged(
    p: Points, source: Source, docs: seq<Document>, version: string, embed: string -> Vector, s: ScanState)
  {
    forall d | d in docs && d.text != "" ::
      OwnID(d) in FinalShelf(s.points, s.shelf, s.dirty, docs, source, version, embed) <==> !Current(p, d, version)
  }

  /** The points that come back are those of the documents whose records are not
      current, if and only if no new document takes over a current record. */
  lemma EmptiedCollectionStays(
    p: Points, source: Source, docs: seq<Document>, version: string, embed: string -> Vector, s: ScanState)
    requires Belong(docs, source) && DistinctIdentities(docs)
    requires Scan(docs, false, version, Start(p, map[]), s)
    requires forall d | d in docs :: Untied(p, d, version)
    ensures RefillsChanged(p, source, docs, version, embed, s) <==>
            forall d | d in docs :: !MayTake(p, d, version)
  {
    hide Scan, Changed, Current, Known, MayTake, Untied, OwnID, FinalShelf, Belong, DistinctIdentities;
    var s0 := Start(p, map[]);
    TakenExactly(docs, version, s0, s);
    forall d | d in docs && d.text != ""
      ensures OwnID(d) in FinalShelf(s.points, s.shelf, s.dirty, docs, source, version, embed) <==> d in s.dirty
    {
      EmptiedIsRefilled(p, source, docs, version, embed, s, d);
    }
    if s.moved == 0 {
      UnmovedScan(docs, version, s0, s);
      ChangedIs(p, docs, version);
      assert s.dirty == Changed(p, docs, version);
    } else {
      MovedGrows(docs, false, version, s0, s);
      var d := FirstMoveBereaves(docs, version, s0, s);
      UnknownIsNotCurrent(p, d, version);
      assert d !in s.dirty;
    }
  }

  lemma UnknownIsNotCurrent(p: Points, d: Document, version: string)
    requires !Known(p, d)
    ensures !Current(p, d, version)
  {
  }

  /** A renamed file is enough: its record is moved, and the collection stays empty. */
  lemma RenamedIsNotRefilled(
    source: Source, a: Document, b: Document, version: string, embed: string -> Vector, s: ScanState)
    requires Belong([a, b], source) && a.identity != b.identity && a.contentHash == b.contentHash && b.text != ""
    requires Scan([b], false, version, Start(map[OwnID(a) := RecordFor(a, version)], map[]), s)
    ensures !Current(map[OwnID(a) := RecordFor(a, version)], b, version)
    ensures FinalShelf(s.points, s.shelf, s.dirty, [b], source, version, embed) == map[]
  {
    var r := RecordFor(a, version);
    var p := map[OwnID(a) := r];
    assert a in [a, b] && b in [a, b];
    OwnIDsDiffer(a, b, source);
    assert KeyOf(r) == DocKey(a) && HashKeyOf(r) == DocHashKey(b);
    assert !Known(p, b);
    assert HashMatch(p, DocHashKey(b), r.pointID);
    assert IsNewest(p, DocHashKey(b), r) && Matches(r, b, version);
    assert MayTake(p, b, version) && Untied(p, b, version);
    hide Scan, Known, IsNewest, MayTake, Untied, OwnID, RecordFor, DocKey, KeyOf, PutAll, RecordsFor, PruneIDs;
    TakenExactly([b], version, Start(p, map[]), s);
    MovedGrows([b], false, version, Start(p, map[]), s);
    UnknownIsNotCurrent(p, b, version);
    var d := FirstMoveBereaves([b], version, Start(p, map[]), s);
    EmptyShelfStays([b], false, version, Start(p, map[]), s);
    DirtyFromDocs([b], false, version, Start(p, map[]), s);
    NoneOrSome(s.dirty);
  }

  lemma NoneOrSome(ds: seq<Document>)
    ensures ds == [] || exists d :: d in ds
  {
    if ds != [] {
      assert ds[0] in ds;
    }
  }

  lemma OneOfIdentity(docs: seq<Document>, d: Document)
    requires DistinctIdentities(docs) && d in docs
    ensures forall e | e in docs && e.identity == d.identity :: e == d
  {
    var i :| 0 <= i < |docs| && docs[i] == d;
    forall e | e in docs && e.identity == d.identity ensures e == d {
      var j :| 0 <= j < |docs| && docs[j] == e;
    }
  }
}
