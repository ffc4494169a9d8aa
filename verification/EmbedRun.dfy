/**
 A finished run of one source: what it makes of the source's own records and
 points, and what it leaves of everyone else's.
 */
module EmbedRun {
  import opened EmbedState
  import opened EmbedSync
  import opened EmbedTheorems

  // ------------------------------------------------- records of other sources

  function Others(p: Points, sourceID: string): Points {
    map id | id in p && p[id].sourceID != sourceID :: p[id]
  }

  /** Which identities a file at a path may give its documents. */
  type Origin = (string, string) -> bool

  /** The invariant of every reachable state, together with where its records
      come from. */
  ghost predicate Fit(p: Points, origin: Origin) {
    Sound(p) && forall id | id in p :: origin(p[id].path, p[id].identity)
  }

  /** The state file loads, to such a state. */
  ghost predicate FitFile(disk: seq<Line>, origin: Origin) {
    && Decode(disk).Loaded?
    && Fit(Decode(disk).points, origin) && "" !in Decode(disk).runs
  }

  ghost predicate Admitted(docs: seq<Document>, origin: Origin) {
    forall d | d in docs :: origin(d.path, d.identity)
  }

  /** A record named for its source displaces only records of that source. */
  lemma PutOwn(p: Points, r: Record, origin: Origin)
    requires Fit(p, origin) && WellNamed(r) && origin(r.path, r.identity)
    ensures Fit(Put(p, r), origin) && Others(Put(p, r), r.sourceID) == Others(p, r.sourceID)
  {
    PutKeepsUnique(p, r);
    forall id | id in Displaced(p, r) ensures p[id].sourceID == r.sourceID {
      var o := p[id];
      KeysAreInjective(o.collection, o.sourceID, o.identity, r.collection, r.sourceID, r.identity);
      if id == r.pointID {
        NameOfOneSource(o.collection, o.sourceID, r.collection, r.sourceID, id.name);
      }
    }
  }

  lemma {:induction false} PutAllOwn(p: Points, rs: seq<Record>, sourceID: string, origin: Origin)
    requires Fit(p, origin)
    requires forall r | r in rs :: WellNamed(r) && r.sourceID == sourceID && origin(r.path, r.identity)
    ensures Fit(PutAll(p, rs), origin) && Others(PutAll(p, rs), sourceID) == Others(p, sourceID)
  {
    hide Fit, WellNamed, Others, Put;
    if rs != [] {
      var rest, last := rs[..|rs| - 1], rs[|rs| - 1];
      assert last in rs;
      PutAllOwn(p, rest, sourceID, origin);
      PutOwn(PutAll(p, rest), last, origin);
    }
  }

  lemma StepOwn(
    s: ScanState, s': ScanState, d: Document, full: bool, version: string, source: Source, origin: Origin)
    requires DocStep(s, s', d, full, version) && Fit(s.points, origin)
    requires Named(source) && Belong([d], source) && Admitted([d], origin)
    ensures Fit(s'.points, origin) && Others(s'.points, source.id) == Others(s.points, source.id)
  {
    assert d in [d];
    if s'.points != s.points {
      var m, now :| IsNewest(s.points, DocHashKey(d), m) && Matches(m, d, version) && s' == Moved(s, m, d, version, now);
      RecordOfDoc(m, d, source);
      PutOwn(s.points, Stamped(MovedRecord(m, d, version), now), origin);
    }
  }

  /** A scan touches only records of its own source, and keeps every id derived
      from its record's collection and source. */
  lemma {:induction false} ScanOwn(
    ds: seq<Document>, full: bool, version: string, s0: ScanState, s: ScanState, source: Source, origin: Origin)
    requires Scan(ds, full, version, s0, s) && Fit(s0.points, origin)
    requires Named(source) && Belong(ds, source) && Admitted(ds, origin)
    ensures Fit(s.points, origin) && Others(s.points, source.id) == Others(s0.points, source.id)
  {
    if ds != [] {
      hide Fit, DocStep, Others;
      var rest, last := ds[..|ds| - 1], ds[|ds| - 1];
      assert last in ds;
      var mid :| Scan(rest, full, version, s0, mid) && DocStep(mid, s, last, full, version);
      ScanOwn(rest, full, version, s0, mid, source, origin);
      StepOwn(mid, s, last, full, version, source, origin);
    }
  }

  // ------------------------------------------------- a finished run

  /** The records and collections between two runs, and which collections are
      fitting. */
  datatype Held = Held(points: Points, collections: map<string, Shelf>, fitting: set<string>)

  /** The collections other than one. */
  function Elsewhere(collections: map<string, Shelf>, collection: string): map<string, Shelf> {
    collections - {collection}
  }

  function BasePoints(p: Points, collection: string, remade: bool): Points {
    if remade then WithoutCollection(p, collection) else p
  }

  function BaseShelf(collections: map<string, Shelf>, collection: string, remade: bool): Shelf {
    if remade || collection !in collections then map[] else collections[collection]
  }

  lemma BaseMeans(p: Points, collections: map<string, Shelf>, collection: string)
    ensures BasePoints(p, collection, true) == WithoutCollection(p, collection)
    ensures BasePoints(p, collection, false) == p
    ensures BaseShelf(collections, collection, true) == map[]
    ensures collection in collections ==> BaseShelf(collections, collection, false) == collections[collection]
  {
  }

  lemma BaseIsFit(p: Points, collection: string, origin: Origin)
    requires Fit(p, origin)
    ensures Fit(WithoutCollection(p, collection), origin)
  {
  }

  lemma BaseIsSound(p: Points, collection: string, remade: bool)
    requires Sound(p)
    ensures Sound(BasePoints(p, collection, remade))
  {
  }

  lemma BaseAt(p: Points, collections: map<string, Shelf>, collection: string, remade: bool, id: PointID)
    ensures
      var base := BasePoints(p, collection, remade);
      && (id in base <==> id in p && (remade ==> p[id].collection != collection))
      && (id in base ==> base[id] == p[id])
      && BaseShelf(collections, collection, true) == map[]
      && (collection in collections ==> BaseShelf(collections, collection, false) == collections[collection])
      && BasePoints(p, collection, false) == p
  {
  }

  /** A completed run, relating the points and collection before and after. */
  ghost predicate Synced(
    p: Points, shelf: Shelf, source: Source, docs: seq<Document>, full: bool, version: string,
    embed: string -> Vector, s: ScanState, p': Points, shelf': Shelf)
  {
    && Scan(docs, full, version, Start(p, shelf), s)
    && Timeless(p') == FinalRecords(s.points, s.dirty, docs, source, version)
    && shelf' == FinalShelf(s.points, s.shelf, s.dirty, docs, source, version, embed)
  }

  /** A completed incremental run left the records of a full one if and only if
      it moved none, and then also the points and vectors. */
  lemma SyncedAsFull(
    p: Points, shelf: Shelf, source: Source, docs: seq<Document>, version: string, hash: string -> string,
    embed: string -> Vector, s: ScanState, p': Points, shelf': Shelf)
    requires Sound(p) && Named(source) && OwnIDs(p, source)
    requires Belong(docs, source) && DistinctIdentities(docs) && SamePaths(p, docs)
    requires CollisionFree(hash) && Hashed(docs, hash) && Backed(p, shelf, source, version, hash, embed)
    requires Synced(p, shelf, source, docs, false, version, embed, s, p', shelf')
    ensures (Timeless(p') == FinalRecords(p, NonEmpty(docs), docs, source, version)) <==> s.moved == 0
    ensures s.moved == 0 ==> SameVectors(shelf', FinalShelf(p, shelf, NonEmpty(docs), docs, source, version, embed))
  {
    hide Scan, Sound, OwnIDs, SamePaths, Backed, Hashed, CollisionFree, Belong, DistinctIdentities,
         NonEmpty, SameVectors, FinalRecords, FinalShelf;
    var full := Start(p, shelf).(dirty := NonEmpty(docs));
    FullScanIs(docs, version, Start(p, shelf));
    assert [] + NonEmpty(docs) == NonEmpty(docs);
    IncrementalRefinesFull(p, shelf, source, docs, version, hash, embed, s, full);
  }

  /** What a successful run of one source made of the state. */
  ghost predicate Ended(
    h: Held, source: Source, docs: seq<Document>, full: bool, version: string, embed: string -> Vector, h': Held)
  {
    var c := source.collection;
    var remade := c !in h.fitting;
    var base, shelf, whole := BasePoints(h.points, c, remade), BaseShelf(h.collections, c, remade), full || remade;
    && h'.fitting == h.fitting + {c}
    && c in h'.collections && Elsewhere(h'.collections, c) == Elsewhere(h.collections, c)
    && Others(h'.points, source.id) == Others(base, source.id)
    && var shelf' := h'.collections[c];
    && exists s :: Synced(base, shelf, source, docs, whole, version, embed, s, h'.points, shelf')
  }

  lemma EndedSo(
    h: Held, source: Source, docs: seq<Document>, full: bool, version: string, embed: string -> Vector,
    s: ScanState, h': Held)
    requires
      var c := source.collection;
      var remade := c !in h.fitting;
      && h'.fitting == h.fitting + {c}
      && c in h'.collections && Elsewhere(h'.collections, c) == Elsewhere(h.collections, c)
      && Others(h'.points, source.id) == Others(BasePoints(h.points, c, remade), source.id)
      && Synced(BasePoints(h.points, c, remade), BaseShelf(h.collections, c, remade), source, docs, full || remade,
           version, embed, s, h'.points, h'.collections[c])
    ensures Ended(h, source, docs, full, version, embed, h')
  {
    hide Elsewhere, Others, BasePoints, BaseShelf, Synced;
  }

  lemma EndedElsewhere(
    h: Held, source: Source, docs: seq<Document>, full: bool, version: string, embed: string -> Vector, h': Held)
    requires Ended(h, source, docs, full, version, embed, h')
    ensures Elsewhere(h.collections, source.collection) == Elsewhere(h'.collections, source.collection)
  {
    hide Elsewhere, Synced;
  }

  /** After a run, successful or not, the records of other sources are all there,
      except perhaps those in a collection that had to be made anew. */
  ghost predicate OthersSpared(h: Held, source: Source, h': Held) {
    || Others(h'.points, source.id) == Others(h.points, source.id)
    || (source.collection !in h.fitting &&
        Others(h'.points, source.id) == Others(BasePoints(h.points, source.collection, true), source.id))
  }

  lemma OthersAre(h: Held, source: Source, h': Held)
    requires
      || Others(h'.points, source.id) == Others(h.points, source.id)
      || (source.collection !in h.fitting &&
          Others(h'.points, source.id) == Others(BasePoints(h.points, source.collection, true), source.id))
    ensures OthersSpared(h, source, h')
  {
    hide Others, BasePoints;
  }

  lemma OthersMeans(h: Held, source: Source, h': Held)
    requires OthersSpared(h, source, h')
    ensures
      || Others(h'.points, source.id) == Others(h.points, source.id)
      || (source.collection !in h.fitting &&
          Others(h'.points, source.id) == Others(BasePoints(h.points, source.collection, true), source.id))
  {
    hide Others, BasePoints;
  }

  /** The run behind it, over a collection that was fitting. */
  lemma EndedMeans(
    h: Held, source: Source, docs: seq<Document>, full: bool, version: string, embed: string -> Vector, h': Held)
    returns (s: ScanState)
    requires Ended(h, source, docs, full, version, embed, h')
    requires source.collection in h.fitting && source.collection in h.collections
    ensures source.collection in h'.collections
    ensures Synced(h.points, h.collections[source.collection], source, docs, full, version, embed, s, h'.points,
              h'.collections[source.collection])
  {
    hide Elsewhere, Others, BasePoints, BaseShelf, Synced;
    var c := source.collection;
    BaseMeans(h.points, h.collections, c);
    s :| Synced(BasePoints(h.points, c, false), BaseShelf(h.collections, c, false), source, docs, full, version,
           embed, s, h'.points, h'.collections[c]);
  }

  // ------------------------------------------------- what the source ends with

  /** The source's records in its own collection. */
  function Home(p: Points, source: Source): Points {
    map id | id in p && p[id].sourceID == source.id && p[id].collection == source.collection :: p[id]
  }

  /** A source is settled by a run that was full, that made its collection anew, or
      that found no record of it there. */
  lemma EndedSettles(
    h: Held, source: Source, docs: seq<Document>, full: bool, version: string, embed: string -> Vector, h': Held)
    requires Sound(h.points) && Named(source) && Belong(docs, source) && DistinctIdentities(docs)
    requires Ended(h, source, docs, full, version, embed, h')
    requires full || source.collection !in h.fitting || Home(h.points, source) == map[]
    ensures
      source.collection in h'.collections &&
      Settled(h'.points, h'.collections[source.collection], source, docs, version, embed)
  {
    hide Elsewhere, Others, BaseShelf, BasePoints, Home, Settled, DistinctIdentities, Belong, Sound, Named, Synced;
    var c := source.collection;
    var remade := c !in h.fitting;
    var base, shelf := BasePoints(h.points, c, remade), BaseShelf(h.collections, c, remade);
    var s :| Synced(base, shelf, source, docs, full || remade, version, embed, s, h'.points, h'.collections[c]);
    BaseIsSound(h.points, c, remade);
    if !full && !remade {
      BaseMeans(h.points, h.collections, c);
      FreshIsFull(h.points, shelf, source, docs, version, embed, s, h'.points, h'.collections[c]);
    }
    SyncedSettles(base, shelf, source, docs, version, embed, s, h'.points, h'.collections[c]);
  }

  lemma SyncedSettles(
    p: Points, shelf: Shelf, source: Source, docs: seq<Document>, version: string, embed: string -> Vector,
    s: ScanState, p': Points, shelf': Shelf)
    requires Sound(p) && Named(source) && Belong(docs, source) && DistinctIdentities(docs)
    requires Synced(p, shelf, source, docs, true, version, embed, s, p', shelf')
    ensures Settled(p', shelf', source, docs, version, embed)
  {
    hide FinalRecords, FinalShelf, Settled, DistinctIdentities, Belong, Scan, Sound, Named, Timeless;
    FullSettles(p, shelf, source, docs, version, embed, s, p', shelf');
  }

  lemma UnknownAway(p: Points, source: Source, d: Document, version: string)
    requires Sound(p) && Named(source) && Belong([d], source) && Home(p, source) == map[]
    ensures !Known(p, d) && !MayTake(p, d, version) && Untied(p, d, version) && !Current(p, d, version)
  {
    forall id | id in p ensures KeyOf(p[id]) != DocKey(d) && HashKeyOf(p[id]) != DocHashKey(d) {
      RecordOfDoc(p[id], d, source);
      assert id !in Home(p, source);
    }
    hide KeyOf, DocKey, HashKeyOf, DocHashKey, Sound;
  }

  lemma {:induction false} AllChanged(p: Points, ds: seq<Document>, version: string)
    requires forall d | d in ds :: !Current(p, d, version)
    ensures Changed(p, ds, version) == NonEmpty(ds)
  {
    hide Current;
    if ds != [] {
      assert ds[|ds| - 1] in ds;
      AllChanged(p, ds[..|ds| - 1], version);
    }
  }

  /** An incremental run that finds no record of its source at home is a full one. */
  lemma FreshIsFull(
    p: Points, shelf: Shelf, source: Source, docs: seq<Document>, version: string, embed: string -> Vector,
    s: ScanState, p': Points, shelf': Shelf)
    requires Sound(p) && Named(source) && Belong(docs, source) && Home(p, source) == map[]
    requires Synced(p, shelf, source, docs, false, version, embed, s, p', shelf')
    ensures Synced(p, shelf, source, docs, true, version, embed, s, p', shelf')
  {
    hide Scan, Sound, Named, Home, Known, MayTake, Untied, Current, FinalRecords, FinalShelf, Timeless, NonEmpty, Changed;
    var s0 := Start(p, shelf);
    forall d | d in docs ensures !MayTake(p, d, version) && Untied(p, d, version) && !Current(p, d, version) {
      UnknownAway(p, source, d, version);
    }
    TakenExactly(docs, version, s0, s);
    UnmovedScan(docs, version, s0, s);
    AllChanged(p, docs, version);
    ScanCounts(docs, false, version, s0, s);
    FullScanIs(docs, version, s0);
    assert [] + NonEmpty(docs) == NonEmpty(docs);
    assert s == s0.(dirty := NonEmpty(docs));
  }

  /** What an incremental run needs in order to amount to a full one: hashes tell
      texts apart, the records at home have the ids of their identities and points
      to match, and no new document finds a record to take over. */
  ghost predicate Prepared(
    p: Points, shelf: Shelf, source: Source, docs: seq<Document>, version: string, hash: string -> string,
    embed: string -> Vector)
  {
    && CollisionFree(hash) && Hashed(docs, hash)
    && OwnIDs(p, source) && Backed(p, shelf, source, version, hash, embed) && SamePaths(p, docs)
    && forall d | d in docs :: Untied(p, d, version) && !MayTake(p, d, version)
  }

  /** Settled, but the payload of an unchanged document is the one stored before. */
  ghost predicate Embedded(
    p: Points, shelf: Shelf, source: Source, docs: seq<Document>, version: string, embed: string -> Vector)
  {
    && (forall d | d in docs && d.text != "" ::
          && OwnID(d) in p && p[OwnID(d)].(updatedAt := 0) == RecordFor(d, version)
          && OwnID(d) in shelf && shelf[OwnID(d)].vector == embed(d.text) && shelf[OwnID(d)].sparseText == d.text)
    && (forall id | id in p && p[id].sourceID == source.id && p[id].collection == source.collection ::
          Own(docs, id))
  }

  lemma SettledIsEmbedded(
    p: Points, shelf: Shelf, same: Shelf, source: Source, docs: seq<Document>, version: string,
    embed: string -> Vector)
    requires Settled(p, shelf, source, docs, version, embed) && SameVectors(same, shelf)
    ensures Embedded(p, same, source, docs, version, embed)
  {
    hide OwnID, RecordFor;
  }

  /** A source that was prepared has its documents' records and vectors after any run. */
  lemma EndedEmbeds(
    h: Held, source: Source, docs: seq<Document>, full: bool, version: string, hash: string -> string,
    embed: string -> Vector, h': Held)
    requires Sound(h.points) && Named(source) && Belong(docs, source) && DistinctIdentities(docs)
    requires Ended(h, source, docs, full, version, embed, h') && source.collection in h.collections
    requires Prepared(h.points, h.collections[source.collection], source, docs, version, hash, embed)
    ensures
      source.collection in h'.collections &&
      Embedded(h'.points, h'.collections[source.collection], source, docs, version, embed)
  {
    hide Ended, Prepared, Sound, Named, Belong, DistinctIdentities, Settled, Embedded, Home;
    var c := source.collection;
    if full || c !in h.fitting {
      EndedSettles(h, source, docs, full, version, embed, h');
      SettledIsEmbedded(h'.points, h'.collections[c], h'.collections[c], source, docs, version, embed);
    } else {
      var s := EndedMeans(h, source, docs, false, version, embed, h');
      PreparedEmbeds(h.points, h.collections[c], source, docs, version, hash, embed, s, h'.points, h'.collections[c]);
    }
  }

  lemma PreparedEmbeds(
    p: Points, shelf: Shelf, source: Source, docs: seq<Document>, version: string, hash: string -> string,
    embed: string -> Vector, s: ScanState, p': Points, shelf': Shelf)
    requires Sound(p) && Named(source) && Belong(docs, source) && DistinctIdentities(docs)
    requires Prepared(p, shelf, source, docs, version, hash, embed)
    requires Synced(p, shelf, source, docs, false, version, embed, s, p', shelf')
    ensures Embedded(p', shelf', source, docs, version, embed)
  {
    hide Scan, Sound, Named, Belong, DistinctIdentities, Untied, MayTake, OwnIDs, Backed, SamePaths, Hashed,
         CollisionFree, FinalRecords, FinalShelf, Timeless, NonEmpty, Settled, Embedded, SameVectors;
    var s0 := Start(p, shelf);
    var full := s0.(dirty := NonEmpty(docs));
    TakenExactly(docs, version, s0, s);
    SyncedAsFull(p, shelf, source, docs, version, hash, embed, s, p', shelf');
    FullScanIs(docs, version, s0);
    assert [] + NonEmpty(docs) == NonEmpty(docs);
    var whole := FinalShelf(p, shelf, NonEmpty(docs), docs, source, version, embed);
    SyncedSettles(p, shelf, source, docs, version, embed, full, p', whole);
    SettledIsEmbedded(p', whole, shelf', source, docs, version, embed);
  }

  // ------------------------------------------------- what other sources keep

  lemma StepSpares(
    s: ScanState, s': ScanState, d: Document, full: bool, version: string, other: Source, id: PointID)
    requires DocStep(s, s', d, full, version) && Sound(s.points) && Named(other) && Belong([d], other)
    requires id in s.points && s.points[id].sourceID != other.id && id in s.shelf
    ensures id in s'.shelf && s'.shelf[id] == s.shelf[id]
  {
    hide Sound, Put, MovedRecord, Stamped, Known, Current, NoUsableCopy, WellNamed, Named;
    if s'.points != s.points || s'.shelf != s.shelf {
      var m, now :| IsNewest(s.points, DocHashKey(d), m) && Matches(m, d, version) && s' == Moved(s, m, d, version, now);
      WellNamedAt(s.points, m.pointID);
      RecordOfDoc(m, d, other);
    }
  }

  lemma {:induction false} ScanSpares(
    ds: seq<Document>, full: bool, version: string, s0: ScanState, s: ScanState, other: Source, id: PointID,
    origin: Origin)
    requires Scan(ds, full, version, s0, s) && Fit(s0.points, origin)
    requires Named(other) && Belong(ds, other) && Admitted(ds, origin)
    requires id in s0.points && s0.points[id].sourceID != other.id && id in s0.shelf
    ensures id in s.shelf && s.shelf[id] == s0.shelf[id]
    ensures Fit(s.points, origin) && id in s.points && s.points[id] == s0.points[id]
  {
    hide DocStep, Named, Sound;
    ScanOwn(ds, full, version, s0, s, other, origin);
    assert id in Others(s0.points, other.id) && id in Others(s.points, other.id);
    if ds != [] {
      var rest, last := ds[..|ds| - 1], ds[|ds| - 1];
      assert last in ds;
      var mid :| Scan(rest, full, version, s0, mid) && DocStep(mid, s, last, full, version);
      ScanSpares(rest, full, version, s0, mid, other, id, origin);
      StepSpares(mid, s, last, full, version, other, id);
    }
  }

  /** A run of another source in the same collection leaves a point alone that has
      a record of its own source. */
  lemma RunSpares(
    p: Points, shelf: Shelf, other: Source, docs: seq<Document>, full: bool, version: string,
    embed: string -> Vector, s: ScanState, p': Points, shelf': Shelf, id: PointID)
    requires Sound(p) && Named(other) && Belong(docs, other)
    requires Synced(p, shelf, other, docs, full, version, embed, s, p', shelf')
    requires id in p && p[id].sourceID != other.id && id in shelf
    ensures id in shelf' && shelf'[id] == shelf[id]
  {
    hide Scan, Sound, Named, Belong, PutAll, RecordsFor, UpsertAll, OwnID, Seen, Timeless, FinalRecords;
    var anywhere: Origin := (_, _) => true;
    ScanSpares(docs, full, version, Start(p, shelf), s, other, id, anywhere);
    DirtyFromDocs(docs, full, version, Start(p, shelf), s);
    DirtyBelongs(docs, s.dirty, other);
    DirtySpares(s.points, s.dirty, version, other, id);
    UpsertMisses(s.shelf, s.dirty, embed, id);
  }

  lemma DirtyBelongs(docs: seq<Document>, dirty: seq<Document>, source: Source)
    requires Belong(docs, source) && forall d | d in dirty :: d in docs
    ensures Belong(dirty, source)
  {
  }

  lemma DirtySpares(p: Points, dirty: seq<Document>, version: string, other: Source, id: PointID)
    requires Sound(p) && Named(other) && Belong(dirty, other) && id in p && p[id].sourceID != other.id
    ensures forall d | d in dirty :: id != OwnID(d)
    ensures
      var q := PutAll(Timeless(p), RecordsFor(dirty, version));
      id in q && q[id].sourceID != other.id
  {
    hide Sound, Named, PutAll, RecordFor, OwnID, WellNamed, Timeless;
    forall d | d in dirty ensures id != OwnID(d) {
      WellNamedAt(p, id);
      RecordOfDoc(p[id], d, other);
    }
    var rs, anywhere: Origin := RecordsFor(dirty, version), (_, _) => true;
    forall r | r in rs ensures WellNamed(r) && r.sourceID == other.id {
      var i :| 0 <= i < |rs| && rs[i] == r;
      assert dirty[i] in dirty;
      RecordIsNamed(dirty[i], version, other);
    }
    TimelessKeeps(p);
    TimelessAt(p, id);
    PutAllOwn(Timeless(p), rs, other.id, anywhere);
    assert id in Others(Timeless(p), other.id) && id in Others(PutAll(Timeless(p), rs), other.id);
  }

  lemma WellNamedAt(p: Points, id: PointID)
    requires Sound(p) && id in p
    ensures WellNamed(p[id]) && p[id].pointID == id
  {
  }

  lemma RecordIsNamed(d: Document, version: string, source: Source)
    requires Named(source) && Belong([d], source)
    ensures WellNamed(RecordFor(d, version)) && RecordFor(d, version).sourceID == source.id
  {
    assert d in [d];
    OwnIDIsNamed(d);
  }

  /** So does a run of another source that did not make this collection anew. */
  lemma EndedSpares(
    h: Held, other: Source, docs: seq<Document>, full: bool, version: string, embed: string -> Vector, h': Held,
    c: string, id: PointID)
    requires Sound(h.points) && Named(other) && Belong(docs, other)
    requires Ended(h, other, docs, full, version, embed, h')
    requires id in h.points && h.points[id].sourceID != other.id && c in h.collections && id in h.collections[c]
    requires c == other.collection ==> c in h.fitting
    ensures c in h'.collections && id in h'.collections[c] && h'.collections[c][id] == h.collections[c][id]
  {
    hide Elsewhere, Others, BasePoints, BaseShelf, Synced, Sound, Named, Belong;
    ShelfStays(h.collections, h'.collections, c, other.collection);
    if c == other.collection {
      var s := EndedMeans(h, other, docs, full, version, embed, h');
      RunSpares(h.points, h.collections[c], other, docs, full, version, embed, s, h'.points, h'.collections[c], id);
    }
  }

  lemma ShelfStays(collections: map<string, Shelf>, collections': map<string, Shelf>, c: string, o: string)
    requires c in collections && o in collections' && Elsewhere(collections', o) == Elsewhere(collections, o)
    ensures c in collections' && (c != o ==> collections'[c] == collections[c])
  {
    if c != o {
      assert Elsewhere(collections, o)[c] == collections[c];
    }
  }

  lemma SameRecordAt(p: Points, p': Points, other: Source, remade: bool, id: PointID)
    requires Others(p', other.id) == Others(BasePoints(p, other.collection, remade), other.id)
    ensures id in p && p[id].sourceID != other.id && (remade ==> p[id].collection != other.collection) ==>
      id in p' && p'[id] == p[id]
    ensures id in p' && p'[id].sourceID != other.id ==> id in p && p'[id] == p[id]
  {
    var base := BasePoints(p, other.collection, remade);
    if id in p' && p'[id].sourceID != other.id {
      assert id in Others(p', other.id) && id in Others(base, other.id);
    }
    if id in p && p[id].sourceID != other.id && (remade ==> p[id].collection != other.collection) {
      assert id in Others(base, other.id) && id in Others(p', other.id);
    }
  }

  /** A source's records at home and their points are as they were. */
  ghost predicate Undisturbed(h: Held, h': Held, source: Source) {
    var c, home := source.collection, Home(h.points, source);
    && Home(h'.points, source) == home
    && (c in h.collections ==>
          && c in h'.collections
          && forall id | id in home && id in h.collections[c] ::
               id in h'.collections[c] && h'.collections[c][id] == h.collections[c][id])
  }

  lemma HomeAt(p: Points, source: Source, id: PointID)
    ensures id in Home(p, source) <==>
      id in p && p[id].sourceID == source.id && p[id].collection == source.collection
    ensures id in Home(p, source) ==> Home(p, source)[id] == p[id]
  {
  }

  /** A run of one source does not disturb another whose collection was fitting. */
  lemma EndedUndisturbed(
    h: Held, other: Source, docs: seq<Document>, full: bool, version: string, embed: string -> Vector, h': Held,
    source: Source)
    requires Sound(h.points) && Named(other) && Belong(docs, other) && source.id != other.id
    requires Ended(h, other, docs, full, version, embed, h')
    requires source.collection == other.collection ==> source.collection in h.fitting
    ensures Undisturbed(h, h', source)
  {
    hide Elsewhere, Others, BasePoints, BaseShelf, Synced, Sound, Named, Belong, Home;
    var c := source.collection;
    var home, home' := Home(h.points, source), Home(h'.points, source);
    forall id
      ensures id in home <==> id in home'
      ensures id in home ==> home'[id] == home[id]
      ensures id in home && c in h.collections && id in h.collections[c] ==>
        c in h'.collections && id in h'.collections[c] && h'.collections[c][id] == h.collections[c][id]
    {
      HomeAt(h.points, source, id);
      HomeAt(h'.points, source, id);
      SameRecordAt(h.points, h'.points, other, other.collection !in h.fitting, id);
      if id in home && c in h.collections && id in h.collections[c] {
        EndedSpares(h, other, docs, full, version, embed, h', c, id);
      }
    }
    if c in h.collections {
      ShelfStays(h.collections, h'.collections, c, other.collection);
    }
  }

  /** A run that makes a collection anew leaves no other source a record in it. */
  lemma EndedClears(
    h: Held, other: Source, docs: seq<Document>, full: bool, version: string, embed: string -> Vector, h': Held,
    source: Source)
    requires Ended(h, other, docs, full, version, embed, h') && source.id != other.id
    requires source.collection == other.collection && source.collection !in h.fitting
    ensures Home(h'.points, source) == map[]
  {
    hide Elsewhere, Synced, Home, BaseShelf;
    forall id ensures id !in Home(h'.points, source) {
      HomeAt(h'.points, source, id);
      BaseAt(h.points, h.collections, other.collection, true, id);
      if id in h'.points && h'.points[id].sourceID != other.id {
        assert id in Others(h'.points, other.id);
        assert id in Others(BasePoints(h.points, other.collection, true), other.id);
      }
    }
  }

  // ------------------------------------------------- what an undisturbed source keeps

  lemma SettledStays(
    h: Held, h': Held, source: Source, docs: seq<Document>, version: string, embed: string -> Vector)
    requires Undisturbed(h, h', source) && Belong(docs, source) && source.collection in h.collections
    requires Settled(h.points, h.collections[source.collection], source, docs, version, embed)
    ensures source.collection in h'.collections
    ensures Settled(h'.points, h'.collections[source.collection], source, docs, version, embed)
  {
    hide OwnID, StoredFor, RecordFor, Own, Home;
    forall id
      ensures id in Home(h.points, source) <==> id in Home(h'.points, source)
      ensures id in Home(h.points, source) ==> id in h.points && id in h'.points && h.points[id] == h'.points[id]
      ensures id in h'.points && h'.points[id].sourceID == source.id && h'.points[id].collection == source.collection
        ==> id in Home(h.points, source) && Own(docs, id)
    {
      HomeAt(h.points, source, id);
      HomeAt(h'.points, source, id);
    }
    forall d | d in docs && d.text != "" ensures OwnID(d) in Home(h.points, source) {
      HomeOfRecord(d, version);
      HomeAt(h.points, source, OwnID(d));
      assert h.points[OwnID(d)].(updatedAt := 0) == RecordFor(d, version);
    }
  }

  lemma EmbeddedStays(
    h: Held, h': Held, source: Source, docs: seq<Document>, version: string, embed: string -> Vector)
    requires Undisturbed(h, h', source) && Belong(docs, source) && source.collection in h.collections
    requires Embedded(h.points, h.collections[source.collection], source, docs, version, embed)
    ensures source.collection in h'.collections
    ensures Embedded(h'.points, h'.collections[source.collection], source, docs, version, embed)
  {
    hide OwnID, RecordFor, Own, Home;
    forall id
      ensures id in Home(h.points, source) <==> id in Home(h'.points, source)
      ensures id in Home(h.points, source) ==> id in h.points && id in h'.points && h.points[id] == h'.points[id]
      ensures id in h'.points && h'.points[id].sourceID == source.id && h'.points[id].collection == source.collection
        ==> id in Home(h.points, source) && Own(docs, id)
    {
      HomeAt(h.points, source, id);
      HomeAt(h'.points, source, id);
    }
    forall d | d in docs && d.text != "" ensures OwnID(d) in Home(h.points, source) {
      HomeOfRecord(d, version);
      HomeAt(h.points, source, OwnID(d));
      assert h.points[OwnID(d)].(updatedAt := 0) == RecordFor(d, version);
    }
  }

  /** A source's lookups find only records at home. */
  lemma LookupsAtHome(p: Points, source: Source, d: Document, version: string)
    requires Sound(p) && Named(source) && Belong([d], source)
    ensures
      var home := Home(p, source);
      && (MayTake(home, d, version) <==> MayTake(p, d, version))
      && (Untied(home, d, version) <==> Untied(p, d, version))
      && (SamePaths(home, [d]) <==> SamePaths(p, [d]))
  {
    var home := Home(p, source);
    forall id
      ensures id in p && KeyOf(p[id]) == DocKey(d) <==> id in home && KeyOf(home[id]) == DocKey(d)
      ensures HashMatch(p, DocHashKey(d), id) <==> HashMatch(home, DocHashKey(d), id)
      ensures id in home ==> id in p && home[id] == p[id]
    {
      HomeAt(p, source, id);
      if id in p {
        RecordOfDoc(p[id], d, source);
      }
    }
    hide KeyOf, DocKey, HashMatch, DocHashKey, Home, Sound;
    assert Known(p, d) <==> Known(home, d);
    assert forall m :: IsNewest(p, DocHashKey(d), m) <==> IsNewest(home, DocHashKey(d), m);
    hide Known, IsNewest;
  }

  lemma PreparedAtHome(
    p: Points, shelf: Shelf, source: Source, docs: seq<Document>, version: string, hash: string -> string,
    embed: string -> Vector)
    requires Sound(p) && Named(source) && Belong(docs, source)
    ensures Prepared(Home(p, source), shelf, source, docs, version, hash, embed) <==>
            Prepared(p, shelf, source, docs, version, hash, embed)
  {
    var home := Home(p, source);
    HomeConditions(p, shelf, source, version, hash, embed);
    PathsByDoc(p, docs);
    PathsByDoc(home, docs);
    hide Sound, Named, Home, OwnIDs, Backed, SamePaths, Untied, MayTake, Hashed, CollisionFree;
    forall d | d in docs
      ensures
        && (MayTake(home, d, version) <==> MayTake(p, d, version))
        && (Untied(home, d, version) <==> Untied(p, d, version))
        && (SamePaths(home, [d]) <==> SamePaths(p, [d]))
    {
      LookupsAtHome(p, source, d, version);
    }
  }

  lemma PathsByDoc(p: Points, docs: seq<Document>)
    ensures SamePaths(p, docs) <==> forall d | d in docs :: SamePaths(p, [d])
  {
    hide KeyOf, DocKey;
    assert forall d | d in docs :: d in [d];
  }

  lemma HomeConditions(
    p: Points, shelf: Shelf, source: Source, version: string, hash: string -> string, embed: string -> Vector)
    ensures
      var home := Home(p, source);
      && (OwnIDs(home, source) <==> OwnIDs(p, source))
      && (Backed(home, shelf, source, version, hash, embed) <==> Backed(p, shelf, source, version, hash, embed))
  {
    hide Home, KeyOf;
    forall id
      ensures id in Home(p, source) <==>
        id in p && p[id].sourceID == source.id && p[id].collection == source.collection
      ensures id in Home(p, source) ==> Home(p, source)[id] == p[id]
    {
      HomeAt(p, source, id);
    }
  }

  lemma PreparedStays(
    h: Held, h': Held, source: Source, docs: seq<Document>, version: string, hash: string -> string,
    embed: string -> Vector)
    requires Sound(h.points) && Sound(h'.points) && Named(source) && Belong(docs, source)
    requires Undisturbed(h, h', source) && source.collection in h.collections
    requires Prepared(h.points, h.collections[source.collection], source, docs, version, hash, embed)
    ensures source.collection in h'.collections
    ensures Prepared(h'.points, h'.collections[source.collection], source, docs, version, hash, embed)
  {
    hide Sound, Named, Belong, Home, OwnIDs, SamePaths, Untied, MayTake, Hashed, CollisionFree;
    var c := source.collection;
    PreparedAtHome(h.points, h.collections[c], source, docs, version, hash, embed);
    assert Backed(Home(h'.points, source), h'.collections[c], source, version, hash, embed);
    PreparedAtHome(h'.points, h'.collections[c], source, docs, version, hash, embed);
  }

  // ------------------------------------------------- from the start of a sync

  /** What a synced source has when the sync that began with `h` has reached `h'`:
      a run that was full or made the collection anew settles it, and one that
      found it prepared has at least embedded it. */
  ghost predicate EndsWell(
    h: Held, h': Held, source: Source, docs: seq<Document>, full: bool, version: string, hash: string -> string,
    embed: string -> Vector)
  {
    var c := source.collection;
    && c in h'.collections
    && (full || c !in h.fitting ==> Settled(h'.points, h'.collections[c], source, docs, version, embed))
    && (c in h.collections && Prepared(h.points, h.collections[c], source, docs, version, hash, embed) ==>
          Embedded(h'.points, h'.collections[c], source, docs, version, embed))
  }

  /** What a source keeps until its own turn: it stays prepared, and has no record in
      a collection that was made anew meanwhile. */
  ghost predicate Waits(
    h: Held, h': Held, source: Source, docs: seq<Document>, version: string, hash: string -> string,
    embed: string -> Vector)
  {
    var c := source.collection;
    && (c in h'.fitting && c !in h.fitting ==> Home(h'.points, source) == map[])
    && (c in h.fitting && c in h.collections &&
        Prepared(h.points, h.collections[c], source, docs, version, hash, embed) ==>
          c in h'.collections && Prepared(h'.points, h'.collections[c], source, docs, version, hash, embed))
  }

  lemma WaitBegins(
    h: Held, h': Held, source: Source, docs: seq<Document>, version: string, hash: string -> string,
    embed: string -> Vector)
    requires Sound(h.points) && Sound(h'.points) && Named(source) && Belong(docs, source)
    requires Undisturbed(h, h', source) && h'.fitting == h.fitting
    ensures Waits(h, h', source, docs, version, hash, embed)
  {
    hide Sound, Named, Belong, Undisturbed, Home, Prepared;
    var c := source.collection;
    if c in h.collections && Prepared(h.points, h.collections[c], source, docs, version, hash, embed) {
      PreparedStays(h, h', source, docs, version, hash, embed);
    }
  }

  /** The turn of another source. */
  lemma WaitGoesOn(
    h: Held, now: Held, source: Source, docs: seq<Document>, other: Source, docs': seq<Document>, full: bool,
    version: string, hash: string -> string, embed: string -> Vector, h': Held)
    requires Sound(now.points) && Sound(h'.points) && Named(source) && Belong(docs, source)
    requires Named(other) && Belong(docs', other) && source.id != other.id && h.fitting <= now.fitting
    requires Waits(h, now, source, docs, version, hash, embed)
    requires Ended(now, other, docs', full, version, embed, h')
    ensures Waits(h, h', source, docs, version, hash, embed)
  {
    hide Sound, Named, Belong, Home, Prepared, Elsewhere, Others, BasePoints, BaseShelf, Synced;
    var c := source.collection;
    if c == other.collection && c !in now.fitting {
      EndedClears(now, other, docs', full, version, embed, h', source);
    } else {
      EndedUndisturbed(now, other, docs', full, version, embed, h', source);
      if c in now.collections && Prepared(now.points, now.collections[c], source, docs, version, hash, embed) {
        PreparedStays(now, h', source, docs, version, hash, embed);
      }
    }
  }

  /** The source's own turn. */
  lemma WaitIsOver(
    h: Held, now: Held, source: Source, docs: seq<Document>, full: bool, version: string, hash: string -> string,
    embed: string -> Vector, h': Held)
    requires Sound(now.points) && Named(source) && Belong(docs, source) && DistinctIdentities(docs)
    requires Waits(h, now, source, docs, version, hash, embed)
    requires Ended(now, source, docs, full, version, embed, h')
    ensures EndsWell(h, h', source, docs, full, version, hash, embed)
  {
    hide Sound, Named, Belong, Home, Prepared, DistinctIdentities, Ended, Settled, Embedded;
    var c := source.collection;
    if full || c !in h.fitting {
      EndedSettles(now, source, docs, full, version, embed, h');
      SettledIsEmbedded(h'.points, h'.collections[c], h'.collections[c], source, docs, version, embed);
    } else {
      EndedIn(now, source, docs, full, version, embed, h');
      if c in h.collections && Prepared(h.points, h.collections[c], source, docs, version, hash, embed) {
        EndedEmbeds(now, source, docs, full, version, hash, embed, h');
      }
    }
  }

  lemma EndedIn(
    h: Held, source: Source, docs: seq<Document>, full: bool, version: string, embed: string -> Vector, h': Held)
    requires Ended(h, source, docs, full, version, embed, h')
    ensures source.collection in h'.collections && h'.fitting == h.fitting + {source.collection}
  {
  }

  /** The turn of another source after that. */
  lemma EndStays(
    h: Held, now: Held, source: Source, docs: seq<Document>, other: Source, docs': seq<Document>, full: bool,
    version: string, hash: string -> string, embed: string -> Vector, h': Held)
    requires Sound(now.points) && Belong(docs, source)
    requires Named(other) && Belong(docs', other) && source.id != other.id && source.collection in now.fitting
    requires EndsWell(h, now, source, docs, full, version, hash, embed)
    requires Ended(now, other, docs', full, version, embed, h')
    ensures EndsWell(h, h', source, docs, full, version, hash, embed)
  {
    hide Sound, Named, Belong, Undisturbed, Prepared, Ended, Settled, Embedded;
    var c := source.collection;
    EndedUndisturbed(now, other, docs', full, version, embed, h', source);
    UndisturbedIn(now, h', source);
    if Settled(now.points, now.collections[c], source, docs, version, embed) {
      SettledStays(now, h', source, docs, version, embed);
    }
    if Embedded(now.points, now.collections[c], source, docs, version, embed) {
      EmbeddedStays(now, h', source, docs, version, embed);
    }
  }

  lemma UndisturbedIn(h: Held, h': Held, source: Source)
    requires Undisturbed(h, h', source) && source.collection in h.collections
    ensures source.collection in h'.collections
  {
  }

  // ------------------------------------------------- orphans

  /** A full run leaves a point in the vector store without a record in exactly two
      ways: its record lay in the source's own fitting collection, had a scanned
      identity and not that document's id; or it lay in another collection and its
      identity is no longer scanned. */
  lemma OrphansExactly(
    h: Held, source: Source, docs: seq<Document>, version: string, embed: string -> Vector, h': Held, id: PointID)
    requires Sound(h.points) && Named(source) && Belong(docs, source) && DistinctIdentities(docs)
    requires Ended(h, source, docs, true, version, embed, h')
    requires id in h.points && h.points[id].collection in h.collections
    requires id in h.collections[h.points[id].collection]
    ensures
      var r := h.points[id];
      var c := r.collection;
      (c in h'.collections && id in h'.collections[c] && id !in h'.points) <==>
      && r.sourceID == source.id
      && if c == source.collection then c in h.fitting && r.identity in Seen(docs) && !Own(docs, id)
         else r.identity !in Seen(docs)
  {
    hide Elsewhere, Others, BaseShelf, BasePoints, FinalRecords, FinalShelf, DistinctIdentities, Belong, Scan, Sound,
         Seen, Own, Named, Timeless;
    var c, o := h.points[id].collection, source.collection;
    var base, shelf := BasePoints(h.points, o, o !in h.fitting), BaseShelf(h.collections, o, o !in h.fitting);
    var s :| Synced(base, shelf, source, docs, true, version, embed, s, h'.points, h'.collections[o]);
    BaseIsSound(h.points, o, o !in h.fitting);
    BaseAt(h.points, h.collections, o, o !in h.fitting, id);
    ShelfStays(h.collections, h'.collections, c, o);
    SameRecordAt(h.points, h'.points, source, o !in h.fitting, id);
    TimelessAt(h'.points, id);
    if c == o && c !in h.fitting {
      NoOrphanAnew(base, source, docs, version, embed, s, id);
    } else if h.points[id].sourceID == source.id && c == o {
      OrphanAtHome(h.points, h.collections[c], source, docs, version, embed, s, id);
    } else if h.points[id].sourceID == source.id {
      OrphanElsewhere(base, shelf, source, docs, version, embed, s, id);
    }
  }

  /** A source registered again under another collection, and then without its
      documents, leaves its point behind without a record. */
  lemma OrphanExample(r: Record, stored: Stored, source: Source, version: string, embed: string -> Vector)
    requires WellNamed(r) && Named(source) && r.sourceID == source.id && r.collection != source.collection
    ensures
      var c, collections := source.collection, map[r.collection := map[r.pointID := stored], source.collection := map[]];
      var h, h' := Held(map[r.pointID := r], collections, {r.collection, c}), Held(map[], collections, {r.collection, c});
      && Sound(h.points) && Ended(h, source, [], true, version, embed, h')
      && r.pointID in h'.collections[r.collection] && r.pointID !in h'.points
  {
    var c, collections := source.collection, map[r.collection := map[r.pointID := stored], source.collection := map[]];
    var p: Points := map[r.pointID := r];
    var h, h' := Held(p, collections, {r.collection, c}), Held(map[], collections, {r.collection, c});
    var s := Start(p, map[]);
    assert RecordsFor([], version) == [];
    assert PruneIDs(Timeless(p), source.id, Seen([])) == {r.pointID};
    assert Synced(p, map[], source, [], true, version, embed, s, map[], map[]);
    assert Others(p, source.id) == map[] == Others(map[], source.id);
    hide *;
    BaseMeans(p, collections, c);
    EndedSo(h, source, [], true, version, embed, s, h');
  }

  lemma TimelessAt(p: Points, id: PointID)
    ensures id in Timeless(p) <==> id in p
    ensures id in p ==> Timeless(p)[id] == p[id].(updatedAt := 0)
  {
  }

  lemma OrphanAtHome(
    p: Points, shelf: Shelf, source: Source, docs: seq<Document>, version: string, embed: string -> Vector,
    s: ScanState, id: PointID)
    requires Sound(p) && Named(source) && Belong(docs, source) && DistinctIdentities(docs)
    requires Scan(docs, true, version, Start(p, shelf), s)
    requires id in p && p[id].sourceID == source.id && p[id].collection == source.collection && id in shelf
    ensures
      (id in FinalShelf(s.points, s.shelf, s.dirty, docs, source, version, embed) &&
       id !in FinalRecords(s.points, s.dirty, docs, source, version)) <==>
      p[id].identity in Seen(docs) && !Own(docs, id)
  {
    FullSyncOrphans(p, shelf, source, docs, version, embed, s, id);
    hide Scan, FinalShelf, FinalRecords, Seen, OwnID;
  }

  lemma OrphanElsewhere(
    p: Points, shelf: Shelf, source: Source, docs: seq<Document>, version: string, embed: string -> Vector,
    s: ScanState, id: PointID)
    requires Sound(p) && Named(source) && Belong(docs, source) && DistinctIdentities(docs)
    requires Scan(docs, true, version, Start(p, shelf), s)
    requires id in p && p[id].sourceID == source.id && p[id].collection != source.collection
    ensures id in FinalRecords(s.points, s.dirty, docs, source, version) <==> p[id].identity in Seen(docs)
  {
    FullSyncExact(p, shelf, source, docs, version, embed, s);
    FullRecordsAt(p, source, docs, version, id);
    hide Scan, FinalShelf, FinalRecords, Seen, OwnID, Sound, Own, PutAll;
    TimelessAt(p, id);
  }

  /** In a collection made anew every point has its record. */
  lemma NoOrphanAnew(
    p: Points, source: Source, docs: seq<Document>, version: string, embed: string -> Vector, s: ScanState,
    id: PointID)
    requires Sound(p) && Named(source) && Belong(docs, source) && DistinctIdentities(docs)
    requires Scan(docs, true, version, Start(p, map[]), s)
    ensures id in FinalShelf(s.points, s.shelf, s.dirty, docs, source, version, embed) ==>
      id in FinalRecords(s.points, s.dirty, docs, source, version)
  {
    hide Scan, FinalRecords, Seen, OwnID, Sound, PutAll, UpsertAll, NonEmpty, RecordsFor, PruneIDs, DistinctIdentities;
    FullSyncExact(p, map[], source, docs, version, embed, s);
    FullScan(docs, version, Start(p, map[]), s);
    FullShelfAt(map[], source, docs, embed, id);
    assert [] + NonEmpty(docs) == NonEmpty(docs);
  }
}
