/**
 The sync service: scan, move, embed in checkpointed batches, prune.

 Calls that leave the process may fail, and one that changes the vector store
 may also take effect and still report a failure. Cancellation can strike
 before every call that looks at the context; the batch checkpoint does not.
 */
module EmbedService {
  import opened Wrappers
  import opened EmbedState
  import opened EmbedSync
  import opened EmbedTheorems
  import opened EmbedRun
  import Text

  /** What becomes of an outside call. */
  datatype Fate = Done | Failed | Lost

  datatype Point = Point(id: PointID, vector: Vector, sparseText: string, payload: Payload)

  const DEFAULT_SYNC_BATCH_SIZE := 512

  function StoreAll(shelf: Shelf, points: seq<Point>): Shelf {
    if points == [] then shelf
    else
      var last := points[|points| - 1];
      StoreAll(shelf, points[..|points| - 1])[last.id := Stored(last.vector, last.sparseText, last.payload)]
  }

  function PointsFor(ds: seq<Document>, embed: string -> Vector): seq<Point> {
    seq(|ds|, i requires 0 <= i < |ds| => Point(OwnID(ds[i]), embed(ds[i].text), ds[i].text, ds[i].payload))
  }

  lemma {:induction false} StoreIsUpsert(shelf: Shelf, ds: seq<Document>, embed: string -> Vector)
    ensures StoreAll(shelf, PointsFor(ds, embed)) == UpsertAll(shelf, ds, embed)
  {
    if ds != [] {
      StoreIsUpsert(shelf, ds[..|ds| - 1], embed);
      assert PointsFor(ds, embed)[..|ds| - 1] == PointsFor(ds[..|ds| - 1], embed);
    }
  }

  class VectorStore {
    var collections: map<string, Shelf>
    /** The collections whose schema is not the one the settings ask for. */
    var unfit: set<string>

    /** The collections a sync can use as they are. */
    ghost function Fitting(): set<string>
      reads this
    {
      collections.Keys - unfit
    }

    constructor ()
      ensures collections == map[] && unfit == {}
    {
      collections, unfit := map[], {};
    }

    /** A missing collection is created, an unfit one dropped and created again.
        `dropped` is whether a call that got lost stopped between the two. */
    method EnsureCollection(collection: string, fate: Fate, dropped: bool) returns (ok: bool, remade: bool)
      modifies this
      ensures ok <==> fate.Done?
      ensures ok ==> remade == (collection !in old(Fitting()))
      ensures fate.Failed? || collection in old(Fitting()) ==>
        collections == old(collections) && unfit == old(unfit)
      ensures !fate.Failed? && collection !in old(Fitting()) ==>
        && unfit == old(unfit) - {collection}
        && collections == if fate.Lost? && dropped then old(collections) - {collection}
                          else old(collections)[collection := map[]]
    {
      if fate.Failed? {
        return false, false;
      }
      remade := collection !in collections || collection in unfit;
      if remade {
        unfit := unfit - {collection};
        if fate.Lost? && dropped {
          collections := collections - {collection};
        } else {
          collections := collections[collection := map[]];
        }
      }
      ok := fate.Done?;
    }

    method Upsert(collection: string, points: seq<Point>, fate: Fate) returns (ok: bool)
      requires collection in collections
      modifies this`collections
      ensures collection in collections
      ensures ok <==> fate.Done?
      ensures collections[collection] ==
        if fate.Failed? then old(collections)[collection] else StoreAll(old(collections)[collection], points)
      ensures Elsewhere(collections, collection) == old(Elsewhere(collections, collection))
    {
      if fate.Failed? {
        return false;
      }
      var shelf := collections[collection];
      var i := 0;
      while i < |points|
        invariant 0 <= i <= |points|
        invariant shelf == StoreAll(collections[collection], points[..i])
      {
        assert points[..i + 1][..i] == points[..i];
        shelf := shelf[points[i].id := Stored(points[i].vector, points[i].sparseText, points[i].payload)];
        i := i + 1;
      }
      assert points[..i] == points;
      collections := collections[collection := shelf];
      ok := fate.Done?;
    }

    method OverwritePayload(collection: string, id: PointID, payload: Payload, fate: Fate) returns (ok: bool)
      requires collection in collections
      modifies this`collections
      ensures collection in collections
      ensures ok <==> fate.Done?
      ensures collections[collection] ==
        if fate.Failed? then old(collections)[collection]
        else UpdatePayload(old(collections)[collection], id, payload)
      ensures Elsewhere(collections, collection) == old(Elsewhere(collections, collection))
    {
      if fate.Failed? {
        return false;
      }
      collections := collections[collection := UpdatePayload(collections[collection], id, payload)];
      ok := fate.Done?;
    }

    /** Deleting from a collection that does not exist is an error. */
    method Delete(collection: string, ids: set<PointID>, fate: Fate) returns (ok: bool)
      modifies this`collections
      ensures collections.Keys == old(collections).Keys
      ensures ok <==> fate.Done? && collection in old(collections)
      ensures collection in collections ==>
        collections[collection] ==
        if fate.Failed? then old(collections)[collection] else old(collections)[collection] - ids
      ensures Elsewhere(collections, collection) == old(Elsewhere(collections, collection))
    {
      if fate.Failed? || collection !in collections {
        return false;
      }
      collections := collections[collection := collections[collection] - ids];
      ok := fate.Done?;
    }
  }

  // ------------------------------------------------- bridging lemmas

  lemma {:induction false} StampedPutAll(p: Points, ds: seq<Document>, version: string, now: int)
    ensures Timeless(PutAll(p, StampedAll(RecordsFor(ds, version), now))) ==
            PutAll(Timeless(p), RecordsFor(ds, version))
  {
    if ds != [] {
      var n := |ds| - 1;
      var rs := RecordsFor(ds, version);
      StampedPutAll(p, ds[..n], version, now);
      assert rs[..n] == RecordsFor(ds[..n], version);
      assert StampedAll(rs, now)[..n] == StampedAll(rs[..n], now);
      TimelessPut(PutAll(p, StampedAll(rs[..n], now)), rs[n], now);
    }
  }

  lemma TimelessPut(p: Points, r: Record, now: int)
    requires r.updatedAt == 0
    ensures Timeless(Put(p, Stamped(r, now))) == Put(Timeless(p), r)
  {
    assert Displaced(p, Stamped(r, now)) == Displaced(Timeless(p), r);
  }

  lemma RecordsForAppend(a: seq<Document>, b: seq<Document>, version: string)
    ensures RecordsFor(a + b, version) == RecordsFor(a, version) + RecordsFor(b, version)
  {
  }

  lemma PrefixOwn(
    docs: seq<Document>, i: nat, full: bool, version: string, s0: ScanState, s: ScanState, source: Source,
    origin: Origin)
    requires i <= |docs| && Scan(docs[..i], full, version, s0, s) && Fit(s0.points, origin)
    requires Named(source) && Belong(docs, source) && Admitted(docs, origin)
    ensures Fit(s.points, origin) && Others(s.points, source.id) == Others(s0.points, source.id)
  {
    hide Scan, Fit, Others, Named;
    assert forall d | d in docs[..i] :: d in docs;
    ScanOwn(docs[..i], full, version, s0, s, source, origin);
  }

  lemma ScanExtend(
    docs: seq<Document>, i: nat, full: bool, version: string, s0: ScanState, s: ScanState, s': ScanState)
    requires i < |docs| && Scan(docs[..i], full, version, s0, s) && DocStep(s, s', docs[i], full, version)
    ensures Scan(docs[..i + 1], full, version, s0, s')
  {
    assert docs[..i + 1][..i] == docs[..i];
  }

  lemma BlankStep(s: ScanState, d: Document, full: bool, version: string)
    requires d.text == ""
    ensures DocStep(s, s, d, full, version)
  {
  }

  lemma CurrentStep(s: ScanState, d: Document, version: string)
    requires d.text != "" && Current(s.points, d, version)
    ensures DocStep(s, s.(unmodified := s.unmodified + 1), d, false, version)
  {
  }

  lemma DirtyStep(s: ScanState, d: Document, full: bool, version: string)
    requires d.text != "" && (full || !Current(s.points, d, version))
    requires full || Known(s.points, d) || NoUsableCopy(s.points, d, version)
    ensures DocStep(s, s.(dirty := s.dirty + [d]), d, full, version)
  {
  }

  lemma MoveStep(s: ScanState, m: Record, d: Document, version: string, now: int)
    requires d.text != "" && !Known(s.points, d) && !Current(s.points, d, version)
    requires IsNewest(s.points, DocHashKey(d), m) && Matches(m, d, version)
    ensures DocStep(s, Moved(s, m, d, version, now), d, false, version)
  {
  }

  /** What a hash lookup that found `twin` tells. */
  lemma TwinMeans(p: Points, d: Document, version: string, twin: Option<Record>)
    requires twin.None? ==> forall id :: !HashMatch(p, DocHashKey(d), id)
    requires twin.Some? ==> IsNewest(p, DocHashKey(d), twin.value)
    ensures twin.None? || !Matches(twin.value, d, version) ==> NoUsableCopy(p, d, version)
    ensures twin.Some? && !Known(p, d) && d.text != "" ==> !NoCopies(p, [d])
  {
    assert d in [d];
    assert twin.Some? ==> HashMatch(p, DocHashKey(d), twin.value.pointID);
  }

  lemma ConsistentIsUnique(p: Points, x: Indexes)
    requires Consistent(p, x)
    ensures UniqueIdentities(p)
  {
  }

  /** What the scan loop decides about one document. */
  datatype Verdict = Skipped | Unmodified | Relocated | Dirty

  // ------------------------------------------------- the service

  /** Everything that may go wrong from outside: calls, the file system, the
      embedding provider and cancellation. */
  class Outside {
    /** How often something went wrong so far. */
    ghost var troubles: nat

    constructor ()
      ensures troubles == 0
    {
      troubles := 0;
    }

    method Call() returns (fate: Fate)
      modifies this
      ensures troubles == old(troubles) + if fate.Done? then 0 else 1
    {
      fate := *;
      troubles := troubles + if fate.Done? then 0 else 1;
    }

    method Cancelled() returns (cancelled: bool)
      modifies this
      ensures troubles == old(troubles) + if cancelled then 1 else 0
    {
      cancelled := *;
      troubles := troubles + if cancelled then 1 else 0;
    }

    /** Whether the state file can be replaced. */
    method Writable() returns (writable: bool)
      modifies this
      ensures troubles == old(troubles) + if writable then 0 else 1
    {
      writable := *;
      troubles := troubles + if writable then 0 else 1;
    }

    /** How many of `wanted` vectors the provider answers with. */
    method Answered(wanted: nat) returns (count: nat)
      modifies this
      ensures troubles == old(troubles) + if count < wanted then 1 else 0
    {
      count := *;
      troubles := troubles + if count < wanted then 1 else 0;
    }
  }

  class Service {
    const state: StateStore
    const vectors: VectorStore
    const outside: Outside
    const version: string
    const embed: string -> Vector
    const syncBatchSize: int
    ghost const origin: Origin

    ghost function Holds(): Held
      reads state, vectors
    {
      Held(state.points, vectors.collections, vectors.Fitting())
    }

    constructor (
      state: StateStore, vectors: VectorStore, outside: Outside, version: string, embed: string -> Vector, batch: int,
      ghost origin: Origin)
      ensures this.state == state && this.vectors == vectors && this.outside == outside && this.origin == origin
      ensures this.version == version && this.embed == embed && syncBatchSize == batch
    {
      this.state, this.vectors, this.outside, this.version, this.embed := state, vectors, outside, version, embed;
      syncBatchSize := batch;
      this.origin := origin;
    }

    /** One document of the scan loop. */
    method VisitDocument(doc: Document, full: bool, ghost s: ScanState)
      returns (ok: bool, verdict: Verdict, ghost s': ScanState)
      requires state.Valid() && doc.collection in vectors.collections
      requires s.points == state.points && s.shelf == vectors.collections[doc.collection]
      modifies state`points, state`byIdentity, state`byHash, state`bySource, state`needsFlush, vectors`collections, outside
      ensures state.Valid() && doc.collection in vectors.collections
      ensures Elsewhere(vectors.collections, doc.collection) == old(Elsewhere(vectors.collections, doc.collection))
      ensures ok ==> DocStep(s, s', doc, full, version)
      ensures ok ==> s' == ScanState(state.points, vectors.collections[doc.collection],
        if verdict.Dirty? then s.dirty + [doc] else s.dirty,
        if verdict.Unmodified? then s.unmodified + 1 else s.unmodified,
        if verdict.Relocated? then s.moved + 1 else s.moved)
      ensures !ok ==> state.points == s.points
      ensures !ok && (full || NoCopies(s.points, [doc])) ==>
        vectors.collections[doc.collection] == old(vectors.collections)[doc.collection]
      ensures outside.troubles >= old(outside.troubles)
      ensures outside.troubles == old(outside.troubles) && !state.closeCalled ==> ok
    {
      hide DocStep, Known, Current, NoCopies, NoUsableCopy, IsNewest, HashMatch, Matches, Consistent, RunsKeyed,
           UniqueIdentities, Put, UpdatePayload, MovedRecord, Stamped, KeyOf, IdentityKey, HashKey, Elsewhere;
      if doc.text == "" {
        BlankStep(s, doc, full, version);
        return true, Skipped, s;
      }
      var cancelled := outside.Cancelled();
      if cancelled {
        return false, Skipped, s;
      }
      var found := state.FindByIdentity(doc.collection, doc.sourceID, doc.identity);
      ConsistentIsUnique(state.points, Indexes(state.byIdentity, state.byHash, state.bySource));
      LookupMeans(state.points, doc, version, found);
      if found.Some? && !full && Matches(found.value, doc, version) {
        CurrentStep(s, doc, version);
        return true, Unmodified, s.(unmodified := s.unmodified + 1);
      }
      if found.None? && !full {
        var twin := state.FindByContentHash(doc.collection, doc.sourceID, doc.contentHash);
        TwinMeans(state.points, doc, version, twin);
        if twin.Some? && Matches(twin.value, doc, version) {
          var m := twin.value;
          var fate := outside.Call();
          var sent := vectors.OverwritePayload(doc.collection, m.pointID, doc.payload, fate);
          if !sent {
            return false, Skipped, s;
          }
          var now: int := *;
          MoveStep(s, m, doc, version, now);
          ok := state.UpsertPoint(MovedRecord(m, doc, version), now);
          return ok, Relocated, Moved(s, m, doc, version, now);
        }
      }
      DirtyStep(s, doc, full, version);
      return true, Dirty, s.(dirty := s.dirty + [doc]);
    }

    /** The scan loop. */
    method ScanDocuments(source: Source, docs: seq<Document>, full: bool)
      returns (ok: bool, dirty: seq<Document>, unmodified: nat, moved: nat)
      requires state.Valid() && Fit(state.points, origin) && source.collection in vectors.collections
      requires Named(source) && Belong(docs, source) && Admitted(docs, origin)
      modifies state`points, state`byIdentity, state`byHash, state`bySource, state`needsFlush, vectors`collections, outside
      ensures state.Valid() && source.collection in vectors.collections
      ensures Elsewhere(vectors.collections, source.collection) ==
        old(Elsewhere(vectors.collections, source.collection))
      ensures ok ==> Scan(docs, full, version,
        Start(old(state.points), old(vectors.collections)[source.collection]),
        ScanState(state.points, vectors.collections[source.collection], dirty, unmodified, moved))
      ensures Fit(state.points, origin) && Others(state.points, source.id) == old(Others(state.points, source.id))
      ensures !ok && (full || NoCopies(old(state.points), docs)) ==>
        && vectors.collections[source.collection] == old(vectors.collections)[source.collection]
        && state.points == old(state.points)
      ensures outside.troubles >= old(outside.troubles)
      ensures outside.troubles == old(outside.troubles) && !state.closeCalled ==> ok
    {
      hide *;
      ghost var s0 := ScanState(state.points, vectors.collections[source.collection], [], 0, 0);
      ghost var s := s0;
      dirty, unmodified, moved := [], 0, 0;
      ScanStarts(state.points, vectors.collections[source.collection], s0);
      ScanBegins(docs, source, full, version, s0);
      var i := 0;
      while i < |docs|
        invariant 0 <= i <= |docs|
        invariant state.Valid() && source.collection in vectors.collections
        invariant outside.troubles >= old(outside.troubles)
        invariant Elsewhere(vectors.collections, source.collection) ==
          old(Elsewhere(vectors.collections, source.collection))
        invariant s == ScanState(state.points, vectors.collections[source.collection], dirty, unmodified, moved)
        invariant Scan(docs[..i], full, version, s0, s)
      {
        var doc := docs[i];
        ScanWasQuiet(docs, i, full, version, s0, s);
        var verdict;
        ghost var s';
        ok, verdict, s' := VisitDocument(doc, full, s);
        if !ok {
          PrefixOwn(docs, i, full, version, s0, s, source, origin);
          return;
        }
        ScanExtend(docs, i, full, version, s0, s, s');
        unmodified := if verdict.Unmodified? then unmodified + 1 else unmodified;
        moved := if verdict.Relocated? then moved + 1 else moved;
        dirty := if verdict.Dirty? then dirty + [doc] else dirty;
        s := s';
        i := i + 1;
      }
      assert docs[..i] == docs;
      PrefixOwn(docs, i, full, version, s0, s, source, origin);
      ok := true;
    }

    /** The embedding provider: it may fail, or answer with too few vectors. */
    method EmbedDocuments(docs: seq<Document>) returns (ok: bool, answer: seq<Vector>)
      modifies outside
      ensures ok && |answer| == |docs| ==> forall i | 0 <= i < |docs| :: answer[i] == embed(docs[i].text)
      ensures outside.troubles >= old(outside.troubles)
      ensures outside.troubles == old(outside.troubles) ==> ok && |answer| == |docs|
    {
      var fate := outside.Call();
      var count := outside.Answered(|docs|);
      answer := [];
      while |answer| < |docs| && |answer| < count
        invariant |answer| <= |docs|
        invariant forall i | 0 <= i < |answer| :: answer[i] == embed(docs[i].text)
        decreases |docs| - |answer|
      {
        answer := answer + [embed(docs[|answer|].text)];
      }
      ok := fate.Done?;
    }

    method BuildBatch(docs: seq<Document>, answer: seq<Vector>)
      returns (points: seq<Point>, records: seq<Record>)
      requires |answer| == |docs| && forall i | 0 <= i < |docs| :: answer[i] == embed(docs[i].text)
      ensures points == PointsFor(docs, embed) && records == RecordsFor(docs, version)
    {
      points, records := [], [];
      var i := 0;
      while i < |docs|
        invariant 0 <= i <= |docs|
        invariant points == PointsFor(docs[..i], embed)
        invariant records == RecordsFor(docs[..i], version)
      {
        points := points + [Point(OwnID(docs[i]), answer[i], docs[i].text, docs[i].payload)];
        records := records + [RecordFor(docs[i], version)];
        i := i + 1;
      }
      assert docs[..i] == docs;
    }

    /** One batch: embed, write the points, then checkpoint the records. `landed`
        is whether the points reached the vector store, `put` whether the records
        are in memory, which they are too when only the file was not written. */
    method EmbedBatch(source: Source, docs: seq<Document>)
      returns (ok: bool, ghost landed: bool, ghost put: bool)
      requires state.Valid() && source.collection in vectors.collections
      requires Fit(state.points, origin) && "" !in state.syncRuns && FitFile(state.disk, origin)
      requires Named(source) && Belong(docs, source) && Admitted(docs, origin)
      modifies state`points, state`byIdentity, state`byHash, state`bySource, state`needsFlush, state`disk,
               vectors`collections, outside
      ensures state.Valid() && source.collection in vectors.collections
      ensures Elsewhere(vectors.collections, source.collection) == old(Elsewhere(vectors.collections, source.collection))
      ensures vectors.collections[source.collection] ==
        if landed then UpsertAll(old(vectors.collections)[source.collection], docs, embed)
        else old(vectors.collections)[source.collection]
      ensures (ok ==> put) && (put ==> landed)
      ensures Timeless(state.points) ==
        if put then PutAll(Timeless(old(state.points)), RecordsFor(docs, version)) else Timeless(old(state.points))
      ensures ok ==> BatchKept(old(state.points), docs, version, state.points, state.syncRuns, state.disk)
      ensures !ok ==> state.disk == old(state.disk)
      ensures Fit(state.points, origin) && Others(state.points, source.id) == old(Others(state.points, source.id))
      ensures FitFile(state.disk, origin)
      ensures outside.troubles >= old(outside.troubles)
      ensures outside.troubles == old(outside.troubles) && !state.closeCalled ==> ok
    {
      hide *;
      var answer;
      ok, answer := EmbedDocuments(docs);
      if !ok || |answer| != |docs| {
        return false, false, false;
      }
      var points, records := BuildBatch(docs, answer);
      StoreIsUpsert(vectors.collections[source.collection], docs, embed);
      var fate := outside.Call();
      ok := vectors.Upsert(source.collection, points, fate);
      landed, put := !fate.Failed?, false;
      if !ok {
        return;
      }
      var now: int := *;
      var writable := outside.Writable();
      BatchOwn(state.points, source, docs, version, now, origin);
      StampedPutAll(state.points, docs, version, now);
      put := !state.closeCalled;
      ok := state.CheckpointBatch(records, now, writable);
      if ok {
        RunsAreKeyed(state);
        BatchIsKept(old(state.points), docs, version, now, state.points, state.syncRuns, state.disk, origin);
      }
    }

    /** The batch loop. It ends with `kept` documents checkpointed, `held` documents
        in memory and `sent` documents in the vector store. */
    method EmbedBatches(source: Source, dirty: seq<Document>, batchSize: int)
      returns (ok: bool, ghost kept: nat, ghost held: nat, ghost sent: nat)
      requires state.Valid() && source.collection in vectors.collections && batchSize > 0
      requires Fit(state.points, origin) && "" !in state.syncRuns && FitFile(state.disk, origin)
      requires Named(source) && Belong(dirty, source) && Admitted(dirty, origin)
      modifies state`points, state`byIdentity, state`byHash, state`bySource, state`needsFlush, state`disk,
               vectors`collections, outside
      ensures state.Valid() && source.collection in vectors.collections
      ensures Elsewhere(vectors.collections, source.collection) == old(Elsewhere(vectors.collections, source.collection))
      ensures kept <= held <= sent <= |dirty|
      ensures sent - kept <= batchSize && (kept == |dirty| || exists n: nat :: kept == n * batchSize)
      ensures Timeless(state.points) == PutAll(Timeless(old(state.points)), RecordsFor(dirty[..held], version))
      ensures vectors.collections[source.collection] ==
        UpsertAll(old(vectors.collections)[source.collection], dirty[..sent], embed)
      ensures if kept == 0 then state.disk == old(state.disk)
              else CheckpointHolds(old(state.points), dirty[..kept], version, state.disk)
      ensures ok ==>
        && kept == held == sent == |dirty|
        && Timeless(state.points) == PutAll(Timeless(old(state.points)), RecordsFor(dirty, version))
      ensures Fit(state.points, origin) && Others(state.points, source.id) == old(Others(state.points, source.id))
      ensures FitFile(state.disk, origin)
      ensures outside.troubles >= old(outside.troubles)
      ensures outside.troubles == old(outside.troubles) && !state.closeCalled ==> ok
    {
      hide *;
      var start := 0;
      ghost var batches := 0;
      kept, held, sent := 0, 0, 0;
      BatchesBegin(state.points, vectors.collections[source.collection], dirty, version, embed);
      while start < |dirty|
        invariant 0 <= start == kept == held == sent <= |dirty| && outside.troubles >= old(outside.troubles)
        invariant start == |dirty| || start == batches * batchSize
        invariant state.Valid() && source.collection in vectors.collections
        invariant Fit(state.points, origin) && FitFile(state.disk, origin)
        invariant Others(state.points, source.id) == old(Others(state.points, source.id))
        invariant Elsewhere(vectors.collections, source.collection) == old(Elsewhere(vectors.collections, source.collection))
        invariant vectors.collections[source.collection] ==
          UpsertAll(old(vectors.collections)[source.collection], dirty[..start], embed)
        invariant Timeless(state.points) == PutAll(Timeless(old(state.points)), RecordsFor(dirty[..start], version))
        invariant if start == 0 then state.disk == old(state.disk)
                  else CheckpointHolds(old(state.points), dirty[..start], version, state.disk)
        decreases |dirty| - start
      {
        var end := if start + batchSize > |dirty| then |dirty| else start + batchSize;
        ghost var before := state.points;
        SliceOwn(dirty, start, end, source, origin);
        UpsertSlice(old(vectors.collections)[source.collection], dirty, start, end, embed);
        PutSlice(old(state.points), before, dirty, start, end, version);
        ghost var landed, put;
        ok, landed, put := EmbedBatch(source, dirty[start..end]);
        held, sent := if put then end else start, if landed then end else start;
        if !ok {
          return;
        }
        BatchExtends(
          old(state.points), before, dirty, start, end, version, state.points, state.syncRuns, state.disk);
        kept := end;
        start := end;
        batches := batches + 1;
      }
      assert dirty[..start] == dirty;
      ok := true;
    }

    /** Deletes the source's points whose documents were not seen. `gone` is
        what the vector store lost. */
    method PruneMissingDocuments(source: Source, docs: seq<Document>)
      returns (ok: bool, pruned: nat, ghost gone: set<PointID>)
      requires state.Valid() && source.collection in vectors.collections
      modifies state`points, state`byIdentity, state`byHash, state`bySource, state`needsFlush, vectors`collections, outside
      ensures state.Valid() && source.collection in vectors.collections
      ensures Elsewhere(vectors.collections, source.collection) ==
        old(Elsewhere(vectors.collections, source.collection))
      ensures vectors.collections[source.collection] == old(vectors.collections)[source.collection] - gone
      ensures gone <= PruneIDs(old(state.points), source.id, Seen(docs))
      ensures ok ==>
        && gone == PruneIDs(old(state.points), source.id, Seen(docs)) && pruned == |gone|
        && state.points == old(state.points) - gone
      ensures !ok ==> state.points == old(state.points)
      ensures outside.troubles >= old(outside.troubles)
      ensures outside.troubles == old(outside.troubles) && !state.closeCalled ==> ok
    {
      MinusNothing(state.points, vectors.collections[source.collection]);
      var cancelled := outside.Cancelled();
      if cancelled {
        return false, 0, {};
      }
      var records := state.RecordsForSource(source.id);
      var ids := Unseen(state.points, records, Seen(docs));
      UnseenIsPruned(state.points, source.id, Seen(docs));
      hide *;
      if ids == {} {
        return true, 0, {};
      }
      var fate := outside.Call();
      ok := vectors.Delete(source.collection, ids, fate);
      gone := if fate.Failed? then {} else ids;
      if !ok {
        return false, 0, gone;
      }
      ok := state.DeletePointIDs(ids);
      pruned := |ids|;
    }

    /** Scans the source's documents and embeds those that need it, batch by batch. */
    method ScanAndEmbed(source: Source, docs: seq<Document>, full: bool, batchSize: int)
      returns (ok: bool, embedded: nat, moved: nat, unmodified: nat, ghost s: ScanState, ghost cut: Cut)
      requires state.Valid() && source.collection in vectors.collections && batchSize > 0
      requires Fit(state.points, origin) && "" !in state.syncRuns && FitFile(state.disk, origin)
      requires Named(source) && Belong(docs, source) && Admitted(docs, origin)
      modifies state`points, state`byIdentity, state`byHash, state`bySource, state`needsFlush, state`disk,
               vectors`collections, outside
      ensures state.Valid() && source.collection in vectors.collections
      ensures Fit(state.points, origin) && Others(state.points, source.id) == old(Others(state.points, source.id))
      ensures FitFile(state.disk, origin)
      ensures Elsewhere(vectors.collections, source.collection) ==
        old(Elsewhere(vectors.collections, source.collection))
      ensures ok ==>
        && Scan(docs, full, version, Start(old(state.points), old(vectors.collections)[source.collection]), s)
        && embedded == |s.dirty| && moved == s.moved && unmodified == s.unmodified
        && cut == Cut(|s.dirty|, |s.dirty|, |s.dirty|, {}, false)
        && Timeless(state.points) == PutAll(Timeless(s.points), RecordsFor(s.dirty, version))
        && vectors.collections[source.collection] == UpsertAll(s.shelf, s.dirty[..|s.dirty|], embed)
        && (if s.dirty == [] then state.disk == old(state.disk)
            else CheckpointHolds(s.points, s.dirty[..|s.dirty|], version, state.disk))
        && (full || NoCopies(old(state.points), docs) ==>
              && s.points == old(state.points) && s.shelf == old(vectors.collections)[source.collection]
              && s.dirty == ToEmbed(old(state.points), docs, full, version))
      ensures !ok && (full || NoCopies(old(state.points), docs)) ==>
        Interrupted(old(state.points), old(vectors.collections)[source.collection], old(state.disk), source, docs,
          full, version, embed, cut, state.points, vectors.collections[source.collection], state.disk)
      ensures outside.troubles >= old(outside.troubles)
      ensures outside.troubles == old(outside.troubles) && !state.closeCalled ==> ok
    {
      hide *;
      cut := NO_CUT;
      embedded, moved, unmodified := 0, 0, 0;
      ghost var p, shelf, disk := state.points, vectors.collections[source.collection], state.disk;
      NotStarted(p, shelf, disk, source, docs, full, version, embed);
      var dirty;
      ok, dirty, unmodified, moved := ScanDocuments(source, docs, full);
      s := ScanState(state.points, vectors.collections[source.collection], dirty, unmodified, moved);
      if !ok {
        return;
      }
      AfterScan(p, shelf, source, docs, full, version, s, origin);
      ghost var kept, held, sent;
      ok, kept, held, sent := EmbedBatches(source, dirty, batchSize);
      embedded := |dirty|;
      cut := Cut(kept, held, sent, {}, false);
      CutInBatches(p, shelf, disk, source, docs, full, version, embed, s, cut, state.points,
        vectors.collections[source.collection], state.disk);
    }

    /** The run of one source once its collection is there. */
    method SyncPrepared(source: Source, docs: seq<Document>, full: bool, batchSize: int)
      returns (ok: bool, result: SyncResult, ghost s: ScanState, ghost cut: Cut)
      requires state.Valid() && source.collection in vectors.collections && batchSize > 0
      requires Fit(state.points, origin) && "" !in state.syncRuns && FitFile(state.disk, origin)
      requires Named(source) && source.id != "" && Belong(docs, source) && Admitted(docs, origin)
      modifies state, vectors`collections, outside
      ensures state.Valid() && source.collection in vectors.collections && "" !in state.syncRuns
      ensures Fit(state.points, origin) && Others(state.points, source.id) == old(Others(state.points, source.id))
      ensures FitFile(state.disk, origin)
      ensures Elsewhere(vectors.collections, source.collection) ==
        old(Elsewhere(vectors.collections, source.collection))
      ensures ok ==>
        && Synced(old(state.points), old(vectors.collections)[source.collection], source, docs, full, version,
             embed, s, state.points, vectors.collections[source.collection])
        && Decode(state.disk) == Loaded(state.points, state.syncRuns)
        && Counted(result, 0, source, docs, version, s)
      ensures !ok && (full || NoCopies(old(state.points), docs)) ==>
        Interrupted(old(state.points), old(vectors.collections)[source.collection], old(state.disk), source, docs,
          full, version, embed, cut, state.points, vectors.collections[source.collection], state.disk)
      ensures outside.troubles >= old(outside.troubles) && state.closeCalled == old(state.closeCalled)
      ensures outside.troubles == old(outside.troubles) && !state.closeCalled ==> ok
    {
      hide *;
      ghost var p, shelf, disk := state.points, vectors.collections[source.collection], state.disk;
      result := SyncResult(|docs|, 0, 0, 0, 0);
      var embedded, moved, unmodified;
      ok, embedded, moved, unmodified, s, cut := ScanAndEmbed(source, docs, full, batchSize);
      if !ok {
        return;
      }
      ghost var q := state.points;
      var pruned;
      ghost var gone;
      ok, pruned, gone := PruneMissingDocuments(source, docs);
      cut := Cut(embedded, embedded, embedded, gone, ok);
      CutInPrune(p, shelf, disk, source, docs, full, version, embed, s, q, cut, state.points,
        vectors.collections[source.collection], state.disk);
      if !ok {
        return;
      }
      RunEnds(p, shelf, source, docs, full, version, embed, s, q, gone, state.points,
        vectors.collections[source.collection], origin);
      result := SyncResult(|docs|, embedded, embedded + moved, pruned, unmodified);
      CountsAre(result, source, docs, version, s, gone);
      var now: int := *;
      var writable := outside.Writable();
      ok := state.StoreSyncResult(source.id, source.collection, result, now, writable);
      if ok {
        FileLoads(state, origin);
      }
    }

    /** Makes a missing or unfit collection anew, and only such a one, and forgets
        its records. */
    method EnsureHome(collection: string) returns (ok: bool, remade: bool, removed: nat)
      requires state.Valid()
      requires Fit(state.points, origin) && "" !in state.syncRuns && FitFile(state.disk, origin)
      modifies state, vectors, outside
      ensures state.Valid() && Fit(state.points, origin) && "" !in state.syncRuns && FitFile(state.disk, origin)
      ensures Elsewhere(vectors.collections, collection) == old(Elsewhere(vectors.collections, collection))
      ensures collection in old(vectors.Fitting()) ==>
        vectors.collections == old(vectors.collections) && state.points == old(state.points) &&
        state.disk == old(state.disk)
      ensures collection !in old(vectors.Fitting()) ==>
        state.points == old(state.points) || state.points == BasePoints(old(state.points), collection, true)
      ensures ok ==>
        && remade == (collection !in old(vectors.Fitting())) && collection in vectors.collections
        && vectors.collections[collection] == BaseShelf(old(vectors.collections), collection, remade)
        && state.points == BasePoints(old(state.points), collection, remade)
        && removed == (if remade then |CollectionIDs(old(state.points), collection)| else 0)
        && vectors.Fitting() == old(vectors.Fitting()) + {collection}
      ensures outside.troubles >= old(outside.troubles) && state.closeCalled == old(state.closeCalled)
      ensures outside.troubles == old(outside.troubles) && !state.closeCalled ==> ok
    {
      hide *;
      FittingMeans(vectors);
      EnsureMeans(vectors.collections, collection);
      BaseMeans(state.points, vectors.collections, collection);
      BaseIsFit(state.points, collection, origin);
      removed := 0;
      var fate := outside.Call();
      var dropped: bool := *;
      ok, remade := vectors.EnsureCollection(collection, fate, dropped);
      FittingMeans(vectors);
      if ok && remade {
        var writable := outside.Writable();
        var runs;
        ok, removed, runs := state.DeleteCollection(collection, writable);
        if ok {
          FileLoads(state, origin);
        }
      }
    }

    /** Brings one source's records and points into agreement with its
        documents. A collection that is missing or unfit is made anew first, and
        only such a one. */
    method SyncSource(source: Source, scanned: Option<seq<Document>>, fullRequested: bool, batchSize: int)
      returns (ok: bool, result: SyncResult, ghost s: ScanState, ghost cut: Cut)
      requires state.Valid() && batchSize > 0
      requires Fit(state.points, origin) && "" !in state.syncRuns && FitFile(state.disk, origin)
      requires Named(source) && source.id != ""
      requires scanned.Some? ==> Belong(scanned.value, source) && Admitted(scanned.value, origin)
      modifies state, vectors, outside
      ensures state.Valid() && Fit(state.points, origin) && "" !in state.syncRuns && FitFile(state.disk, origin)
      ensures Elsewhere(vectors.collections, source.collection) ==
        old(Elsewhere(vectors.collections, source.collection))
      ensures ok ==> vectors.Fitting() == old(vectors.Fitting()) + {source.collection}
      ensures ok ==>
        var remade := source.collection !in old(vectors.Fitting());
        && scanned.Some? && source.collection in vectors.collections
        && Synced(
             BasePoints(old(state.points), source.collection, remade),
             BaseShelf(old(vectors.collections), source.collection, remade),
             source, scanned.value, fullRequested || remade, version, embed,
             s, state.points, vectors.collections[source.collection])
        && Others(state.points, source.id) ==
           Others(BasePoints(old(state.points), source.collection, remade), source.id)
        && Decode(state.disk) == Loaded(state.points, state.syncRuns)
        && Counted(result, if remade then |CollectionIDs(old(state.points), source.collection)| else 0,
             source, scanned.value, version, s)
        && result.unmodified + result.upserted == |NonEmpty(scanned.value)|
      ensures !ok ==>
        || Others(state.points, source.id) == old(Others(state.points, source.id))
        || (source.collection !in old(vectors.Fitting()) &&
            Others(state.points, source.id) ==
            Others(BasePoints(old(state.points), source.collection, true), source.id))
      ensures (!ok && scanned.Some? && source.collection in old(vectors.Fitting()) &&
               (fullRequested || NoCopies(old(state.points), scanned.value))) ==>
        && source.collection in vectors.collections
        && Interrupted(old(state.points), old(vectors.collections)[source.collection], old(state.disk), source,
             scanned.value, fullRequested, version, embed, cut, state.points,
             vectors.collections[source.collection], state.disk)
      ensures outside.troubles >= old(outside.troubles) && state.closeCalled == old(state.closeCalled)
      ensures outside.troubles == old(outside.troubles) && !state.closeCalled && scanned.Some? ==> ok
    {
      hide *;
      var none := SyncResult(0, 0, 0, 0, 0);
      result, s, cut := none, ScanState(map[], map[], [], 0, 0), NO_CUT;
      if scanned.None? {
        return false, none, s, cut;
      }
      var docs := scanned.value;
      FittingMeans(vectors);
      BaseMeans(state.points, vectors.collections, source.collection);
      if source.collection in vectors.collections {
        NotStarted(state.points, vectors.collections[source.collection], state.disk, source, docs, fullRequested,
          version, embed);
      }
      var remade, removed;
      ok, remade, removed := EnsureHome(source.collection);
      if !ok {
        return;
      }
      FittingMeans(vectors);
      ghost var made := vectors.collections;
      ok, result, s, cut := SyncPrepared(source, docs, fullRequested || remade, batchSize);
      if ok {
        FittingKept(made, vectors, source.collection);
        SyncedCounts(state.points, vectors.collections[source.collection], source, docs, fullRequested || remade,
          version, embed, s, BasePoints(old(state.points), source.collection, remade),
          BaseShelf(old(vectors.collections), source.collection, remade), result);
        CountedMore(result, removed, source, docs, version, s);
        result := result.(pruned := result.pruned + removed);
      }
    }

    /** Deletes a source's points from the collections that its records name. */
    method RemovePoints(sourceID: string) returns (ok: bool, pruned: nat)
      requires state.Valid()
      modifies vectors`collections, outside
      ensures OnlyLoses({}, old(vectors.collections), vectors.collections, SourceIDs(state.points, sourceID))
      ensures ok ==>
        && vectors.collections == WithoutSource(old(vectors.collections), state.points, sourceID)
        && pruned == |SourceIDs(state.points, sourceID)|
      ensures outside.troubles >= old(outside.troubles)
      ensures ok ==> forall id | id in state.points && state.points[id].sourceID == sourceID ::
        state.points[id].collection in old(vectors.collections)
      ensures
        && outside.troubles == old(outside.troubles)
        && (forall id | id in state.points && state.points[id].sourceID == sourceID ::
              state.points[id].collection in old(vectors.collections))
        ==> ok
    {
      hide *;
      var records := state.RecordsForSource(sourceID);
      var homes := Homes(state.points, records);
      RemoveBegins(state.points, sourceID, vectors.collections);
      var done := {};
      pruned := 0;
      while homes - done != {}
        invariant outside.troubles >= old(outside.troubles)
        invariant done <= homes && done <= old(vectors.collections).Keys
        invariant vectors.collections == WithoutIn(old(vectors.collections), state.points, sourceID, done)
        invariant pruned == |PointsAmong(state.points, sourceID, done)|
        decreases homes - done
      {
        var collection :| collection in homes - done;
        var ids := PointsIn(state.points, sourceID, collection);
        HomeHasRecord(state.points, sourceID, collection);
        var fate := outside.Call();
        RemoveStep(old(vectors.collections), state.points, sourceID, done, collection);
        SameKeys(old(vectors.collections), state.points, sourceID, done);
        ghost var before := vectors.collections;
        ok := vectors.Delete(collection, ids, fate);
        if collection in before && !fate.Failed? {
          DeletedOne(before, vectors.collections, collection, ids);
        } else {
          SameElsewhere(before, vectors.collections, collection);
        }
        RemoveLoses(old(vectors.collections), state.points, sourceID, done);
        RemoveLoses(old(vectors.collections), state.points, sourceID, done + {collection});
        if !ok {
          return;
        }
        done := done + {collection};
        pruned := pruned + |ids|;
      }
      assert forall c | c in homes :: c in done || c in homes - done;
      assert done == homes;
      HomesCover(state.points, sourceID);
      RemoveLoses(old(vectors.collections), state.points, sourceID, done);
      ok := true;
    }

    /** Removes one unregistered source: its points from the collection each
        record names, then its records and its sync run. */
    method RemoveSource(sourceID: string) returns (ok: bool, pruned: nat)
      requires state.Valid()
      requires Fit(state.points, origin) && "" !in state.syncRuns && FitFile(state.disk, origin)
      modifies state, vectors`collections, outside
      ensures state.Valid() && Fit(state.points, origin) && "" !in state.syncRuns && FitFile(state.disk, origin)
      ensures state.points == old(state.points) ||
              state.points == old(state.points) - SourceIDs(old(state.points), sourceID)
      ensures OnlyLoses({}, old(vectors.collections), vectors.collections, SourceIDs(old(state.points), sourceID))
      ensures ok ==>
        && state.points == old(state.points) - SourceIDs(old(state.points), sourceID)
        && state.syncRuns == old(state.syncRuns) - {sourceID}
        && vectors.collections == WithoutSource(old(vectors.collections), old(state.points), sourceID)
        && pruned == |SourceIDs(old(state.points), sourceID)|
        && forall id | id in old(state.points) && old(state.points)[id].sourceID == sourceID ::
             old(state.points)[id].collection in old(vectors.collections)
      ensures outside.troubles >= old(outside.troubles) && state.closeCalled == old(state.closeCalled)
      ensures
        && outside.troubles == old(outside.troubles) && !state.closeCalled
        && (forall id | id in old(state.points) && old(state.points)[id].sourceID == sourceID ::
              old(state.points)[id].collection in old(vectors.collections))
        ==> ok
    {
      hide *;
      RemoveIsFit(state.points, sourceID, origin);
      ok, pruned := RemovePoints(sourceID);
      if !ok {
        return;
      }
      var writable := outside.Writable();
      ok := state.DeleteSource(sourceID, writable);
      if ok {
        FileLoads(state, origin);
      }
    }

    /** Removes every source that is no longer registered. */
    method PruneRemovedSources(active: set<string>) returns (ok: bool, pruned: nat)
      requires state.Valid()
      requires Fit(state.points, origin) && "" !in state.syncRuns && FitFile(state.disk, origin)
      modifies state, vectors`collections, outside
      ensures state.Valid() && Fit(state.points, origin) && "" !in state.syncRuns && FitFile(state.disk, origin)
      ensures Thinned(old(state.points), state.points, active)
      ensures OnlyLoses({}, old(vectors.collections), vectors.collections, StaleIDs(old(state.points), active))
      ensures ok ==>
        && state.points == OfSources(old(state.points), active)
        && vectors.collections == WithoutStale(old(vectors.collections), old(state.points), active)
        && pruned == |StaleIDs(old(state.points), active)|
        && forall id | id in old(state.points) && old(state.points)[id].sourceID !in active ::
             old(state.points)[id].collection in old(vectors.collections)
      ensures outside.troubles >= old(outside.troubles) && state.closeCalled == old(state.closeCalled)
      ensures
        && outside.troubles == old(outside.troubles) && !state.closeCalled
        && (forall id | id in old(state.points) && old(state.points)[id].sourceID !in active ::
              old(state.points)[id].collection in old(vectors.collections))
        ==> ok
    {
      hide *;
      var ids := state.AllSourceIDs();
      var stale := ids - active;
      ghost var p := state.points;
      PruneBegins(p, vectors.collections);
      LosesNothing({}, vectors.collections, StaleIDs(p, active));
      var done := {};
      pruned := 0;
      DroppedIsThin(p, done, active);
      while stale - done != {}
        invariant state.Valid() && done <= stale
        invariant Fit(state.points, origin) && "" !in state.syncRuns && FitFile(state.disk, origin)
        invariant state.points == Dropped(p, done) && Thinned(p, state.points, active)
        invariant outside.troubles >= old(outside.troubles) && state.closeCalled == old(state.closeCalled)
        invariant forall x | x in p && p[x].sourceID in done :: p[x].collection in old(vectors.collections)
        invariant vectors.collections == WithoutSources(old(vectors.collections), p, done)
        invariant OnlyLoses({}, old(vectors.collections), vectors.collections, StaleIDs(p, active))
        invariant pruned == |IDsOf(p, done)|
        decreases stale - done
      {
        var id :| id in stale - done;
        DropStep(p, done, id, old(vectors.collections));
        DroppedIsThin(p, done + {id}, active);
        var more;
        ghost var before := vectors.collections;
        LosesKeys(old(vectors.collections), before, StaleIDs(p, active));
        DroppedHas(p, done, id);
        ok, more := RemoveSource(id);
        LosesMore(old(vectors.collections), before, vectors.collections, p, done, id, active);
        if !ok {
          return;
        }
        done := done + {id};
        pruned := pruned + more;
      }
      assert forall id | id in stale :: id in done || id in stale - done;
      assert done == stale;
      PruneEnds(p, old(state.syncRuns), active, old(vectors.collections));
      assert forall x | x in p && p[x].sourceID !in active :: p[x].sourceID in stale;
      ok := true;
    }

    /** Syncs one enabled source in scope. */
    method SyncNext(source: Source, scanned: Option<seq<Document>>, full: bool, batchSize: int)
      returns (ok: bool, result: SyncResult)
      requires state.Valid() && batchSize > 0
      requires Fit(state.points, origin) && "" !in state.syncRuns && FitFile(state.disk, origin)
      requires Registered(source, scanned, origin)
      modifies state, vectors, outside
      ensures state.Valid() && Fit(state.points, origin) && "" !in state.syncRuns && FitFile(state.disk, origin)
      ensures OthersSpared(old(Holds()), source, Holds())
      ensures Elsewhere(vectors.collections, source.collection) ==
        old(Elsewhere(vectors.collections, source.collection))
      ensures ok ==>
        && scanned.Some? && Ended(old(Holds()), source, scanned.value, full, version, embed, Holds())
        && OneCounts(result, scanned.value, full)
      ensures outside.troubles >= old(outside.troubles) && state.closeCalled == old(state.closeCalled)
      ensures outside.troubles == old(outside.troubles) && !state.closeCalled && scanned.Some? ==> ok
    {
      RegisteredMeans(source, scanned, origin);
      hide *;
      HoldsMeans(this);
      ghost var before, fitting, h := state.points, vectors.Fitting(), Holds();
      ghost var s, cut;
      ok, result, s, cut := SyncSource(source, scanned, full, batchSize);
      HoldsMeans(this);
      BaseMeans(before, vectors.collections, source.collection);
      OthersAre(h, source, Holds());
      if ok {
        EndedSo(h, source, scanned.value, full, version, embed, s, Holds());
        CountsMean(result, if source.collection in fitting then 0 else |CollectionIDs(before, source.collection)|,
          source, scanned.value, version, s, BasePoints(before, source.collection, source.collection !in fitting),
          BaseShelf(h.collections, source.collection, source.collection !in fitting),
          full || source.collection !in fitting, full, embed, state.points, vectors.collections[source.collection]);
      }
    }

    /** One sync run over the registered sources. Whatever its outcome, the state
        and its file stay fit. */
    method Sync(
      sources: seq<Source>, options: SyncOptions, scan: Source -> Option<seq<Document>>, ghost hash: string -> string)
      returns (ok: bool, result: SyncResult)
      requires state.Valid()
      requires Fit(state.points, origin) && "" !in state.syncRuns && FitFile(state.disk, origin)
      requires forall i | 0 <= i < |sources| :: Registered(sources[i], scan(sources[i]), origin)
      modifies state, vectors, outside
      ensures state.Valid() && Fit(state.points, origin) && "" !in state.syncRuns && FitFile(state.disk, origin)
      ensures outside.troubles >= old(outside.troubles) && state.closeCalled == old(state.closeCalled)
      ensures ok ==> Feasible(old(Holds()), sources, options, scan)
      ensures outside.troubles == old(outside.troubles) && !state.closeCalled ==>
        Feasible(old(Holds()), sources, options, scan) ==> ok
      ensures Promised(old(Holds()), Holds(), sources, options, scan, ok, result, version, hash, embed)
    {
      hide *;
      result := SyncResult(0, 0, 0, 0, 0);
      ghost var h := Holds();
      HoldsMeans(this);
      FeasibleIs(h, sources, options, scan);
      if !CollectionAllowed(options.collection) {
        NothingDone(h, sources, options, scan, result, version, hash, embed);
        return false, result;
      }
      var batchSize := EffectiveBatchSize(syncBatchSize);
      var pruned;
      FittingMeans(vectors);
      ok, pruned := PruneRemovedSources(SourceNames(sources));
      FittingMeans(vectors);
      HoldsMeans(this);
      LosesKeys(h.collections, vectors.collections, StaleIDs(h.points, SourceNames(sources)));
      if !ok {
        StaleAre(h, SourceNames(sources));
        PruneStops(h, Holds(), sources, options, scan, result, version, hash, embed);
        return;
      }
      result := result.(pruned := pruned);
      MidwayBegins(h, Holds(), sources, options, scan, result, version, hash, embed, origin);
      StaleAre(h, SourceNames(sources));
      FoundBegins(sources, options, scan);
      var found := options.sourceID == "";
      var i := 0;
      while i < |sources|
        invariant 0 <= i <= |sources|
        invariant outside.troubles >= old(outside.troubles) && state.closeCalled == old(state.closeCalled)
        invariant state.Valid() && Fit(state.points, origin) && "" !in state.syncRuns && FitFile(state.disk, origin)
        invariant Midway(h, Holds(), sources, i, options, scan, result, version, hash, embed)
        invariant found == Found(sources, i, options) && Scanned(sources, i, options, scan)
      {
        FoundStep(sources, i, options, scan);
        var source := sources[i];
        ghost var now := Holds();
        HoldsMeans(this);
        SyncsMeans(source, options);
        if !Syncs(source, options) {
          MidwaySkips(h, now, sources, i, options, scan, result, version, hash, embed);
        }
        if InScope(source, options) {
          found := true;
          if source.enabled {
            var one;
            ok, one := SyncNext(source, scan(source), options.full, batchSize);
            HoldsMeans(this);
            if !ok {
              ScannedWithin(sources, i, options, scan);
              MidwayStops(h, now, Holds(), sources, i, options, scan, result, version, hash, embed);
              return;
            }
            MidwayGoesOn(h, now, Holds(), sources, i, options, scan, result, one, version, hash, embed, origin);
            result := AddResults(result, one);
          }
        }
        i := i + 1;
      }
      ok := found;
      FoundIsNamed(sources, options);
      MidwayEnds(h, Holds(), sources, options, scan, ok, result, version, hash, embed);
    }
  }

  /** What a sync needs to succeed when nothing goes wrong: the collection is blank
      or one of the four, a source in scope has the id if one is named, the scans of
      the enabled sources in scope succeed, and the records of unregistered sources
      lie in collections that exist. */
  ghost predicate Feasible(h: Held, sources: seq<Source>, options: SyncOptions, scan: Source -> Option<seq<Document>>) {
    && (Text.Trim(options.collection) == "" ||
        options.collection in ["library", "zettelkasten", "semantic", "core"])
    && (options.sourceID == "" ||
        exists s | s in sources && s.id == options.sourceID ::
          options.collection == "" || s.collection == options.collection)
    && (forall s | s in sources && s.enabled && (options.collection == "" || s.collection == options.collection) &&
                   (options.sourceID == "" || s.id == options.sourceID) :: scan(s).Some?)
    && (forall id | id in h.points && (forall s | s in sources :: s.id != h.points[id].sourceID) ::
          h.points[id].collection in h.collections)
  }

  /** A source in scope was seen among the first `n`, if one is asked for by id. */
  ghost predicate Found(sources: seq<Source>, n: nat, options: SyncOptions)
    requires n <= |sources|
  {
    options.sourceID == "" || exists k | 0 <= k < n :: InScope(sources[k], options)
  }

  ghost predicate Scanned(sources: seq<Source>, n: nat, options: SyncOptions, scan: Source -> Option<seq<Document>>)
    requires n <= |sources|
  {
    forall k | 0 <= k < n && Syncs(sources[k], options) :: scan(sources[k]).Some?
  }

  /** The collections of stale records exist. */
  ghost predicate StaleHomed(h: Held, active: set<string>) {
    forall id | id in h.points && h.points[id].sourceID !in active :: h.points[id].collection in h.collections
  }

  lemma FeasibleIs(h: Held, sources: seq<Source>, options: SyncOptions, scan: Source -> Option<seq<Document>>)
    ensures Feasible(h, sources, options, scan) <==>
      && CollectionAllowed(options.collection) && Found(sources, |sources|, options)
      && Scanned(sources, |sources|, options, scan) && StaleHomed(h, SourceNames(sources))
  {
    assert forall s | s in sources :: exists k :: 0 <= k < |sources| && sources[k] == s;
  }

  lemma StaleAre(h: Held, active: set<string>)
    ensures StaleHomed(h, active) <==>
      forall id | id in h.points && h.points[id].sourceID !in active :: h.points[id].collection in h.collections
  {
  }

  lemma FoundBegins(sources: seq<Source>, options: SyncOptions, scan: Source -> Option<seq<Document>>)
    ensures Found(sources, 0, options) <==> options.sourceID == ""
    ensures Scanned(sources, 0, options, scan)
  {
  }

  lemma FoundStep(sources: seq<Source>, i: nat, options: SyncOptions, scan: Source -> Option<seq<Document>>)
    requires i < |sources|
    ensures Found(sources, i + 1, options) <==> Found(sources, i, options) || InScope(sources[i], options)
    ensures Scanned(sources, i + 1, options, scan) <==>
      Scanned(sources, i, options, scan) && (Syncs(sources[i], options) ==> scan(sources[i]).Some?)
  {
    hide InScope, Syncs;
  }

  lemma ScannedWithin(sources: seq<Source>, i: nat, options: SyncOptions, scan: Source -> Option<seq<Document>>)
    requires i < |sources| && Syncs(sources[i], options)
    ensures Scanned(sources, |sources|, options, scan) ==> scan(sources[i]).Some?
  {
    hide Syncs;
  }

  lemma FoundIsNamed(sources: seq<Source>, options: SyncOptions)
    ensures Found(sources, |sources|, options) ==> options.sourceID == "" || options.sourceID in SourceNames(sources)
  {
  }

  /** Outside some collections the store lost some points at most. */
  ghost predicate OnlyLoses(
    some: set<string>, before: map<string, Shelf>, after: map<string, Shelf>, gone: set<PointID>)
  {
    && before.Keys - some == after.Keys - some
    && forall c | c in before && c !in some :: c in after && ShelfLoses(before[c], after[c], gone)
  }

  predicate ShelfLoses(before: Shelf, after: Shelf, gone: set<PointID>) {
    && (forall id | id in after :: id in before && after[id] == before[id])
    && (forall id | id in before && id !in gone :: id in after)
  }

  lemma LosesNothing(some: set<string>, collections: map<string, Shelf>, gone: set<PointID>)
    ensures OnlyLoses(some, collections, collections, gone)
  {
  }

  lemma LosesKeys(before: map<string, Shelf>, after: map<string, Shelf>, gone: set<PointID>)
    requires OnlyLoses({}, before, after, gone)
    ensures before.Keys == after.Keys
  {
    assert before.Keys - {} == before.Keys && after.Keys - {} == after.Keys;
  }

  lemma RemoveLoses(collections: map<string, Shelf>, p: Points, sourceID: string, done: set<string>)
    ensures OnlyLoses({}, collections, WithoutIn(collections, p, sourceID, done), SourceIDs(p, sourceID))
  {
  }

  lemma SameElsewhere(before: map<string, Shelf>, after: map<string, Shelf>, c: string)
    requires before.Keys == after.Keys && Elsewhere(before, c) == Elsewhere(after, c)
    requires c in before ==> after[c] == before[c]
    ensures after == before
  {
    forall x | x in before && x != c ensures after[x] == before[x] {
      assert Elsewhere(before, c)[x] == before[x] && Elsewhere(after, c)[x] == after[x];
    }
  }

  lemma LosesMore(
    first: map<string, Shelf>, before: map<string, Shelf>, after: map<string, Shelf>, p: Points, done: set<string>,
    id: string, active: set<string>)
    requires OnlyLoses({}, first, before, StaleIDs(p, active)) && id !in active
    requires OnlyLoses({}, before, after, SourceIDs(Dropped(p, done), id))
    ensures OnlyLoses({}, first, after, StaleIDs(p, active))
  {
    LosesKeys(first, before, StaleIDs(p, active));
    LosesKeys(before, after, SourceIDs(Dropped(p, done), id));
    assert SourceIDs(Dropped(p, done), id) <= StaleIDs(p, active);
    hide SourceIDs, StaleIDs, Dropped;
  }

  lemma HoldsMeans(service: Service)
    ensures service.Holds() ==
      Held(service.state.points, service.vectors.collections, service.vectors.Fitting())
  {
  }

  datatype SyncOptions = SyncOptions(collection: string, sourceID: string, full: bool)

  const SUPPORTED_COLLECTIONS := ["library", "zettelkasten", "semantic", "core"]

  predicate CollectionAllowed(collection: string) {
    Text.Trim(collection) == "" || collection in SUPPORTED_COLLECTIONS
  }

  function EffectiveBatchSize(configured: int): (n: int)
    ensures n > 0 && (configured > 0 ==> n == configured) && (configured <= 0 ==> n == 512)
  {
    if configured <= 0 then DEFAULT_SYNC_BATCH_SIZE else configured
  }

  predicate InScope(source: Source, options: SyncOptions) {
    && (options.collection == "" || source.collection == options.collection)
    && (options.sourceID == "" || source.id == options.sourceID)
  }

  /** A registered source has NUL-free names and a scan yields its own documents. */
  ghost predicate Registered(source: Source, scanned: Option<seq<Document>>, origin: Origin) {
    && Named(source) && source.id != ""
    && (scanned.Some? ==> Belong(scanned.value, source) && Admitted(scanned.value, origin))
  }

  lemma RegisteredMeans(source: Source, scanned: Option<seq<Document>>, origin: Origin)
    requires Registered(source, scanned, origin)
    ensures Named(source) && source.id != ""
    ensures scanned.Some? ==> Belong(scanned.value, source) && Admitted(scanned.value, origin)
  {
  }

  lemma FittingMeans(vectors: VectorStore)
    ensures vectors.Fitting() == vectors.collections.Keys - vectors.unfit
  {
  }

  function SourceNames(sources: seq<Source>): set<string> {
    set source | source in sources :: source.id
  }

  function AddResults(a: SyncResult, b: SyncResult): SyncResult {
    SyncResult(a.scanned + b.scanned, a.embedded + b.embedded, a.upserted + b.upserted,
               a.pruned + b.pruned, a.unmodified + b.unmodified)
  }

  /** The ids of the sources a run syncs. */
  function Touched(sources: seq<Source>, options: SyncOptions): set<string> {
    if sources == [] then {}
    else
      var last := sources[|sources| - 1];
      Touched(sources[..|sources| - 1], options) +
      if last.enabled && InScope(last, options) then {last.id} else {}
  }

  /** The collections those sources use. */
  function Needed(sources: seq<Source>, options: SyncOptions): set<string> {
    if sources == [] then {}
    else
      var last := sources[|sources| - 1];
      Needed(sources[..|sources| - 1], options) +
      if last.enabled && InScope(last, options) then {last.collection} else {}
  }

  /** Sources that were not touched gain no record, and the registered ones among
      them lose none outside remade collections. */
  ghost predicate Spares(
    p: Points, q: Points, active: set<string>, touched: set<string>, remade: set<string>)
  {
    && (forall id | id in q && q[id].sourceID !in touched :: id in p && q[id] == p[id])
    && (forall id | id in p && p[id].sourceID in active && p[id].sourceID !in touched &&
                    p[id].collection !in remade :: id in q && q[id] == p[id])
  }

  /** Every record belongs to a registered source. */
  predicate Owned(p: Points, active: set<string>) {
    forall id | id in p :: p[id].sourceID in active
  }

  /** Only records of unregistered sources are gone. */
  ghost predicate Thinned(p: Points, q: Points, active: set<string>) {
    && (forall id | id in q :: id in p && q[id] == p[id])
    && (forall id | id in p && p[id].sourceID in active :: id in q)
  }

  /** Two vector stores agree on all collections but some. */
  ghost predicate SameShelvesOutside(some: set<string>, a: map<string, Shelf>, b: map<string, Shelf>) {
    a.Keys - some == b.Keys - some && forall c | c in a && c !in some :: c in b && a[c] == b[c]
  }

  lemma AllSame(a: map<string, Shelf>)
    ensures SameShelvesOutside({}, a, a)
  {
  }

  lemma OneMoreShelf(
    some: set<string>, before: map<string, Shelf>, after: map<string, Shelf>, b: map<string, Shelf>, c: string)
    requires SameShelvesOutside(some, before, b) && Elsewhere(before, c) == Elsewhere(after, c)
    ensures SameShelvesOutside(some + {c}, after, b)
  {
    assert forall x | x != c :: x in before <==> x in Elsewhere(before, c);
    assert forall x | x != c :: x in after <==> x in Elsewhere(after, c);
    forall x | x in after && x !in some + {c} ensures x in b && after[x] == b[x] {
      assert Elsewhere(before, c)[x] == before[x] && Elsewhere(after, c)[x] == after[x];
      assert x in before.Keys - some;
    }
    forall x | x in b && x !in some + {c} ensures x in after {
      assert x in before.Keys - some;
    }
  }

  lemma ThinSpares(p: Points, q: Points, active: set<string>)
    requires Thinned(p, q, active)
    ensures Spares(p, q, active, {}, {})
  {
  }

  lemma OwnedNow(p: Points, active: set<string>)
    ensures Owned(OfSources(p, active), active)
  {
  }

  lemma SparesMore(
    p: Points, q: Points, active: set<string>, touched: set<string>, remade: set<string>, more: set<string>)
    requires Spares(p, q, active, touched, remade) && remade <= more
    ensures Spares(p, q, active, touched, more)
  {
  }

  lemma TouchedMore(
    p: Points, q: Points, active: set<string>, touched: set<string>, more: set<string>, remade: set<string>)
    requires Spares(p, q, active, touched, remade) && touched <= more
    ensures Spares(p, q, active, more, remade)
  {
  }

  lemma SyncedSpares(
    p: Points, before: Points, after: Points, active: set<string>, source: Source, touched: set<string>,
    remade: set<string>, anew: bool)
    requires source.id in active && Owned(before, active)
    requires Spares(p, before, active, touched, remade)
    requires Others(after, source.id) == Others(BasePoints(before, source.collection, anew), source.id)
    ensures Spares(p, after, active, touched + {source.id}, if anew then remade + {source.collection} else remade)
    ensures Owned(after, active)
  {
    var base := BasePoints(before, source.collection, anew);
    forall id | id in after && after[id].sourceID != source.id ensures id in before && after[id] == before[id] {
      assert id in Others(after, source.id);
      assert id in Others(base, source.id);
    }
    forall id | id in before && before[id].sourceID != source.id && (anew ==> before[id].collection != source.collection)
      ensures id in after && after[id] == before[id]
    {
      assert id in Others(base, source.id);
      assert id in Others(after, source.id);
    }
  }

  lemma NextSpares(h: Held, now: Held, h': Held, sources: seq<Source>, i: nat, options: SyncOptions)
    requires i < |sources| && Syncs(sources[i], options) && OthersSpared(now, sources[i], h')
    requires
      var touched, needed := Touched(sources[..i], options), Needed(sources[..i], options);
      && Spares(h.points, now.points, SourceNames(sources), touched, needed - h.fitting)
      && now.fitting == h.fitting + needed && Owned(now.points, SourceNames(sources))
    ensures
      var touched, needed := Touched(sources[..i + 1], options), Needed(sources[..i + 1], options);
      && Spares(h.points, h'.points, SourceNames(sources), touched, needed - h.fitting)
      && Owned(h'.points, SourceNames(sources))
  {
    TouchedStep(sources, i, options);
    NamesHold(sources, i);
    OthersMeans(now, sources[i], h');
    BaseMeans(now.points, map[], sources[i].collection);
    SyncsMeans(sources[i], options);
    hide *;
    var source, active := sources[i], SourceNames(sources);
    var touched, needed := Touched(sources[..i], options), Needed(sources[..i], options);
    var remade, remade' := needed - h.fitting, needed + {source.collection} - h.fitting;
    if Others(h'.points, source.id) == Others(now.points, source.id) {
      SyncedSpares(h.points, now.points, h'.points, active, source, touched, remade, false);
      SparesMore(h.points, h'.points, active, touched + {source.id}, remade, remade');
    } else {
      SyncedSpares(h.points, now.points, h'.points, active, source, touched, remade, true);
      assert remade + {source.collection} == remade';
    }
  }

  // ------------------------------------------------- what a sync promises

  /** What a sync makes of the state `h`. Whatever its outcome, sources that are
      not synced keep exactly their records, except in collections that a synced
      source had to make anew. After success they keep their points there too, no
      record belongs to an unregistered source, only needed collections changed
      otherwise, the counts add up, and the synced sources end well. */
  ghost predicate Promised(
    h: Held, h': Held, sources: seq<Source>, options: SyncOptions, scan: Source -> Option<seq<Document>>, ok: bool,
    result: SyncResult, version: string, hash: string -> string, embed: string -> Vector)
  {
    var active, touched, needed := SourceNames(sources), Touched(sources, options), Needed(sources, options);
    && (!CollectionAllowed(options.collection) ==> !ok && h' == h)
    && Spares(h.points, h'.points, active, touched, needed - h.fitting)
    && OnlyLoses(needed, h.collections, h'.collections, StaleIDs(h.points, active))
    && (ok ==>
          && PointsSpared(h, h', active, touched, needed - h.fitting)
          && Owned(h'.points, active)
          && h'.fitting == h.fitting + needed
          && SameShelvesOutside(needed, h'.collections, WithoutStale(h.collections, h.points, active))
          && (options.sourceID == "" || options.sourceID in active)
          && Tally(sources, options, scan) == (result.scanned, result.unmodified + result.upserted)
          && Summed(|StaleIDs(h.points, active)|, sources, |sources|, options, scan, result)
          && (Tidy(sources, scan) ==>
                AllEnded(h, h', sources, |sources|, options, scan, version, hash, embed)))
  }

  // ------------------------------------------------- the scope of a sync

  /** A registered source that is disabled, or not of the collection or the id that
      the options name, keeps its records whatever the outcome, and after success
      their points too, except in a collection that was missing or unfit and that a
      source in scope uses. */
  lemma OutOfScopeIsKept(
    h: Held, h': Held, sources: seq<Source>, options: SyncOptions, scan: Source -> Option<seq<Document>>, ok: bool,
    result: SyncResult, version: string, hash: string -> string, embed: string -> Vector, id: PointID)
    requires Promised(h, h', sources, options, scan, ok, result, version, hash, embed) && id in h.points
    requires exists s :: s in sources && s.id == h.points[id].sourceID
    requires forall s | s in sources && s.id == h.points[id].sourceID ::
      || !s.enabled
      || (options.collection != "" && s.collection != options.collection)
      || (options.sourceID != "" && s.id != options.sourceID)
    requires h.points[id].collection in h.fitting ||
      forall s | s in sources && s.enabled && (options.collection == "" || s.collection == options.collection) &&
                 (options.sourceID == "" || s.id == options.sourceID) :: s.collection != h.points[id].collection
    ensures id in h'.points && h'.points[id] == h.points[id]
    ensures
      var c := h.points[id].collection;
      ok && c in h.collections && id in h.collections[c] ==>
      c in h'.collections && id in h'.collections[c] && h'.collections[c][id] == h.collections[c][id]
  {
    hide Touched, Needed, OnlyLoses, Owned, SameShelvesOutside, WithoutStale, Tally, Tidy, AllEnded,
         CollectionAllowed, StaleIDs;
    TouchedIs(sources, options);
  }

  /** A collection that no source in scope uses is not made anew, on any outcome, and
      loses at most the points of records of unregistered sources; after success it has
      lost exactly those whose records named it, and the fitting collections are those
      from before and those that sources in scope use. */
  lemma OutOfScopeStays(
    h: Held, h': Held, sources: seq<Source>, options: SyncOptions, scan: Source -> Option<seq<Document>>, ok: bool,
    result: SyncResult, version: string, hash: string -> string, embed: string -> Vector, c: string)
    requires Promised(h, h', sources, options, scan, ok, result, version, hash, embed)
    ensures
      var used := exists s | s in sources && s.enabled && (options.collection == "" || s.collection == options.collection)
                             && (options.sourceID == "" || s.id == options.sourceID) :: s.collection == c;
      && (ok ==> (c in h'.fitting <==> c in h.fitting || used))
      && (!used ==>
            && (c in h'.collections <==> c in h.collections)
            && (c in h.collections ==>
                  && (forall id | id in h'.collections[c] ::
                        id in h.collections[c] && h'.collections[c][id] == h.collections[c][id])
                  && (forall id | id in h.collections[c] &&
                                  (id in h.points ==> exists s :: s in sources && s.id == h.points[id].sourceID) ::
                        id in h'.collections[c])
                  && (ok ==> forall id | id in h.collections[c] ::
                        id in h'.collections[c] <==>
                        (id in h.points && h.points[id].collection == c ==>
                         exists s :: s in sources && s.id == h.points[id].sourceID))))
  {
    hide Touched, Needed, Spares, PointsSpared, Owned, Tally, Tidy, AllEnded, CollectionAllowed, Summed;
    TouchedIs(sources, options);
    var needed := Needed(sources, options);
    assert c in h.collections.Keys - needed <==> c in h'.collections.Keys - needed;
  }

  /** After success every enabled source of the collection and the id that the
      options name has ended. */
  lemma InScopeHasEnded(
    h: Held, h': Held, sources: seq<Source>, options: SyncOptions, scan: Source -> Option<seq<Document>>,
    result: SyncResult, version: string, hash: string -> string, embed: string -> Vector, source: Source)
    requires Promised(h, h', sources, options, scan, true, result, version, hash, embed) && Tidy(sources, scan)
    requires source in sources && source.enabled
    requires options.collection == "" || source.collection == options.collection
    requires options.sourceID == "" || source.id == options.sourceID
    ensures scan(source).Some?
    ensures EndsWell(h, h', source, scan(source).value, options.full, version, hash, embed)
  {
    hide Touched, Needed, Spares, PointsSpared, Owned, SameShelvesOutside, WithoutStale, Tally, OnlyLoses,
         CollectionAllowed, SourceNames, EndsWell, Tidy;
    var j :| 0 <= j < |sources| && sources[j] == source;
    assert Syncs(sources[j], options);
  }

  /** A collection that is neither blank nor one of the four is refused, and then
      nothing happens. */
  lemma UnknownCollectionIsRefused(
    h: Held, h': Held, sources: seq<Source>, options: SyncOptions, scan: Source -> Option<seq<Document>>, ok: bool,
    result: SyncResult, version: string, hash: string -> string, embed: string -> Vector)
    requires Promised(h, h', sources, options, scan, ok, result, version, hash, embed)
    requires Text.Trim(options.collection) != ""
    requires options.collection !in ["library", "zettelkasten", "semantic", "core"]
    ensures !ok && h' == h
  {
    hide Touched, Needed, Spares, PointsSpared, Owned, SameShelvesOutside, WithoutStale, Tally, OnlyLoses,
         SourceNames, Tidy, AllEnded, Text.Trim;
  }

  /** The same after the first `n` sources. */
  ghost predicate Midway(
    h: Held, now: Held, sources: seq<Source>, n: nat, options: SyncOptions, scan: Source -> Option<seq<Document>>,
    result: SyncResult, version: string, hash: string -> string, embed: string -> Vector)
    requires n <= |sources|
  {
    var some, active := sources[..n], SourceNames(sources);
    var touched, needed := Touched(some, options), Needed(some, options);
    && Spares(h.points, now.points, active, touched, needed - h.fitting)
    && PointsSpared(h, now, active, touched, needed - h.fitting)
    && Owned(now.points, active)
    && now.fitting == h.fitting + needed
    && SameShelvesOutside(needed, now.collections, WithoutStale(h.collections, h.points, active))
    && Tally(some, options, scan) == (result.scanned, result.unmodified + result.upserted)
    && Summed(|StaleIDs(h.points, active)|, sources, n, options, scan, result)
    && (Tidy(sources, scan) ==> Progress(h, now, sources, n, options, scan, version, hash, embed))
  }

  lemma NothingDone(
    h: Held, sources: seq<Source>, options: SyncOptions, scan: Source -> Option<seq<Document>>, result: SyncResult,
    version: string, hash: string -> string, embed: string -> Vector)
    ensures Promised(h, h, sources, options, scan, false, result, version, hash, embed)
  {
    hide SourceNames, Touched, Needed, CollectionAllowed, StaleIDs;
  }

  lemma PruneStops(
    h: Held, h': Held, sources: seq<Source>, options: SyncOptions, scan: Source -> Option<seq<Document>>,
    result: SyncResult, version: string, hash: string -> string, embed: string -> Vector)
    requires CollectionAllowed(options.collection) && Thinned(h.points, h'.points, SourceNames(sources))
    requires OnlyLoses({}, h.collections, h'.collections, StaleIDs(h.points, SourceNames(sources)))
    ensures Promised(h, h', sources, options, scan, false, result, version, hash, embed)
  {
    hide SourceNames, Touched, Needed, CollectionAllowed, StaleIDs;
    LosesKeys(h.collections, h'.collections, StaleIDs(h.points, SourceNames(sources)));
  }

  lemma MidwayBegins(
    h: Held, now: Held, sources: seq<Source>, options: SyncOptions, scan: Source -> Option<seq<Document>>,
    result: SyncResult, version: string, hash: string -> string, embed: string -> Vector, origin: Origin)
    requires Fit(h.points, origin) && Fit(now.points, origin) && now.fitting == h.fitting
    requires forall j | 0 <= j < |sources| :: Registered(sources[j], scan(sources[j]), origin)
    requires Thinned(h.points, now.points, SourceNames(sources))
    requires now.points == OfSources(h.points, SourceNames(sources))
    requires now.collections == WithoutStale(h.collections, h.points, SourceNames(sources))
    requires result == SyncResult(0, 0, 0, |StaleIDs(h.points, SourceNames(sources))|, 0)
    ensures Midway(h, now, sources, 0, options, scan, result, version, hash, embed)
  {
    hide Spares, SourceNames, Touched, Needed, PointsSpared, Owned, SameShelvesOutside, WithoutStale, Tally, Tidy,
         Progress, Fit, Registered, Thinned, OfSources, Summed, StaleIDs;
    SumBegins(|StaleIDs(h.points, SourceNames(sources))|, sources, options, scan);
    SyncBegins(sources, options, scan);
    var active := SourceNames(sources);
    assert {} - h.fitting == {} && h.fitting + {} == h.fitting;
    ThinSpares(h.points, now.points, active);
    OwnedNow(h.points, active);
    PointsThinned(h, now, active);
    AllSame(now.collections);
    ProgressBegins(h, now, sources, options, scan, version, hash, embed, origin);
  }

  lemma MidwaySkips(
    h: Held, now: Held, sources: seq<Source>, i: nat, options: SyncOptions, scan: Source -> Option<seq<Document>>,
    result: SyncResult, version: string, hash: string -> string, embed: string -> Vector)
    requires i < |sources| && !Syncs(sources[i], options)
    requires Midway(h, now, sources, i, options, scan, result, version, hash, embed)
    ensures Midway(h, now, sources, i + 1, options, scan, result, version, hash, embed)
  {
    hide Spares, SourceNames, Touched, Needed, PointsSpared, Owned, SameShelvesOutside, WithoutStale, Tally, Tidy,
         Progress, InScope, Syncs, Summed, StaleIDs;
    SyncsMeans(sources[i], options);
    TouchedStep(sources, i, options);
    TallyStep(sources, i, options, scan);
    SumSkips(|StaleIDs(h.points, SourceNames(sources))|, sources, i, options, scan, result);
    if Tidy(sources, scan) {
      ProgressSkips(h, now, sources, i, options, scan, version, hash, embed);
    }
  }

  lemma MidwayStops(
    h: Held, now: Held, h': Held, sources: seq<Source>, i: nat, options: SyncOptions,
    scan: Source -> Option<seq<Document>>, result: SyncResult, version: string, hash: string -> string,
    embed: string -> Vector)
    requires i < |sources| && Syncs(sources[i], options)
    requires Midway(h, now, sources, i, options, scan, result, version, hash, embed)
    requires CollectionAllowed(options.collection) && OthersSpared(now, sources[i], h')
    requires Elsewhere(h'.collections, sources[i].collection) == Elsewhere(now.collections, sources[i].collection)
    ensures Promised(h, h', sources, options, scan, false, result, version, hash, embed)
  {
    hide Spares, SourceNames, Touched, Needed, PointsSpared, Owned, SameShelvesOutside, WithoutStale, Tally, Tidy,
         Progress, InScope, OthersSpared, CollectionAllowed, Elsewhere, OnlyLoses, StaleIDs;
    NextSpares(h, now, h', sources, i, options);
    NextLoses(h, now, h', sources, i, options);
    TouchedWithin(sources, i + 1, options);
    var touched, needed := Touched(sources[..i + 1], options), Needed(sources[..i + 1], options);
    var active, remade := SourceNames(sources), Needed(sources, options) - h.fitting;
    SparesMore(h.points, h'.points, active, touched, needed - h.fitting, remade);
    TouchedMore(h.points, h'.points, active, touched, Touched(sources, options), remade);
  }

  lemma NextLoses(h: Held, now: Held, h': Held, sources: seq<Source>, i: nat, options: SyncOptions)
    requires i < |sources| && Syncs(sources[i], options)
    requires SameShelvesOutside(Needed(sources[..i], options), now.collections,
               WithoutStale(h.collections, h.points, SourceNames(sources)))
    requires Elsewhere(h'.collections, sources[i].collection) == Elsewhere(now.collections, sources[i].collection)
    ensures OnlyLoses(Needed(sources, options), h.collections, h'.collections, StaleIDs(h.points, SourceNames(sources)))
  {
    hide Touched, Needed, InScope, Elsewhere, OnlyLoses, SameShelvesOutside, WithoutStale, StaleIDs, SourceNames;
    var thinned := WithoutStale(h.collections, h.points, SourceNames(sources));
    TouchedStep(sources, i, options);
    TouchedWithin(sources, i + 1, options);
    OneMoreShelf(Needed(sources[..i], options), now.collections, h'.collections, thinned, sources[i].collection);
    SameLoses(h, h'.collections, SourceNames(sources), Needed(sources[..i + 1], options), Needed(sources, options));
  }

  lemma SameLoses(h: Held, after: map<string, Shelf>, active: set<string>, some: set<string>, more: set<string>)
    requires SameShelvesOutside(some, after, WithoutStale(h.collections, h.points, active)) && some <= more
    ensures OnlyLoses(more, h.collections, after, StaleIDs(h.points, active))
  {
    var thinned := WithoutStale(h.collections, h.points, active);
    assert thinned.Keys == h.collections.Keys;
    forall c | c in h.collections && c !in more
      ensures c in after && ShelfLoses(h.collections[c], after[c], StaleIDs(h.points, active))
    {
      assert c in thinned.Keys - some;
      assert c in after.Keys - some;
    }
    forall c | c in after && c !in more ensures c in h.collections {
      assert c in after.Keys - some;
    }
  }

  lemma MidwayGoesOn(
    h: Held, now: Held, h': Held, sources: seq<Source>, i: nat, options: SyncOptions,
    scan: Source -> Option<seq<Document>>, result: SyncResult, one: SyncResult, version: string,
    hash: string -> string, embed: string -> Vector, origin: Origin)
    requires i < |sources| && Syncs(sources[i], options)
    requires Fit(now.points, origin) && Fit(h'.points, origin)
    requires forall j | 0 <= j < |sources| :: Registered(sources[j], scan(sources[j]), origin)
    requires Midway(h, now, sources, i, options, scan, result, version, hash, embed)
    requires OthersSpared(now, sources[i], h') && scan(sources[i]).Some?
    requires Ended(now, sources[i], scan(sources[i]).value, options.full, version, embed, h')
    requires OneCounts(one, scan(sources[i]).value, options.full)
    ensures Midway(h, h', sources, i + 1, options, scan, AddResults(result, one), version, hash, embed)
  {
    hide Spares, SourceNames, Touched, Needed, PointsSpared, Owned, SameShelvesOutside, WithoutStale, Tally, Tidy,
         Progress, InScope, OthersSpared, Ended, Fit, Registered, NonEmpty, Syncs, Summed, StaleIDs;
    var source, needed := sources[i], Needed(sources[..i], options);
    SyncsMeans(source, options);
    NextSpares(h, now, h', sources, i, options);
    TouchedStep(sources, i, options);
    TallyStep(sources, i, options, scan);
    EndedIn(now, source, scan(source).value, options.full, version, embed, h');
    assert h.fitting + needed + {source.collection} == h.fitting + (needed + {source.collection});
    assert needed - h.fitting + ({source.collection} - h.fitting) == needed + {source.collection} - h.fitting;
    PointsNext(h, now, h', SourceNames(sources), Touched(sources[..i], options), needed - h.fitting, source,
      scan(source), options.full, version, embed, origin);
    EndedElsewhere(now, source, scan(source).value, options.full, version, embed, h');
    OneMoreShelf(needed, now.collections, h'.collections,
      WithoutStale(h.collections, h.points, SourceNames(sources)), source.collection);
    ResultsAdd(result, one);
    SumGrows(|StaleIDs(h.points, SourceNames(sources))|, sources, i, options, scan, result, one);
    if Tidy(sources, scan) {
      ProgressGoesOn(h, now, h', sources, i, options, scan, version, hash, embed, origin);
    }
  }

  lemma MidwayEnds(
    h: Held, h': Held, sources: seq<Source>, options: SyncOptions, scan: Source -> Option<seq<Document>>, ok: bool,
    result: SyncResult, version: string, hash: string -> string, embed: string -> Vector)
    requires Midway(h, h', sources, |sources|, options, scan, result, version, hash, embed)
    requires CollectionAllowed(options.collection)
    requires ok ==> options.sourceID == "" || options.sourceID in SourceNames(sources)
    ensures Promised(h, h', sources, options, scan, ok, result, version, hash, embed)
  {
    hide Spares, SourceNames, Touched, Needed, PointsSpared, Owned, SameShelvesOutside, WithoutStale, Tally, Tidy,
         AllEnded, AllWait, CollectionAllowed, OnlyLoses, StaleIDs, Summed;
    assert sources[..|sources|] == sources;
    SameLoses(h, h'.collections, SourceNames(sources), Needed(sources, options), Needed(sources, options));
  }

  /** The points of registered sources that were not touched, outside remade
      collections, are as they were. */
  ghost predicate PointsSpared(h: Held, h': Held, active: set<string>, touched: set<string>, remade: set<string>) {
    forall id | id in h.points && h.points[id].sourceID in active && h.points[id].sourceID !in touched ::
      var c := h.points[id].collection;
      c !in remade && c in h.collections && id in h.collections[c] ==>
      c in h'.collections && id in h'.collections[c] && h'.collections[c][id] == h.collections[c][id]
  }

  lemma PointsThinned(h: Held, h': Held, active: set<string>)
    requires h'.collections == WithoutStale(h.collections, h.points, active)
    ensures PointsSpared(h, h', active, {}, {})
  {
  }

  lemma PointsNext(
    h: Held, now: Held, h': Held, active: set<string>, touched: set<string>, remade: set<string>, source: Source,
    scanned: Option<seq<Document>>, full: bool, version: string, embed: string -> Vector, origin: Origin)
    requires Fit(now.points, origin) && Registered(source, scanned, origin) && scanned.Some?
    requires PointsSpared(h, now, active, touched, remade)
    requires Spares(h.points, now.points, active, touched, remade)
    requires Ended(now, source, scanned.value, full, version, embed, h') && h.fitting <= now.fitting
    ensures PointsSpared(h, h', active, touched + {source.id}, remade + ({source.collection} - h.fitting))
  {
    hide Ended, Named, Belong, Sound, Admitted;
    forall id | id in h.points && h.points[id].sourceID in active && h.points[id].sourceID !in touched + {source.id}
      ensures
        var c := h.points[id].collection;
        c !in remade + ({source.collection} - h.fitting) && c in h.collections && id in h.collections[c] ==>
        c in h'.collections && id in h'.collections[c] && h'.collections[c][id] == h.collections[c][id]
    {
      var c := h.points[id].collection;
      if c !in remade + ({source.collection} - h.fitting) && c in h.collections && id in h.collections[c] {
        EndedSpares(now, source, scanned.value, full, version, embed, h', c, id);
      }
    }
  }

  /** No two sources share an id, and no two documents of a scan an identity. */
  ghost predicate Tidy(sources: seq<Source>, scan: Source -> Option<seq<Document>>) {
    && (forall i, j | 0 <= i < j < |sources| :: sources[i].id != sources[j].id)
    && (forall i | 0 <= i < |sources| && scan(sources[i]).Some? :: DistinctIdentities(scan(sources[i]).value))
  }

  predicate Syncs(source: Source, options: SyncOptions) { source.enabled && InScope(source, options) }

  lemma SyncsMeans(source: Source, options: SyncOptions)
    ensures Syncs(source, options) <==> source.enabled && InScope(source, options)
  {
  }

  /** Of the first `n` sources those that a sync runs have ended well. */
  ghost predicate AllEnded(
    h: Held, h': Held, sources: seq<Source>, n: nat, options: SyncOptions, scan: Source -> Option<seq<Document>>,
    version: string, hash: string -> string, embed: string -> Vector)
    requires n <= |sources|
  {
    forall j | 0 <= j < n && Syncs(sources[j], options) ::
      && scan(sources[j]).Some?
      && EndsWell(h, h', sources[j], scan(sources[j]).value, options.full, version, hash, embed)
  }

  /** The sources from the `n`th on are as they need to be at their turn. */
  ghost predicate AllWait(
    h: Held, h': Held, sources: seq<Source>, n: nat, scan: Source -> Option<seq<Document>>,
    version: string, hash: string -> string, embed: string -> Vector)
  {
    forall j | n <= j < |sources| && scan(sources[j]).Some? ::
      Waits(h, h', sources[j], scan(sources[j]).value, version, hash, embed)
  }

  ghost predicate Progress(
    h: Held, h': Held, sources: seq<Source>, n: nat, options: SyncOptions, scan: Source -> Option<seq<Document>>,
    version: string, hash: string -> string, embed: string -> Vector)
    requires n <= |sources|
  {
    && AllEnded(h, h', sources, n, options, scan, version, hash, embed)
    && AllWait(h, h', sources, n, scan, version, hash, embed)
  }

  lemma ThinUndisturbed(h: Held, h': Held, active: set<string>, source: Source)
    requires h'.points == OfSources(h.points, active) && source.id in active
    requires h'.collections == WithoutStale(h.collections, h.points, active)
    ensures Undisturbed(h, h', source)
  {
  }

  lemma ProgressBegins(
    h: Held, h': Held, sources: seq<Source>, options: SyncOptions, scan: Source -> Option<seq<Document>>,
    version: string, hash: string -> string, embed: string -> Vector, origin: Origin)
    requires Fit(h.points, origin) && Fit(h'.points, origin) && h'.fitting == h.fitting
    requires forall j | 0 <= j < |sources| :: Registered(sources[j], scan(sources[j]), origin)
    requires h'.points == OfSources(h.points, SourceNames(sources))
    requires h'.collections == WithoutStale(h.collections, h.points, SourceNames(sources))
    ensures Progress(h, h', sources, 0, options, scan, version, hash, embed)
  {
    hide Sound, Named, Belong, Admitted, Undisturbed, Waits, EndsWell, OfSources, WithoutStale, SourceNames;
    forall j | 0 <= j < |sources| && scan(sources[j]).Some?
      ensures Waits(h, h', sources[j], scan(sources[j]).value, version, hash, embed)
    {
      NamesHold(sources, j);
      ThinUndisturbed(h, h', SourceNames(sources), sources[j]);
      WaitBegins(h, h', sources[j], scan(sources[j]).value, version, hash, embed);
    }
  }

  lemma ProgressSkips(
    h: Held, h': Held, sources: seq<Source>, i: nat, options: SyncOptions, scan: Source -> Option<seq<Document>>,
    version: string, hash: string -> string, embed: string -> Vector)
    requires i < |sources| && !Syncs(sources[i], options)
    requires Progress(h, h', sources, i, options, scan, version, hash, embed)
    ensures Progress(h, h', sources, i + 1, options, scan, version, hash, embed)
  {
    hide EndsWell, Waits;
  }

  lemma ProgressGoesOn(
    h: Held, now: Held, h': Held, sources: seq<Source>, i: nat, options: SyncOptions,
    scan: Source -> Option<seq<Document>>, version: string, hash: string -> string, embed: string -> Vector,
    origin: Origin)
    requires i < |sources| && Tidy(sources, scan) && Fit(now.points, origin) && Fit(h'.points, origin)
    requires forall j | 0 <= j < |sources| :: Registered(sources[j], scan(sources[j]), origin)
    requires now.fitting == h.fitting + Needed(sources[..i], options)
    requires Progress(h, now, sources, i, options, scan, version, hash, embed)
    requires scan(sources[i]).Some?
    requires Ended(now, sources[i], scan(sources[i]).value, options.full, version, embed, h')
    ensures Progress(h, h', sources, i + 1, options, scan, version, hash, embed)
  {
    hide EndsWell, Waits, Ended, DistinctIdentities, Named, Belong, Sound, Admitted, Needed;
    var other, docs' := sources[i], scan(sources[i]).value;
    WaitIsOver(h, now, other, docs', options.full, version, hash, embed, h');
    forall j | 0 <= j < i && Syncs(sources[j], options)
      ensures EndsWell(h, h', sources[j], scan(sources[j]).value, options.full, version, hash, embed)
    {
      NeededHolds(sources[..i], j, options);
      EndStays(h, now, sources[j], scan(sources[j]).value, other, docs', options.full, version, hash, embed, h');
    }
    forall j | i < j < |sources| && scan(sources[j]).Some?
      ensures Waits(h, h', sources[j], scan(sources[j]).value, version, hash, embed)
    {
      WaitGoesOn(h, now, sources[j], scan(sources[j]).value, other, docs', options.full, version, hash, embed, h');
    }
  }

  lemma NeededHolds(sources: seq<Source>, j: nat, options: SyncOptions)
    requires j < |sources| && Syncs(sources[j], options)
    ensures sources[j].collection in Needed(sources, options)
  {
    TouchedIs(sources, options);
  }

  /** What is touched and needed so far is part of the whole. */
  lemma {:induction false} TouchedWithin(sources: seq<Source>, n: nat, options: SyncOptions)
    requires n <= |sources|
    ensures Touched(sources[..n], options) <= Touched(sources, options)
    ensures Needed(sources[..n], options) <= Needed(sources, options)
    decreases |sources| - n
  {
    if n == |sources| {
      assert sources[..n] == sources;
    } else {
      TouchedStep(sources, n, options);
      TouchedWithin(sources, n + 1, options);
    }
  }

  lemma TouchedStep(sources: seq<Source>, i: nat, options: SyncOptions)
    requires i < |sources|
    ensures
      var touched, needed := Touched(sources[..i], options), Needed(sources[..i], options);
      if sources[i].enabled && InScope(sources[i], options) then
        && Touched(sources[..i + 1], options) == touched + {sources[i].id}
        && Needed(sources[..i + 1], options) == needed + {sources[i].collection}
      else Touched(sources[..i + 1], options) == touched && Needed(sources[..i + 1], options) == needed
  {
    assert sources[..i + 1][..i] == sources[..i];
  }

  lemma {:induction false} TouchedIs(sources: seq<Source>, options: SyncOptions)
    ensures Touched(sources, options) ==
            set source | source in sources && source.enabled && InScope(source, options) :: source.id
    ensures Needed(sources, options) ==
            set source | source in sources && source.enabled && InScope(source, options) :: source.collection
  {
    if sources != [] {
      var rest, last := sources[..|sources| - 1], sources[|sources| - 1];
      assert sources == rest + [last];
      TouchedIs(rest, options);
    }
  }

  lemma SyncBegins(sources: seq<Source>, options: SyncOptions, scan: Source -> Option<seq<Document>>)
    ensures Touched(sources[..0], options) == {} == Needed(sources[..0], options)
    ensures Tally(sources[..0], options, scan) == (0, 0)
  {
  }

  /** Over the sources a run syncs: the documents scanned, and those of them that
      are not empty. */
  function Tally(sources: seq<Source>, options: SyncOptions, scan: Source -> Option<seq<Document>>): (nat, nat) {
    if sources == [] then (0, 0)
    else
      var last := sources[|sources| - 1];
      var before := Tally(sources[..|sources| - 1], options, scan);
      if last.enabled && InScope(last, options) && scan(last).Some?
      then (before.0 + |scan(last).value|, before.1 + |NonEmpty(scan(last).value)|) else before
  }

  lemma TallyStep(sources: seq<Source>, i: nat, options: SyncOptions, scan: Source -> Option<seq<Document>>)
    requires i < |sources|
    ensures
      var before, docs := Tally(sources[..i], options, scan), scan(sources[i]);
      Tally(sources[..i + 1], options, scan) ==
      if sources[i].enabled && InScope(sources[i], options) && docs.Some?
      then (before.0 + |docs.value|, before.1 + |NonEmpty(docs.value)|) else before
  {
    assert sources[..i + 1][..i] == sources[..i];
  }

  lemma ResultsAdd(a: SyncResult, b: SyncResult)
    ensures
      var sum := AddResults(a, b);
      sum.scanned == a.scanned + b.scanned &&
      sum.unmodified + sum.upserted == a.unmodified + a.upserted + b.unmodified + b.upserted
  {
  }

  lemma NamesHold(sources: seq<Source>, i: nat)
    requires i < |sources|
    ensures sources[i].id in SourceNames(sources)
  {
  }

  /** How far a run came: documents checkpointed, documents whose records are in
      memory, documents whose points were written, points deleted by pruning, and
      whether their records went too. */
  datatype Cut = Cut(kept: nat, held: nat, sent: nat, gone: set<PointID>, pruned: bool)

  const NO_CUT := Cut(0, 0, 0, {}, false)

  /** The documents a run without copies embeds. */
  function ToEmbed(p: Points, docs: seq<Document>, full: bool, version: string): seq<Document> {
    if full then NonEmpty(docs) else Changed(p, docs, version)
  }

  /** What a run without copies leaves behind when it stops early: the state
      file holds the checkpointed documents, memory and the collection at least
      those. */
  ghost predicate Interrupted(
    p: Points, shelf: Shelf, disk: seq<Line>, source: Source, docs: seq<Document>, full: bool, version: string,
    embed: string -> Vector, cut: Cut, p': Points, shelf': Shelf, disk': seq<Line>)
  {
    var dirty := ToEmbed(p, docs, full, version);
    && cut.kept <= cut.held <= cut.sent <= |dirty|
    && Timeless(p') ==
       (if cut.pruned then FinalRecords(p, dirty, docs, source, version)
        else PutAll(Timeless(p), RecordsFor(dirty[..cut.held], version)))
    && (cut.pruned ==>
          && cut.held == |dirty|
          && cut.gone == PruneIDs(PutAll(Timeless(p), RecordsFor(dirty, version)), source.id, Seen(docs)))
    && (if cut.kept == 0 then disk' == disk else CheckpointHolds(p, dirty[..cut.kept], version, disk'))
    && shelf' == UpsertAll(shelf, dirty[..cut.sent], embed) - cut.gone
    && cut.gone <= PruneIDs(PutAll(Timeless(p), RecordsFor(dirty, version)), source.id, Seen(docs))
  }

  lemma NotStarted(
    p: Points, shelf: Shelf, disk: seq<Line>, source: Source, docs: seq<Document>, full: bool, version: string,
    embed: string -> Vector)
    ensures Interrupted(p, shelf, disk, source, docs, full, version, embed, NO_CUT, p, shelf, disk)
  {
    MinusNothing(p, shelf);
    assert ToEmbed(p, docs, full, version)[..0] == [];
  }

  /** What the later phases need to know of a finished scan. */
  lemma AfterScan(
    p: Points, shelf: Shelf, source: Source, docs: seq<Document>, full: bool, version: string, s: ScanState,
    origin: Origin)
    requires Scan(docs, full, version, Start(p, shelf), s)
    requires Belong(docs, source) && Admitted(docs, origin)
    ensures Belong(s.dirty, source) && Admitted(s.dirty, origin)
    ensures full || NoCopies(p, docs) ==>
      s.points == p && s.shelf == shelf && s.dirty == ToEmbed(p, docs, full, version)
  {
    DirtyFromDocs(docs, full, version, Start(p, shelf), s);
    if full {
      FullScan(docs, version, Start(p, shelf), s);
      assert [] + NonEmpty(docs) == NonEmpty(docs);
    } else if NoCopies(p, docs) {
      QuietScan(docs, version, Start(p, shelf), s);
      assert [] + Changed(p, docs, version) == Changed(p, docs, version);
    }
  }

  lemma CutInBatches(
    p: Points, shelf: Shelf, disk: seq<Line>, source: Source, docs: seq<Document>, full: bool, version: string,
    embed: string -> Vector, s: ScanState, cut: Cut, p': Points, shelf': Shelf, disk': seq<Line>)
    requires full || NoCopies(p, docs) ==>
      s.points == p && s.shelf == shelf && s.dirty == ToEmbed(p, docs, full, version)
    requires cut.kept <= cut.held <= cut.sent <= |s.dirty| && cut.gone == {} && !cut.pruned
    requires Timeless(p') == PutAll(Timeless(s.points), RecordsFor(s.dirty[..cut.held], version))
    requires shelf' == UpsertAll(s.shelf, s.dirty[..cut.sent], embed)
    requires if cut.kept == 0 then disk' == disk else CheckpointHolds(s.points, s.dirty[..cut.kept], version, disk')
    ensures full || NoCopies(p, docs) ==>
      Interrupted(p, shelf, disk, source, docs, full, version, embed, cut, p', shelf', disk')
  {
    MinusNothing(p, shelf');
  }

  lemma CutInPrune(
    p: Points, shelf: Shelf, disk: seq<Line>, source: Source, docs: seq<Document>, full: bool, version: string,
    embed: string -> Vector, s: ScanState, q: Points, cut: Cut, p': Points, shelf': Shelf, disk': seq<Line>)
    requires full || NoCopies(p, docs) ==>
      s.points == p && s.shelf == shelf && s.dirty == ToEmbed(p, docs, full, version)
    requires cut.kept == cut.held == cut.sent == |s.dirty|
    requires p' == (if cut.pruned then q - cut.gone else q)
    requires cut.pruned ==> cut.gone == PruneIDs(q, source.id, Seen(docs))
    requires shelf' == UpsertAll(s.shelf, s.dirty[..cut.sent], embed) - cut.gone
    requires if cut.kept == 0 then disk' == disk else CheckpointHolds(s.points, s.dirty[..cut.kept], version, disk')
    requires Timeless(q) == PutAll(Timeless(s.points), RecordsFor(s.dirty, version))
    requires cut.gone <= PruneIDs(q, source.id, Seen(docs))
    ensures full || NoCopies(p, docs) ==>
      Interrupted(p, shelf, disk, source, docs, full, version, embed, cut, p', shelf', disk')
  {
    hide UpsertAll, PutAll, RecordsFor, CheckpointHolds;
    TimelessKeeps(q);
    assert s.dirty[..|s.dirty|] == s.dirty;
    if cut.pruned {
      PruneOwn(q, source.id, Seen(docs), (_, _) => true);
    }
  }

  lemma RunEnds(
    p: Points, shelf: Shelf, source: Source, docs: seq<Document>, full: bool, version: string,
    embed: string -> Vector, s: ScanState, q: Points, gone: set<PointID>, p': Points, shelf': Shelf, origin: Origin)
    requires Scan(docs, full, version, Start(p, shelf), s)
    requires Timeless(q) == PutAll(Timeless(s.points), RecordsFor(s.dirty, version)) && Fit(q, origin)
    requires gone == PruneIDs(q, source.id, Seen(docs)) && p' == q - gone
    requires shelf' == UpsertAll(s.shelf, s.dirty[..|s.dirty|], embed) - gone
    ensures Synced(p, shelf, source, docs, full, version, embed, s, p', shelf')
    ensures gone == PruneIDs(PutAll(Timeless(s.points), RecordsFor(s.dirty, version)), source.id, Seen(docs))
    ensures Fit(p', origin) && Others(p', source.id) == Others(q, source.id)
  {
    hide Scan, Fit, PutAll, RecordsFor, UpsertAll, PruneIDs, Seen, Others, Timeless;
    assert s.dirty[..|s.dirty|] == s.dirty;
    PruneOwn(q, source.id, Seen(docs), origin);
  }

  /** The counts a finished run reports, when `removed` records went with a
      remade collection. */
  ghost predicate Counted(
    result: SyncResult, removed: nat, source: Source, docs: seq<Document>, version: string, s: ScanState)
  {
    && result.scanned == |docs| && result.embedded == |s.dirty|
    && result.upserted == |s.dirty| + s.moved && result.unmodified == s.unmodified
    && result.pruned ==
       |PruneIDs(PutAll(Timeless(s.points), RecordsFor(s.dirty, version)), source.id, Seen(docs))| + removed
  }

  lemma CountsAre(
    result: SyncResult, source: Source, docs: seq<Document>, version: string, s: ScanState, gone: set<PointID>)
    requires gone == PruneIDs(PutAll(Timeless(s.points), RecordsFor(s.dirty, version)), source.id, Seen(docs))
    requires result == SyncResult(|docs|, |s.dirty|, |s.dirty| + s.moved, |gone|, s.unmodified)
    ensures Counted(result, 0, source, docs, version, s)
  {
  }

  lemma CountedMore(
    result: SyncResult, removed: nat, source: Source, docs: seq<Document>, version: string, s: ScanState)
    requires Counted(result, 0, source, docs, version, s)
    ensures Counted(result.(pruned := result.pruned + removed), removed, source, docs, version, s)
  {
  }

  /** What the counts of one source's run say: every scanned document, and of the
      non-empty ones each is unchanged or written; what is embedded is written, and a
      full run embeds all. */
  predicate OneCounts(one: SyncResult, docs: seq<Document>, full: bool) {
    && one.scanned == |docs| && one.unmodified + one.upserted == |NonEmpty(docs)|
    && one.embedded <= one.upserted
    && (full ==> one.embedded == one.upserted == |NonEmpty(docs)|)
  }

  lemma CountsMean(
    result: SyncResult, removed: nat, source: Source, docs: seq<Document>, version: string, s: ScanState, p: Points,
    shelf: Shelf, whole: bool, full: bool, embed: string -> Vector, p': Points, shelf': Shelf)
    requires Counted(result, removed, source, docs, version, s) && (full ==> whole)
    requires Synced(p, shelf, source, docs, whole, version, embed, s, p', shelf')
    ensures OneCounts(result, docs, full)
  {
    hide Scan, FinalRecords, FinalShelf, PutAll, RecordsFor, PruneIDs, NonEmpty, Seen;
    ScanCounts(docs, whole, version, Start(p, shelf), s);
    if full {
      FullScan(docs, version, Start(p, shelf), s);
      assert [] + NonEmpty(docs) == NonEmpty(docs);
    }
  }

  function Sum(ones: seq<SyncResult>, count: SyncResult -> nat): nat {
    if ones == [] then 0 else Sum(ones[..|ones| - 1], count) + count(ones[|ones| - 1])
  }

  lemma SumSnoc(ones: seq<SyncResult>, one: SyncResult, count: SyncResult -> nat)
    ensures Sum(ones + [one], count) == Sum(ones, count) + count(one)
  {
    assert (ones + [one])[..|ones|] == ones;
  }

  /** Each count of a result is the sum over the first `n` sources' runs, and the
      stale records pruned beforehand come on top. */
  ghost predicate Summed(
    stale: nat, sources: seq<Source>, n: nat, options: SyncOptions, scan: Source -> Option<seq<Document>>,
    result: SyncResult)
    requires n <= |sources|
  {
    exists ones: seq<SyncResult> :: |ones| == n && Adds(stale, ones, result) && Each(ones, sources, options, scan)
  }

  ghost predicate Adds(stale: nat, ones: seq<SyncResult>, result: SyncResult) {
    && result.scanned == Sum(ones, (one: SyncResult) => one.scanned)
    && result.embedded == Sum(ones, (one: SyncResult) => one.embedded)
    && result.upserted == Sum(ones, (one: SyncResult) => one.upserted)
    && result.pruned == stale + Sum(ones, (one: SyncResult) => one.pruned)
    && result.unmodified == Sum(ones, (one: SyncResult) => one.unmodified)
  }

  ghost predicate Each(
    ones: seq<SyncResult>, sources: seq<Source>, options: SyncOptions, scan: Source -> Option<seq<Document>>)
    requires |ones| <= |sources|
  {
    forall j | 0 <= j < |ones| ::
      if Syncs(sources[j], options)
      then scan(sources[j]).Some? && OneCounts(ones[j], scan(sources[j]).value, options.full)
      else ones[j] == SyncResult(0, 0, 0, 0, 0)
  }

  lemma AddsMore(stale: nat, ones: seq<SyncResult>, result: SyncResult, one: SyncResult)
    requires Adds(stale, ones, result)
    ensures Adds(stale, ones + [one], AddResults(result, one))
  {
    forall count: SyncResult -> nat ensures Sum(ones + [one], count) == Sum(ones, count) + count(one) {
      SumSnoc(ones, one, count);
    }
  }

  lemma SumBegins(stale: nat, sources: seq<Source>, options: SyncOptions, scan: Source -> Option<seq<Document>>)
    ensures Summed(stale, sources, 0, options, scan, SyncResult(0, 0, 0, stale, 0))
  {
    assert Adds(stale, [], SyncResult(0, 0, 0, stale, 0)) && Each([], sources, options, scan);
  }

  lemma SumStep(
    stale: nat, sources: seq<Source>, i: nat, options: SyncOptions, scan: Source -> Option<seq<Document>>,
    result: SyncResult, one: SyncResult)
    requires i < |sources| && Summed(stale, sources, i, options, scan, result)
    requires if Syncs(sources[i], options)
             then scan(sources[i]).Some? && OneCounts(one, scan(sources[i]).value, options.full)
             else one == SyncResult(0, 0, 0, 0, 0)
    ensures Summed(stale, sources, i + 1, options, scan, AddResults(result, one))
  {
    hide Adds, OneCounts, Syncs;
    var ones: seq<SyncResult> :|
      |ones| == i && Adds(stale, ones, result) && Each(ones, sources, options, scan);
    AddsMore(stale, ones, result, one);
    assert Each(ones + [one], sources, options, scan);
  }

  lemma SumSkips(
    stale: nat, sources: seq<Source>, i: nat, options: SyncOptions, scan: Source -> Option<seq<Document>>,
    result: SyncResult)
    requires i < |sources| && !Syncs(sources[i], options) && Summed(stale, sources, i, options, scan, result)
    ensures Summed(stale, sources, i + 1, options, scan, result)
  {
    hide Summed, Syncs;
    SumStep(stale, sources, i, options, scan, result, SyncResult(0, 0, 0, 0, 0));
  }

  lemma SumGrows(
    stale: nat, sources: seq<Source>, i: nat, options: SyncOptions, scan: Source -> Option<seq<Document>>,
    result: SyncResult, one: SyncResult)
    requires i < |sources| && Syncs(sources[i], options) && Summed(stale, sources, i, options, scan, result)
    requires scan(sources[i]).Some? && OneCounts(one, scan(sources[i]).value, options.full)
    ensures Summed(stale, sources, i + 1, options, scan, AddResults(result, one))
    ensures one.scanned == |scan(sources[i]).value|
    ensures one.unmodified + one.upserted == |NonEmpty(scan(sources[i]).value)|
  {
    hide Summed, Syncs;
    SumStep(stale, sources, i, options, scan, result, one);
  }

  lemma PruneOwn(q: Points, sourceID: string, seen: set<string>, origin: Origin)
    ensures
      var p := q - PruneIDs(q, sourceID, seen);
      && PruneIDs(Timeless(q), sourceID, seen) == PruneIDs(q, sourceID, seen)
      && Timeless(p) == Timeless(q) - PruneIDs(q, sourceID, seen)
      && (Fit(q, origin) ==> Fit(p, origin))
      && Others(p, sourceID) == Others(q, sourceID)
  {
    TimelessKeeps(q);
  }

  lemma FileLoads(state: StateStore, origin: Origin)
    requires state.Valid() && Fit(state.points, origin) && "" !in state.syncRuns
    requires Encodes(state.disk, state.points, state.syncRuns)
    ensures Decode(state.disk) == Loaded(state.points, state.syncRuns) && FitFile(state.disk, origin)
  {
    LoadInvertsPersist(state.disk, state.points, state.syncRuns);
  }

  lemma EnsureMeans(collections: map<string, Shelf>, collection: string)
    ensures Elsewhere(collections[collection := map[]], collection) == Elsewhere(collections, collection)
    ensures Elsewhere(collections - {collection}, collection) == Elsewhere(collections, collection)
    ensures Elsewhere(collections, collection).Keys == collections.Keys - {collection}
  {
  }

  /** Work inside one collection leaves the fitting ones as they are. */
  lemma FittingKept(made: map<string, Shelf>, vectors: VectorStore, collection: string)
    requires Elsewhere(made, collection) == Elsewhere(vectors.collections, collection)
    requires collection in made && collection in vectors.collections
    ensures vectors.Fitting() == made.Keys - vectors.unfit
  {
    KeysElsewhere(made, vectors.collections, collection);
  }

  lemma KeysElsewhere(a: map<string, Shelf>, b: map<string, Shelf>, collection: string)
    requires Elsewhere(a, collection) == Elsewhere(b, collection) && collection in a && collection in b
    ensures a.Keys == b.Keys
  {
    assert forall c | c != collection :: c in a <==> c in Elsewhere(a, collection);
    assert forall c | c != collection :: c in b <==> c in Elsewhere(b, collection);
  }

  lemma SyncedCounts(
    p': Points, shelf': Shelf, source: Source, docs: seq<Document>, full: bool, version: string,
    embed: string -> Vector, s: ScanState, p: Points, shelf: Shelf, result: SyncResult)
    requires Synced(p, shelf, source, docs, full, version, embed, s, p', shelf')
    requires Counted(result, 0, source, docs, version, s)
    ensures result.unmodified + result.upserted == |NonEmpty(docs)|
  {
    ScanCounts(docs, full, version, Start(p, shelf), s);
  }

  /** The source's points that live in one collection. */
  function PointsIn(p: Points, sourceID: string, collection: string): set<PointID> {
    set id | id in p && p[id].sourceID == sourceID && p[id].collection == collection
  }

  function Homes(p: Points, ids: set<PointID>): set<string>
    requires ids <= p.Keys
  {
    set id | id in ids :: p[id].collection
  }

  /** The collections without one source's points, in some collections only. */
  function WithoutIn(collections: map<string, Shelf>, p: Points, sourceID: string, done: set<string>)
    : map<string, Shelf>
  {
    map c | c in collections ::
      if c in done then collections[c] - PointsIn(p, sourceID, c) else collections[c]
  }

  function WithoutSource(collections: map<string, Shelf>, p: Points, sourceID: string): map<string, Shelf> {
    map c | c in collections :: collections[c] - PointsIn(p, sourceID, c)
  }

  lemma PointsAtHome(p: Points, sourceID: string, c: string)
    ensures PointsIn(p, sourceID, c) != {} ==> c in Homes(p, SourceIDs(p, sourceID))
  {
    forall id | id in PointsIn(p, sourceID, c) ensures c in Homes(p, SourceIDs(p, sourceID)) {
      assert id in SourceIDs(p, sourceID) && p[id].collection == c;
    }
  }

  /** The source's points in some of the collections. */
  function PointsAmong(p: Points, sourceID: string, done: set<string>): set<PointID> {
    set id | id in p && p[id].sourceID == sourceID && p[id].collection in done
  }

  lemma RemoveBegins(p: Points, sourceID: string, collections: map<string, Shelf>)
    ensures PointsAmong(p, sourceID, {}) == {}
    ensures PointsAmong(p, sourceID, Homes(p, SourceIDs(p, sourceID))) == SourceIDs(p, sourceID)
    ensures WithoutIn(collections, p, sourceID, {}) == collections
    ensures WithoutIn(collections, p, sourceID, Homes(p, SourceIDs(p, sourceID))) ==
            WithoutSource(collections, p, sourceID)
  {
    var homes := Homes(p, SourceIDs(p, sourceID));
    forall c | c !in homes ensures PointsIn(p, sourceID, c) == {} {
      PointsAtHome(p, sourceID, c);
    }
    forall c | c in collections ensures collections[c] - {} == collections[c] {
    }
  }

  lemma RemoveStep(
    collections: map<string, Shelf>, p: Points, sourceID: string, done: set<string>, collection: string)
    requires collection !in done
    ensures
      var now := WithoutIn(collections, p, sourceID, done);
      && (collection in collections <==> collection in now)
      && (collection in collections ==>
            now[collection := now[collection] - PointsIn(p, sourceID, collection)] ==
            WithoutIn(collections, p, sourceID, done + {collection}))
    ensures |PointsAmong(p, sourceID, done + {collection})| ==
            |PointsAmong(p, sourceID, done)| + |PointsIn(p, sourceID, collection)|
  {
    assert PointsAmong(p, sourceID, done + {collection}) ==
           PointsAmong(p, sourceID, done) + PointsIn(p, sourceID, collection);
  }

  lemma RemoveIsFit(p: Points, sourceID: string, origin: Origin)
    requires Fit(p, origin)
    ensures Fit(p - SourceIDs(p, sourceID), origin)
  {
  }

  lemma SameKeys(collections: map<string, Shelf>, p: Points, sourceID: string, done: set<string>)
    ensures WithoutIn(collections, p, sourceID, done).Keys == collections.Keys
  {
  }

  lemma DeletedOne(
    before: map<string, Shelf>, after: map<string, Shelf>, collection: string, ids: set<PointID>)
    requires before.Keys == after.Keys && Elsewhere(before, collection) == Elsewhere(after, collection)
    requires collection in before && after[collection] == before[collection] - ids
    ensures after == before[collection := before[collection] - ids]
  {
    forall c | c in before && c != collection ensures after[c] == before[c] {
      assert Elsewhere(before, collection)[c] == before[c] && Elsewhere(after, collection)[c] == after[c];
    }
  }

  function Dropped(p: Points, sources: set<string>): Points {
    map id | id in p && p[id].sourceID !in sources :: p[id]
  }

  function OfSources(p: Points, sources: set<string>): Points {
    map id | id in p && p[id].sourceID in sources :: p[id]
  }

  function IDsOf(p: Points, sources: set<string>): set<PointID> {
    set id | id in p && p[id].sourceID in sources
  }

  /** The points whose source is not registered. */
  function StaleIDs(p: Points, active: set<string>): set<PointID> {
    set id | id in p && p[id].sourceID !in active
  }

  function SourcesIn(p: Points, sources: set<string>, collection: string): set<PointID> {
    set id | id in p && p[id].sourceID in sources && p[id].collection == collection
  }

  function WithoutSources(collections: map<string, Shelf>, p: Points, sources: set<string>): map<string, Shelf> {
    map c | c in collections :: collections[c] - SourcesIn(p, sources, c)
  }

  /** The collections without the points of records of unregistered sources. */
  function WithoutStale(collections: map<string, Shelf>, p: Points, active: set<string>): map<string, Shelf> {
    map c | c in collections ::
      collections[c] - set id | id in p && p[id].sourceID !in active && p[id].collection == c
  }

  lemma PruneBegins(p: Points, collections: map<string, Shelf>)
    ensures Dropped(p, {}) == p && IDsOf(p, {}) == {} && WithoutSources(collections, p, {}) == collections
  {
    forall c | c in collections ensures collections[c] - SourcesIn(p, {}, c) == collections[c] {
    }
  }

  lemma DroppedIsThin(p: Points, sources: set<string>, active: set<string>)
    requires sources !! active
    ensures Thinned(p, Dropped(p, sources), active)
  {
  }

  lemma DroppedHas(p: Points, done: set<string>, id: string)
    requires id !in done
    ensures forall x | x in p && p[x].sourceID == id :: x in Dropped(p, done) && Dropped(p, done)[x] == p[x]
    ensures forall x | x in Dropped(p, done) :: x in p && Dropped(p, done)[x] == p[x]
  {
  }

  lemma HomeHasRecord(p: Points, sourceID: string, collection: string)
    requires collection in Homes(p, SourceIDs(p, sourceID))
    ensures exists id :: id in p && p[id].sourceID == sourceID && p[id].collection == collection
  {
  }

  lemma HomesCover(p: Points, sourceID: string)
    ensures forall id | id in p && p[id].sourceID == sourceID :: p[id].collection in Homes(p, SourceIDs(p, sourceID))
  {
    forall id | id in p && p[id].sourceID == sourceID ensures p[id].collection in Homes(p, SourceIDs(p, sourceID)) {
      assert id in SourceIDs(p, sourceID);
    }
  }

  lemma DropStep(p: Points, done: set<string>, id: string, collections: map<string, Shelf>)
    requires id !in done
    ensures Dropped(p, done) - SourceIDs(Dropped(p, done), id) == Dropped(p, done + {id})
    ensures |IDsOf(p, done + {id})| == |IDsOf(p, done)| + |SourceIDs(Dropped(p, done), id)|
    ensures WithoutSource(WithoutSources(collections, p, done), Dropped(p, done), id) ==
            WithoutSources(collections, p, done + {id})
  {
    assert IDsOf(p, done + {id}) == IDsOf(p, done) + SourceIDs(Dropped(p, done), id);
    DropShelves(p, done, id, collections);
  }

  lemma DropShelves(p: Points, done: set<string>, id: string, collections: map<string, Shelf>)
    requires id !in done
    ensures WithoutSource(WithoutSources(collections, p, done), Dropped(p, done), id) ==
            WithoutSources(collections, p, done + {id})
  {
    forall c | c in collections
      ensures collections[c] - SourcesIn(p, done, c) - PointsIn(Dropped(p, done), id, c) ==
              collections[c] - SourcesIn(p, done + {id}, c)
    {
      DropShelf(p, done, id, c, collections[c]);
    }
    hide SourcesIn, PointsIn, Dropped;
  }

  lemma DropShelf(p: Points, done: set<string>, id: string, c: string, shelf: Shelf)
    requires id !in done
    ensures shelf - SourcesIn(p, done, c) - PointsIn(Dropped(p, done), id, c) ==
            shelf - SourcesIn(p, done + {id}, c)
  {
    assert SourcesIn(p, done + {id}, c) == SourcesIn(p, done, c) + PointsIn(Dropped(p, done), id, c);
    MinusBoth(shelf, SourcesIn(p, done, c), PointsIn(Dropped(p, done), id, c));
  }

  lemma MinusBoth(shelf: Shelf, a: set<PointID>, b: set<PointID>)
    ensures shelf - a - b == shelf - (a + b)
  {
  }

  lemma PruneEnds(p: Points, runs: Runs, active: set<string>, collections: map<string, Shelf>)
    ensures
      var stale := (set id | id in p :: p[id].sourceID) + runs.Keys - active;
      && Dropped(p, stale) == OfSources(p, active) && IDsOf(p, stale) == StaleIDs(p, active)
      && WithoutSources(collections, p, stale) == WithoutStale(collections, p, active)
  {
    var stale := (set id | id in p :: p[id].sourceID) + runs.Keys - active;
    forall c | c in collections
      ensures SourcesIn(p, stale, c) == set id | id in p && p[id].sourceID !in active && p[id].collection == c
    {
    }
  }

  function Unseen(p: Points, ids: set<PointID>, seen: set<string>): set<PointID>
    requires ids <= p.Keys
  {
    set id | id in ids && p[id].identity !in seen
  }

  lemma UnseenIsPruned(p: Points, sourceID: string, seen: set<string>)
    ensures Unseen(p, SourceIDs(p, sourceID), seen) == PruneIDs(p, sourceID, seen)
  {
  }

  lemma MinusNothing(p: Points, shelf: Shelf)
    ensures p - {} == p && shelf - {} == shelf
  {
  }

  /** After a checkpoint, memory and file both hold the batch's records over
      the earlier ones. */
  ghost predicate BatchKept(
    p: Points, docs: seq<Document>, version: string, q: Points, runs: Runs, disk: seq<Line>)
  {
    && Timeless(q) == PutAll(Timeless(p), RecordsFor(docs, version))
    && Keyed(q) && UniqueIdentities(q) && Decode(disk) == Loaded(q, runs)
  }

  /** The state file holds these documents' records over the earlier points. */
  ghost predicate CheckpointHolds(p: Points, docs: seq<Document>, version: string, disk: seq<Line>) {
    && Decode(disk).Loaded?
    && Keyed(Decode(disk).points) && UniqueIdentities(Decode(disk).points)
    && Timeless(Decode(disk).points) == PutAll(Timeless(p), RecordsFor(docs, version))
  }

  lemma BatchesBegin(p: Points, shelf: Shelf, dirty: seq<Document>, version: string, embed: string -> Vector)
    ensures UpsertAll(shelf, dirty[..0], embed) == shelf
    ensures PutAll(Timeless(p), RecordsFor(dirty[..0], version)) == Timeless(p)
  {
  }

  lemma SliceOwn(dirty: seq<Document>, start: nat, end: nat, source: Source, origin: Origin)
    requires start <= end <= |dirty| && Belong(dirty, source) && Admitted(dirty, origin)
    ensures Belong(dirty[start..end], source) && Admitted(dirty[start..end], origin)
  {
    assert forall d | d in dirty[start..end] :: d in dirty;
  }

  lemma UpsertSlice(shelf: Shelf, dirty: seq<Document>, start: nat, end: nat, embed: string -> Vector)
    requires start <= end <= |dirty|
    ensures UpsertAll(UpsertAll(shelf, dirty[..start], embed), dirty[start..end], embed) ==
            UpsertAll(shelf, dirty[..end], embed)
  {
    assert dirty[..end] == dirty[..start] + dirty[start..end];
    UpsertAllAppend(shelf, dirty[..start], dirty[start..end], embed);
  }

  lemma PutSlice(p: Points, before: Points, dirty: seq<Document>, start: nat, end: nat, version: string)
    requires start <= end <= |dirty|
    requires Timeless(before) == PutAll(Timeless(p), RecordsFor(dirty[..start], version))
    ensures PutAll(Timeless(before), RecordsFor(dirty[start..end], version)) ==
            PutAll(Timeless(p), RecordsFor(dirty[..end], version))
  {
    var a, b := dirty[..start], dirty[start..end];
    assert dirty[..end] == a + b;
    RecordsForAppend(a, b, version);
    PutAllAppend(Timeless(p), RecordsFor(a, version), RecordsFor(b, version));
  }

  lemma BatchExtends(
    p: Points, before: Points, dirty: seq<Document>, start: nat, end: nat, version: string,
    q: Points, runs: Runs, disk: seq<Line>)
    requires start <= end <= |dirty|
    requires Timeless(before) == PutAll(Timeless(p), RecordsFor(dirty[..start], version))
    requires BatchKept(before, dirty[start..end], version, q, runs, disk)
    ensures Timeless(q) == PutAll(Timeless(p), RecordsFor(dirty[..end], version))
    ensures CheckpointHolds(p, dirty[..end], version, disk)
  {
    var a, b := dirty[..start], dirty[start..end];
    assert dirty[..end] == a + b;
    RecordsForAppend(a, b, version);
    PutAllAppend(Timeless(p), RecordsFor(a, version), RecordsFor(b, version));
  }

  /** A batch's records keep the state fit and other sources' records. */
  lemma BatchOwn(p: Points, source: Source, docs: seq<Document>, version: string, now: int, origin: Origin)
    requires Fit(p, origin) && Named(source) && Belong(docs, source) && Admitted(docs, origin)
    ensures
      var q := PutAll(p, StampedAll(RecordsFor(docs, version), now));
      Fit(q, origin) && Others(q, source.id) == Others(p, source.id)
  {
    var rs := StampedAll(RecordsFor(docs, version), now);
    forall r | r in rs ensures WellNamed(r) && r.sourceID == source.id && origin(r.path, r.identity) {
      var i :| 0 <= i < |rs| && rs[i] == r;
      assert docs[i] in docs;
      OwnIDIsNamed(docs[i]);
    }
    PutAllOwn(p, rs, source.id, origin);
  }

  lemma RunsAreKeyed(state: StateStore)
    requires state.Valid()
    ensures RunsKeyed(state.syncRuns)
  {
  }

  lemma BatchIsKept(
    p: Points, docs: seq<Document>, version: string, now: int, q: Points, runs: Runs, disk: seq<Line>,
    origin: Origin)
    requires Fit(q, origin) && RunsKeyed(runs) && "" !in runs
    requires q == PutAll(p, StampedAll(RecordsFor(docs, version), now)) && Encodes(disk, q, runs)
    ensures BatchKept(p, docs, version, q, runs, disk) && FitFile(disk, origin)
  {
    StampedPutAll(p, docs, version, now);
    assert Blank !in q;
    LoadInvertsPersist(disk, q, runs);
  }

  lemma ScanStarts(p: Points, shelf: Shelf, s0: ScanState)
    requires s0 == ScanState(p, shelf, [], 0, 0)
    ensures s0 == Start(p, shelf)
  {
  }

  lemma ScanBegins(docs: seq<Document>, source: Source, full: bool, version: string, s0: ScanState)
    requires Belong(docs, source) && s0 == Start(s0.points, s0.shelf)
    ensures Scan(docs[..0], full, version, s0, s0)
    ensures forall i | 0 <= i < |docs| :: docs[i].collection == source.collection
  {
  }

  lemma LookupMeans(p: Points, d: Document, version: string, found: Option<Record>)
    requires UniqueIdentities(p)
    requires found.None? ==> forall id | id in p :: KeyOf(p[id]) != DocKey(d)
    requires found.Some? ==>
      found.value.pointID in p && p[found.value.pointID] == found.value && KeyOf(found.value) == DocKey(d)
    ensures Known(p, d) <==> found.Some?
    ensures Current(p, d, version) <==> found.Some? && Matches(found.value, d, version)
  {
  }

  /** Where no document is a copy, the scan so far has touched nothing. */
  lemma ScanWasQuiet(docs: seq<Document>, i: nat, full: bool, version: string, s0: ScanState, s: ScanState)
    requires i < |docs| && Scan(docs[..i], full, version, s0, s)
    ensures full || NoCopies(s0.points, docs) ==> s.points == s0.points && s.shelf == s0.shelf
    ensures NoCopies(s0.points, docs) ==> full || NoCopies(s.points, [docs[i]])
  {
    if full {
      FullScan(docs[..i], version, s0, s);
    } else if NoCopies(s0.points, docs) {
      assert NoCopies(s0.points, docs[..i]);
      QuietScan(docs[..i], version, s0, s);
    }
  }
}
