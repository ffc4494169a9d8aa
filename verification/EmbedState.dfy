/**
 The dirty-tracking state of embedding sync: one primary map of point records,
 three secondary indexes, and the line file they are persisted to.

 The primary map is specified by pure functions on `Points`; the class
 `StateStore` updates map and indexes in place and is proved against them.
 */
module EmbedState {
  import opened Wrappers
  import opened Text

  /** A point id is either empty or the name-based UUID of a string. Distinct
      names are taken to have distinct UUIDs. */
  datatype PointID = Blank | Uuid(name: string)

  datatype Record = Record(
    pointID: PointID,
    sourceID: string,
    collection: string,
    path: string,
    identity: string,
    contentHash: string,
    vectorVersion: string,
    updatedAt: int)

  datatype SyncResult = SyncResult(
    scanned: nat, embedded: nat, upserted: nat, pruned: nat, unmodified: nat)

  datatype SyncRecord = SyncRecord(
    sourceID: string, collection: string, lastSynced: int, result: SyncResult)

  type Points = map<PointID, Record>
  type Runs = map<string, SyncRecord>

  // ---------------------------------------------------------------- keys

  function IdentityKey(collection: string, sourceID: string, identity: string): string {
    collection + "\0" + sourceID + "\0" + identity
  }

  function HashKey(collection: string, sourceID: string, contentHash: string): string {
    collection + "\0" + sourceID + "\0" + contentHash
  }

  function DeterministicPointID(collection: string, sourceID: string, identity: string): PointID {
    Uuid(collection + "\0" + sourceID + "\0" + identity)
  }

  function KeyOf(r: Record): string {
    IdentityKey(r.collection, r.sourceID, r.identity)
  }

  function HashKeyOf(r: Record): string {
    HashKey(r.collection, r.sourceID, r.contentHash)
  }

  function SourceOf(r: Record): string { r.sourceID }

  predicate NulFree(s: string) { '\0' !in s }

  /** A key names one collection, one source and one identity as long as the
      first two hold no NUL; registered sources never do. */
  lemma KeysAreInjective(c: string, s: string, i: string, c': string, s': string, i': string)
    requires NulFree(c) && NulFree(s) && NulFree(c') && NulFree(s')
    ensures IdentityKey(c, s, i) == IdentityKey(c', s', i') <==> c == c' && s == s' && i == i'
    ensures HashKey(c, s, i) == HashKey(c', s', i') <==> c == c' && s == s' && i == i'
  {
    if IdentityKey(c, s, i) == IdentityKey(c', s', i') {
      assert c + "\0" + s + "\0" + i == c + "\0" + (s + "\0" + i);
      assert c' + "\0" + s' + "\0" + i' == c' + "\0" + (s' + "\0" + i');
      FirstSeparator(c, s + "\0" + i, c', s' + "\0" + i', '\0');
      FirstSeparator(s, i, s', i', '\0');
    }
  }

  /** Within one collection and source no condition is needed. */
  lemma KeysOfOneSource(c: string, s: string, i: string, i': string)
    ensures IdentityKey(c, s, i) == IdentityKey(c, s, i') <==> i == i'
    ensures HashKey(c, s, i) == HashKey(c, s, i') <==> i == i'
  {
    var pre := c + "\0" + s + "\0";
    assert (pre + i)[|pre|..] == i && (pre + i')[|pre|..] == i';
  }

  // ------------------------------------------------- the primary map

  predicate Keyed(p: Points) {
    forall id | id in p :: p[id].pointID == id
  }

  predicate UniqueIdentities(p: Points) {
    forall a, b | a in p && b in p && KeyOf(p[a]) == KeyOf(p[b]) :: a == b
  }

  /** What a put displaces: the record of the same id and any record of the
      same identity. */
  function Displaced(p: Points, r: Record): set<PointID> {
    set id | id in p && (id == r.pointID || KeyOf(p[id]) == KeyOf(r))
  }

  function Put(p: Points, r: Record): Points {
    (p - Displaced(p, r))[r.pointID := r]
  }

  lemma PutKeepsUnique(p: Points, r: Record)
    requires Keyed(p) && UniqueIdentities(p)
    ensures Keyed(Put(p, r)) && UniqueIdentities(Put(p, r))
  {
  }

  function PutAll(p: Points, rs: seq<Record>): Points {
    if rs == [] then p else Put(PutAll(p, rs[..|rs| - 1]), rs[|rs| - 1])
  }

  lemma PutAllKeepsUnique(p: Points, rs: seq<Record>)
    requires Keyed(p) && UniqueIdentities(p)
    ensures Keyed(PutAll(p, rs)) && UniqueIdentities(PutAll(p, rs))
  {
    if rs != [] {
      PutAllKeepsUnique(p, rs[..|rs| - 1]);
      PutKeepsUnique(PutAll(p, rs[..|rs| - 1]), rs[|rs| - 1]);
    }
  }

  lemma {:induction false} PutAllAppend(p: Points, a: seq<Record>, b: seq<Record>)
    ensures PutAll(p, a + b) == PutAll(PutAll(p, a), b)
    decreases |b|
  {
    if b == [] {
      assert a + b == a;
    } else {
      var last := |b| - 1;
      assert (a + b)[..|a + b| - 1] == a + b[..last];
      PutAllAppend(p, a, b[..last]);
    }
  }

  // ------------------------------------------------- recomputed indexes

  /** `g` groups the ids of `p` by a key of their record: every id is in the
      group of its key, every group member belongs there, no group is empty. */
  ghost predicate Grouped(p: Points, f: Record -> string, g: map<string, set<PointID>>) {
    && (forall id | id in p :: f(p[id]) in g && id in g[f(p[id])])
    && (forall k, id | k in g && id in g[k] :: id in p && f(p[id]) == k)
    && (forall k | k in g :: g[k] != {})
  }

  ghost predicate IdentityIndexed(p: Points, index: map<string, PointID>) {
    && (forall id | id in p :: KeyOf(p[id]) in index && index[KeyOf(p[id])] == id)
    && (forall k | k in index :: index[k] in p && KeyOf(p[index[k]]) == k)
  }

  datatype Indexes = Indexes(
    byIdentity: map<string, PointID>,
    byHash: map<string, set<PointID>>,
    bySource: map<string, set<PointID>>)

  ghost predicate Indexed(p: Points, x: Indexes) {
    && IdentityIndexed(p, x.byIdentity)
    && Grouped(p, HashKeyOf, x.byHash)
    && Grouped(p, SourceOf, x.bySource)
  }

  ghost predicate Consistent(p: Points, x: Indexes) {
    Keyed(p) && UniqueIdentities(p) && Indexed(p, x)
  }

  lemma GroupingIsUnique(
    p: Points, f: Record -> string, g: map<string, set<PointID>>, h: map<string, set<PointID>>)
    requires Grouped(p, f, g) && Grouped(p, f, h)
    ensures g == h
  {
    forall k | k in g ensures k in h {
      var id :| id in g[k];
      assert f(p[id]) == k;
    }
    forall k | k in h ensures k in g {
      var id :| id in h[k];
      assert f(p[id]) == k;
    }
    forall k | k in g ensures g[k] == h[k] {
      assert forall id :: id in g[k] <==> id in p && f(p[id]) == k;
      assert forall id :: id in h[k] <==> id in p && f(p[id]) == k;
    }
  }

  /** There is only one right set of indexes: the one recomputed from the points. */
  lemma IndexesAreUnique(p: Points, x: Indexes, y: Indexes)
    requires Indexed(p, x) && Indexed(p, y)
    ensures x == y
  {
    assert x.byIdentity == y.byIdentity;
    GroupingIsUnique(p, HashKeyOf, x.byHash, y.byHash);
    GroupingIsUnique(p, SourceOf, x.bySource, y.bySource);
  }

  function Ungroup(g: map<string, set<PointID>>, k: string, id: PointID): map<string, set<PointID>> {
    if k !in g then g
    else if g[k] - {id} == {} then g - {k}
    else g[k := g[k] - {id}]
  }

  function Regroup(g: map<string, set<PointID>>, k: string, id: PointID): map<string, set<PointID>> {
    g[k := (if k in g then g[k] else {}) + {id}]
  }

  lemma UngroupKeeps(p: Points, f: Record -> string, g: map<string, set<PointID>>, id: PointID)
    requires id in p && Grouped(p, f, g)
    ensures Grouped(p - {id}, f, Ungroup(g, f(p[id]), id))
  {
  }

  lemma RegroupKeeps(p: Points, f: Record -> string, g: map<string, set<PointID>>, id: PointID, r: Record)
    requires id !in p && Grouped(p, f, g)
    ensures Grouped(p[id := r], f, Regroup(g, f(r), id))
  {
  }

  lemma RemoveKeepsConsistent(p: Points, x: Indexes, id: PointID)
    requires id in p && Consistent(p, x)
    ensures Consistent(p - {id}, Indexes(
              x.byIdentity - {KeyOf(p[id])},
              Ungroup(x.byHash, HashKeyOf(p[id]), id),
              Ungroup(x.bySource, p[id].sourceID, id)))
  {
    UngroupKeeps(p, HashKeyOf, x.byHash, id);
    UngroupKeeps(p, SourceOf, x.bySource, id);
    hide Grouped;
  }

  lemma AddKeepsConsistent(p: Points, x: Indexes, r: Record)
    requires r.pointID !in p && Consistent(p, x)
    requires forall id | id in p :: KeyOf(p[id]) != KeyOf(r)
    ensures Consistent(p[r.pointID := r], Indexes(
              x.byIdentity[KeyOf(r) := r.pointID],
              Regroup(x.byHash, HashKeyOf(r), r.pointID),
              Regroup(x.bySource, r.sourceID, r.pointID)))
  {
    RegroupKeeps(p, HashKeyOf, x.byHash, r.pointID, r);
    RegroupKeeps(p, SourceOf, x.bySource, r.pointID, r);
    hide Grouped;
  }

  /** The identity index finds all that a put displaces. */
  lemma DisplacedByIndex(p: Points, index: map<string, PointID>, r: Record)
    requires Keyed(p) && IdentityIndexed(p, index)
    ensures
      var q := (if KeyOf(r) in index && index[KeyOf(r)] != r.pointID
                then p - {index[KeyOf(r)]} else p) - {r.pointID};
      && (forall id | id in q :: KeyOf(q[id]) != KeyOf(r))
      && Put(p, r) == q[r.pointID := r]
  {
  }

  // ------------------------------------------------- the persisted lines

  const STATE_FILE_VERSION := 1

  datatype Line =
    | PointLine(version: int, point: Option<Record>)
    | SyncLine(version: int, run: Option<SyncRecord>)
    | UnknownLine(version: int)
    | BlankLine
    | GarbledLine

  datatype Decoded = Refused | Loaded(points: Points, runs: Runs)

  /** Reading one line, as `load` does. */
  function DecodeLine(d: Decoded, line: Line): Decoded {
    if d.Refused? then Refused
    else match line
      case BlankLine => d
      case GarbledLine => Refused
      case UnknownLine(_) => Refused
      case PointLine(version, point) =>
        if version != STATE_FILE_VERSION || point.None? || point.value.pointID == Blank then Refused
        else d.(points := Put(d.points, point.value))
      case SyncLine(version, run) =>
        if version != STATE_FILE_VERSION || run.None? || run.value.sourceID == "" then Refused
        else d.(runs := d.runs[run.value.sourceID := run.value])
  }

  function Decode(lines: seq<Line>): Decoded {
    if lines == [] then Loaded(map[], map[])
    else DecodeLine(Decode(lines[..|lines| - 1]), lines[|lines| - 1])
  }

  ghost predicate Enumerates<T>(s: seq<T>, keys: set<T>) {
    && (forall k | k in s :: k in keys)
    && (forall k | k in keys :: k in s)
    && (forall i, j | 0 <= i < j < |s| :: s[i] != s[j])
  }

  function PointLines(p: Points, ids: seq<PointID>): seq<Line>
    requires forall id | id in ids :: id in p
  {
    if ids == [] then []
    else
      var last := ids[|ids| - 1];
      PointLines(p, ids[..|ids| - 1]) + [PointLine(STATE_FILE_VERSION, Some(p[last]))]
  }

  function RunLines(runs: Runs, ids: seq<string>): seq<Line>
    requires forall id | id in ids :: id in runs
  {
    if ids == [] then []
    else
      var last := ids[|ids| - 1];
      RunLines(runs, ids[..|ids| - 1]) + [SyncLine(STATE_FILE_VERSION, Some(runs[last]))]
  }

  /** The lines hold every point once, then every sync run once, in any order
      within each group. */
  ghost predicate Encodes(lines: seq<Line>, p: Points, runs: Runs) {
    exists ids: seq<PointID>, sources: seq<string> ::
      Enumerates(ids, p.Keys) && Enumerates(sources, runs.Keys) &&
      lines == PointLines(p, ids) + RunLines(runs, sources)
  }

  predicate RunsKeyed(runs: Runs) {
    forall k | k in runs :: runs[k].sourceID == k
  }

  predicate NoBlankIDs(p: Points, runs: Runs) {
    Blank !in p && "" !in runs
  }

  function Restrict<K, V>(m: map<K, V>, s: seq<K>): map<K, V> {
    map k | k in m && k in s :: m[k]
  }

  lemma DecodeSnoc(lines: seq<Line>, line: Line)
    ensures Decode(lines + [line]) == DecodeLine(Decode(lines), line)
  {
    assert (lines + [line])[..|lines|] == lines;
  }

  /** A record joins records of other ids and identities without displacing any. */
  lemma RestrictStep(p: Points, ids: seq<PointID>, last: PointID)
    requires Keyed(p) && UniqueIdentities(p)
    requires last in p && last !in ids
    ensures Put(Restrict(p, ids), p[last]) == Restrict(p, ids + [last])
  {
    var q := Restrict(p, ids);
    assert Displaced(q, p[last]) == {};
    assert q - {} == q;
  }

  lemma {:induction false} DecodePointLines(p: Points, ids: seq<PointID>)
    requires Keyed(p) && UniqueIdentities(p)
    requires forall id | id in ids :: id in p
    requires forall i, j | 0 <= i < j < |ids| :: ids[i] != ids[j]
    ensures Decode(PointLines(p, ids)) ==
            if Blank in ids then Refused else Loaded(Restrict(p, ids), map[])
  {
    if ids == [] {
      assert Restrict(p, ids) == map[];
    } else {
      var rest, last := ids[..|ids| - 1], ids[|ids| - 1];
      assert ids == rest + [last];
      DecodePointLines(p, rest);
      RestrictStep(p, rest, last);
      DecodeSnoc(PointLines(p, rest), PointLine(STATE_FILE_VERSION, Some(p[last])));
    }
  }

  lemma {:induction false} DecodeRunLines(lines: seq<Line>, p: Points, runs: Runs, ids: seq<string>)
    requires RunsKeyed(runs)
    requires forall id | id in ids :: id in runs
    requires Decode(lines) == Refused || Decode(lines) == Loaded(p, map[])
    ensures Decode(lines + RunLines(runs, ids)) ==
            if Decode(lines) == Refused || "" in ids then Refused else Loaded(p, Restrict(runs, ids))
    decreases |ids|
  {
    if ids == [] {
      assert lines + RunLines(runs, ids) == lines;
      assert Restrict(runs, ids) == map[];
    } else {
      var rest, last := ids[..|ids| - 1], ids[|ids| - 1];
      assert ids == rest + [last];
      DecodeRunLines(lines, p, runs, rest);
      var line := SyncLine(STATE_FILE_VERSION, Some(runs[last]));
      assert lines + RunLines(runs, ids) == lines + RunLines(runs, rest) + [line];
      DecodeSnoc(lines + RunLines(runs, rest), line);
      assert Restrict(runs, ids) == Restrict(runs, rest)[last := runs[last]];
    }
  }

  /** Loading what was persisted gives back the same points and runs, in
      whatever order the lines were written, exactly when no id is empty; with
      an empty id the file is refused. */
  lemma LoadInvertsPersist(lines: seq<Line>, p: Points, runs: Runs)
    requires Keyed(p) && UniqueIdentities(p) && RunsKeyed(runs)
    requires Encodes(lines, p, runs)
    ensures Decode(lines) == if NoBlankIDs(p, runs) then Loaded(p, runs) else Refused
  {
    hide Decode, PointLines, RunLines, Restrict, Keyed, UniqueIdentities, RunsKeyed;
    var ids: seq<PointID>, sources: seq<string> :|
      Enumerates(ids, p.Keys) && Enumerates(sources, runs.Keys) &&
      lines == PointLines(p, ids) + RunLines(runs, sources);
    DecodePointLines(p, ids);
    RestrictAll(p, ids);
    DecodeRunLines(PointLines(p, ids), p, runs, sources);
    RestrictAll(runs, sources);
  }

  lemma RestrictAll<K, V>(m: map<K, V>, s: seq<K>)
    requires Enumerates(s, m.Keys)
    ensures Restrict(m, s) == m
  {
  }

  lemma EnumeratesStep<T>(s: seq<T>, keys: set<T>, k: T)
    requires Enumerates(s, keys) && k !in keys
    ensures Enumerates(s + [k], keys + {k})
  {
  }

  lemma PointLinesSnoc(p: Points, ids: seq<PointID>, id: PointID)
    requires (forall k | k in ids :: k in p) && id in p
    ensures PointLines(p, ids + [id]) == PointLines(p, ids) + [PointLine(STATE_FILE_VERSION, Some(p[id]))]
  {
    assert (ids + [id])[..|ids|] == ids;
  }

  lemma RunLinesSnoc(runs: Runs, ids: seq<string>, id: string)
    requires (forall k | k in ids :: k in runs) && id in runs
    ensures RunLines(runs, ids + [id]) == RunLines(runs, ids) + [SyncLine(STATE_FILE_VERSION, Some(runs[id]))]
  {
    assert (ids + [id])[..|ids|] == ids;
  }

  lemma NoLines(p: Points, runs: Runs)
    ensures PointLines(p, []) == [] && RunLines(runs, []) == []
    ensures Enumerates([], p.Keys - p.Keys) && Enumerates([], runs.Keys - runs.Keys)
  {
  }

  lemma RunsKeyedWithout(runs: Runs, id: string)
    requires RunsKeyed(runs)
    ensures RunsKeyed(runs - {id})
  {
  }

  // ------------------------------------------------- newest match

  predicate HashMatch(p: Points, key: string, id: PointID) {
    id in p && HashKeyOf(p[id]) == key
  }

  /** `r` is a record with this hash key and none with the key is newer. */
  ghost predicate IsNewest(p: Points, key: string, r: Record) {
    && HashMatch(p, key, r.pointID)
    && p[r.pointID] == r
    && forall id | HashMatch(p, key, id) :: p[id].updatedAt <= r.updatedAt
  }

  lemma HashIndexFinds(p: Points, x: Indexes, key: string)
    requires Consistent(p, x)
    ensures forall id :: id in (if key in x.byHash then x.byHash[key] else {}) <==> HashMatch(p, key, id)
    ensures forall id | HashMatch(p, key, id) :: id in p && p[id].pointID == id
  {
    assert Grouped(p, HashKeyOf, x.byHash);
  }

  lemma NewestFound(p: Points, key: string, ids: set<PointID>, r: Record)
    requires ids <= p.Keys && forall id :: id in ids <==> HashMatch(p, key, id)
    requires r.pointID in ids && p[r.pointID] == r
    requires forall id | id in ids :: p[id].updatedAt <= r.updatedAt
    ensures IsNewest(p, key, r)
  {
  }

  // ------------------------------------------------- the store

  class StateStore {
    var points: Points
    var syncRuns: Runs
    var byIdentity: map<string, PointID>
    var byHash: map<string, set<PointID>>
    var bySource: map<string, set<PointID>>
    var needsFlush: bool
    var closeCalled: bool
    /** The state file, replaced as a whole by one rename. */
    var disk: seq<Line>

    ghost predicate Valid()
      reads `points, `syncRuns, `byIdentity, `byHash, `bySource
    {
      && Consistent(points, Indexes(byIdentity, byHash, bySource))
      && RunsKeyed(syncRuns)
    }

    constructor (file: seq<Line>)
      ensures Valid() && points == map[] && syncRuns == map[] && disk == file
      ensures !needsFlush && !closeCalled
    {
      points, syncRuns := map[], map[];
      byIdentity, byHash, bySource := map[], map[], map[];
      needsFlush, closeCalled := false, false;
      disk := file;
    }

    method RemovePoint(pointID: PointID)
      requires Valid()
      modifies this`points, this`byIdentity, this`byHash, this`bySource
      ensures Valid()
      ensures points == old(points) - {pointID}
    {
      hide Consistent, RunsKeyed, KeyOf, HashKeyOf, Ungroup;
      if pointID !in points {
        return;
      }
      var record := points[pointID];
      RemoveKeepsConsistent(points, Indexes(byIdentity, byHash, bySource), pointID);
      points := points - {pointID};
      byIdentity := byIdentity - {KeyOf(record)};
      byHash := Ungroup(byHash, HashKeyOf(record), pointID);
      bySource := Ungroup(bySource, record.sourceID, pointID);
    }

    method PutPoint(record: Record)
      requires Valid()
      modifies this`points, this`byIdentity, this`byHash, this`bySource
      ensures Valid()
      ensures points == Put(old(points), record)
    {
      DisplacedByIndex(points, byIdentity, record);
      hide *;
      var key := KeyOf(record);
      if key in byIdentity && byIdentity[key] != record.pointID {
        RemovePoint(byIdentity[key]);
      }
      RemovePoint(record.pointID);
      AddKeepsConsistent(points, Indexes(byIdentity, byHash, bySource), record);
      points := points[record.pointID := record];
      byIdentity := byIdentity[key := record.pointID];
      byHash := Regroup(byHash, HashKeyOf(record), record.pointID);
      bySource := Regroup(bySource, record.sourceID, record.pointID);
    }

    /** Agrees with a scan of all points for the key. */
    method FindByIdentity(collection: string, sourceID: string, identity: string)
      returns (found: Option<Record>)
      requires Valid()
      ensures found.None? ==> forall id | id in points ::
        KeyOf(points[id]) != IdentityKey(collection, sourceID, identity)
      ensures found.Some? ==>
        && found.value.pointID in points
        && points[found.value.pointID] == found.value
        && KeyOf(found.value) == IdentityKey(collection, sourceID, identity)
    {
      var key := IdentityKey(collection, sourceID, identity);
      if key !in byIdentity {
        return None;
      }
      return Some(points[byIdentity[key]]);
    }

    /** Agrees with a scan of all points for the key, giving a newest match. */
    method FindByContentHash(collection: string, sourceID: string, contentHash: string)
      returns (found: Option<Record>)
      requires Valid()
      ensures found.None? <==>
        forall id :: !HashMatch(points, HashKey(collection, sourceID, contentHash), id)
      ensures found.Some? ==>
        IsNewest(points, HashKey(collection, sourceID, contentHash), found.value)
    {
      var key := HashKey(collection, sourceID, contentHash);
      HashIndexFinds(points, Indexes(byIdentity, byHash, bySource), key);
      hide *;
      var ids := if key in byHash then byHash[key] else {};
      found := None;
      var todo := ids;
      while todo != {}
        invariant todo <= ids
        invariant found.None? ==> todo == ids
        invariant found.Some? ==> found.value.pointID in ids && points[found.value.pointID] == found.value
        invariant forall id | id in ids - todo ::
          found.Some? && points[id].updatedAt <= found.value.updatedAt
        decreases todo
      {
        var id :| id in todo;
        todo := todo - {id};
        var record := points[id];
        if found.None? || record.updatedAt > found.value.updatedAt {
          found := Some(record);
        }
      }
      if found.Some? {
        NewestFound(points, key, ids, found.value);
      }
    }

    /** All records of one source. */
    method RecordsForSource(sourceID: string) returns (ids: set<PointID>)
      requires Valid()
      ensures ids == SourceIDs(points, sourceID)
    {
      ids := if sourceID in bySource then bySource[sourceID] else {};
      assert forall id :: id in ids <==> id in points && SourceOf(points[id]) == sourceID;
    }

    /** Sources that own a point or a sync run. */
    method AllSourceIDs() returns (ids: set<string>)
      requires Valid()
      ensures ids == (set id | id in points :: points[id].sourceID) + syncRuns.Keys
    {
      ids := bySource.Keys + syncRuns.Keys;
      forall k | k in bySource ensures k in (set id | id in points :: points[id].sourceID) {
        var id :| id in bySource[k];
        assert SourceOf(points[id]) == k;
      }
      forall id | id in points ensures points[id].sourceID in bySource {
        assert SourceOf(points[id]) in bySource;
      }
    }

    method EncodeLines() returns (lines: seq<Line>)
      requires Valid()
      ensures Encodes(lines, points, syncRuns)
    {
      hide Consistent, RunsKeyed, Enumerates, PointLines, RunLines;
      var ids: seq<PointID>, sources: seq<string> := [], [];
      NoLines(points, syncRuns);
      var left := points.Keys;
      lines := [];
      while left != {}
        invariant left <= points.Keys
        invariant Enumerates(ids, points.Keys - left)
        invariant forall id | id in ids :: id in points
        invariant lines == PointLines(points, ids)
        decreases left
      {
        var id :| id in left;
        EnumeratesStep(ids, points.Keys - left, id);
        PointLinesSnoc(points, ids, id);
        assert points.Keys - left + {id} == points.Keys - (left - {id});
        left := left - {id};
        ids := ids + [id];
        lines := lines + [PointLine(STATE_FILE_VERSION, Some(points[id]))];
      }
      assert points.Keys - left == points.Keys;
      ghost var before := lines;
      var todo := syncRuns.Keys;
      while todo != {}
        invariant todo <= syncRuns.Keys
        invariant Enumerates(sources, syncRuns.Keys - todo)
        invariant forall id | id in sources :: id in syncRuns
        invariant lines == before + RunLines(syncRuns, sources)
        decreases todo
      {
        var id :| id in todo;
        EnumeratesStep(sources, syncRuns.Keys - todo, id);
        RunLinesSnoc(syncRuns, sources, id);
        assert syncRuns.Keys - todo + {id} == syncRuns.Keys - (todo - {id});
        todo := todo - {id};
        sources := sources + [id];
        lines := lines + [SyncLine(STATE_FILE_VERSION, Some(syncRuns[id]))];
      }
      assert syncRuns.Keys - todo == syncRuns.Keys;
    }

    /** `writable` is whether the file system lets the replacement through. */
    method Persist(writable: bool) returns (ok: bool)
      requires Valid()
      modifies this`disk, this`needsFlush
      ensures ok <==> writable || !old(needsFlush)
      ensures needsFlush == (old(needsFlush) && !writable)
      ensures if old(needsFlush) && writable then Encodes(disk, points, syncRuns)
              else disk == old(disk)
    {
      if !needsFlush {
        return true;
      }
      if !writable {
        return false;
      }
      disk := EncodeLines();
      needsFlush := false;
      return true;
    }

    method Close(writable: bool) returns (ok: bool)
      requires Valid()
      modifies this`disk, this`needsFlush, this`closeCalled
      ensures closeCalled && (ok <==> writable || !old(needsFlush))
      ensures needsFlush == (old(needsFlush) && !writable)
      ensures if old(needsFlush) && writable then Encodes(disk, points, syncRuns) else disk == old(disk)
    {
      closeCalled := true;
      ok := Persist(writable);
    }

    /** Loads the file into an empty store. */
    method Load() returns (ok: bool)
      requires Valid() && points == map[] && syncRuns == map[]
      modifies this`points, this`syncRuns, this`byIdentity, this`byHash, this`bySource, this`needsFlush
      ensures Valid()
      ensures ok <==> Decode(disk).Loaded?
      ensures ok ==> Decode(disk) == Loaded(points, syncRuns) && !needsFlush
      ensures !ok ==> exists n: nat :: StopsAt(disk, n, points, syncRuns)
    {
      hide Consistent;
      var i := 0;
      var lines := disk;
      while i < |disk|
        invariant 0 <= i <= |disk|
        invariant Valid()
        invariant Decode(disk[..i]) == Loaded(points, syncRuns)
        invariant disk == lines
        decreases |lines| - i
      {
        var line := disk[i];
        assert disk[..i + 1][..i] == disk[..i];
        ok := true;
        match line {
        case BlankLine =>
        case GarbledLine => ok := false;
        case UnknownLine(_) => ok := false;
        case PointLine(version, point) =>
          if version != STATE_FILE_VERSION || point.None? || point.value.pointID == Blank {
            ok := false;
          } else {
            PutPoint(point.value);
          }
        case SyncLine(version, run) =>
          if version != STATE_FILE_VERSION || run.None? || run.value.sourceID == "" {
            ok := false;
          } else {
            syncRuns := syncRuns[run.value.sourceID := run.value];
          }
        }
        if !ok {
          RefusedStays(disk, i + 1);
          assert StopsAt(disk, i, points, syncRuns);
          return;
        }
        i := i + 1;
      }
      assert disk[..i] == disk;
      needsFlush := false;
      ok := true;
    }

    method UpsertPoint(record: Record, now: int) returns (ok: bool)
      requires Valid()
      modifies this`points, this`byIdentity, this`byHash, this`bySource, this`needsFlush
      ensures Valid()
      ensures ok <==> !closeCalled
      ensures
        var age := if record.updatedAt == 0 then now else record.updatedAt;
        points == if ok then Put(old(points), record.(updatedAt := age)) else old(points)
      ensures ok ==> points == Put(old(points), Stamped(record, now))
      ensures needsFlush == (ok || old(needsFlush))
    {
      if closeCalled {
        return false;
      }
      PutPoint(Stamped(record, now));
      needsFlush := true;
      return true;
    }

    /** One durable write for a whole batch. */
    method CheckpointBatch(records: seq<Record>, now: int, writable: bool) returns (ok: bool)
      requires Valid()
      modifies this`points, this`byIdentity, this`byHash, this`bySource, this`needsFlush, this`disk
      ensures Valid()
      ensures ok <==> !closeCalled && writable
      ensures points == if closeCalled then old(points) else PutAll(old(points), StampedAll(records, now))
      ensures !closeCalled ==> Timed(old(points), records, now, points)
      ensures if ok then Encodes(disk, points, syncRuns) && !needsFlush else disk == old(disk)
    {
      hide *;
      if closeCalled {
        return false;
      }
      PutPoints(records, now);
      needsFlush := true;
      ok := Persist(writable);
    }

    method PutPoints(records: seq<Record>, now: int)
      requires Valid()
      modifies this`points, this`byIdentity, this`byHash, this`bySource
      ensures Valid() && points == PutAll(old(points), StampedAll(records, now))
      ensures Timed(old(points), records, now, points)
    {
      hide *;
      NoneStamped(points, records, now);
      BatchIsTimed(points, records, now);
      var i := 0;
      while i < |records|
        invariant 0 <= i <= |records| && Valid()
        invariant points == PutAll(old(points), StampedAll(records[..i], now))
      {
        StampedStep(old(points), records, i, now);
        PutPoint(Stamped(records[i], now));
        i := i + 1;
      }
      assert records[..i] == records;
    }

    method DeletePointIDs(ids: set<PointID>) returns (ok: bool)
      requires Valid()
      modifies this`points, this`byIdentity, this`byHash, this`bySource, this`needsFlush
      ensures Valid()
      ensures ok <==> !closeCalled
      ensures points == if ok then old(points) - ids else old(points)
      ensures needsFlush == (ok || old(needsFlush))
    {
      if closeCalled {
        return false;
      }
      hide *;
      var done := {};
      while ids - done != {}
        invariant Valid()
        invariant done <= ids
        invariant points == old(points) - done
        decreases ids - done
      {
        var id :| id in ids - done;
        MinusOne(old(points), done, id);
        RemovePoint(id);
        done := done + {id};
      }
      assert forall id | id in ids :: id in done || id in ids - done;
      assert done == ids;
      needsFlush := true;
      return true;
    }

    method DeleteSource(sourceID: string, writable: bool) returns (ok: bool)
      requires Valid()
      modifies this`points, this`syncRuns, this`byIdentity, this`byHash, this`bySource,
               this`needsFlush, this`disk
      ensures Valid()
      ensures ok <==> !closeCalled && writable
      ensures points == if closeCalled then old(points) else
        old(points) - SourceIDs(old(points), sourceID)
      ensures syncRuns == if closeCalled then old(syncRuns) else old(syncRuns) - {sourceID}
      ensures if ok then Encodes(disk, points, syncRuns) && !needsFlush else disk == old(disk)
    {
      hide Consistent, SourceIDs, Encodes, RunsKeyed;
      if closeCalled {
        return false;
      }
      RunsKeyedWithout(syncRuns, sourceID);
      var ids := RecordsForSource(sourceID);
      var removed := DeletePointIDs(ids);
      syncRuns := syncRuns - {sourceID};
      needsFlush := true;
      ok := Persist(writable);
    }

    method DeleteCollection(collection: string, writable: bool) returns (ok: bool, removed: nat, runs: nat)
      requires Valid()
      modifies this
      ensures closeCalled == old(closeCalled)
      ensures Valid()
      ensures ok <==> !closeCalled && writable
      ensures points == if closeCalled then old(points) else WithoutCollection(old(points), collection)
      ensures syncRuns == if closeCalled then old(syncRuns) else
        RunsOutside(old(syncRuns), collection)
      ensures ok ==>
        removed == |CollectionIDs(old(points), collection)| && runs == |RunIDs(old(syncRuns), collection)|
      ensures if ok then Encodes(disk, points, syncRuns) && !needsFlush else disk == old(disk)
    {
      hide Consistent, CollectionIDs, Encodes, RunsKeyed, RunsOutside, RunIDs;
      if closeCalled {
        return false, 0, 0;
      }
      var ids := CollectionIDs(points, collection);
      var done := DeletePointIDs(ids);
      removed, runs := |ids|, |RunIDs(syncRuns, collection)|;
      syncRuns := RunsOutside(syncRuns, collection);
      needsFlush := true;
      ok := Persist(writable);
    }

    method StoreSyncResult(sourceID: string, collection: string, result: SyncResult, now: int, writable: bool)
      returns (ok: bool)
      requires Valid()
      modifies this`syncRuns, this`needsFlush, this`disk
      ensures Valid()
      ensures ok <==> !closeCalled && writable
      ensures syncRuns == if closeCalled then old(syncRuns) else
        old(syncRuns)[sourceID := SyncRecord(sourceID, collection, now, result)]
      ensures if ok then Encodes(disk, points, syncRuns) && !needsFlush else disk == old(disk)
    {
      if closeCalled {
        return false;
      }
      syncRuns := syncRuns[sourceID := SyncRecord(sourceID, collection, now, result)];
      needsFlush := true;
      ok := Persist(writable);
    }
  }

  /** The first `n` lines load to this state and the next line is refused. */
  predicate StopsAt(lines: seq<Line>, n: nat, p: Points, runs: Runs) {
    n < |lines| && Decode(lines[..n]) == Loaded(p, runs) && Decode(lines[..n + 1]).Refused?
  }

  /** Opens the store a file describes. */
  method OpenState(file: seq<Line>) returns (ok: bool, store: StateStore)
    ensures fresh(store) && store.Valid() && store.disk == file
    ensures ok <==> Decode(file).Loaded?
    ensures ok ==> Decode(file) == Loaded(store.points, store.syncRuns) && !store.needsFlush && !store.closeCalled
  {
    store := new StateStore(file);
    ok := store.Load();
  }

  lemma {:induction false} RefusedStays(lines: seq<Line>, n: nat)
    requires n <= |lines| && Decode(lines[..n]).Refused?
    ensures Decode(lines).Refused?
    decreases |lines| - n
  {
    if n < |lines| {
      assert lines[..n + 1][..n] == lines[..n];
      RefusedStays(lines, n + 1);
    } else {
      assert lines[..n] == lines;
    }
  }

  lemma MinusOne(p: Points, done: set<PointID>, id: PointID)
    ensures p - done - {id} == p - (done + {id})
  {
  }

  /** What is left without a source, and how many points went. */
  lemma SourceGoes(p: Points, sourceID: string)
    ensures
      var q := p - SourceIDs(p, sourceID);
      && (forall id :: id in q <==> id in p && p[id].sourceID != sourceID)
      && |SourceIDs(p, sourceID)| == |p| - |q|
  {
    MinusCounts(p, SourceIDs(p, sourceID));
  }

  /** What is left without a collection, and how many points and runs went. */
  lemma CollectionGoes(p: Points, runs: Runs, collection: string)
    ensures
      var q, kept := p - CollectionIDs(p, collection), RunsOutside(runs, collection);
      && WithoutCollection(p, collection) == q
      && (forall id :: id in q <==> id in p && p[id].collection != collection)
      && (forall id :: id in kept <==> id in runs && runs[id].collection != collection)
      && (forall id | id in kept :: kept[id] == runs[id])
      && |CollectionIDs(p, collection)| == |p| - |q| && |RunIDs(runs, collection)| == |runs| - |kept|
  {
    MinusCounts(p, CollectionIDs(p, collection));
    MinusCounts(runs, RunIDs(runs, collection));
    assert RunsOutside(runs, collection) == runs - RunIDs(runs, collection);
  }

  lemma MinusCounts<K, V>(m: map<K, V>, keys: set<K>)
    requires keys <= m.Keys
    ensures |m - keys| == |m| - |keys|
  {
    var rest := m - keys;
    assert rest.Keys + keys == m.Keys && rest.Keys !! keys;
    assert |m| == |m.Keys| && |rest| == |rest.Keys|;
  }

  function WithoutCollection(p: Points, collection: string): Points {
    p - CollectionIDs(p, collection)
  }

  function SourceIDs(p: Points, sourceID: string): (ids: set<PointID>)
    ensures ids <= p.Keys
  {
    set id | id in p && p[id].sourceID == sourceID
  }

  function CollectionIDs(p: Points, collection: string): (ids: set<PointID>)
    ensures ids <= p.Keys
  {
    set id | id in p && p[id].collection == collection
  }

  function RunIDs(runs: Runs, collection: string): set<string> {
    set id | id in runs && runs[id].collection == collection
  }

  function RunsOutside(runs: Runs, collection: string): (kept: Runs)
    ensures RunsKeyed(runs) ==> RunsKeyed(kept)
    ensures kept.Keys <= runs.Keys
  {
    map id | id in runs && runs[id].collection != collection :: runs[id]
  }

  function Stamped(r: Record, now: int): Record {
    if r.updatedAt == 0 then r.(updatedAt := now) else r
  }

  function StampedAll(rs: seq<Record>, now: int): seq<Record> {
    seq(|rs|, i requires 0 <= i < |rs| => Stamped(rs[i], now))
  }

  /** The record is stored as it is, but with the time if it had none. */
  predicate StoredAt(q: Points, r: Record, now: int) {
    && r.pointID in q
    && q[r.pointID] == if r.updatedAt == 0 then r.(updatedAt := now) else r
  }

  /** No later record has the id or the identity of the i-th. */
  predicate Lasting(rs: seq<Record>, i: nat)
    requires i < |rs|
  {
    forall j | i < j < |rs| :: rs[j].pointID != rs[i].pointID && KeyOf(rs[j]) != KeyOf(rs[i])
  }

  /** Every record of a batch that no later one displaces is stored, with the time
      if it had none, and nothing else is new. */
  ghost predicate Timed(p: Points, rs: seq<Record>, now: int, q: Points) {
    && (forall i: nat | i < |rs| && Lasting(rs, i) :: StoredAt(q, rs[i], now))
    && (forall id | id in q ::
          (id in p && q[id] == p[id]) || exists r | r in rs :: r.pointID == id && StoredAt(q, r, now))
  }

  lemma {:induction false} BatchIsTimed(p: Points, rs: seq<Record>, now: int)
    ensures Timed(p, rs, now, PutAll(p, StampedAll(rs, now)))
  {
    if rs != [] {
      var n := |rs| - 1;
      assert rs == rs[..n] + [rs[n]];
      assert StampedAll(rs, now)[..n] == StampedAll(rs[..n], now);
      BatchIsTimed(p, rs[..n], now);
      TimedStep(p, rs, now, PutAll(p, StampedAll(rs[..n], now)));
    }
  }

  lemma TimedStep(p: Points, rs: seq<Record>, now: int, q: Points)
    requires rs != [] && Timed(p, rs[..|rs| - 1], now, q)
    ensures Timed(p, rs, now, Put(q, Stamped(rs[|rs| - 1], now)))
  {
    var n := |rs| - 1;
    var rest, last, q' := rs[..n], rs[n], Put(q, Stamped(rs[n], now));
    assert KeyOf(Stamped(last, now)) == KeyOf(last);
    forall i: nat | i < |rs| && Lasting(rs, i) ensures StoredAt(q', rs[i], now) {
      if i < n {
        assert Lasting(rest, i);
        assert StoredAt(q, rest[i], now) && KeyOf(q[rs[i].pointID]) == KeyOf(rs[i]);
      }
    }
    forall id | id in q'
      ensures (id in p && q'[id] == p[id]) || exists r | r in rs :: r.pointID == id && StoredAt(q', r, now)
    {
      if id == last.pointID {
        assert last in rs;
      } else if !(id in p && q[id] == p[id]) {
        var r :| r in rest && r.pointID == id && StoredAt(q, r, now);
        assert r in rs;
      }
    }
  }

  // ------------------------------------------------- ages

  /** Records without a time, put one after the other at given times. */
  function PutAt(p: Points, rs: seq<Record>, nows: seq<int>): Points
    requires |rs| == |nows|
  {
    if rs == [] then p
    else
      var n := |rs| - 1;
      Put(PutAt(p, rs[..n], nows[..n]), rs[n].(updatedAt := nows[n]))
  }

  /** The times rise, and are later than what was there. */
  predicate Later(p: Points, nows: seq<int>) {
    && (forall id, i | id in p && 0 <= i < |nows| :: p[id].updatedAt < nows[i])
    && forall i, j | 0 <= i < j < |nows| :: nows[i] < nows[j]
  }

  lemma {:induction false} AgesWithin(p: Points, rs: seq<Record>, nows: seq<int>, now: int)
    requires |rs| == |nows| && Keyed(p)
    requires forall id | id in p :: p[id].updatedAt < now
    requires forall i | 0 <= i < |nows| :: nows[i] < now
    ensures Keyed(PutAt(p, rs, nows))
    ensures forall id | id in PutAt(p, rs, nows) :: PutAt(p, rs, nows)[id].updatedAt < now
  {
    if rs != [] {
      AgesWithin(p, rs[..|rs| - 1], nows[..|rs| - 1], now);
    }
  }

  lemma AgeApart(r: Record, now: int)
    ensures HashKeyOf(r.(updatedAt := now)) == HashKeyOf(r) && KeyOf(r.(updatedAt := now)) == KeyOf(r)
  {
  }

  lemma NewestPut(q: Points, last: Record, r: Record)
    requires forall id | id in q :: q[id].updatedAt < last.updatedAt
    ensures IsNewest(Put(q, last), HashKeyOf(last), r) <==> r == last
  {
    assert HashMatch(Put(q, last), HashKeyOf(last), last.pointID);
  }

  lemma NewestStays(q: Points, key: string, m: Record, last: Record, r: Record)
    requires IsNewest(q, key, m) && (IsNewest(q, key, r) ==> r == m)
    requires HashKeyOf(last) != key && last.pointID != m.pointID && KeyOf(last) != KeyOf(m)
    ensures IsNewest(Put(q, last), key, r) <==> r == m
  {
    hide HashKeyOf, KeyOf;
    assert HashMatch(Put(q, last), key, m.pointID);
    assert forall id | HashMatch(Put(q, last), key, id) :: HashMatch(q, key, id);
  }

  /** The newest record of a hash is the one put last, as long as no later record
      took its id or its identity. */
  lemma {:induction false} LastPutIsNewest(
    p: Points, rs: seq<Record>, nows: seq<int>, i: nat, r: Record)
    requires |rs| == |nows| && Keyed(p) && Later(p, nows) && i < |rs| && Lasting(rs, i)
    requires forall j | i < j < |rs| :: HashKeyOf(rs[j]) != HashKeyOf(rs[i])
    ensures IsNewest(PutAt(p, rs, nows), HashKeyOf(rs[i]), r) <==> r == rs[i].(updatedAt := nows[i])
  {
    hide IsNewest, HashKeyOf, KeyOf, Put;
    var n := |rs| - 1;
    var rest, times := rs[..n], nows[..n];
    AgesWithin(p, rest, times, nows[n]);
    AgeApart(rs[i], nows[i]);
    AgeApart(rs[n], nows[n]);
    if i < n {
      assert Lasting(rest, i);
      LastPutIsNewest(p, rest, times, i, rs[i].(updatedAt := nows[i]));
      LastPutIsNewest(p, rest, times, i, r);
      NewestStays(
        PutAt(p, rest, times), HashKeyOf(rs[i]), rs[i].(updatedAt := nows[i]), rs[n].(updatedAt := nows[n]), r);
    } else {
      NewestPut(PutAt(p, rest, times), rs[n].(updatedAt := nows[n]), r);
    }
  }

  lemma NoneStamped(p: Points, rs: seq<Record>, now: int)
    ensures PutAll(p, StampedAll(rs[..0], now)) == p
  {
  }

  lemma StampedStep(p: Points, rs: seq<Record>, i: nat, now: int)
    requires i < |rs|
    ensures PutAll(p, StampedAll(rs[..i + 1], now)) ==
            Put(PutAll(p, StampedAll(rs[..i], now)), Stamped(rs[i], now))
  {
    assert StampedAll(rs[..i + 1], now)[..i] == StampedAll(rs[..i], now);
  }
}
