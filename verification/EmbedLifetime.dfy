/**
 The life of one state file and one vector store: syncs that succeed or fail,
 changed settings, and restarts that lose what was not persisted.
 */
module EmbedLifetime {
  import opened Wrappers
  import opened EmbedState
  import opened EmbedSync
  import opened EmbedRun
  import opened EmbedService

  datatype Operation =
    | SyncCall(sources: seq<Source>, options: SyncOptions, scan: Source -> Option<seq<Document>>)
    | Refit(unfit: set<string>)              // other collections no longer fit the settings
    | Restart(close: bool, writable: bool)   // with or without closing the store first

  /** What the world holds between two operations. */
  datatype Moment = Moment(held: Held, file: seq<Line>)

  /** How an operation ended; the counts are those of a sync. */
  datatype Outcome = Outcome(ok: bool, result: SyncResult)

  const NO_COUNTS := SyncResult(0, 0, 0, 0, 0)

  /** What a service is made with, and the hash its scans use. */
  datatype Setup = Setup(version: string, hash: string -> string, embed: string -> Vector)

  ghost predicate Sensible(op: Operation, origin: Origin) {
    op.SyncCall? ==>
      forall i | 0 <= i < |op.sources| :: Registered(op.sources[i], op.scan(op.sources[i]), origin)
  }

  ghost predicate FitMoment(m: Moment, origin: Origin) {
    Fit(m.held.points, origin) && FitFile(m.file, origin)
  }

  /** What an operation may have made of a moment: a sync, all that it promises. */
  ghost predicate Follows(m: Moment, op: Operation, outcome: Outcome, m': Moment, setup: Setup) {
    match op
    case SyncCall(sources, options, scan) =>
      Promised(m.held, m'.held, sources, options, scan, outcome.ok, outcome.result, setup.version, setup.hash,
        setup.embed)
    case Refit(_) =>
      m'.held.points == m.held.points && m'.held.collections == m.held.collections && m'.file == m.file
    case Restart(close, writable) =>
      && Decode(m'.file).Loaded? && m'.held == m.held.(points := Decode(m'.file).points)
      && (close && writable ==> m'.held.points == m.held.points || m'.file == m.file)
      && (!close ==> m'.file == m.file)
  }

  ghost function Now(service: Service): Moment
    reads service.state, service.vectors
  {
    Moment(service.Holds(), service.state.disk)
  }

  /** From any fit file, which an absent file is, every run of operations keeps
      memory and file fit, and every sync among them, successful or not, keeps its
      promise. */
  method Live(
    file: seq<Line>, vectors: VectorStore, outside: Outside, version: string, embed: string -> Vector, batch: int,
    operations: seq<Operation>, ghost origin: Origin, ghost hash: string -> string)
    returns (service: Service, outcomes: seq<Outcome>, ghost moments: seq<Moment>)
    requires FitFile(file, origin)
    requires forall i | 0 <= i < |operations| :: Sensible(operations[i], origin)
    modifies vectors, outside
    ensures |outcomes| == |operations| && |moments| == |operations| + 1
    ensures moments[|operations|] == Now(service)
    ensures forall i | 0 <= i < |moments| :: FitMoment(moments[i], origin)
    ensures forall i | 0 <= i < |operations| ::
      Follows(moments[i], operations[i], outcomes[i], moments[i + 1], Setup(version, hash, embed))
  {
    hide FitMoment, Follows, Fit, FitFile, Sensible, Decode;
    var loaded, state := OpenState(file);
    FileMeans(file, origin);
    service := new Service(state, vectors, outside, version, embed, batch, origin);
    ghost var setup := Setup(version, hash, embed);
    outcomes, moments := [], [Now(service)];
    MomentFits(Now(service), origin);
    for i := 0 to |operations|
      invariant service.state.Valid() && Fit(service.state.points, origin) && FitFile(service.state.disk, origin)
      invariant "" !in service.state.syncRuns
      invariant service.origin == origin && service.vectors == vectors && fresh(service.state)
      invariant service.outside == outside && service.version == version && service.embed == embed
      invariant |outcomes| == i && |moments| == i + 1 && moments[i] == Now(service)
      invariant forall k | 0 <= k <= i :: FitMoment(moments[k], origin)
      invariant forall k | 0 <= k < i :: Follows(moments[k], operations[k], outcomes[k], moments[k + 1], setup)
    {
      ghost var before := Now(service);
      var outcome;
      service, outcome := Operate(service, operations[i], hash);
      assert Follows(before, operations[i], outcome, Now(service), setup);
      MomentFits(Now(service), origin);
      outcomes, moments := outcomes + [outcome], moments + [Now(service)];
    }
  }

  method Operate(service: Service, op: Operation, ghost hash: string -> string)
    returns (service': Service, outcome: Outcome)
    requires service.state.Valid() && Fit(service.state.points, service.origin)
    requires "" !in service.state.syncRuns && FitFile(service.state.disk, service.origin)
    requires Sensible(op, service.origin)
    modifies service.state, service.vectors, service.outside
    ensures service'.state.Valid() && Fit(service'.state.points, service'.origin)
    ensures "" !in service'.state.syncRuns && FitFile(service'.state.disk, service'.origin)
    ensures service'.origin == service.origin && service'.vectors == service.vectors
    ensures service'.outside == service.outside && service'.version == service.version && service'.embed == service.embed
    ensures service'.state == service.state || fresh(service'.state)
    ensures Follows(old(Now(service)), op, outcome, Now(service'), Setup(service.version, hash, service.embed))
  {
    hide Fit, FitFile, Decode, Promised, Registered;
    service', outcome := service, Outcome(true, NO_COUNTS);
    match op {
      case SyncCall(sources, options, scan) =>
        var ok, result := service.Sync(sources, options, scan, hash);
        outcome := Outcome(ok, result);
      case Refit(unfit) =>
        service.vectors.unfit := unfit;
      case Restart(close, writable) =>
        ghost var dirty := service.state.needsFlush;
        if close {
          var flushed := service.state.Close(writable);
          if dirty && writable {
            FileLoads(service.state, service.origin);
          }
        }
        var loaded, state := OpenState(service.state.disk);
        FileMeans(service.state.disk, service.origin);
        service' := new Service(
          state, service.vectors, service.outside, service.version, service.embed, service.syncBatchSize,
          service.origin);
    }
  }

  lemma FileMeans(file: seq<Line>, origin: Origin)
    requires FitFile(file, origin)
    ensures Decode(file).Loaded? && Fit(Decode(file).points, origin) && "" !in Decode(file).runs
  {
  }

  lemma MomentFits(m: Moment, origin: Origin)
    requires Fit(m.held.points, origin) && FitFile(m.file, origin)
    ensures FitMoment(m, origin)
  {
  }

  /** An absent file is fit. */
  lemma NoFileIsFit(origin: Origin)
    ensures FitFile([], origin)
  {
  }
}
