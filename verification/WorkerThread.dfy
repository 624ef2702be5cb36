/** The query engine under the protocol: a worker that runs a query object over its
    snapshots takes exactly the protocol's steps (src/apps/relay/RelayReqWorker.cpp,
    src/QueryScheduler.h). */
module WorkerThread {
  import opened Events
  import opened Lookups
  import opened Scans
  import opened Queries
  import opened Subscriptions
  import opened Protocol

  /** The query object is that of subscription `i`, and as far. */
  ghost predicate Follows(q: DBQuery, s: State, i: nat)
    reads q, q.scanner
  {
    i < |s.subs| &&
    var sub := s.subs[i];
    && q.filters == sub.filters && q.latestEventId == sub.start && q.sent == sub.sent
    && q.Inv(sub.keep, sub.hist)
  }

  /** A new query object follows the subscription that the worker takes up. */
  lemma FollowsFromStart(q: DBQuery, s: State, i: nat)
    requires Inv(s) && s.worker.batch != [] && s.worker.batch[0] == Req(i) && i < |s.subs|
    requires q.filters == s.subs[i].filters && q.latestEventId == s.worker.latest && q.sent == []
    requires forall keep, hist :: q.Inv(keep, hist)
    ensures Follows(q, OnReq(s, i), i)
  {
    assert Queue(s.worker)[0] == Req(i);
    assert StoryOk(s.subs[i], TheWorld(s.store));
  }

  /** What another step may do to a subscription that is being queried. */
  ghost predicate Onward(sub: Subscription, sub': Subscription) {
    var filters := sub.filters;
    && sub'.filters == filters && sub'.start == sub.start && sub'.sent == sub.sent
    && Within(sub'.keep, sub.keep) && Within(sub.keep, sub.hist) && Within(sub.hist, sub'.hist)
  }

  lemma StepWithout(s: State, step: Step, i: nat)
    requires Inv(s) && Enabled(s, step) && i < |s.subs| && s.subs[i].stage.Querying?
    requires step.WorkerSend? ==> s.worker.held[step.key] != i
    ensures i < |After(s, step).subs| && Onward(s.subs[i], After(s, step).subs[i])
  {
    assert StoryOk(s.subs[i], TheWorld(s.store));
    match step
    case WorkerBegin => { NarrowedOnward(s.subs[i], s.store.db, TheWorld(s.store)); }
    case MonitorMessage => { MonitorLeavesQuerying(s, i); }
    case _ => { OthersLeaveQuerying(s, step, i); }
  }

  lemma NarrowedOnward(sub: Subscription, db: Table, w: World)
    requires StoryOk(sub, w) && sub.stage.Querying? && WorldOk(w) && Within(db, w.hist)
    ensures Onward(sub, Narrowed(sub, db))
  {
  }

  lemma OthersLeaveQuerying(s: State, step: Step, i: nat)
    requires PlacesOk(s) && Enabled(s, step) && i < |s.subs| && s.subs[i].stage.Querying?
    requires !step.WorkerBegin? && !step.MonitorMessage?
    requires step.WorkerSend? ==> s.worker.held[step.key] != i
    ensures i < |After(s, step).subs| && After(s, step).subs[i].(stage := Querying) == s.subs[i]
  {
    if step.WorkerMessage? { assert Queue(s.worker)[0] == s.worker.batch[0]; }
  }

  lemma MonitorLeavesQuerying(s: State, i: nat)
    requires PlacesOk(s) && Enabled(s, MonitorMessage) && i < |s.subs| && s.subs[i].stage.Querying?
    ensures i < |After(s, MonitorMessage).subs| && After(s, MonitorMessage).subs[i] == s.subs[i]
  {
    assert Queue(s.monitor)[0] == s.monitor.batch[0];
  }

  lemma FollowsOn(q: DBQuery, s: State, s': State, i: nat)
    requires Follows(q, s, i) && i < |s'.subs| && Onward(s.subs[i], s'.subs[i])
    ensures Follows(q, s', i)
  {
    QueryForward(q, s.subs[i].keep, s.subs[i].hist, s'.subs[i].keep, s'.subs[i].hist);
  }

  /** While other things happen, and between its slices, the query object stays in
      step: the store changes, the worker turns to new snapshots, other queries run. */
  lemma FollowsAlong(q: DBQuery, s: State, step: Step, i: nat)
    requires Inv(s) && Enabled(s, step) && Follows(q, s, i) && s.subs[i].stage.Querying?
    requires step.WorkerSend? ==> s.worker.held[step.key] != i
    ensures Follows(q, After(s, step), i)
  {
    StepWithout(s, step, i);
    FollowsOn(q, s, After(s, step), i);
  }

  /** The protocol's steps for what a slice sends. */
  function Sendings(key: SubKey, levIds: seq<nat>): (steps: seq<Step>) {
    seq(|levIds|, j requires 0 <= j < |levIds| => WorkerSend(key, levIds[j]))
  }

  function SentAll(s: State, i: nat, sent: seq<nat>): (s': State)
    requires i < |s.subs|
  {
    s.(subs := s.subs[i := s.subs[i].(sent := sent)])
  }

  /** Each of them may be sent after those before it. */
  ghost predicate MaySendAll(sub: Subscription, snap: Table, levIds: seq<nat>) {
    var sent := sub.sent;
    forall j :: 0 <= j < |levIds| ==> MaySend(sub.(sent := sent + levIds[..j]), snap, levIds[j])
  }

  lemma MaySendRest(sub: Subscription, snap: Table, levIds: seq<nat>)
    requires MaySendAll(sub, snap, levIds) && levIds != []
    ensures MaySend(sub, snap, levIds[0]) && MaySendAll(SentOne(sub, levIds[0]), snap, levIds[1..])
  {
    assert sub.sent + levIds[..0] == sub.sent;
    var sub' := SentOne(sub, levIds[0]);
    forall j | 0 <= j < |levIds[1..]| ensures MaySend(sub'.(sent := sub'.sent + levIds[1..][..j]), snap, levIds[1..][j]) {
      assert sub'.sent + levIds[1..][..j] == sub.sent + levIds[..j + 1];
    }
  }

  /** All of them can be taken, one after the other. */
  lemma {:induction false} SendingsRun(s: State, key: SubKey, i: nat, levIds: seq<nat>, after: seq<nat>)
    requires key in s.worker.held && s.worker.held[key] == i && i < |s.subs|
    requires MaySendAll(s.subs[i], s.worker.snap, levIds) && after == s.subs[i].sent + levIds
    ensures CanRun(s, Sendings(key, levIds)) && Run(s, Sendings(key, levIds)) == SentAll(s, i, after)
    decreases |levIds|
  {
    if levIds == [] {
      assert after == s.subs[i].sent && s.subs[i := s.subs[i]] == s.subs;
    } else {
      MaySendRest(s.subs[i], s.worker.snap, levIds);
      var s1 := After(s, WorkerSend(key, levIds[0]));
      SendingsRun(s1, key, i, levIds[1..], after);
      RunCons(s, WorkerSend(key, levIds[0]), Sendings(key, levIds[1..]));
      assert Sendings(key, levIds) == [WorkerSend(key, levIds[0])] + Sendings(key, levIds[1..]);
      assert SentAll(s1, i, after) == SentAll(s, i, after);
    }
  }

  /** The snapshot that the worker reads suits the query. */
  lemma SnapshotSuits(s: State, i: nat, snap: Snapshot)
    requires Inv(s) && i < |s.subs| && s.subs[i].stage.Querying? && snap.events == s.worker.snap
    ensures Within(s.subs[i].keep, snap.events) && Within(snap.events, s.subs[i].hist) && Within(s.subs[i].keep, s.subs[i].hist)
  {
    assert StoryOk(s.subs[i], TheWorld(s.store)) && KeepsUp(s.subs[i], s.worker.snap);
  }

  lemma AllMaySend(sub: Subscription, q: DBQuery, before: seq<nat>, snap: Table, hist: Table)
    requires q.Inv(sub.keep, hist) && q.filters == sub.filters && q.latestEventId == sub.start
    requires Sends(before, q.sent, snap) && Within(snap, hist) && sub.sent == before
    ensures MaySendAll(sub, snap, q.sent[|before|..])
  {
    var levIds := q.sent[|before|..];
    forall j | 0 <= j < |levIds| ensures MaySend(sub.(sent := before + levIds[..j]), snap, levIds[j]) {
      assert before + levIds[..j] == q.sent[..|before| + j];
      SliceMaySend(sub, q, before, snap, sub.keep, hist, |before| + j);
    }
  }

  /** A slice of the query engine on the worker's snapshot is a run of the protocol, in
      which the subscription sends what the engine sends. When the engine is done, the
      protocol may complete the subscription. */
  method RunSteps(q: DBQuery, ghost s: State, ghost key: SubKey, snap: Snapshot, clock: Clock) returns (complete: bool, ghost steps: seq<Step>)
    requires Inv(s) && key in s.worker.held && Follows(q, s, s.worker.held[key])
    requires SnapshotOk(snap) && snap.events == s.worker.snap
    modifies q, q.scanner
    ensures CanRun(s, steps) && Run(s, steps) == SentAll(s, s.worker.held[key], q.sent)
    ensures Follows(q, Run(s, steps), s.worker.held[key])
    ensures !complete ==> clock.Limited? && q.SlicesLeft(snap) < old(q.SlicesLeft(snap))
    ensures complete ==> Enabled(Run(s, steps), WorkerComplete(key))
  {
    ghost var i, before := s.worker.held[key], q.sent;
    SnapshotSuits(s, i, snap);
    complete := q.Process(snap, clock, s.subs[i].keep, s.subs[i].hist);
    steps := Sendings(key, q.sent[|before|..]);
    AllMaySend(s.subs[i], q, before, s.worker.snap, s.subs[i].hist);
    SendingsRun(s, key, i, q.sent[|before|..], q.sent);
    if complete {
      assert q.scanner == null;
      QueryAnswers(q, s.subs[i].keep, s.subs[i].hist);
    }
  }
}
