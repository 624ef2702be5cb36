/** A CLOSE, or the end of a connection, follows its subscriptions through worker and
    monitor, and neither keeps one behind it (src/apps/relay/RelayReqWorker.cpp,
    src/apps/relay/RelayReqMonitor.cpp, src/QueryScheduler.h). */
module Closing {
  import opened Lookups
  import opened Subscriptions
  import opened Protocol

  predicate ClosesReq(m: WorkerMsg, key: SubKey) {
    m == Close(key) || m == Disconnect(key.connId)
  }

  predicate ClosesSub(m: MonitorMsg, key: SubKey) {
    m == RemoveSub(key) || m == CloseConn(key.connId)
  }

  /** A closing message stands in the worker's queue after position `p`. */
  ghost predicate WorkerCloses(q: seq<WorkerMsg>, p: int, key: SubKey) {
    exists r :: p < r < |q| && 0 <= r && ClosesReq(q[r], key)
  }

  ghost predicate MonitorCloses(q: seq<MonitorMsg>, p: int, key: SubKey) {
    exists r :: p < r < |q| && 0 <= r && ClosesSub(q[r], key)
  }

  /** Where a subscription is: the two queues, and whether each thread holds it. */
  datatype Spot = Spot(reqs: seq<WorkerMsg>, querying: bool, subs: seq<MonitorMsg>, monitored: bool)

  function SpotOf(s: State, i: nat): (r: Spot) {
    Spot(Queue(s.worker), i in s.worker.held.Values, Queue(s.monitor), i in s.monitor.held.Values)
  }

  /** Wherever subscription `i` is, a closing message is behind it. */
  ghost predicate Followed(t: Spot, i: nat, key: SubKey) {
    && (forall p :: 0 <= p < |t.reqs| && t.reqs[p] == Req(i) ==> WorkerCloses(t.reqs, p, key))
    && (t.querying ==> WorkerCloses(t.reqs, -1, key))
    && (forall p :: 0 <= p < |t.subs| && t.subs[p] == NewSub(i) ==> WorkerCloses(t.reqs, -1, key) || MonitorCloses(t.subs, p, key))
    && (t.monitored ==> WorkerCloses(t.reqs, -1, key) || MonitorCloses(t.subs, -1, key))
  }

  // ---------------------------------------------------------------------------
  // Queues

  lemma WorkerPush(q: seq<WorkerMsg>, m: WorkerMsg, key: SubKey)
    ensures forall p :: WorkerCloses(q, p, key) ==> WorkerCloses(q + [m], p, key)
    ensures ClosesReq(m, key) ==> forall p :: p < |q| ==> WorkerCloses(q + [m], p, key)
  {
    forall p | WorkerCloses(q, p, key) ensures WorkerCloses(q + [m], p, key) {
      var r :| p < r < |q| && 0 <= r && ClosesReq(q[r], key);
      assert ClosesReq((q + [m])[r], key);
    }
    assert (q + [m])[|q|] == m;
  }

  lemma WorkerPop(q: seq<WorkerMsg>, p: int, key: SubKey)
    requires q != [] && WorkerCloses(q, p, key) && (p >= 0 || !ClosesReq(q[0], key))
    ensures WorkerCloses(q[1..], p - 1, key) && WorkerCloses(q[1..], -1, key)
  {
    var r :| p < r < |q| && 0 <= r && ClosesReq(q[r], key);
    assert ClosesReq(q[1..][r - 1], key);
  }

  lemma MonitorPush(q: seq<MonitorMsg>, m: MonitorMsg, key: SubKey)
    ensures forall p :: MonitorCloses(q, p, key) ==> MonitorCloses(q + [m], p, key)
    ensures ClosesSub(m, key) ==> forall p :: p < |q| ==> MonitorCloses(q + [m], p, key)
  {
    forall p | MonitorCloses(q, p, key) ensures MonitorCloses(q + [m], p, key) {
      var r :| p < r < |q| && 0 <= r && ClosesSub(q[r], key);
      assert ClosesSub((q + [m])[r], key);
    }
    assert (q + [m])[|q|] == m;
  }

  lemma MonitorPop(q: seq<MonitorMsg>, p: int, key: SubKey)
    requires q != [] && MonitorCloses(q, p, key) && (p >= 0 || !ClosesSub(q[0], key))
    ensures MonitorCloses(q[1..], p - 1, key) && MonitorCloses(q[1..], -1, key)
  {
    var r :| p < r < |q| && 0 <= r && ClosesSub(q[r], key);
    assert ClosesSub(q[1..][r - 1], key);
  }

  // ---------------------------------------------------------------------------
  // Moves

  /** A message comes in from the client. */
  lemma FollowedIncoming(t: Spot, i: nat, key: SubKey, m: WorkerMsg)
    requires Followed(t, i, key) && m != Req(i)
    ensures Followed(t.(reqs := t.reqs + [m]), i, key)
  {
    WorkerPush(t.reqs, m, key);
  }

  /** The client closes it. */
  lemma FollowedClosed(t: Spot, i: nat, key: SubKey, m: WorkerMsg)
    requires ClosesReq(m, key)
    ensures Followed(t.(reqs := t.reqs + [m]), i, key)
  {
    WorkerPush(t.reqs, m, key);
    assert m != Req(i);
  }

  /** A message goes from the worker to the monitor. */
  lemma FollowedForwarded(t: Spot, i: nat, key: SubKey, m: MonitorMsg)
    requires Followed(t, i, key) && (m == NewSub(i) ==> t.querying)
    ensures Followed(t.(subs := t.subs + [m]), i, key)
  {
    MonitorPush(t.subs, m, key);
  }

  /** A thread lets go of it. */
  lemma FollowedReleased(t: Spot, i: nat, key: SubKey, t': Spot)
    requires Followed(t, i, key) && t'.reqs == t.reqs && t'.subs == t.subs
    requires (t'.querying ==> t.querying) && (t'.monitored ==> t.monitored)
    ensures Followed(t', i, key)
  {
  }

  /** The worker takes a message that does not close it. */
  lemma FollowedTaken(t: Spot, i: nat, key: SubKey, querying: bool)
    requires Followed(t, i, key) && t.reqs != [] && !ClosesReq(t.reqs[0], key)
    requires querying ==> t.querying || t.reqs[0] == Req(i)
    ensures Followed(t.(reqs := t.reqs[1..], querying := querying), i, key)
  {
    forall p | WorkerCloses(t.reqs, p, key) && p >= -1 ensures WorkerCloses(t.reqs[1..], p - 1, key) && WorkerCloses(t.reqs[1..], -1, key) {
      WorkerPop(t.reqs, p, key);
    }
    forall p | 0 <= p < |t.reqs[1..]| && t.reqs[1..][p] == Req(i) ensures WorkerCloses(t.reqs[1..], p, key) {
      assert t.reqs[p + 1] == Req(i);
    }
  }

  /** The worker takes a message that closes it, and passes it on. */
  lemma FollowedPassedOn(t: Spot, i: nat, key: SubKey, m: MonitorMsg)
    requires Followed(t, i, key) && t.reqs != [] && ClosesReq(t.reqs[0], key) && ClosesSub(m, key)
    ensures Followed(t.(reqs := t.reqs[1..], querying := false, subs := t.subs + [m]), i, key)
  {
    MonitorPush(t.subs, m, key);
    assert m != NewSub(i);
    forall p | 0 <= p < |t.reqs[1..]| && t.reqs[1..][p] == Req(i) ensures WorkerCloses(t.reqs[1..], p, key) {
      assert t.reqs[p + 1] == Req(i);
      WorkerPop(t.reqs, p + 1, key);
    }
  }

  /** The monitor takes a message that does not close it. */
  lemma FollowedInstalled(t: Spot, i: nat, key: SubKey, monitored: bool)
    requires Followed(t, i, key) && t.subs != [] && !ClosesSub(t.subs[0], key)
    requires monitored ==> t.monitored || t.subs[0] == NewSub(i)
    ensures Followed(t.(subs := t.subs[1..], monitored := monitored), i, key)
  {
    forall p | MonitorCloses(t.subs, p, key) && p >= -1 ensures MonitorCloses(t.subs[1..], p - 1, key) && MonitorCloses(t.subs[1..], -1, key) {
      MonitorPop(t.subs, p, key);
    }
    forall p | 0 <= p < |t.subs[1..]| && t.subs[1..][p] == NewSub(i)
      ensures WorkerCloses(t.reqs, -1, key) || MonitorCloses(t.subs[1..], p, key)
    {
      assert t.subs[p + 1] == NewSub(i);
    }
  }

  /** The monitor takes a message that closes it. */
  lemma FollowedRemoved(t: Spot, i: nat, key: SubKey)
    requires Followed(t, i, key) && t.subs != [] && ClosesSub(t.subs[0], key)
    ensures Followed(t.(subs := t.subs[1..], monitored := false), i, key)
  {
    forall p | 0 <= p < |t.subs[1..]| && t.subs[1..][p] == NewSub(i)
      ensures WorkerCloses(t.reqs, -1, key) || MonitorCloses(t.subs[1..], p, key)
    {
      assert t.subs[p + 1] == NewSub(i);
      if MonitorCloses(t.subs, p + 1, key) { MonitorPop(t.subs, p + 1, key); }
    }
  }

  // ---------------------------------------------------------------------------
  // Steps

  ghost predicate FollowedAt(s: State, i: nat) {
    i < |s.subs| && Followed(SpotOf(s, i), i, s.subs[i].key)
  }

  lemma AfterIncoming(s: State, i: nat, m: WorkerMsg, s': State)
    requires FollowedAt(s, i) && m != Req(i) && s'.worker == Push(s.worker, m) && s'.monitor == s.monitor
    requires |s.subs| <= |s'.subs| && s'.subs[i].key == s.subs[i].key
    ensures FollowedAt(s', i)
  {
    FollowedIncoming(SpotOf(s, i), i, s.subs[i].key, m);
    assert Queue(s'.worker) == Queue(s.worker) + [m];
  }

  lemma AfterClosed(s: State, i: nat, m: WorkerMsg, s': State)
    requires i < |s.subs| && ClosesReq(m, s.subs[i].key)
    requires s'.worker == Push(s.worker, m) && s'.monitor == s.monitor && s'.subs == s.subs
    ensures FollowedAt(s', i)
  {
    FollowedClosed(SpotOf(s, i), i, s.subs[i].key, m);
    assert Queue(s'.worker) == Queue(s.worker) + [m];
  }

  /** Holding one more subscription. */
  lemma HeldAfter<M>(t: Thread<M>, key: SubKey, sub: nat, maxSubs: nat, i: nat)
    requires i in Hold(t, key, sub, maxSubs).held.Values
    ensures i in t.held.Values || i == sub
  {
    var k :| k in Hold(t, key, sub, maxSubs).held && Hold(t, key, sub, maxSubs).held[k] == i;
    if k != key { assert t.held[k] == i; }
  }

  lemma ReleasedAfter<M>(t: Thread<M>, keys: set<SubKey>, i: nat)
    requires i in Release(t, keys).held.Values
    ensures i in t.held.Values && exists k :: k in t.held && k !in keys && t.held[k] == i
  {
    var k :| k in Release(t, keys).held && Release(t, keys).held[k] == i;
    assert t.held[k] == i;
  }

  lemma AfterReq(s: State, i: nat, j: nat)
    requires FollowedAt(s, i) && s.worker.batch != [] && s.worker.batch[0] == Req(j) && j < |s.subs|
    ensures FollowedAt(OnReq(s, j), i)
  {
    var s' := OnReq(s, j);
    assert Queue(s'.worker) == Queue(s.worker)[1..] && Queue(s.worker)[0] == Req(j);
    if i in s'.worker.held.Values { HeldAfter(Pop(s.worker), s.subs[j].key, j, s.maxSubs, i); }
    FollowedTaken(SpotOf(s, i), i, s.subs[i].key, i in s'.worker.held.Values);
  }

  lemma AfterNewSub(s: State, i: nat, j: nat)
    requires FollowedAt(s, i) && s.monitor.batch != [] && s.monitor.batch[0] == NewSub(j) && j < |s.subs|
    ensures FollowedAt(OnNewSub(s, j), i)
  {
    var s' := OnNewSub(s, j);
    assert Queue(s'.monitor) == Queue(s.monitor)[1..] && Queue(s.monitor)[0] == NewSub(j);
    if i in s'.monitor.held.Values { HeldAfter(Pop(s.monitor), s.subs[j].key, j, s.maxSubs, i); }
    FollowedInstalled(SpotOf(s, i), i, s.subs[i].key, i in s'.monitor.held.Values);
  }

  /** The worker lets go of exactly what a closing message closes, and passes on a
      message that closes the same. */
  ghost predicate SameClosing(s: State, keys: set<SubKey>, m: MonitorMsg)
    requires s.worker.batch != []
  {
    && !s.worker.batch[0].Req? && !m.NewSub?
    && (forall k :: ClosesReq(s.worker.batch[0], k) <==> ClosesSub(m, k))
    && forall k :: k in s.worker.held && ClosesReq(s.worker.batch[0], k) ==> k in keys
  }

  lemma AfterClosing(s: State, i: nat, keys: set<SubKey>, m: MonitorMsg)
    requires FollowedAt(s, i) && HeldOk(s.worker.held, s.subs, Querying)
    requires s.worker.batch != [] && SameClosing(s, keys, m)
    ensures FollowedAt(OnClosing(s, keys, m), i)
  {
    var s', t, key := OnClosing(s, keys, m), SpotOf(s, i), s.subs[i].key;
    assert Queue(s'.worker) == Queue(s.worker)[1..] && Queue(s.worker)[0] == s.worker.batch[0];
    assert Queue(s'.monitor) == Queue(s.monitor) + [m];
    if i in s'.worker.held.Values { ReleasedAfter(Pop(s.worker), keys, i); }
    if ClosesReq(t.reqs[0], key) {
      FollowedPassedOn(t, i, key, m);
    } else {
      FollowedTaken(t, i, key, i in s'.worker.held.Values);
      FollowedForwarded(t.(reqs := t.reqs[1..], querying := i in s'.worker.held.Values), i, key, m);
    }
  }

  lemma AfterRemoved(s: State, i: nat, keys: set<SubKey>)
    requires FollowedAt(s, i) && HeldOk(s.monitor.held, s.subs, Monitoring)
    requires s.monitor.batch != [] && !s.monitor.batch[0].NewSub?
    requires forall k :: k in s.monitor.held && ClosesSub(s.monitor.batch[0], k) ==> k in keys
    ensures FollowedAt(s.(monitor := Release(Pop(s.monitor), keys)), i)
  {
    var s', t, key := s.(monitor := Release(Pop(s.monitor), keys)), SpotOf(s, i), s.subs[i].key;
    assert Queue(s'.monitor) == Queue(s.monitor)[1..] && Queue(s.monitor)[0] == s.monitor.batch[0];
    if i in s'.monitor.held.Values { ReleasedAfter(Pop(s.monitor), keys, i); }
    if ClosesSub(t.subs[0], key) {
      FollowedRemoved(t, i, key);
    } else {
      FollowedInstalled(t, i, key, i in s'.monitor.held.Values);
    }
  }

  lemma AfterComplete(s: State, i: nat, key: SubKey)
    requires FollowedAt(s, i) && Enabled(s, WorkerComplete(key))
    ensures FollowedAt(After(s, WorkerComplete(key)), i)
  {
    var s', j, t := After(s, WorkerComplete(key)), s.worker.held[key], SpotOf(s, i);
    assert Queue(s'.monitor) == Queue(s.monitor) + [NewSub(j)];
    if i in s'.worker.held.Values { ReleasedAfter(s.worker, {key}, i); }
    FollowedForwarded(t, i, s.subs[i].key, NewSub(j));
    FollowedReleased(t.(subs := t.subs + [NewSub(j)]), i, s.subs[i].key, SpotOf(s', i));
  }

  lemma AfterWorkerMessage(s: State, i: nat)
    requires PlacesOk(s) && FollowedAt(s, i) && Enabled(s, WorkerMessage)
    ensures FollowedAt(After(s, WorkerMessage), i)
  {
    match s.worker.batch[0]
    case Req(j) => { AfterReq(s, i, j); }
    case Close(key) => { AfterClosing(s, i, {key}, RemoveSub(key)); }
    case Disconnect(connId) => { AfterClosing(s, i, OfConn(s.worker.held.Keys, connId), CloseConn(connId)); }
  }

  lemma AfterMonitorMessage(s: State, i: nat)
    requires PlacesOk(s) && FollowedAt(s, i) && Enabled(s, MonitorMessage)
    ensures FollowedAt(After(s, MonitorMessage), i)
  {
    match s.monitor.batch[0]
    case NewSub(j) => { AfterNewSub(s, i, j); }
    case RemoveSub(key) => { AfterRemoved(s, i, {key}); }
    case CloseConn(connId) => { AfterRemoved(s, i, OfConn(s.monitor.held.Keys, connId)); }
    case DBChange => {
      var s' := OnDBChange(s);
      AfterRemoved(s, i, {});
      assert s.monitor.held - {} == s.monitor.held;
    }
  }

  lemma AfterQuiet(s: State, step: Step, i: nat)
    requires FollowedAt(s, i) && Enabled(s, step)
    requires step.Change? || step.WorkerBegin? || step.WorkerSend? || step.MonitorBegin?
    ensures FollowedAt(After(s, step), i)
  {
    var s' := After(s, step);
    assert Queue(s'.worker) == Queue(s.worker) && Queue(s'.monitor) == Queue(s.monitor);
  }

  lemma AfterNotify(s: State, i: nat)
    requires FollowedAt(s, i)
    ensures FollowedAt(After(s, Notify), i)
  {
    FollowedForwarded(SpotOf(s, i), i, s.subs[i].key, DBChange);
    assert Queue(After(s, Notify).monitor) == Queue(s.monitor) + [DBChange];
  }

  lemma FollowedKept(s: State, step: Step, i: nat)
    requires PlacesOk(s) && FollowedAt(s, i) && Enabled(s, step)
    ensures FollowedAt(After(s, step), i)
  {
    match step
    case ClientReq(key, filters) => { AfterIncoming(s, i, Req(|s.subs|), After(s, step)); }
    case ClientClose(key) => { AfterIncoming(s, i, Close(key), After(s, step)); }
    case ClientDisconnect(connId) => { AfterIncoming(s, i, Disconnect(connId), After(s, step)); }
    case WorkerMessage => { AfterWorkerMessage(s, i); }
    case WorkerComplete(key) => { AfterComplete(s, i, key); }
    case Notify => { AfterNotify(s, i); }
    case MonitorMessage => { AfterMonitorMessage(s, i); }
    case _ => { AfterQuiet(s, step, i); }
  }

  ghost predicate ClosedOk(s: State) {
    forall i :: i in s.closed ==> FollowedAt(s, i)
  }

  lemma ClosedKept(s: State, step: Step)
    requires PlacesOk(s) && ClosedOk(s) && Enabled(s, step)
    ensures ClosedOk(After(s, step))
  {
    forall i | i in After(s, step).closed ensures FollowedAt(After(s, step), i) {
      if i in s.closed { FollowedKept(s, step, i); }
      else if step.ClientClose? { AfterClosed(s, i, Close(step.key), After(s, step)); }
      else if step.ClientDisconnect? { AfterClosed(s, i, Disconnect(step.connId), After(s, step)); }
    }
  }

  lemma {:induction false} RunClosedOk(s: State, steps: seq<Step>)
    requires Inv(s) && ClosedOk(s) && CanRun(s, steps)
    ensures ClosedOk(Run(s, steps))
    decreases |steps|
  {
    if steps != [] {
      StepKeepsInv(s, steps[0]);
      ClosedKept(s, steps[0]);
      RunClosedOk(After(s, steps[0]), steps[1..]);
    }
  }

  // ---------------------------------------------------------------------------
  // Nothing is left behind

  /** No message that closes `key` is on its way. */
  predicate Passed(s: State, key: SubKey) {
    && (forall r :: 0 <= r < |Queue(s.worker)| ==> !ClosesReq(Queue(s.worker)[r], key))
    && (forall r :: 0 <= r < |Queue(s.monitor)| ==> !ClosesSub(Queue(s.monitor)[r], key))
  }

  /** No thread holds the subscription and no message carries it. */
  predicate Gone(s: State, i: nat) {
    && i < |s.subs|
    && Req(i) !in Queue(s.worker) && NewSub(i) !in Queue(s.monitor)
    && i !in s.worker.held.Values && i !in s.monitor.held.Values
  }

  lemma PassedIsGone(s: State, i: nat)
    requires FollowedAt(s, i) && Passed(s, s.subs[i].key)
    ensures Gone(s, i)
  {
  }

  /** In every run, once the closing message has passed both threads, the closed
      subscription is nowhere. */
  lemma ClosedIsGone(s0: State, steps: seq<Step>, s: State, i: nat)
    requires Initial(s0) && CanRun(s0, steps) && s == Run(s0, steps)
    requires i in s.closed && i < |s.subs| && Passed(s, s.subs[i].key)
    ensures Gone(s, i)
  {
    InitialInv(s0);
    RunClosedOk(s0, steps);
    PassedIsGone(s, i);
  }

  lemma GoneAfterMessage(s: State, step: Step, i: nat)
    requires Enabled(s, step) && Gone(s, i) && (step.WorkerMessage? || step.MonitorMessage?)
    ensures Gone(After(s, step), i)
    ensures Messages(After(s, step).subs[i]) == Messages(s.subs[i])
  {
    if step.WorkerMessage? { assert Queue(s.worker)[0] == s.worker.batch[0]; }
    else { assert Queue(s.monitor)[0] == s.monitor.batch[0]; }
  }

  lemma GoneAfterOther(s: State, step: Step, i: nat)
    requires Enabled(s, step) && Gone(s, i) && !step.WorkerMessage? && !step.MonitorMessage?
    ensures Gone(After(s, step), i)
    ensures Messages(After(s, step).subs[i]) == Messages(s.subs[i])
  {
    if step.WorkerSend? || step.WorkerComplete? { assert s.worker.held[step.key] in s.worker.held.Values; }
  }

  /** A subscription that is gone stays gone, and is sent nothing more. */
  lemma {:induction false} GoneIsSilent(s: State, steps: seq<Step>, i: nat)
    requires CanRun(s, steps) && Gone(s, i)
    ensures Gone(Run(s, steps), i)
    ensures Messages(Run(s, steps).subs[i]) == Messages(s.subs[i])
    decreases |steps|
  {
    if steps != [] {
      if steps[0].WorkerMessage? || steps[0].MonitorMessage? { GoneAfterMessage(s, steps[0], i); }
      else { GoneAfterOther(s, steps[0], i); }
      GoneIsSilent(After(s, steps[0]), steps[1..], i);
    }
  }
}
