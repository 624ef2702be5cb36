/** The subscription protocol: requests travel from the client to the worker thread
    and from there to the monitor thread, through FIFO inboxes, while writers and
    sweeps change the store (src/apps/relay/RelayReqWorker.cpp,
    src/apps/relay/RelayReqMonitor.cpp, src/QueryScheduler.h, src/ThreadPool.h). */
module Protocol {
  import opened Events
  import opened Filters
  import opened Lookups
  import opened Subscriptions
  import Queries
  import Store
  import Cron

  datatype WorkerMsg = Req(sub: nat) | Close(key: SubKey) | Disconnect(connId: nat)

  datatype MonitorMsg = NewSub(sub: nat) | RemoveSub(key: SubKey) | CloseConn(connId: nat) | DBChange

  /** A thread: the messages it has popped and not yet handled, its inbox, its read
      snapshot with that snapshot's newest levId, and the subscriptions it holds. */
  datatype Thread<M> = Thread(batch: seq<M>, inbox: seq<M>, snap: Table, latest: nat, held: map<SubKey, nat>)

  /** Messages and threads hold subscriptions by their number in `subs`. `closed` are
      those the client has closed or that belong to a connection that is gone. */
  datatype State = State(
    store: Cron.State,
    subs: seq<Subscription>,
    worker: Thread<WorkerMsg>,
    monitor: Thread<MonitorMsg>,
    currEventId: nat,
    maxSubs: nat,
    closed: set<nat>)

  datatype Step =
    | Change(step: Cron.Step)
    | ClientReq(key: SubKey, filters: seq<Filter>)
    | ClientClose(key: SubKey)
    | ClientDisconnect(connId: nat)
    | WorkerBegin
    | WorkerMessage
    | WorkerSend(key: SubKey, levId: nat)
    | WorkerComplete(key: SubKey)
    | Notify
    | MonitorBegin
    | MonitorMessage

  ghost function TheWorld(st: Cron.State): (w: World) {
    World(st.db, st.hist, Store.MaxLevId(st.db))
  }

  // ---------------------------------------------------------------------------
  // Queues

  function Queue<M>(t: Thread<M>): (q: seq<M>) {
    t.batch + t.inbox
  }

  function Push<M>(t: Thread<M>, m: M): (t': Thread<M>) {
    t.(inbox := t.inbox + [m])
  }

  function Pop<M>(t: Thread<M>): (t': Thread<M>)
    requires t.batch != []
  {
    t.(batch := t.batch[1..])
  }

  /** pop_all, and a new read transaction. */
  function Begin<M>(t: Thread<M>, w: World): (t': Thread<M>) {
    t.(batch := t.inbox, inbox := [], snap := w.db, latest := w.top)
  }

  function Hold<M>(t: Thread<M>, key: SubKey, sub: nat, maxSubs: nat): (t': Thread<M>) {
    var others := t.held - {key};
    if |OfConn(others.Keys, key.connId)| < maxSubs then t.(held := others[key := sub]) else t.(held := others)
  }

  function Release<M>(t: Thread<M>, keys: set<SubKey>): (t': Thread<M>) {
    t.(held := t.held - keys)
  }

  // ---------------------------------------------------------------------------
  // Steps

  /** What may happen next. A query sends an event or ends as the query engine
      allows; the threads pop their inbox when they are done with the last batch. */
  ghost predicate Enabled(s: State, step: Step) {
    match step
    case Change(c) => Cron.Enabled(s.store, c)
    case ClientReq(key, filters) => forall f :: f in filters ==> Queries.Runnable(f)
    case ClientClose(key) => true
    case ClientDisconnect(connId) => true
    case WorkerBegin => s.worker.batch == []
    case WorkerMessage => s.worker.batch != [] && (s.worker.batch[0].Req? ==> s.worker.batch[0].sub < |s.subs|)
    case WorkerSend(key, levId) =>
      key in s.worker.held && s.worker.held[key] < |s.subs| && MaySend(s.subs[s.worker.held[key]], s.worker.snap, levId)
    case WorkerComplete(key) =>
      && key in s.worker.held && s.worker.held[key] < |s.subs|
      && var sub := s.subs[s.worker.held[key]];
         Queries.Answered(sub.filters, sub.start, sub.sent, sub.keep, sub.hist)
    case Notify => true
    case MonitorBegin => s.monitor.batch == []
    case MonitorMessage => s.monitor.batch != [] && (s.monitor.batch[0].NewSub? ==> s.monitor.batch[0].sub < |s.subs|)
  }

  /** A new subscription object has no watermark yet. */
  function Request(key: SubKey, filters: seq<Filter>): (sub: Subscription) {
    Subscription(key, filters, MAX_U64, Requested, 0, map[], map[], map[], [], [])
  }

  function OnReq(s: State, i: nat): (s': State)
    requires s.worker.batch != [] && i < |s.subs|
  {
    s.(subs := s.subs[i := Started(s.subs[i], s.worker.snap, s.worker.latest)],
       worker := Hold(Pop(s.worker), s.subs[i].key, i, s.maxSubs))
  }

  /** The worker lets go of some subscriptions and passes the message on. */
  function OnClosing(s: State, keys: set<SubKey>, m: MonitorMsg): (s': State)
    requires s.worker.batch != []
  {
    s.(worker := Release(Pop(s.worker), keys), monitor := Push(s.monitor, m))
  }

  function OnNewSub(s: State, i: nat): (s': State)
    requires s.monitor.batch != [] && i < |s.subs|
  {
    s.(subs := s.subs[i := CaughtUp(s.subs[i], s.monitor.snap, s.monitor.latest)],
       monitor := Hold(Pop(s.monitor), s.subs[i].key, i, s.maxSubs))
  }

  function OnDBChange(s: State): (s': State)
    requires s.monitor.batch != []
  {
    s.(subs := seq(|s.subs|, i requires 0 <= i < |s.subs| =>
         if i in s.monitor.held.Values then Updated(s.subs[i], s.monitor.snap, s.currEventId, s.monitor.latest) else s.subs[i]),
       monitor := Pop(s.monitor),
       currEventId := s.monitor.latest)
  }

  ghost function After(s: State, step: Step): (s': State)
    requires Enabled(s, step)
  {
    match step
    case Change(c) => s.(store := Cron.After(s.store, c))
    case ClientReq(key, filters) =>
      s.(subs := s.subs + [Request(key, filters)], worker := Push(s.worker, Req(|s.subs|)))
    case ClientClose(key) =>
      s.(closed := s.closed + (set i | 0 <= i < |s.subs| && s.subs[i].key == key), worker := Push(s.worker, Close(key)))
    case ClientDisconnect(connId) =>
      s.(closed := s.closed + (set i | 0 <= i < |s.subs| && s.subs[i].key.connId == connId), worker := Push(s.worker, Disconnect(connId)))
    case WorkerBegin =>
      s.(subs := seq(|s.subs|, i requires 0 <= i < |s.subs| => Narrowed(s.subs[i], s.store.db)),
         worker := Begin(s.worker, TheWorld(s.store)))
    case WorkerMessage =>
      (match s.worker.batch[0]
       case Req(i) => OnReq(s, i)
       case Close(key) => OnClosing(s, {key}, RemoveSub(key))
       case Disconnect(connId) => OnClosing(s, OfConn(s.worker.held.Keys, connId), CloseConn(connId)))
    case WorkerSend(key, levId) =>
      var i := s.worker.held[key];
      s.(subs := s.subs[i := SentOne(s.subs[i], levId)])
    case WorkerComplete(key) =>
      var i := s.worker.held[key];
      s.(subs := s.subs[i := Completed(s.subs[i])],
         worker := Release(s.worker, {key}),
         monitor := Push(s.monitor, NewSub(i)))
    case Notify => s.(monitor := Push(s.monitor, DBChange))
    case MonitorBegin =>
      var t := Begin(s.monitor, TheWorld(s.store));
      s.(monitor := t, currEventId := if s.currEventId > t.latest then t.latest else s.currEventId)
    case MonitorMessage =>
      match s.monitor.batch[0]
      case NewSub(i) => OnNewSub(s, i)
      case RemoveSub(key) => s.(monitor := Release(Pop(s.monitor), {key}))
      case CloseConn(connId) => s.(monitor := Release(Pop(s.monitor), OfConn(s.monitor.held.Keys, connId)))
      case DBChange => OnDBChange(s)
  }

  // ---------------------------------------------------------------------------
  // The invariant

  /** Requests in the worker's queue are new subscriptions, each there once. */
  ghost predicate ReqsOk(q: seq<WorkerMsg>, subs: seq<Subscription>) {
    && (forall p :: 0 <= p < |q| && q[p].Req? ==> q[p].sub < |subs| && subs[q[p].sub].stage.Requested?)
    && forall p, r :: 0 <= p < r < |q| && q[p].Req? && q[r].Req? ==> q[p].sub != q[r].sub
  }

  ghost predicate NewSubsOk(q: seq<MonitorMsg>, subs: seq<Subscription>) {
    && (forall p :: 0 <= p < |q| && q[p].NewSub? ==> q[p].sub < |subs| && subs[q[p].sub].stage.HandedOver?)
    && forall p, r :: 0 <= p < r < |q| && q[p].NewSub? && q[r].NewSub? ==> q[p].sub != q[r].sub
  }

  ghost predicate HeldOk(held: map<SubKey, nat>, subs: seq<Subscription>, stage: Stage) {
    forall k :: k in held ==> held[k] < |subs| && subs[held[k]].key == k && subs[held[k]].stage == stage
  }

  /** What the monitor has popped is not newer than its snapshot. */
  ghost predicate BatchOk(batch: seq<MonitorMsg>, subs: seq<Subscription>, latest: nat) {
    forall p :: 0 <= p < |batch| && batch[p].NewSub? && batch[p].sub < |subs| ==> subs[batch[p].sub].start <= latest
  }

  /** The monitored subscriptions are complete up to what has been processed. */
  ghost predicate MonitoredOk(held: map<SubKey, nat>, subs: seq<Subscription>, w: World, curr: nat, latest: nat) {
    forall k :: k in held && held[k] < |subs| ==>
      && Max(subs[held[k]].latestEventId, curr) <= latest
      && UpTo(subs[held[k]], w, Max(subs[held[k]].latestEventId, curr))
  }

  ghost predicate StoriesOk(subs: seq<Subscription>, w: World) {
    forall i :: 0 <= i < |subs| ==> StoryOk(subs[i], w)
  }

  /** Once the monitor has begun, it has not processed beyond its snapshot. */
  ghost predicate CurrOk(t: Thread<MonitorMsg>, curr: nat) {
    t.batch != [] || t.held != map[] ==> curr <= t.latest
  }

  ghost predicate PlacesOk(s: State) {
    && ReqsOk(Queue(s.worker), s.subs)
    && NewSubsOk(Queue(s.monitor), s.subs)
    && HeldOk(s.worker.held, s.subs, Querying)
    && HeldOk(s.monitor.held, s.subs, Monitoring)
  }

  ghost predicate DeliveryOk(s: State, w: World) {
    && StoriesOk(s.subs, w)
    && SnapshotOf(s.worker.snap, s.worker.latest, w)
    && SnapshotOf(s.monitor.snap, s.monitor.latest, w)
    && BatchOk(s.monitor.batch, s.subs, s.monitor.latest)
    && CurrOk(s.monitor, s.currEventId)
    && MonitoredOk(s.monitor.held, s.subs, w, s.currEventId, s.monitor.latest)
  }

  /** What the query still has to find is in the snapshot that the worker reads, and it
      may have found what is in it. */
  ghost predicate KeepsUp(sub: Subscription, snap: Table) {
    sub.stage.Querying? ==> Within(sub.keep, snap) && Within(snap, sub.hist)
  }

  ghost predicate KeepsOk(subs: seq<Subscription>, snap: Table) {
    var n := |subs|;
    forall i :: 0 <= i < n ==> KeepsUp(subs[i], snap)
  }

  ghost predicate Inv(s: State) {
    var w := TheWorld(s.store);
    && Cron.RunInv(s.store)
    && PlacesOk(s)
    && DeliveryOk(s, w)
    && KeepsOk(s.subs, s.worker.snap)
  }

  /** Nothing is requested and no thread has begun (so no snapshot is used yet). */
  ghost predicate Initial(s: State) {
    var w := TheWorld(s.store);
    && Cron.RunInv(s.store)
    && s.subs == [] && s.closed == {} && s.currEventId == MAX_U64
    && s.worker == Thread([], [], w.db, w.top, map[])
    && s.monitor == Thread([], [], w.db, w.top, map[])
  }

  // ---------------------------------------------------------------------------
  // A subscription is in one place only

  /** No subscription has moved, though more may have come. */
  ghost predicate SamePlaces(subs: seq<Subscription>, subs': seq<Subscription>) {
    |subs| <= |subs'| && forall i :: 0 <= i < |subs| ==> subs'[i].key == subs[i].key && subs'[i].stage == subs[i].stage
  }

  lemma SamePlacesOk(s: State, subs: seq<Subscription>)
    requires PlacesOk(s) && SamePlaces(s.subs, subs)
    ensures PlacesOk(s.(subs := subs))
  {
  }

  /** The first message is gone from the queue, and the subscription in it has moved. */
  lemma ReqPopped(q: seq<WorkerMsg>, subs: seq<Subscription>, i: nat, sub: Subscription)
    requires ReqsOk(q, subs) && q != [] && q[0] == Req(i)
    ensures ReqsOk(q[1..], subs[i := sub])
  {
  }

  lemma NewSubPopped(q: seq<MonitorMsg>, subs: seq<Subscription>, i: nat, sub: Subscription)
    requires NewSubsOk(q, subs) && q != [] && q[0] == NewSub(i)
    ensures NewSubsOk(q[1..], subs[i := sub])
  {
  }

  lemma PlacesAfterReq(s: State, i: nat)
    requires PlacesOk(s) && s.worker.batch != [] && s.worker.batch[0] == Req(i)
    ensures i < |s.subs| && PlacesOk(OnReq(s, i))
  {
    assert Queue(s.worker)[0] == Req(i);
    var s' := OnReq(s, i);
    assert Queue(s'.worker) == Queue(s.worker)[1..];
    ReqPopped(Queue(s.worker), s.subs, i, s'.subs[i]);
  }

  lemma PlacesAfterNewSub(s: State, i: nat)
    requires PlacesOk(s) && s.monitor.batch != [] && s.monitor.batch[0] == NewSub(i)
    ensures i < |s.subs| && PlacesOk(OnNewSub(s, i))
  {
    assert Queue(s.monitor)[0] == NewSub(i);
    var s' := OnNewSub(s, i);
    assert Queue(s'.monitor) == Queue(s.monitor)[1..];
    NewSubPopped(Queue(s.monitor), s.subs, i, s'.subs[i]);
  }

  lemma PlacesAfterDBChange(s: State)
    requires PlacesOk(s) && s.monitor.batch != []
    ensures PlacesOk(OnDBChange(s))
  {
    var s' := OnDBChange(s);
    assert Queue(s'.monitor) == Queue(s.monitor)[1..];
    SamePlacesOk(s.(monitor := s'.monitor), s'.subs);
  }

  lemma PlacesAfterClosing(s: State, keys: set<SubKey>, m: MonitorMsg)
    requires PlacesOk(s) && s.worker.batch != [] && !s.worker.batch[0].Req? && !m.NewSub?
    ensures PlacesOk(OnClosing(s, keys, m))
  {
    var s' := OnClosing(s, keys, m);
    assert Queue(s'.worker) == Queue(s.worker)[1..];
    assert Queue(s'.monitor) == Queue(s.monitor) + [m];
  }

  lemma NewSubPushed(q: seq<MonitorMsg>, subs: seq<Subscription>, i: nat, sub: Subscription)
    requires NewSubsOk(q, subs) && i < |subs| && !subs[i].stage.HandedOver? && sub.stage.HandedOver?
    ensures NewSubsOk(q + [NewSub(i)], subs[i := sub])
  {
  }

  lemma PlacesAfterComplete(s: State, key: SubKey)
    requires PlacesOk(s) && Enabled(s, WorkerComplete(key))
    ensures PlacesOk(After(s, WorkerComplete(key)))
  {
    var s', i := After(s, WorkerComplete(key)), s.worker.held[key];
    NewSubPushed(Queue(s.monitor), s.subs, i, s'.subs[i]);
    assert Queue(s'.monitor) == Queue(s.monitor) + [NewSub(i)];
  }

  lemma PlacesAfterClient(s: State, step: Step)
    requires PlacesOk(s) && (step.ClientReq? || step.ClientClose? || step.ClientDisconnect?) && Enabled(s, step)
    ensures PlacesOk(After(s, step))
  {
    var s' := After(s, step);
    var m := s'.worker.inbox[|s.worker.inbox|];
    assert Queue(s'.worker) == Queue(s.worker) + [m];
  }

  lemma PlacesAfterWorkerMessage(s: State)
    requires PlacesOk(s) && Enabled(s, WorkerMessage)
    ensures PlacesOk(After(s, WorkerMessage))
  {
    match s.worker.batch[0]
    case Req(i) => { PlacesAfterReq(s, i); }
    case Close(key) => { PlacesAfterClosing(s, {key}, RemoveSub(key)); }
    case Disconnect(connId) => { PlacesAfterClosing(s, OfConn(s.worker.held.Keys, connId), CloseConn(connId)); }
  }

  lemma PlacesAfterMonitorMessage(s: State)
    requires PlacesOk(s) && Enabled(s, MonitorMessage)
    ensures PlacesOk(After(s, MonitorMessage))
  {
    match s.monitor.batch[0]
    case NewSub(i) => { PlacesAfterNewSub(s, i); }
    case DBChange => { PlacesAfterDBChange(s); }
    case _ => { assert Queue(After(s, MonitorMessage).monitor) == Queue(s.monitor)[1..]; }
  }

  lemma PlacesKept(s: State, step: Step)
    requires PlacesOk(s) && Enabled(s, step)
    ensures PlacesOk(After(s, step))
  {
    var s' := After(s, step);
    match step
    case Change(c) => {}
    case ClientReq(key, filters) => { PlacesAfterClient(s, step); }
    case ClientClose(key) => { PlacesAfterClient(s, step); }
    case ClientDisconnect(connId) => { PlacesAfterClient(s, step); }
    case WorkerBegin => {
      assert Queue(s'.worker) == Queue(s.worker);
      SamePlacesOk(s.(worker := s'.worker), s'.subs);
    }
    case WorkerMessage => { PlacesAfterWorkerMessage(s); }
    case WorkerSend(key, levId) => { SamePlacesOk(s, s'.subs); }
    case WorkerComplete(key) => { PlacesAfterComplete(s, key); }
    case Notify => { assert Queue(s'.monitor) == Queue(s.monitor) + [DBChange]; }
    case MonitorBegin => { assert Queue(s'.monitor) == Queue(s.monitor); }
    case MonitorMessage => { PlacesAfterMonitorMessage(s); }
  }

  // ---------------------------------------------------------------------------
  // Every subscriber gets its events once

  lemma StoriesForward(subs: seq<Subscription>, w: World, w': World)
    requires StoriesOk(subs, w) && WorldOk(w) && Forward(w, w')
    ensures StoriesOk(subs, w')
  {
    forall i | 0 <= i < |subs| ensures StoryOk(subs[i], w') { StoryForward(subs[i], w, w'); }
  }

  lemma MonitoredForward(s: State, w: World, w': World)
    requires DeliveryOk(s, w) && WorldOk(w) && Forward(w, w')
    ensures MonitoredOk(s.monitor.held, s.subs, w', s.currEventId, s.monitor.latest)
  {
    forall k | k in s.monitor.held && s.monitor.held[k] < |s.subs|
      ensures UpTo(s.subs[s.monitor.held[k]], w', Max(s.subs[s.monitor.held[k]].latestEventId, s.currEventId))
    {
      UpToForward(s.subs[s.monitor.held[k]], w, w', Max(s.subs[s.monitor.held[k]].latestEventId, s.currEventId));
    }
  }

  /** The store moves on. */
  lemma DeliveryForward(s: State, w: World, w': World)
    requires DeliveryOk(s, w) && WorldOk(w) && Forward(w, w')
    ensures DeliveryOk(s, w')
  {
    StoriesForward(s.subs, w, w');
    SnapshotForward(s.worker.snap, s.worker.latest, w, w');
    SnapshotForward(s.monitor.snap, s.monitor.latest, w, w');
    MonitoredForward(s, w, w');
  }

  /** One subscription moves, and it is not one that the monitor has. */
  lemma DeliveryAt(s: State, i: nat, sub: Subscription, w: World)
    requires DeliveryOk(s, w) && i < |s.subs| && HeldOk(s.monitor.held, s.subs, Monitoring)
    requires !s.subs[i].stage.Monitoring? && StoryOk(sub, w)
    requires forall p :: 0 <= p < |s.monitor.batch| ==> s.monitor.batch[p] != NewSub(i)
    ensures DeliveryOk(s.(subs := s.subs[i := sub]), w)
  {
  }

  lemma StoriesAt(subs: seq<Subscription>, i: nat, sub: Subscription, w: World)
    requires StoriesOk(subs, w) && i < |subs| && StoryOk(sub, w)
    ensures StoriesOk(subs[i := sub], w)
  {
  }

  lemma BatchPopped(batch: seq<MonitorMsg>, subs: seq<Subscription>, i: nat, sub: Subscription, latest: nat)
    requires batch != [] && BatchOk(batch, subs, latest) && i < |subs| && sub.start == subs[i].start
    ensures BatchOk(batch[1..], subs[i := sub], latest)
  {
  }

  /** The monitor has a new subscription in place of any old one of that name. */
  lemma MonitoredAt(held: map<SubKey, nat>, subs: seq<Subscription>, i: nat, sub: Subscription, w: World, curr: nat, latest: nat)
    requires MonitoredOk(held, subs, w, curr, latest) && i < |subs| && i !in held.Values
    requires sub.latestEventId == latest && curr <= latest && UpTo(sub, w, latest)
    ensures MonitoredOk(held[sub.key := i], subs[i := sub], w, curr, latest)
    ensures MonitoredOk(held - {sub.key}, subs[i := sub], w, curr, latest)
  {
    forall k | k in held ensures held[k] != i { assert held[k] in held.Values; }
  }

  lemma MonitoredFewer(held: map<SubKey, nat>, fewer: map<SubKey, nat>, subs: seq<Subscription>, w: World, curr: nat, latest: nat)
    requires MonitoredOk(held, subs, w, curr, latest)
    requires forall k :: k in fewer ==> k in held && held[k] == fewer[k]
    ensures MonitoredOk(fewer, subs, w, curr, latest)
  {
  }

  lemma DeliveryAfterNewSub(s: State, i: nat, w: World)
    requires DeliveryOk(s, w) && PlacesOk(s) && WorldOk(w)
    requires s.monitor.batch != [] && s.monitor.batch[0] == NewSub(i)
    ensures i < |s.subs| && DeliveryOk(OnNewSub(s, i), w)
  {
    assert Queue(s.monitor)[0] == NewSub(i);
    var sub := CaughtUp(s.subs[i], s.monitor.snap, s.monitor.latest);
    CaughtUpOk(s.subs[i], s.monitor.snap, s.monitor.latest, w);
    StoriesAt(s.subs, i, sub, w);
    BatchPopped(s.monitor.batch, s.subs, i, sub, s.monitor.latest);
    assert i !in s.monitor.held.Values;
    var others := s.monitor.held - {sub.key};
    MonitoredFewer(s.monitor.held, others, s.subs, w, s.currEventId, s.monitor.latest);
    MonitoredAt(others, s.subs, i, sub, w, s.currEventId, s.monitor.latest);
    assert others - {sub.key} == others;
  }

  lemma StoriesAfterDBChange(s: State, w: World)
    requires DeliveryOk(s, w) && PlacesOk(s) && WorldOk(w) && s.monitor.batch != []
    ensures StoriesOk(OnDBChange(s).subs, w)
  {
    forall k | k in s.monitor.held ensures StoryOk(Updated(s.subs[s.monitor.held[k]], s.monitor.snap, s.currEventId, s.monitor.latest), w) {
      UpdatedOk(s.subs[s.monitor.held[k]], s.monitor.snap, s.currEventId, s.monitor.latest, w);
    }
  }

  lemma MonitoredAfterDBChange(s: State, w: World)
    requires DeliveryOk(s, w) && PlacesOk(s) && WorldOk(w) && s.monitor.batch != []
    ensures MonitoredOk(s.monitor.held, OnDBChange(s).subs, w, s.monitor.latest, s.monitor.latest)
  {
    var subs' := OnDBChange(s).subs;
    forall k | k in s.monitor.held
      ensures subs'[s.monitor.held[k]].latestEventId <= s.monitor.latest && UpTo(subs'[s.monitor.held[k]], w, s.monitor.latest)
    {
      assert s.monitor.held[k] in s.monitor.held.Values;
      UpdatedOk(s.subs[s.monitor.held[k]], s.monitor.snap, s.currEventId, s.monitor.latest, w);
    }
  }

  lemma DeliveryAfterDBChange(s: State, w: World)
    requires DeliveryOk(s, w) && PlacesOk(s) && WorldOk(w) && s.monitor.batch != []
    ensures DeliveryOk(OnDBChange(s), w)
  {
    StoriesAfterDBChange(s, w);
    MonitoredAfterDBChange(s, w);
    var s' := OnDBChange(s);
    forall p | 0 <= p < |s'.monitor.batch| && s'.monitor.batch[p].NewSub? && s'.monitor.batch[p].sub < |s.subs|
      ensures s'.subs[s'.monitor.batch[p].sub].start <= s.monitor.latest
    {
      assert s.monitor.batch[p + 1] == s'.monitor.batch[p];
    }
  }

  lemma DeliveryAfterBegin(s: State, w: World)
    requires DeliveryOk(s, w) && PlacesOk(s) && WorldOk(w)
    requires s.worker.batch == []
    ensures DeliveryOk(s.(subs := seq(|s.subs|, i requires 0 <= i < |s.subs| => Narrowed(s.subs[i], w.db)), worker := Begin(s.worker, w)), w)
  {
    forall i | 0 <= i < |s.subs| ensures StoryOk(Narrowed(s.subs[i], w.db), w) { NarrowedOk(s.subs[i], w); }
  }

  lemma DeliveryAfterMonitorBegin(s: State, w: World)
    requires DeliveryOk(s, w) && PlacesOk(s) && WorldOk(w)
    requires s.monitor.batch == []
    ensures DeliveryOk(s.(monitor := Begin(s.monitor, w), currEventId := if s.currEventId > w.top then w.top else s.currEventId), w)
  {
    forall p | 0 <= p < |s.monitor.inbox| && s.monitor.inbox[p].NewSub? && s.monitor.inbox[p].sub < |s.subs|
      ensures s.subs[s.monitor.inbox[p].sub].start <= w.top
    {
      assert Queue(s.monitor)[p] == s.monitor.inbox[p];
    }
  }

  lemma WorldForward(st: Cron.State, c: Cron.Step)
    requires Cron.RunInv(st) && Cron.Enabled(st, c)
    ensures Cron.RunInv(Cron.After(st, c))
    ensures WorldOk(TheWorld(st)) && Forward(TheWorld(st), TheWorld(Cron.After(st, c)))
  {
    Cron.StepKeepsInv(st, c);
    forall l | l in Cron.After(st, c).db && l <= Store.MaxLevId(st.db) ensures l in st.db {
      Cron.StepRevivesNothing(st, c, l);
    }
  }

  /** The worker's queue and what it holds do not matter to what has been delivered. */
  lemma DeliverySame(s: State, s': State, w: World)
    requires DeliveryOk(s, w) && s'.subs == s.subs && s'.currEventId == s.currEventId
    requires s'.worker.snap == s.worker.snap && s'.worker.latest == s.worker.latest
    requires s'.monitor == s.monitor.(inbox := s'.monitor.inbox)
    ensures DeliveryOk(s', w)
  {
  }

  lemma DeliveryAfterReq(s: State, i: nat, w: World)
    requires DeliveryOk(s, w) && PlacesOk(s) && s.worker.batch != [] && s.worker.batch[0] == Req(i)
    ensures i < |s.subs| && DeliveryOk(OnReq(s, i), w)
  {
    assert Queue(s.worker)[0] == Req(i);
    var sub := Started(s.subs[i], s.worker.snap, s.worker.latest);
    StartedOk(s.subs[i], s.worker.snap, s.worker.latest, w);
    NotHandedOver(s, i);
    DeliveryAt(s, i, sub, w);
    DeliverySame(s.(subs := s.subs[i := sub]), OnReq(s, i), w);
  }

  lemma DeliveryAfterWorkerMessage(s: State, w: World)
    requires DeliveryOk(s, w) && PlacesOk(s) && Enabled(s, WorkerMessage)
    ensures DeliveryOk(After(s, WorkerMessage), w)
  {
    if s.worker.batch[0].Req? { DeliveryAfterReq(s, s.worker.batch[0].sub, w); }
    else { DeliverySame(s, After(s, WorkerMessage), w); }
  }

  lemma DeliveryAfterSend(s: State, key: SubKey, levId: nat, w: World)
    requires DeliveryOk(s, w) && PlacesOk(s) && Enabled(s, WorkerSend(key, levId))
    ensures DeliveryOk(After(s, WorkerSend(key, levId)), w)
  {
    var i := s.worker.held[key];
    SentOneOk(s.subs[i], s.worker.snap, s.worker.latest, levId, w);
    NotHandedOver(s, i);
    DeliveryAt(s, i, SentOne(s.subs[i], levId), w);
  }

  lemma DeliveryAfterComplete(s: State, key: SubKey, w: World)
    requires DeliveryOk(s, w) && PlacesOk(s) && WorldOk(w) && w == TheWorld(s.store) && Enabled(s, WorkerComplete(key))
    ensures DeliveryOk(After(s, WorkerComplete(key)), w)
  {
    var i := s.worker.held[key];
    CompletedOk(s.subs[i], w);
    NotHandedOver(s, i);
    DeliveryAt(s, i, Completed(s.subs[i]), w);
  }

  lemma NotHandedOver(s: State, i: nat)
    requires PlacesOk(s) && i < |s.subs| && !s.subs[i].stage.HandedOver?
    ensures forall p :: 0 <= p < |s.monitor.batch| ==> s.monitor.batch[p] != NewSub(i)
  {
    forall p | 0 <= p < |s.monitor.batch| ensures s.monitor.batch[p] != NewSub(i) { assert Queue(s.monitor)[p] == s.monitor.batch[p]; }
  }

  lemma DeliveryAfterMonitorMessage(s: State, w: World)
    requires DeliveryOk(s, w) && PlacesOk(s) && WorldOk(w) && Enabled(s, MonitorMessage)
    ensures DeliveryOk(After(s, MonitorMessage), w)
  {
    match s.monitor.batch[0]
    case NewSub(i) => { DeliveryAfterNewSub(s, i, w); }
    case DBChange => { DeliveryAfterDBChange(s, w); }
    case RemoveSub(key) => { DeliveryAfterRelease(s, {key}, w); }
    case CloseConn(connId) => { DeliveryAfterRelease(s, OfConn(s.monitor.held.Keys, connId), w); }
  }

  lemma DeliveryAfterRelease(s: State, keys: set<SubKey>, w: World)
    requires DeliveryOk(s, w) && s.monitor.batch != []
    ensures DeliveryOk(s.(monitor := Release(Pop(s.monitor), keys)), w)
  {
  }

  lemma DeliveryAfterClient(s: State, step: Step, w: World)
    requires DeliveryOk(s, w) && PlacesOk(s) && WorldOk(w) && Enabled(s, step)
    requires step.ClientReq? || step.ClientClose? || step.ClientDisconnect? || step.Notify?
    ensures DeliveryOk(After(s, step), w)
  {
    forall p | 0 <= p < |s.monitor.batch| && s.monitor.batch[p].NewSub? ensures s.monitor.batch[p].sub < |s.subs| {
      assert Queue(s.monitor)[p] == s.monitor.batch[p];
    }
  }

  lemma DeliveryKept(s: State, step: Step, w: World)
    requires DeliveryOk(s, w) && PlacesOk(s) && WorldOk(w) && w == TheWorld(s.store) && Enabled(s, step) && !step.Change?
    ensures DeliveryOk(After(s, step), w)
  {
    if step.WorkerBegin? { DeliveryAfterBegin(s, w); }
    else if step.MonitorBegin? { DeliveryAfterMonitorBegin(s, w); }
    else if step.MonitorMessage? { DeliveryAfterMonitorMessage(s, w); }
    else if step.WorkerMessage? { DeliveryAfterWorkerMessage(s, w); }
    else if step.WorkerSend? { DeliveryAfterSend(s, step.key, step.levId, w); }
    else if step.WorkerComplete? { DeliveryAfterComplete(s, step.key, w); }
    else { DeliveryAfterClient(s, step, w); }
  }

  lemma KeepsAfterBegin(s: State)
    requires StoriesOk(s.subs, TheWorld(s.store)) && WorldOk(TheWorld(s.store)) && Enabled(s, WorkerBegin)
    ensures KeepsOk(After(s, WorkerBegin).subs, s.store.db)
  {
    forall i | 0 <= i < |s.subs| ensures KeepsUp(Narrowed(s.subs[i], s.store.db), s.store.db) {
      assert StoryOk(s.subs[i], TheWorld(s.store));
    }
  }

  lemma KeepsKept(s: State, step: Step)
    requires PlacesOk(s) && StoriesOk(s.subs, TheWorld(s.store)) && WorldOk(TheWorld(s.store)) && KeepsOk(s.subs, s.worker.snap) && Enabled(s, step)
    ensures KeepsOk(After(s, step).subs, After(s, step).worker.snap)
  {
    match step
    case WorkerBegin => { KeepsAfterBegin(s); }
    case MonitorMessage => { KeepsAfterMonitor(s); }
    case _ => { KeepsAfterOther(s, step); }
  }

  lemma KeepsAfterOther(s: State, step: Step)
    requires PlacesOk(s) && KeepsOk(s.subs, s.worker.snap) && Enabled(s, step) && !step.WorkerBegin? && !step.MonitorMessage?
    ensures KeepsOk(After(s, step).subs, After(s, step).worker.snap)
  {
  }

  lemma KeepsAfterMonitor(s: State)
    requires PlacesOk(s) && KeepsOk(s.subs, s.worker.snap) && Enabled(s, MonitorMessage)
    ensures KeepsOk(After(s, MonitorMessage).subs, s.worker.snap)
  {
    match s.monitor.batch[0]
    case DBChange => {
      forall k | k in s.monitor.held ensures s.subs[s.monitor.held[k]].stage.Monitoring? {}
    }
    case _ => {}
  }

  lemma StoreStep(s: State, c: Cron.Step)
    requires Inv(s) && Cron.Enabled(s.store, c)
    ensures Inv(After(s, Change(c)))
  {
    WorldForward(s.store, c);
    DeliveryForward(s, TheWorld(s.store), TheWorld(Cron.After(s.store, c)));
  }

  lemma OtherStep(s: State, step: Step)
    requires Enabled(s, step) && !step.Change?
    ensures After(s, step).store == s.store
  {
  }

  /** Every step keeps the invariant. */
  lemma StepKeepsInv(s: State, step: Step)
    requires Inv(s) && Enabled(s, step)
    ensures Inv(After(s, step))
  {
    if step.Change? {
      StoreStep(s, step.step);
    } else {
      PlacesKept(s, step);
      DeliveryKept(s, step, TheWorld(s.store));
      KeepsKept(s, step);
      OtherStep(s, step);
    }
  }

  // ---------------------------------------------------------------------------
  // Runs

  ghost predicate CanRun(s: State, steps: seq<Step>)
    decreases |steps|
  {
    steps == [] || (Enabled(s, steps[0]) && CanRun(After(s, steps[0]), steps[1..]))
  }

  ghost function Run(s: State, steps: seq<Step>): (s': State)
    requires CanRun(s, steps)
    decreases |steps|
  {
    if steps == [] then s else Run(After(s, steps[0]), steps[1..])
  }

  lemma InitialInv(s: State)
    requires Initial(s)
    ensures Inv(s)
  {
  }

  /** What a step does to a subscription: it only adds to what was sent. */
  ghost predicate Grows(subs: seq<Subscription>, subs': seq<Subscription>) {
    |subs| <= |subs'| && forall i :: 0 <= i < |subs| ==> Continues(subs[i], subs'[i])
  }

  lemma GrowsAt(subs: seq<Subscription>, i: nat, sub: Subscription)
    requires i < |subs| && Continues(subs[i], sub)
    ensures Grows(subs, subs[i := sub])
  {
  }

  lemma WorkerContinues(s: State, step: Step)
    requires PlacesOk(s) && StoriesOk(s.subs, TheWorld(s.store)) && Enabled(s, step)
    requires step.WorkerSend? || step.WorkerComplete?
    ensures Grows(s.subs, After(s, step).subs)
  {
    var i := s.worker.held[step.key];
    QueryContinues(s.subs[i], map[], 0, if step.WorkerSend? then step.levId else 0, s.store.hist, TheWorld(s.store));
    GrowsAt(s.subs, i, After(s, step).subs[i]);
  }

  lemma MessageContinues(s: State)
    requires PlacesOk(s) && StoriesOk(s.subs, TheWorld(s.store)) && Enabled(s, WorkerMessage)
    ensures Grows(s.subs, After(s, WorkerMessage).subs)
  {
    if s.worker.batch[0].Req? {
      var i := s.worker.batch[0].sub;
      assert Queue(s.worker)[0] == Req(i);
      QueryContinues(s.subs[i], s.worker.snap, s.worker.latest, 0, map[], TheWorld(s.store));
      GrowsAt(s.subs, i, Started(s.subs[i], s.worker.snap, s.worker.latest));
    }
  }

  lemma MonitorContinues(s: State)
    requires PlacesOk(s) && Enabled(s, MonitorMessage)
    ensures Grows(s.subs, After(s, MonitorMessage).subs)
  {
    match s.monitor.batch[0]
    case NewSub(i) => {
      assert Queue(s.monitor)[0] == NewSub(i);
      LiveContinues(s.subs[i], s.monitor.snap, s.currEventId, s.monitor.latest);
    }
    case DBChange => {
      forall k | k in s.monitor.held ensures Continues(s.subs[s.monitor.held[k]], OnDBChange(s).subs[s.monitor.held[k]]) {
        assert s.monitor.held[k] in s.monitor.held.Values;
        LiveContinues(s.subs[s.monitor.held[k]], s.monitor.snap, s.currEventId, s.monitor.latest);
      }
    }
    case _ => {}
  }

  lemma StepGrows(s: State, step: Step)
    requires PlacesOk(s) && StoriesOk(s.subs, TheWorld(s.store)) && Enabled(s, step)
    ensures Grows(s.subs, After(s, step).subs)
  {
    if step.WorkerSend? || step.WorkerComplete? { WorkerContinues(s, step); }
    else if step.WorkerMessage? { MessageContinues(s); }
    else if step.MonitorMessage? { MonitorContinues(s); }
    else if step.WorkerBegin? {
      forall i | 0 <= i < |s.subs| ensures Continues(s.subs[i], Narrowed(s.subs[i], s.store.db)) {
        QueryContinues(s.subs[i], map[], 0, 0, s.store.db, TheWorld(s.store));
      }
    }
  }

  lemma GrowsThrough(a: seq<Subscription>, b: seq<Subscription>, c: seq<Subscription>)
    requires Grows(a, b) && Grows(b, c)
    ensures Grows(a, c)
  {
    forall i | 0 <= i < |a| ensures Continues(a[i], c[i]) { ContinuesThrough(a[i], b[i], c[i]); }
  }

  lemma {:induction false} RunKeepsInv(s: State, steps: seq<Step>)
    requires Inv(s) && CanRun(s, steps)
    ensures Inv(Run(s, steps))
    decreases |steps|
  {
    if steps != [] {
      StepKeepsInv(s, steps[0]);
      RunKeepsInv(After(s, steps[0]), steps[1..]);
    }
  }

  /** What a subscriber has received is never taken back. */
  lemma {:induction false} RunGrows(s: State, steps: seq<Step>)
    requires Inv(s) && CanRun(s, steps)
    ensures Grows(s.subs, Run(s, steps).subs)
    decreases |steps|
  {
    if steps != [] {
      StepKeepsInv(s, steps[0]);
      StepGrows(s, steps[0]);
      RunGrows(After(s, steps[0]), steps[1..]);
      GrowsThrough(s.subs, After(s, steps[0]).subs, Run(s, steps).subs);
    }
  }

  // ---------------------------------------------------------------------------
  // Exactly once

  /** Filter `i` matches event `l`, and its limit does not cut it off: of the events that
      were stored when the query began, fewer than `limit` matches come before it. */
  ghost predicate InLimit(sub: Subscription, i: nat, l: nat) {
    && i < |sub.filters| && l in sub.first && Matches(sub.filters[i], sub.first[l])
    && |Queries.Ahead(sub.filters[i], sub.first, sub.start, l)| < sub.filters[i].limit
  }

  /** What came in after the start does not count. */
  lemma AheadAtStart(sub: Subscription, w: World, f: Filter, l: nat)
    requires KeepOk(sub, w) && !sub.stage.Requested? && l in sub.first
    ensures Queries.Ahead(f, sub.hist, sub.start, l) == Queries.Ahead(f, sub.first, sub.start, l)
  {
  }

  ghost predicate Once(ms: seq<Message>, l: nat) {
    NoneTwice(ms) && exists p :: 0 <= p < |ms| && Carries(ms[p], l)
  }

  /** A query that has ended has found the events that are still stored, as far as
      the filters' limits let it. */
  lemma StoredExactlyOnce(sub: Subscription, w: World, l: nat, i: nat)
    requires WorldOk(w) && StoryOk(sub, w) && Done(sub)
    requires l in w.db && l <= sub.start && InLimit(sub, i, l)
    ensures Once(Messages(sub), l)
  {
    Queries.ChangingAnswer(sub.filters, sub.start, sub.sent, sub.keep, sub.hist);
    AheadAtStart(sub, w, sub.filters[i], l);
    assert Queries.Wanted(sub.filters[i], sub.keep, sub.start, l);
    ToldInOrder(sub, w);
    AllCarried(sub, l);
  }

  /** `sub` is the subscription the monitor has under a name. */
  predicate IsMonitored(s: State, key: SubKey, sub: Subscription) {
    key in s.monitor.held && s.monitor.held[key] < |s.subs| && s.subs[s.monitor.held[key]] == sub
  }

  /** `l` is stored, filter `i` asks for it, and its time has come. */
  ghost predicate Due(s: State, sub: Subscription, l: nat, i: nat) {
    && l in s.store.db && i < |sub.filters| && Matches(sub.filters[i], s.store.db[l])
    && l <= Max(sub.latestEventId, s.currEventId)
    && (l <= sub.start ==> InLimit(sub, i, l))
  }

  lemma DueIsDelivered(s: State, key: SubKey, sub: Subscription, w: World, l: nat, i: nat)
    requires PlacesOk(s) && DeliveryOk(s, w) && WorldOk(w) && w.db == s.store.db
    requires IsMonitored(s, key, sub) && Due(s, sub, l, i)
    ensures Once(Messages(sub), l)
  {
    if l <= sub.start {
      StoredExactlyOnce(sub, w, l, i);
    } else {
      ToldInOrder(sub, w);
      AllCarried(sub, l);
    }
  }

  lemma WorldIsOk(s: State)
    requires Inv(s)
    ensures WorldOk(TheWorld(s.store))
  {
  }

  /** In every run, a monitored subscription has been sent every event that is stored,
      matches and has been processed, exactly once: as a stored event, in the
      hand-over or live. */
  lemma ExactlyOnce(s0: State, steps: seq<Step>, key: SubKey, sub: Subscription, l: nat, i: nat)
    requires Initial(s0) && CanRun(s0, steps)
    requires IsMonitored(Run(s0, steps), key, sub) && Due(Run(s0, steps), sub, l, i)
    ensures Once(Messages(sub), l)
  {
    InitialInv(s0);
    RunKeepsInv(s0, steps);
    WorldIsOk(Run(s0, steps));
    DueIsDelivered(Run(s0, steps), key, sub, TheWorld(Run(s0, steps).store), l, i);
  }

  /** In every run, every subscriber hears every event at most once, only events it
      asked for, and live ones after EOSE. */
  lemma NeverTwice(s0: State, steps: seq<Step>, sub: Subscription)
    requires Initial(s0) && CanRun(s0, steps) && sub in Run(s0, steps).subs
    ensures WellTold(Messages(sub)) && NoneTwice(Messages(sub))
    ensures forall l :: l in sub.sent ==> l <= sub.start && AskedFor(sub, Run(s0, steps).store.hist, l)
    ensures forall l :: l in sub.live ==> l > sub.start && AskedFor(sub, Run(s0, steps).store.hist, l)
  {
    InitialInv(s0);
    RunKeepsInv(s0, steps);
    ToldInOrder(sub, TheWorld(Run(s0, steps).store));
  }

  /** When a subscription is installed its watermark is not behind the events already
      processed for the others. */
  lemma InstalledAhead(s: State, i: nat)
    requires Inv(s) && s.monitor.batch != [] && s.monitor.batch[0] == NewSub(i)
    ensures i < |s.subs| && OnNewSub(s, i).currEventId <= OnNewSub(s, i).subs[i].latestEventId
  {
    assert Queue(s.monitor)[0] == NewSub(i);
  }

  /** After a DBChange nothing in the monitor's snapshot is unprocessed. */
  lemma NothingSkipped(s: State, key: SubKey, sub: Subscription, l: nat)
    requires Inv(s) && s.monitor.batch != [] && IsMonitored(OnDBChange(s), key, sub)
    requires l in s.store.db && GroupMatches(sub.filters, s.store.db[l]) && sub.start < l <= s.monitor.latest
    ensures l in sub.live
  {
    WorldIsOk(s);
    MonitoredAfterDBChange(s, TheWorld(s.store));
  }

  // ---------------------------------------------------------------------------
  // A run

  lemma RunCons(s: State, step: Step, steps: seq<Step>)
    requires Enabled(s, step) && CanRun(After(s, step), steps)
    ensures CanRun(s, [step] + steps) && Run(s, [step] + steps) == Run(After(s, step), steps)
  {
    assert ([step] + steps)[1..] == steps;
  }

  lemma {:induction false} RunConcat(s: State, a: seq<Step>, b: seq<Step>)
    requires CanRun(s, a) && CanRun(Run(s, a), b)
    ensures CanRun(s, a + b) && Run(s, a + b) == Run(Run(s, a), b)
    decreases |a|
  {
    if a == [] {
      assert a + b == b;
    } else {
      var step, rest := a[0], a[1..];
      RunConcat(After(s, step), rest, b);
      RunCons(s, step, rest + b);
      assert [step] + (rest + b) == a + b;
    }
  }

  lemma RunOne(s: State, a: Step)
    requires Enabled(s, a)
    ensures CanRun(s, [a]) && Run(s, [a]) == After(s, a)
  {
    var none: seq<Step> := [a][1..];
    assert CanRun(After(s, a), none) && Run(After(s, a), none) == After(s, a);
  }

  lemma RunTwo(s: State, a: Step, b: Step)
    requires Enabled(s, a) && Enabled(After(s, a), b)
    ensures CanRun(s, [a, b]) && Run(s, [a, b]) == After(After(s, a), b)
  {
    RunOne(s, a);
    RunOne(After(s, a), b);
    RunConcat(s, [a], [b]);
    assert [a] + [b] == [a, b];
  }
}
