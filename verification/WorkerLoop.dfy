/** The worker thread as a whole: its scheduler with all its queries takes the
    protocol's steps and no others (src/apps/relay/RelayReqWorker.cpp,
    src/QueryScheduler.h). */
module WorkerLoop {
  import opened Results
  import opened Events
  import opened Filters
  import opened Sequences
  import opened Lookups
  import opened Scans
  import opened Queries
  import opened Subscriptions
  import opened Protocol
  import opened WorkerThread
  import opened Scheduler

  /** The subscription that each query of the scheduler answers. */
  type Numbers = map<Query, nat>

  /** The part of the protocol's state that the scheduler stands for. */
  datatype Desk = Desk(subs: seq<Subscription>, held: map<SubKey, nat>, maxSubs: nat)

  function DeskOf(s: State): (d: Desk) {
    Desk(s.subs, s.worker.held, s.maxSubs)
  }

  /** What the query of a subscription reports. */
  function ReportOf(sub: Subscription): (r: Report) {
    Report(sub.key, sub.filters, sub.start, sub.sent, sub.keep, sub.hist)
  }

  /** The query is that of the subscription, and as far. */
  ghost predicate Serves(q: Query, sub: Subscription)
    reads q`keep, q`hist, q.query
  {
    var report := q.GetReport();
    sub.stage.Querying? && report == ReportOf(sub)
  }

  /** The live queries are those that the protocol's worker holds. */
  ghost predicate Mirrors(conns: map<SubKey, Query>, held: map<SubKey, nat>, numbers: Numbers) {
    && conns.Keys == held.Keys
    && forall k :: k in conns ==> conns[k] in numbers && numbers[conns[k]] == held[k]
  }

  /** Every query, dead or alive, answers a subscription of its own. */
  ghost predicate Numbered(running: seq<Query>, subs: seq<Subscription>, numbers: Numbers)
    reads running`keep, running`hist, set q | q in running :: q.query
  {
    var n := |subs|;
    && (forall q :: q in running ==> q in numbers && numbers[q] < n && Serves(q, subs[numbers[q]]))
    && (forall q, r :: q in running && r in running && q != r ==> numbers[q] != numbers[r])
  }

  ghost predicate InStep(scheduler: QueryScheduler, d: Desk, numbers: Numbers)
    reads scheduler, scheduler.running, (set q | q in scheduler.running :: q.query)
    reads set q | q in scheduler.running :: q.query.scanner
  {
    var running := scheduler.running;
    && scheduler.Linked() && scheduler.Working() && scheduler.maxSubsPerConnection == d.maxSubs
    && Mirrors(scheduler.conns, d.held, numbers) && Numbered(running, d.subs, numbers)
  }

  // ---------------------------------------------------------------------------
  // What others do

  /** A step that is not the worker's own. */
  predicate Elsewhere(step: Step) {
    !step.WorkerMessage? && !step.WorkerSend? && !step.WorkerComplete?
  }

  lemma StillQuerying(s: State, step: Step, i: nat)
    requires PlacesOk(s) && Enabled(s, step) && Elsewhere(step) && i < |s.subs| && s.subs[i].stage.Querying?
    ensures i < |After(s, step).subs| && After(s, step).subs[i].stage.Querying? && After(s, step).subs[i].key == s.subs[i].key
  {
    if step.MonitorMessage? { MonitorLeavesQuerying(s, i); }
  }

  lemma HeldElsewhere(s: State, step: Step)
    requires Enabled(s, step) && Elsewhere(step)
    ensures DeskOf(After(s, step)) == DeskOf(s).(subs := After(s, step).subs)
  {
  }

  /** The query object fits the subscription. */
  ghost predicate Fits(q: Query, sub: Subscription)
    reads q.query, q.query.scanner
  {
    var query := q.query;
    && sub.stage.Querying? && q.key == sub.key && query.filters == sub.filters
    && query.latestEventId == sub.start && query.sent == sub.sent && query.Inv(sub.keep, sub.hist)
  }

  ghost predicate AllFit(running: seq<Query>, subs: seq<Subscription>, numbers: Numbers)
    reads (set q | q in running :: q.query), set q | q in running :: q.query.scanner
  {
    var n := |subs|;
    forall q :: q in running ==> q in numbers && numbers[q] < n && Fits(q, subs[numbers[q]])
  }

  /** What a query has to find changes with the snapshots that the worker reads. */
  lemma ServedOn(q: Query, s: State, step: Step, i: nat)
    requires Inv(s) && Enabled(s, step) && Elsewhere(step) && i < |s.subs| && Serves(q, s.subs[i]) && q.Valid()
    ensures i < |After(s, step).subs| && Fits(q, After(s, step).subs[i])
  {
    StepWithout(s, step, i);
    StillQuerying(s, step, i);
    var sub, sub' := s.subs[i], After(s, step).subs[i];
    QueryForward(q.query, sub.keep, sub.hist, sub'.keep, sub'.hist);
  }

  lemma AllServedOn(scheduler: QueryScheduler, s: State, step: Step, numbers: Numbers)
    requires InStep(scheduler, DeskOf(s), numbers) && Inv(s) && Enabled(s, step) && Elsewhere(step)
    ensures AllFit(scheduler.running, After(s, step).subs, numbers)
  {
    forall q | q in scheduler.running
      ensures numbers[q] < |After(s, step).subs| && Fits(q, After(s, step).subs[numbers[q]])
    {
      assert q in scheduler.Queries();
      ServedOn(q, s, step, numbers[q]);
    }
  }

  /** The queries take over what the subscriptions say about the store. */
  ghost method Adopt(scheduler: QueryScheduler, subs: seq<Subscription>, numbers: Numbers)
    requires AllFit(scheduler.running, subs, numbers)
    modifies scheduler.running`keep, scheduler.running`hist
    ensures AllFit(scheduler.running, subs, numbers)
    ensures forall q :: q in scheduler.running ==> q.keep == subs[numbers[q]].keep && q.hist == subs[numbers[q]].hist
  {
    forall q | q in scheduler.running { q.keep := subs[numbers[q]].keep; }
    forall q | q in scheduler.running { q.hist := subs[numbers[q]].hist; }
  }

  /** Then they can all go on. */
  lemma FitIsWorking(scheduler: QueryScheduler, subs: seq<Subscription>, numbers: Numbers)
    requires AllFit(scheduler.running, subs, numbers) && Apart(scheduler.Queries())
    requires forall q :: q in scheduler.running ==> q.keep == subs[numbers[q]].keep && q.hist == subs[numbers[q]].hist
    ensures scheduler.Working() && forall q :: q in scheduler.running ==> Serves(q, subs[numbers[q]])
  {
    forall q | q in scheduler.running ensures q.Valid() && Serves(q, subs[numbers[q]]) { assert Fits(q, subs[numbers[q]]); }
  }

  /** The clients, the store and the monitor take their steps, and the worker turns to a
      new snapshot. */
  ghost method GoOn(scheduler: QueryScheduler, s: State, step: Step, numbers: Numbers)
    requires InStep(scheduler, DeskOf(s), numbers) && Inv(s) && Enabled(s, step) && Elsewhere(step)
    modifies scheduler.running`keep, scheduler.running`hist
    ensures InStep(scheduler, DeskOf(After(s, step)), numbers)
  {
    HeldElsewhere(s, step);
    AllServedOn(scheduler, s, step, numbers);
    Adopt(scheduler, After(s, step).subs, numbers);
    FitIsWorking(scheduler, After(s, step).subs, numbers);
  }

  /** Every filter that is on its way can be run. */
  ghost predicate AllRunnable(subs: seq<Subscription>) {
    forall i, f :: 0 <= i < |subs| && f in subs[i].filters ==> Runnable(f)
  }

  lemma RunnableKept(s: State, step: Step)
    requires Inv(s) && Enabled(s, step) && AllRunnable(s.subs)
    ensures AllRunnable(After(s, step).subs)
  {
    StepGrows(s, step);
    forall i, f | 0 <= i < |After(s, step).subs| && f in After(s, step).subs[i].filters ensures Runnable(f) {
      if i < |s.subs| { assert Continues(s.subs[i], After(s, step).subs[i]); }
    }
  }

  // ---------------------------------------------------------------------------
  // The worker's messages

  lemma MirrorsMore(conns: map<SubKey, Query>, held: map<SubKey, nat>, numbers: Numbers, key: SubKey, q: Query, i: nat)
    requires Mirrors(conns, held, numbers) && q !in conns.Values
    ensures Mirrors((conns - {key})[key := q], (held - {key})[key := i], numbers[q := i])
  {
    assert forall k :: k in conns ==> conns[k] in conns.Values;
  }

  lemma MirrorsFewer(conns: map<SubKey, Query>, held: map<SubKey, nat>, numbers: Numbers, keys: set<SubKey>)
    requires Mirrors(conns, held, numbers)
    ensures Mirrors(conns - keys, held - keys, numbers)
  {
  }

  /** Nothing changes for the other queries. */
  lemma OthersNumbered(running: seq<Query>, subs: seq<Subscription>, numbers: Numbers, i: nat, sub: Subscription)
    requires Numbered(running, subs, numbers) && i < |subs| && !subs[i].stage.Querying?
    ensures Numbered(running, subs[i := sub], numbers) && forall q :: q in running ==> numbers[q] != i
  {
    forall q | q in running ensures Serves(q, subs[i := sub][numbers[q]]) && numbers[q] != i { assert Serves(q, subs[numbers[q]]); }
  }

  lemma OneMoreNumbered(running: seq<Query>, subs: seq<Subscription>, numbers: Numbers, q: Query, i: nat)
    requires Numbered(running, subs, numbers) && q !in running && i < |subs| && Serves(q, subs[i])
    requires forall r :: r in running ==> numbers[r] != i
    ensures Numbered([q] + running, subs, numbers[q := i])
  {
    forall r | r in [q] + running ensures Serves(r, subs[numbers[q := i][r]]) {
      assert r == q || (r in running && Serves(r, subs[numbers[r]]));
    }
  }

  /** What Hold does. */
  function DeskHolding(d: Desk, key: SubKey, i: nat, sub: Subscription): (d': Desk)
    requires i < |d.subs|
  {
    var others := d.held - {key};
    d.(subs := d.subs[i := sub], held := if |OfConn(others.Keys, key.connId)| < d.maxSubs then others[key := i] else others)
  }

  /** addSub leaves the other queries as far as they were. */
  method AddAmong(scheduler: QueryScheduler, key: SubKey, filters: seq<Filter>, latest: nat, ghost snap: Table,
                  ghost subs: seq<Subscription>, ghost numbers: Numbers)
      returns (ok: bool)
    requires scheduler.Linked() && scheduler.Working() && forall k :: 0 <= k < |filters| ==> Runnable(filters[k])
    requires Numbered(scheduler.running, subs, numbers)
    modifies scheduler`conns, scheduler`running, (if key in scheduler.conns then {scheduler.conns[key]} else {})`dead
    ensures scheduler.Linked() && scheduler.Working() && Numbered(old(scheduler.running), subs, numbers)
    ensures ok <==> |OfConn(old(scheduler.conns).Keys - {key}, key.connId)| < scheduler.maxSubsPerConnection
    ensures !ok ==> scheduler.running == old(scheduler.running) && scheduler.conns == old(scheduler.conns) - {key}
    ensures ok ==>
      |scheduler.running| > 0 &&
      var q := scheduler.running[0];
      && scheduler.running == [q] + old(scheduler.running) && q !in old(scheduler.running)
      && scheduler.conns == (old(scheduler.conns) - {key})[key := q]
      && q.GetReport() == Report(key, filters, latest, [], snap, snap)
  {
    ghost var running := scheduler.running;
    assert forall q :: q in running ==> Serves(q, subs[numbers[q]]);
    ok := scheduler.AddSub(key, filters, latest, snap, snap);
    assert forall q :: q in running ==> Serves(q, subs[numbers[q]]);
    if ok { assert scheduler.running == [scheduler.running[0]] + running; }
  }

  /** So the scheduler is in step again. */
  lemma Taken(scheduler: QueryScheduler, running: seq<Query>, conns: map<SubKey, Query>, d: Desk, key: SubKey, i: nat, sub: Subscription, numbers: Numbers)
    requires scheduler.Linked() && scheduler.Working() && scheduler.maxSubsPerConnection == d.maxSubs
    requires i < |d.subs| && Numbered(running, d.subs[i := sub], numbers) && forall r :: r in running ==> numbers[r] != i
    requires Mirrors(conns, d.held, numbers) && |OfConn(conns.Keys - {key}, key.connId)| < d.maxSubs
    requires |scheduler.running| > 0
    requires
      var q := scheduler.running[0];
      && scheduler.running == [q] + running && q !in running && q !in conns.Values && scheduler.conns == (conns - {key})[key := q]
      && Serves(q, sub)
    ensures InStep(scheduler, DeskHolding(d, key, i, sub), numbers[scheduler.running[0] := i])
  {
    var q := scheduler.running[0];
    MirrorsMore(conns, d.held, numbers, key, q, i);
    OneMoreNumbered(running, d.subs[i := sub], numbers, q, i);
  }

  lemma NotTaken(scheduler: QueryScheduler, conns: map<SubKey, Query>, d: Desk, key: SubKey, i: nat, sub: Subscription, numbers: Numbers)
    requires scheduler.Linked() && scheduler.Working() && scheduler.maxSubsPerConnection == d.maxSubs
    requires i < |d.subs| && Numbered(scheduler.running, d.subs[i := sub], numbers)
    requires Mirrors(conns, d.held, numbers) && |OfConn(conns.Keys - {key}, key.connId)| >= d.maxSubs && scheduler.conns == conns - {key}
    ensures InStep(scheduler, DeskHolding(d, key, i, sub), numbers)
  {
    MirrorsFewer(conns, d.held, numbers, {key});
  }

  /** What addSub does is what Hold does. */
  method TakeUpAt(scheduler: QueryScheduler, key: SubKey, filters: seq<Filter>, latest: nat, ghost snap: Table, ghost d: Desk, ghost i: nat,
                  ghost numbers: Numbers)
      returns (ok: bool, ghost numbers': Numbers)
    requires InStep(scheduler, d, numbers) && i < |d.subs| && d.subs[i].stage.Requested? && d.subs[i].sent == []
    requires key == d.subs[i].key && filters == d.subs[i].filters && forall k :: 0 <= k < |filters| ==> Runnable(filters[k])
    modifies scheduler`conns, scheduler`running, (if key in scheduler.conns then {scheduler.conns[key]} else {})`dead
    ensures InStep(scheduler, DeskHolding(d, key, i, Started(d.subs[i], snap, latest)), numbers')
    ensures ok <==> key in DeskHolding(d, key, i, Started(d.subs[i], snap, latest)).held
  {
    ghost var sub, conns, running := Started(d.subs[i], snap, latest), scheduler.conns, scheduler.running;
    OthersNumbered(running, d.subs, numbers, i, sub);
    AllInQueue(scheduler);
    ok := AddAmong(scheduler, key, filters, latest, snap, d.subs[i := sub], numbers);
    if ok {
      numbers' := numbers[scheduler.running[0] := i];
      Taken(scheduler, running, conns, d, key, i, sub, numbers);
    } else {
      numbers' := numbers;
      NotTaken(scheduler, conns, d, key, i, sub, numbers);
    }
  }

  lemma AllInQueue(scheduler: QueryScheduler)
    requires scheduler.Linked()
    ensures forall q :: q in scheduler.conns.Values ==> q in scheduler.running
  {
  }

  /** A request: the worker's scheduler takes up or refuses what the protocol does. */
  method TakeUp(scheduler: QueryScheduler, key: SubKey, filters: seq<Filter>, latest: nat, ghost s: State, ghost i: nat, ghost numbers: Numbers)
      returns (ok: bool, ghost numbers': Numbers)
    requires InStep(scheduler, DeskOf(s), numbers) && Inv(s) && s.worker.batch != [] && s.worker.batch[0] == Req(i) && i < |s.subs|
    requires key == s.subs[i].key && filters == s.subs[i].filters && latest == s.worker.latest && AllRunnable(s.subs)
    modifies scheduler`conns, scheduler`running, (if key in scheduler.conns then {scheduler.conns[key]} else {})`dead
    ensures InStep(scheduler, DeskOf(After(s, WorkerMessage)), numbers')
    ensures ok <==> key in After(s, WorkerMessage).worker.held
  {
    RequestIs(s, i);
    ok, numbers' := TakeUpAt(scheduler, key, filters, latest, s.worker.snap, DeskOf(s), i, numbers);
  }

  /** The subscription that a request stands for is new. */
  lemma RequestIs(s: State, i: nat)
    requires Inv(s) && s.worker.batch != [] && s.worker.batch[0] == Req(i)
    ensures i < |s.subs| && s.subs[i].stage.Requested? && s.subs[i].sent == [] && Enabled(s, WorkerMessage)
    ensures DeskOf(After(s, WorkerMessage)) == DeskHolding(DeskOf(s), s.subs[i].key, i, Started(s.subs[i], s.worker.snap, s.worker.latest))
  {
    assert Queue(s.worker)[0] == Req(i);
    assert StoryOk(s.subs[i], TheWorld(s.store));
  }

  lemma CloseIs(s: State, key: SubKey)
    requires s.worker.batch != [] && s.worker.batch[0] == Close(key)
    ensures Enabled(s, WorkerMessage) && DeskOf(After(s, WorkerMessage)) == DeskOf(s).(held := s.worker.held - {key})
  {
  }

  lemma DisconnectIs(s: State, connId: nat)
    requires s.worker.batch != [] && s.worker.batch[0] == Disconnect(connId)
    ensures Enabled(s, WorkerMessage)
    ensures DeskOf(After(s, WorkerMessage)) == DeskOf(s).(held := s.worker.held - OfConn(s.worker.held.Keys, connId))
  {
  }

  method LetGoAt(scheduler: QueryScheduler, key: SubKey, ghost d: Desk, ghost numbers: Numbers)
    requires InStep(scheduler, d, numbers)
    modifies scheduler`conns, (if key in scheduler.conns then {scheduler.conns[key]} else {})`dead
    ensures InStep(scheduler, d.(held := d.held - {key}), numbers)
  {
    MirrorsFewer(scheduler.conns, d.held, numbers, {key});
    assert forall q :: q in scheduler.running ==> Serves(q, d.subs[numbers[q]]);
    scheduler.RemoveSub(key);
    assert forall q :: q in scheduler.running ==> Serves(q, d.subs[numbers[q]]);
  }

  /** A CLOSE. */
  method LetGo(scheduler: QueryScheduler, key: SubKey, ghost s: State, ghost numbers: Numbers)
    requires InStep(scheduler, DeskOf(s), numbers) && s.worker.batch != [] && s.worker.batch[0] == Close(key)
    modifies scheduler`conns, (if key in scheduler.conns then {scheduler.conns[key]} else {})`dead
    ensures InStep(scheduler, DeskOf(After(s, WorkerMessage)), numbers)
  {
    CloseIs(s, key);
    LetGoAt(scheduler, key, DeskOf(s), numbers);
  }

  method LeaveAt(scheduler: QueryScheduler, connId: nat, ghost d: Desk, ghost numbers: Numbers)
    requires InStep(scheduler, d, numbers)
    modifies scheduler`conns, scheduler.conns.Values`dead
    ensures InStep(scheduler, d.(held := d.held - OfConn(d.held.Keys, connId)), numbers)
  {
    MirrorsFewer(scheduler.conns, d.held, numbers, OfConn(d.held.Keys, connId));
    scheduler.CloseConn(connId);
  }

  /** The end of a connection. */
  method Leave(scheduler: QueryScheduler, connId: nat, ghost s: State, ghost numbers: Numbers)
    requires InStep(scheduler, DeskOf(s), numbers) && s.worker.batch != [] && s.worker.batch[0] == Disconnect(connId)
    modifies scheduler`conns, scheduler.conns.Values`dead
    ensures InStep(scheduler, DeskOf(After(s, WorkerMessage)), numbers)
  {
    DisconnectIs(s, connId);
    LeaveAt(scheduler, connId, DeskOf(s), numbers);
  }

  // ---------------------------------------------------------------------------
  // The worker's turns

  /** Everything sent was asked for and is sent once. */
  ghost predicate SentWell(sent: seq<nat>, filters: seq<Filter>, start: nat, hist: Table) {
    NoRepeats(sent) && forall l :: l in sent ==> l in hist && l <= start && GroupMatches(filters, hist[l])
  }

  lemma SentMay(sub: Subscription, sent: seq<nat>, snap: Table)
    requires SentWell(sent, sub.filters, sub.start, sub.hist) && Sends(sub.sent, sent, snap) && Within(snap, sub.hist)
    ensures sub.sent <= sent && MaySendAll(sub, snap, sent[|sub.sent|..])
  {
    var n := |sub.sent|;
    var levIds := sent[n..];
    forall j | 0 <= j < |levIds| ensures MaySend(sub.(sent := sub.sent + levIds[..j]), snap, levIds[j]) {
      assert sub.sent + levIds[..j] == sent[..n + j] && levIds[j] == sent[n + j] && sent[n + j] in sent;
    }
  }

  /** One query has gone on, the others have not. */
  ghost predicate OthersServe(running: seq<Query>, q: Query, subs: seq<Subscription>, numbers: Numbers)
    reads running`keep, running`hist, set r | r in running :: r.query
  {
    var n := |subs|;
    && (forall r :: r in running ==> r in numbers && numbers[r] < n && (r != q ==> Serves(r, subs[numbers[r]])))
    && (forall r, t :: r in running && t in running && r != t ==> numbers[r] != numbers[t])
  }

  lemma OneFurther(running: seq<Query>, running': seq<Query>, q: Query, subs: seq<Subscription>, numbers: Numbers, sub: Subscription)
    requires OthersServe(running, q, subs, numbers) && q in running && forall r :: r in running' ==> r in running
    requires q in running' ==> Serves(q, sub)
    ensures Numbered(running', subs[numbers[q] := sub], numbers)
  {
    var subs' := subs[numbers[q] := sub];
    forall r | r in running' ensures Serves(r, subs'[numbers[r]]) { assert r != q ==> Serves(r, subs[numbers[r]]); }
  }

  /** The other queries have other objects. */
  lemma OthersApart(scheduler: QueryScheduler, q: Query)
    requires scheduler.Working() && q in scheduler.running
    ensures forall r :: r in scheduler.running && r != q ==> r.query != q.query
  {
    forall r | r in scheduler.running && r != q ensures r.query != q.query {
      assert r in scheduler.Queries() && q in scheduler.Queries();
    }
  }

  /** process, and what it leaves as it is. */
  method TurnAmong(scheduler: QueryScheduler, q: Query, snap: Snapshot, clock: Clock) returns (complete: Option<Query>)
    requires scheduler.Linked() && scheduler.Working() && scheduler.running != [] && q == scheduler.running[0]
    requires SnapshotOk(snap) && (!q.dead ==> SnapshotBetween(snap, q.keep, q.hist))
    modifies scheduler`conns, scheduler`running, q`dead, q.query, q.query.scanner
    ensures scheduler.Linked() && scheduler.Working()
    ensures old(q.dead) ==> scheduler.running == old(scheduler.running)[1..] && scheduler.conns == old(scheduler.conns) && complete.None?
    ensures !old(q.dead) ==> Sends(old(q.query.sent), q.query.sent, snap.events)
    ensures !old(q.dead) && complete.None? ==>
      scheduler.running == old(scheduler.running)[1..] + [q] && scheduler.conns == old(scheduler.conns) && clock.Limited?
    ensures complete.Some? ==>
      !old(q.dead) && scheduler.running == old(scheduler.running)[1..] && scheduler.conns == old(scheduler.conns) - {q.key} && q.IsAnswered()
    ensures TurnsLeft(scheduler, snap) < old(TurnsLeft(scheduler, snap))
    ensures forall r :: r in old(scheduler.running) && r != q ==> r.GetReport() == old(r.GetReport())
  {
    OthersApart(scheduler, q);
    complete := TurnShorter(scheduler, q, snap, clock);
  }

  /** A live query has sent more. */
  function DeskSent(d: Desk, i: nat, sent: seq<nat>): (d': Desk)
    requires i < |d.subs|
  {
    d.(subs := d.subs[i := d.subs[i].(sent := sent)])
  }

  /** And it is done. */
  function DeskDone(d: Desk, i: nat): (d': Desk)
    requires i < |d.subs|
  {
    d.(subs := d.subs[i := Completed(d.subs[i])], held := d.held - {d.subs[i].key})
  }

  /** The query is back in the queue, or gone. */
  lemma BackInStep(scheduler: QueryScheduler, running: seq<Query>, q: Query, d: Desk, numbers: Numbers, sub: Subscription, held: map<SubKey, nat>)
    requires scheduler.Linked() && scheduler.Working() && scheduler.maxSubsPerConnection == d.maxSubs
    requires q in running && OthersServe(running, q, d.subs, numbers) && forall r :: r in scheduler.running ==> r in running
    requires Mirrors(scheduler.conns, held, numbers) && (q in scheduler.running ==> Serves(q, sub))
    ensures InStep(scheduler, d.(subs := d.subs[numbers[q] := sub], held := held), numbers)
  {
    OneFurther(running, scheduler.running, q, d.subs, numbers, sub);
  }

  lemma OthersStill(running: seq<Query>, q: Query, subs: seq<Subscription>, numbers: Numbers)
    requires forall r :: r in running ==> r in numbers && numbers[r] < |subs| && (r != q ==> Serves(r, subs[numbers[r]]))
    requires forall r, t :: r in running && t in running && r != t ==> numbers[r] != numbers[t]
    ensures OthersServe(running, q, subs, numbers)
  {
  }

  /** A live query answers a subscription that the protocol's worker holds. */
  lemma LiveIsHeld(scheduler: QueryScheduler, d: Desk, numbers: Numbers, q: Query)
    requires InStep(scheduler, d, numbers) && q in scheduler.running && !q.dead
    ensures q in numbers && numbers[q] < |d.subs| && Serves(q, d.subs[numbers[q]]) && q.Valid()
    ensures q.key in d.held && d.held[q.key] == numbers[q] && d.subs[numbers[q]].key == q.key
  {
    assert q in scheduler.Queries();
  }

  /** What has been sent is as asked for, whether the query is done or not. */
  lemma SentIsWell(q: Query)
    requires Within(q.keep, q.hist) && (q.Valid() || q.IsAnswered())
    ensures SentWell(q.query.sent, q.query.filters, q.query.latestEventId, q.hist)
  {
    if q.Valid() { SentSoFar(q.query, q.keep, q.hist); }
    else { ChangingAnswer(q.query.filters, q.query.latestEventId, q.query.sent, q.keep, q.hist); }
  }

  /** process, on a live query. */
  method TurnServed(scheduler: QueryScheduler, q: Query, snap: Snapshot, clock: Clock, ghost subs: seq<Subscription>, ghost numbers: Numbers)
      returns (complete: bool)
    requires scheduler.Linked() && scheduler.Working() && scheduler.running != [] && q == scheduler.running[0] && !q.dead
    requires SnapshotBetween(snap, q.keep, q.hist) && Numbered(scheduler.running, subs, numbers)
    modifies scheduler`conns, scheduler`running, q`dead, q.query, q.query.scanner
    ensures scheduler.Linked() && scheduler.Working()
    ensures OthersServe(old(scheduler.running), q, subs, numbers) && q.GetReport() == old(q.GetReport()).(sent := q.query.sent)
    ensures Sends(old(q.query.sent), q.query.sent, snap.events)
    ensures !complete ==>
      scheduler.running == old(scheduler.running)[1..] + [q] && scheduler.conns == old(scheduler.conns) && clock.Limited?
    ensures complete ==>
      scheduler.running == old(scheduler.running)[1..] && scheduler.conns == old(scheduler.conns) - {q.key} && q.IsAnswered()
    ensures TurnsLeft(scheduler, snap) < old(TurnsLeft(scheduler, snap))
  {
    ghost var running := scheduler.running;
    assert forall r :: r in running ==> r in numbers && numbers[r] < |subs| && Serves(r, subs[numbers[r]]);
    var c := TurnAmong(scheduler, q, snap, clock);
    complete := c.Some?;
    OthersStill(running, q, subs, numbers);
  }

  /** The query goes on later. */
  lemma TurnedOn(scheduler: QueryScheduler, running: seq<Query>, q: Query, d: Desk, numbers: Numbers)
    requires scheduler.Linked() && scheduler.Working() && scheduler.maxSubsPerConnection == d.maxSubs
    requires running != [] && q == running[0] && scheduler.running == running[1..] + [q] && OthersServe(running, q, d.subs, numbers)
    requires Mirrors(scheduler.conns, d.held, numbers)
    requires Serves(q, d.subs[numbers[q]].(sent := q.query.sent)) && Within(q.keep, q.hist)
    ensures InStep(scheduler, DeskSent(d, numbers[q], q.query.sent), numbers) && SentWell(q.query.sent, q.query.filters, q.query.latestEventId, q.hist)
  {
    BackInStep(scheduler, running, q, d, numbers, d.subs[numbers[q]].(sent := q.query.sent), d.held);
    assert q in scheduler.Queries();
    SentIsWell(q);
  }

  /** The query is done. */
  lemma TurnedDone(scheduler: QueryScheduler, running: seq<Query>, q: Query, d: Desk, numbers: Numbers)
    requires scheduler.Linked() && scheduler.Working() && scheduler.maxSubsPerConnection == d.maxSubs
    requires running != [] && q == running[0] && scheduler.running == running[1..] && OthersServe(running, q, d.subs, numbers)
    requires forall j, k :: 0 <= j < k < |running| ==> running[j] != running[k]
    requires Mirrors(scheduler.conns, d.held - {q.key}, numbers)
    requires Serves(q, d.subs[numbers[q]].(sent := q.query.sent)) && Within(q.keep, q.hist) && q.IsAnswered()
    ensures InStep(scheduler, DeskDone(DeskSent(d, numbers[q], q.query.sent), numbers[q]), numbers)
    ensures SentWell(q.query.sent, q.query.filters, q.query.latestEventId, q.hist)
  {
    BackInStep(scheduler, running, q, d, numbers, Completed(d.subs[numbers[q]].(sent := q.query.sent)), d.held - {q.key});
    SentIsWell(q);
  }

  method TurnLive(scheduler: QueryScheduler, q: Query, snap: Snapshot, clock: Clock, ghost d: Desk, ghost numbers: Numbers)
      returns (complete: bool)
    requires InStep(scheduler, d, numbers) && scheduler.running != [] && q == scheduler.running[0] && !q.dead
    requires SnapshotBetween(snap, q.keep, q.hist) && Within(q.keep, q.hist)
    modifies scheduler`conns, scheduler`running, q`dead, q.query, q.query.scanner
    ensures q in numbers && numbers[q] < |d.subs| && Sends(d.subs[numbers[q]].sent, q.query.sent, snap.events)
    ensures
      var sent := DeskSent(d, numbers[q], q.query.sent);
      InStep(scheduler, if complete then DeskDone(sent, numbers[q]) else sent, numbers)
    ensures
      var sub := d.subs[numbers[q]];
      && SentWell(q.query.sent, sub.filters, sub.start, sub.hist)
      && (complete ==> Answered(sub.filters, sub.start, q.query.sent, sub.keep, sub.hist))
    ensures if complete then scheduler.running == old(scheduler.running)[1..] else clock.Limited?
    ensures TurnsLeft(scheduler, snap) < old(TurnsLeft(scheduler, snap))
  {
    ghost var running := scheduler.running;
    LiveIsHeld(scheduler, d, numbers, q);
    MirrorsFewer(scheduler.conns, d.held, numbers, {q.key});
    complete := TurnServed(scheduler, q, snap, clock, d.subs, numbers);
    if complete {
      TurnedDone(scheduler, running, q, d, numbers);
    } else {
      TurnedOn(scheduler, running, q, d, numbers);
    }
  }

  /** process, on a query that has been killed. */
  method TurnDead(scheduler: QueryScheduler, q: Query, snap: Snapshot, clock: Clock, ghost d: Desk, ghost numbers: Numbers)
    requires InStep(scheduler, d, numbers) && scheduler.running != [] && q == scheduler.running[0] && q.dead && SnapshotOk(snap)
    modifies scheduler`conns, scheduler`running, q`dead, q.query, q.query.scanner
    ensures InStep(scheduler, d, numbers) && scheduler.running == old(scheduler.running)[1..]
    ensures TurnsLeft(scheduler, snap) < old(TurnsLeft(scheduler, snap))
  {
    ghost var running := scheduler.running;
    assert forall r :: r in running ==> r in numbers && numbers[r] < |d.subs| && Serves(r, d.subs[numbers[r]]);
    var _ := TurnAmong(scheduler, q, snap, clock);
    OthersStill(running, q, d.subs, numbers);
    BackInStep(scheduler, running, q, d, numbers, d.subs[numbers[q]], d.held);
    assert d.subs[numbers[q] := d.subs[numbers[q]]] == d.subs;
  }

  /** The protocol's steps for a turn: the sends, and the completion if it came to that. */
  lemma TurnIsSteps(s: State, key: SubKey, i: nat, sent: seq<nat>, complete: bool) returns (steps: seq<Step>)
    requires key in s.worker.held && s.worker.held[key] == i && i < |s.subs| && s.subs[i].key == key && s.subs[i].sent <= sent
    requires MaySendAll(s.subs[i], s.worker.snap, sent[|s.subs[i].sent|..])
    requires
      var sub := s.subs[i];
      complete ==> Answered(sub.filters, sub.start, sent, sub.keep, sub.hist)
    ensures CanRun(s, steps)
    ensures
      var d := DeskSent(DeskOf(s), i, sent);
      DeskOf(Run(s, steps)) == if complete then DeskDone(d, i) else d
  {
    var levIds := sent[|s.subs[i].sent|..];
    steps := Sendings(key, levIds);
    assert s.subs[i].sent + levIds == sent;
    SendingsRun(s, key, i, levIds, sent);
    if complete {
      RunOne(SentAll(s, i, sent), WorkerComplete(key));
      RunConcat(s, steps, [WorkerComplete(key)]);
      steps := steps + [WorkerComplete(key)];
    }
  }

  lemma SentIsSteps(s: State, key: SubKey, i: nat, sent: seq<nat>, complete: bool) returns (steps: seq<Step>)
    requires Inv(s) && key in s.worker.held && s.worker.held[key] == i && i < |s.subs| && s.subs[i].key == key && s.subs[i].stage.Querying?
    requires
      var sub := s.subs[i];
      && Sends(sub.sent, sent, s.worker.snap) && SentWell(sent, sub.filters, sub.start, sub.hist)
      && (complete ==> Answered(sub.filters, sub.start, sent, sub.keep, sub.hist))
    ensures CanRun(s, steps)
    ensures
      var d := DeskSent(DeskOf(s), i, sent);
      DeskOf(Run(s, steps)) == if complete then DeskDone(d, i) else d
  {
    assert KeepsUp(s.subs[i], s.worker.snap);
    SentMay(s.subs[i], sent, s.worker.snap);
    steps := TurnIsSteps(s, key, i, sent, complete);
  }

  method RunLive(scheduler: QueryScheduler, q: Query, snap: Snapshot, clock: Clock, ghost s: State, ghost numbers: Numbers)
      returns (ghost steps: seq<Step>)
    requires InStep(scheduler, DeskOf(s), numbers) && Inv(s) && scheduler.running != [] && q == scheduler.running[0] && !q.dead
    requires SnapshotOk(snap) && snap.events == s.worker.snap
    modifies scheduler`conns, scheduler`running, q`dead, q.query, q.query.scanner
    ensures CanRun(s, steps) && InStep(scheduler, DeskOf(Run(s, steps)), numbers)
    ensures clock.Unlimited? ==> |scheduler.running| < |old(scheduler.running)|
    ensures TurnsLeft(scheduler, snap) < old(TurnsLeft(scheduler, snap))
  {
    LiveIsHeld(scheduler, DeskOf(s), numbers, q);
    SnapshotSuits(s, numbers[q], snap);
    var complete := TurnLive(scheduler, q, snap, clock, DeskOf(s), numbers);
    steps := SentIsSteps(s, q.key, numbers[q], q.query.sent, complete);
  }

  method RunFront(scheduler: QueryScheduler, q: Query, snap: Snapshot, clock: Clock, ghost s: State, ghost numbers: Numbers)
      returns (ghost steps: seq<Step>)
    requires InStep(scheduler, DeskOf(s), numbers) && Inv(s) && scheduler.running != [] && q == scheduler.running[0]
    requires SnapshotOk(snap) && snap.events == s.worker.snap
    modifies scheduler`conns, scheduler`running, q`dead, q.query, q.query.scanner
    ensures CanRun(s, steps) && InStep(scheduler, DeskOf(Run(s, steps)), numbers)
    ensures clock.Unlimited? ==> |scheduler.running| < |old(scheduler.running)|
    ensures TurnsLeft(scheduler, snap) < old(TurnsLeft(scheduler, snap))
  {
    steps := [];
    if q.dead {
      TurnDead(scheduler, q, snap, clock, DeskOf(s), numbers);
    } else {
      steps := RunLive(scheduler, q, snap, clock, s, numbers);
    }
  }

  /** process: a turn of the scheduler on the worker's snapshot is a run of the protocol's
      steps, none if there is no query. */
  method RunTurn(scheduler: QueryScheduler, snap: Snapshot, clock: Clock, ghost s: State, ghost numbers: Numbers) returns (ghost steps: seq<Step>)
    requires InStep(scheduler, DeskOf(s), numbers) && Inv(s) && SnapshotOk(snap) && snap.events == s.worker.snap
    modifies scheduler`conns, scheduler`running, (if scheduler.running == [] then {} else {scheduler.running[0]})`dead
    modifies if scheduler.running == [] then {} else {scheduler.running[0].query, scheduler.running[0].query.scanner}
    ensures CanRun(s, steps) && InStep(scheduler, DeskOf(Run(s, steps)), numbers)
    ensures clock.Unlimited? && old(scheduler.running) != [] ==> |scheduler.running| < |old(scheduler.running)|
    ensures old(scheduler.running) != [] ==> TurnsLeft(scheduler, snap) < old(TurnsLeft(scheduler, snap))
  {
    steps := [];
    if scheduler.running != [] { steps := RunFront(scheduler, scheduler.running[0], snap, clock, s, numbers); }
  }

  /** Before the first request there is nothing to do. */
  method Begin(maxSubs: nat, ghost s: State) returns (scheduler: QueryScheduler)
    requires Initial(s) && s.maxSubs == maxSubs
    ensures fresh(scheduler) && InStep(scheduler, DeskOf(s), map[])
  {
    scheduler := new QueryScheduler(maxSubs);
  }
}
