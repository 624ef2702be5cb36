/** One run of the protocol from an empty store: an event is stored, a client asks for
    it, another event comes in, and the client gets both. */
module Examples {
  import opened Events
  import opened Filters
  import opened Lookups
  import opened Subscriptions
  import opened Protocol
  import WorkerThread
  import Queries
  import Store
  import Cron

  /** Two ordinary events that a filter matches. */
  ghost predicate Suitable(e1: Event, e2: Event, f: Filter) {
    && Store.EventOk(e1) && Store.EventOk(e2) && e1.id != e2.id
    && Store.SlotOf(e1).None? && Store.SlotOf(e2).None? && !IsDeletion(e1.kind) && !IsDeletion(e2.kind)
    && Queries.Runnable(f) && f.limit > 0 && Matches(f, e1) && Matches(f, e2)
  }

  // ---------------------------------------------------------------------------
  // The store

  lemma BatchOfOne(st: Cron.State, e: Event)
    requires Store.EventOk(e) && Store.StatusOf(st.db, e) == Store.Written
    requires forall l :: l in st.db ==> !Store.Victim(st.db, e, l)
    ensures Cron.Enabled(st, Cron.Batch([e]))
    ensures
      var n := Store.MaxLevId(st.db) + 1;
      Cron.After(st, Cron.Batch([e])) == Cron.State(st.db[n := e], st.selected, st.hist[n := e])
  {
    var n := Store.MaxLevId(st.db) + 1;
    var es: seq<Event> := [e];
    assert es[..0] == [];
    assert Store.Apply(st.db, []) == st.db && Cron.Names(st.hist, st.db, []) == st.hist;
    assert Store.Survivors(st.db, e) == st.db;
    assert Store.Apply(st.db, es) == Store.WriteOne(st.db, e);
  }

  lemma FirstStored(st: Cron.State, e1: Event)
    requires st.db == map[] && st.hist == map[] && Store.EventOk(e1)
    ensures Cron.Enabled(st, Cron.Batch([e1]))
    ensures Cron.After(st, Cron.Batch([e1])) == Cron.State(map[1 := e1], st.selected, map[1 := e1])
    ensures Store.MaxLevId(map[1 := e1]) == 1
  {
    BatchOfOne(st, e1);
    Store.MaxLevIdIs(map[1 := e1], 1);
  }

  lemma SecondStored(st: Cron.State, e1: Event, e2: Event, f: Filter)
    requires st.db == map[1 := e1] && st.hist == map[1 := e1] && Suitable(e1, e2, f)
    ensures Cron.Enabled(st, Cron.Batch([e2]))
    ensures Cron.After(st, Cron.Batch([e2])) == Cron.State(map[1 := e1, 2 := e2], st.selected, map[1 := e1, 2 := e2])
    ensures Store.MaxLevId(map[1 := e1, 2 := e2]) == 2
  {
    Store.MaxLevIdIs(map[1 := e1], 1);
    BatchOfOne(st, e2);
    assert st.db[2 := e2] == map[1 := e1, 2 := e2];
    Store.MaxLevIdIs(map[1 := e1, 2 := e2], 2);
  }

  // ---------------------------------------------------------------------------
  // Stations

  ghost predicate Empty(s: State) {
    Initial(s) && s.store.db == map[] && s.store.hist == map[] && s.maxSubs > 0
  }

  ghost predicate Quiet(t: Thread<MonitorMsg>) {
    t.batch == [] && t.inbox == [] && t.held == map[]
  }

  ghost predicate OneStored(s: State, e1: Event) {
    s.store.db == map[1 := e1] && s.store.hist == map[1 := e1] && s.maxSubs > 0
  }

  ghost predicate Asked(s: State, key: SubKey, e1: Event, f: Filter) {
    && OneStored(s, e1) && Quiet(s.monitor) && s.subs == [Request(key, [f])]
    && s.worker.batch == [] && s.worker.inbox == [Req(0)] && s.worker.held == map[]
  }

  ghost predicate Queried(s: State, key: SubKey, e1: Event, f: Filter) {
    && OneStored(s, e1) && Quiet(s.monitor)
    && s.subs == [Started(Request(key, [f]), map[1 := e1], 1)]
    && s.worker.batch == [] && s.worker.held == map[key := 0] && s.worker.snap == map[1 := e1]
  }

  ghost predicate Passed(s: State, key: SubKey, e1: Event, f: Filter) {
    && OneStored(s, e1) && s.monitor.batch == [] && s.monitor.inbox == [NewSub(0)] && s.monitor.held == map[]
    && s.subs == [Completed(SentOne(Started(Request(key, [f]), map[1 := e1], 1), 1))]
  }

  /** What the client has got is known from here on. */
  ghost predicate Watched(s: State, key: SubKey, f: Filter) {
    && |s.subs| == 1 && s.subs[0].key == key && s.subs[0].filters == [f] && s.subs[0].stage.Monitoring?
    && s.subs[0].sent == [1] && s.subs[0].live == [] && s.subs[0].latestEventId == 1
    && s.monitor.batch == [] && s.monitor.held == map[key := 0]
  }

  ghost predicate Notified(s: State, key: SubKey, e1: Event, e2: Event, f: Filter) {
    Watched(s, key, f) && s.monitor.inbox == [DBChange] && s.store.db == map[1 := e1, 2 := e2] && s.currEventId <= 1
  }

  // ---------------------------------------------------------------------------
  // From one to the next

  ghost predicate Reaches(s: State, t: State) {
    exists steps :: CanRun(s, steps) && t == Run(s, steps)
  }

  lemma ReachesOn(s: State, t: State, u: State)
    requires Reaches(s, t) && Reaches(t, u)
    ensures Reaches(s, u)
  {
    var a :| CanRun(s, a) && t == Run(s, a);
    var b :| CanRun(t, b) && u == Run(t, b);
    RunConcat(s, a, b);
    assert CanRun(s, a + b) && u == Run(s, a + b);
  }

  lemma InTwo(s: State, a: Step, b: Step) returns (t: State)
    requires Enabled(s, a) && Enabled(After(s, a), b)
    ensures t == After(After(s, a), b) && Reaches(s, t)
  {
    RunTwo(s, a, b);
    t := Run(s, [a, b]);
  }

  lemma ToAsked(s: State, key: SubKey, e1: Event, f: Filter) returns (t: State)
    requires Empty(s) && Store.EventOk(e1) && Queries.Runnable(f)
    ensures Reaches(s, t) && Asked(t, key, e1, f)
  {
    FirstStored(s.store, e1);
    t := InTwo(s, Change(Cron.Batch([e1])), ClientReq(key, [f]));
  }

  lemma ToQueried(s: State, key: SubKey, e1: Event, f: Filter) returns (t: State)
    requires Asked(s, key, e1, f)
    ensures Reaches(s, t) && Queried(t, key, e1, f)
  {
    Store.MaxLevIdIs(map[1 := e1], 1);
    var s1 := After(s, WorkerBegin);
    assert s1.worker.batch == [Req(0)] && s1.subs == s.subs;
    assert OfConn((s1.worker.held - {key}).Keys, key.connId) == {};
    t := InTwo(s, WorkerBegin, WorkerMessage);
  }

  /** The one stored event is the answer. */
  lemma OneIsTop(e1: Event, f: Filter)
    requires f.limit > 0 && Matches(f, e1)
    ensures Queries.TopOf([1], f, map[1 := e1], map[1 := e1], 1)
  {
    assert Queries.Wanted(f, map[1 := e1], 1, 1);
  }

  lemma OneInOrder()
    ensures Queries.InOrder([[1]]) == [1]
  {
    var tops: seq<seq<nat>>, one: seq<nat> := [[1]], [1];
    assert tops[..0] == [] && one[..0] == [];
    assert Queries.Append([], one) == [1];
  }

  lemma OneIsAnswer(e1: Event, f: Filter)
    requires f.limit > 0 && Matches(f, e1)
    ensures Queries.Answered([f], 1, [1], map[1 := e1], map[1 := e1])
  {
    OneIsTop(e1, f);
    OneInOrder();
    assert Queries.AnsweredBy([[1]], [f], 1, [1], map[1 := e1], map[1 := e1]);
  }

  lemma ToPassed(s: State, key: SubKey, e1: Event, f: Filter) returns (t: State)
    requires Queried(s, key, e1, f) && f.limit > 0 && Matches(f, e1)
    ensures Reaches(s, t) && Passed(t, key, e1, f)
  {
    assert GroupMatches([f], e1) by { assert Matches([f][0], e1); }
    OneIsAnswer(e1, f);
    assert After(s, WorkerSend(key, 1)).subs[0].sent == [1];
    t := InTwo(s, WorkerSend(key, 1), WorkerComplete(key));
  }

  lemma ToWatched(s: State, key: SubKey, e1: Event, f: Filter) returns (t: State)
    requires Passed(s, key, e1, f)
    ensures Reaches(s, t) && Watched(t, key, f) && OneStored(t, e1) && t.monitor.inbox == [] && t.currEventId <= 1
  {
    Store.MaxLevIdIs(map[1 := e1], 1);
    var s1 := After(s, MonitorBegin);
    assert s1.monitor.batch == [NewSub(0)];
    assert OfConn((s1.monitor.held - {key}).Keys, key.connId) == {};
    assert Between(s1.monitor.snap, [f], 1, 1) == [];
    t := InTwo(s, MonitorBegin, MonitorMessage);
  }

  lemma ToNotified(s: State, key: SubKey, e1: Event, e2: Event, f: Filter) returns (t: State)
    requires Watched(s, key, f) && OneStored(s, e1) && s.monitor.inbox == [] && s.currEventId <= 1 && Suitable(e1, e2, f)
    ensures Reaches(s, t) && Notified(t, key, e1, e2, f)
  {
    SecondStored(s.store, e1, e2, f);
    t := InTwo(s, Change(Cron.Batch([e2])), Notify);
  }

  lemma ToServed(s: State, key: SubKey, e1: Event, e2: Event, f: Filter) returns (t: State)
    requires Notified(s, key, e1, e2, f) && Matches(f, e2)
    ensures Reaches(s, t) && |t.subs| == 1 && t.subs[0].key == key && t.subs[0].filters == [f]
    ensures Messages(t.subs[0]) == [Stored(1), Eose, Live(2)]
  {
    Store.MaxLevIdIs(map[1 := e1, 2 := e2], 2);
    var s1 := After(s, MonitorBegin);
    assert s1.monitor.batch == [DBChange] && s1.monitor.held[key] in s1.monitor.held.Values;
    assert GroupMatches([f], e2) by { assert Matches([f][0], e2); }
    assert Between(s1.monitor.snap, [f], 1, 1) == [];
    assert Between(s1.monitor.snap, [f], 1, 2) == [2];
    t := InTwo(s, MonitorBegin, MonitorMessage);
    assert t.subs[0].sent == [1] && t.subs[0].live == [2];
  }

  lemma StoredArrives(s: State, key: SubKey, e1: Event, f: Filter) returns (t: State)
    requires Empty(s) && Store.EventOk(e1) && Queries.Runnable(f) && f.limit > 0 && Matches(f, e1)
    ensures Reaches(s, t) && Watched(t, key, f) && OneStored(t, e1) && t.monitor.inbox == [] && t.currEventId <= 1
  {
    var asked := ToAsked(s, key, e1, f);
    var queried := ToQueried(asked, key, e1, f);
    ReachesOn(s, asked, queried);
    var passed := ToPassed(queried, key, e1, f);
    ReachesOn(s, queried, passed);
    t := ToWatched(passed, key, e1, f);
    ReachesOn(s, passed, t);
  }

  /** From an empty store, a client can get one event as a stored one and one live. */
  lemma BothEventsArrive(s: State, key: SubKey, e1: Event, e2: Event, f: Filter) returns (t: State)
    requires Empty(s) && Suitable(e1, e2, f)
    ensures Reaches(s, t) && |t.subs| == 1 && t.subs[0].key == key && t.subs[0].filters == [f]
    ensures Messages(t.subs[0]) == [Stored(1), Eose, Live(2)]
  {
    var watched := StoredArrives(s, key, e1, f);
    var notified := ToNotified(watched, key, e1, e2, f);
    ReachesOn(s, watched, notified);
    t := ToServed(notified, key, e1, e2, f);
    ReachesOn(s, notified, t);
  }

  // ---------------------------------------------------------------------------
  // Any request

  ghost predicate Waiting(s: State, key: SubKey, filters: seq<Filter>) {
    && s.worker.batch == [Req(0)] && s.worker.held == map[] && s.maxSubs > 0 && s.subs == [Request(key, filters)]
    && s.worker.snap == s.store.db && s.worker.latest == Store.MaxLevId(s.store.db)
    && Quiet(s.monitor)
  }

  lemma ToWaiting(s: State, key: SubKey, filters: seq<Filter>) returns (t: State)
    requires Initial(s) && s.maxSubs > 0 && forall f :: f in filters ==> Queries.Runnable(f)
    ensures Reaches(s, t) && t.store == s.store && Waiting(t, key, filters)
  {
    t := InTwo(s, ClientReq(key, filters), WorkerBegin);
  }

  /** The worker takes up the request. */
  lemma ToTaken(s: State, key: SubKey, filters: seq<Filter>) returns (t: State)
    requires Waiting(s, key, filters)
    ensures Reaches(s, t) && t.store == s.store && Quiet(t.monitor) && t.worker.held == map[key := 0] && t.maxSubs > 0
    ensures t.worker.snap == s.store.db && t.subs == [Started(Request(key, filters), s.store.db, Store.MaxLevId(s.store.db))]
  {
    assert OfConn((s.worker.held - {key}).Keys, key.connId) == {};
    RunOne(s, WorkerMessage);
    t := After(s, WorkerMessage);
  }

  /** The brute-force answer. */
  ghost function BruteForce(sub: Subscription, db: Table): (sent: seq<nat>) {
    Queries.InOrder(Queries.Answers(sub.filters, db, sub.start))
  }

  /** Everything in the brute-force answer may be sent, in order. */
  lemma AnswerMaySend(sub: Subscription, db: Table)
    requires sub.sent == [] && Queries.Answered(sub.filters, sub.start, BruteForce(sub, db), db, db)
    ensures WorkerThread.MaySendAll(sub, db, BruteForce(sub, db))
  {
    var sent := BruteForce(sub, db);
    Queries.ChangingAnswer(sub.filters, sub.start, sent, db, db);
    forall j | 0 <= j < |sent| ensures MaySend(sub.(sent := sub.sent + sent[..j]), db, sent[j]) {
      assert sub.sent + sent[..j] == sent[..j] && sent[j] in sent;
    }
  }

  lemma ToSent(s: State, key: SubKey, sub: Subscription) returns (t: State)
    requires s.worker.held == map[key := 0] && s.subs == [sub] && sub.sent == [] && sub.keep == s.worker.snap == sub.hist
    requires Quiet(s.monitor)
    ensures Reaches(s, t) && t.store == s.store && t.monitor == s.monitor.(inbox := [NewSub(0)]) && t.maxSubs == s.maxSubs
    ensures t.subs == [Completed(sub.(sent := BruteForce(sub, s.worker.snap)))]
  {
    var sent := BruteForce(sub, s.worker.snap);
    Queries.AnswerExists(sub.filters, sub.start, s.worker.snap);
    AnswerMaySend(sub, s.worker.snap);
    WorkerThread.SendingsRun(s, key, 0, sent, sent);
    var s1 := WorkerThread.SentAll(s, 0, sent);
    assert Reaches(s, s1) by { assert CanRun(s, WorkerThread.Sendings(key, sent)); }
    RunOne(s1, WorkerComplete(key));
    t := After(s1, WorkerComplete(key));
    assert Reaches(s1, t) by { assert CanRun(s1, [WorkerComplete(key)]); }
    ReachesOn(s, s1, t);
  }

  lemma ToMonitored(s: State, key: SubKey, sub: Subscription) returns (t: State)
    requires s.subs == [sub] && sub.key == key && Quiet(s.monitor.(inbox := [])) && s.monitor.inbox == [NewSub(0)] && s.maxSubs > 0
    ensures Reaches(s, t) && t.store == s.store && |t.subs| == 1 && IsMonitored(t, key, t.subs[0])
    ensures t.subs[0].filters == sub.filters && t.subs[0].sent == sub.sent
  {
    var s1 := After(s, MonitorBegin);
    assert s1.monitor.batch == [NewSub(0)];
    assert OfConn((s1.monitor.held - {key}).Keys, key.connId) == {};
    t := InTwo(s, MonitorBegin, MonitorMessage);
  }

  /** From any initial state, whatever is stored, any request can be answered in full and
      go on to the monitor. */
  lemma RequestIsAnswered(s: State, key: SubKey, filters: seq<Filter>) returns (t: State)
    requires Initial(s) && s.maxSubs > 0 && forall f :: f in filters ==> Queries.Runnable(f)
    ensures Reaches(s, t) && t.store == s.store && |t.subs| == 1 && IsMonitored(t, key, t.subs[0])
    ensures t.subs[0].filters == filters
    ensures t.subs[0].sent == Queries.InOrder(Queries.Answers(filters, s.store.db, Store.MaxLevId(s.store.db)))
  {
    var waiting := ToWaiting(s, key, filters);
    var taken := ToTaken(waiting, key, filters);
    ReachesOn(s, waiting, taken);
    var sent := ToSent(taken, key, taken.subs[0]);
    ReachesOn(s, taken, sent);
    t := ToMonitored(sent, key, sent.subs[0]);
    ReachesOn(s, sent, t);
  }
}
