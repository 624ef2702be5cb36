/** The live subscriptions (ActiveMonitors, src/ActiveMonitors.h). */
module Monitors {
  import opened Results
  import opened Events
  import opened Sequences
  import opened Filters
  import opened Lookups

  // ---------------------------------------------------------------------------
  // The ephemeral-kind tracker

  /** The tracker's counters, as a value. */
  datatype Counts = Counts(kinds: map<nat, nat>, catchAll: nat)

  predicate TracksKind(k: MonitorKey) {
    k.Kind? && IsEphemeral(k.kind)
  }

  function CountUp(c: Counts, k: MonitorKey): (r: Counts) {
    if TracksKind(k) then c.(kinds := c.kinds[k.kind := (if k.kind in c.kinds then c.kinds[k.kind] else 0) + 1])
    else if k.CatchAll? then c.(catchAll := c.catchAll + 1)
    else c
  }

  function CountDown(c: Counts, k: MonitorKey): (r: Counts) {
    if TracksKind(k) && k.kind in c.kinds then
      if c.kinds[k.kind] <= 1 then c.(kinds := c.kinds - {k.kind}) else c.(kinds := c.kinds[k.kind := c.kinds[k.kind] - 1])
    else if k.CatchAll? && c.catchAll > 0 then c.(catchAll := c.catchAll - 1)
    else c
  }

  function Size(m: Index, k: MonitorKey): (n: nat) {
    if k in m then |m[k]| else 0
  }

  /** How many filters are installed under a key, over the indices of all threads. */
  function Total(ms: seq<Index>, k: MonitorKey): (n: nat) {
    if ms == [] then 0 else Total(ms[..|ms| - 1], k) + Size(ms[|ms| - 1], k)
  }

  /** The counters are the numbers of installed filters they stand for: per ephemeral
      kind, and of catch-all filters, in all monitor threads together. */
  ghost predicate Counted(c: Counts, ms: seq<Index>) {
    match c
    case Counts(kinds, catchAll) =>
      && (forall n :: n in kinds <==> IsEphemeral(n) && Total(ms, Kind(n)) > 0)
      && (forall n :: n in kinds ==> kinds[n] == Total(ms, Kind(n)))
      && catchAll == Total(ms, CatchAll)
  }

  lemma {:induction false} TotalAt(ms: seq<Index>, t: nat, m: Index, k: MonitorKey)
    requires t < |ms|
    ensures Total(ms[t := m], k) == Total(ms, k) - Size(ms[t], k) + Size(m, k)
    ensures Total(ms, k) >= Size(ms[t], k)
    decreases |ms|
  {
    var n := |ms| - 1;
    if t < n {
      TotalAt(ms[..n], t, m, k);
      assert ms[t := m][..n] == ms[..n][t := m];
    } else {
      assert ms[t := m][..n] == ms[..n];
    }
  }

  /** Something is counted exactly when some thread has a filter under the key. */
  lemma {:induction false} TotalPositive(ms: seq<Index>, k: MonitorKey)
    ensures Total(ms, k) > 0 <==> exists t, r :: 0 <= t < |ms| && Has(ms[t], k, r)
    decreases |ms|
  {
    if ms != [] {
      var n := |ms| - 1;
      TotalPositive(ms[..n], k);
      if Size(ms[n], k) > 0 {
        assert |ms[n][k].Keys| > 0;
        var r :| r in ms[n][k].Keys;
        assert Has(ms[n], k, r);
      }
      if t, r :| 0 <= t < n && Has(ms[..n][t], k, r) { assert Has(ms[t], k, r); }
      if t, r :| 0 <= t < |ms| && Has(ms[t], k, r) {
        if t < n { assert Has(ms[..n][t], k, r); } else { assert r in ms[n][k].Keys; }
      }
    }
  }

  lemma SizeAfterPut(m: Index, k: MonitorKey, r: FilterRef, latest: nat, k': MonitorKey)
    requires !Has(m, k, r)
    ensures Size(Put(m, k, r, latest), k') == Size(m, k') + if k' == k then 1 else 0
  {
    var s: MonitorSet := if k in m then m[k] else map[];
    assert s[r := latest].Keys == s.Keys + {r};
    assert |s[r := latest].Keys| == |s.Keys| + 1;
  }

  lemma SizeAfterDrop(m: Index, k: MonitorKey, r: FilterRef, k': MonitorKey)
    requires Has(m, k, r)
    ensures Size(Drop(m, k, r), k') == Size(m, k') - if k' == k then 1 else 0
  {
    assert m[k].Keys == (m[k] - {r}).Keys + {r};
    assert |m[k].Keys| == |(m[k] - {r}).Keys| + 1;
    assert m[k] - {r} == map[] <==> |m[k] - {r}| == 0;
  }

  /** Counting up follows an installation in one of the threads. */
  lemma PutCounted(c: Counts, ms: seq<Index>, t: nat, k: MonitorKey, r: FilterRef, latest: nat)
    requires t < |ms| && Counted(c, ms) && !Has(ms[t], k, r)
    ensures Counted(CountUp(c, k), ms[t := Put(ms[t], k, r, latest)])
  {
    forall k' ensures Total(ms[t := Put(ms[t], k, r, latest)], k') == Total(ms, k') + if k' == k then 1 else 0 {
      TotalAt(ms, t, Put(ms[t], k, r, latest), k');
      SizeAfterPut(ms[t], k, r, latest, k');
    }
  }

  /** Counting down follows a removal. */
  lemma DropCounted(c: Counts, ms: seq<Index>, t: nat, k: MonitorKey, r: FilterRef)
    requires t < |ms| && Counted(c, ms) && Has(ms[t], k, r)
    ensures Counted(CountDown(c, k), ms[t := Drop(ms[t], k, r)])
  {
    forall k' ensures Total(ms[t := Drop(ms[t], k, r)], k') == Total(ms, k') - if k' == k then 1 else 0 {
      TotalAt(ms, t, Drop(ms[t], k, r), k');
      SizeAfterDrop(ms[t], k, r, k');
    }
  }

  /** The tracker that the monitor threads share. `indices` are their indices. */
  class EphemeralSubTracker {
    var kindRefcounts: map<nat, nat>
    var catchAllCount: nat
    ghost var indices: seq<Index>

    function State(): (c: Counts)
      reads this
    {
      Counts(kindRefcounts, catchAllCount)
    }

    constructor (ghost threads: nat)
      ensures Counted(State(), indices)
      ensures |indices| == threads && forall t :: 0 <= t < threads ==> indices[t] == map[]
    {
      kindRefcounts, catchAllCount := map[], 0;
      indices := seq(threads, t => map[]);
      new;
      forall k ensures Total(indices, k) == 0 { NothingCounted(indices, k); }
    }

    /** The ingester asks whether an ephemeral event can be of interest: it is told so
        exactly when some thread has a filter installed under the kind or as a
        catch-all. */
    method HasSubscribersForKind(kind: nat) returns (r: bool)
      requires Counted(State(), indices) && IsEphemeral(kind)
      ensures r <==> exists t, ref :: 0 <= t < |indices| && (Has(indices[t], Kind(kind), ref) || Has(indices[t], CatchAll, ref))
    {
      r := catchAllCount > 0 || kind in kindRefcounts;
      TotalPositive(indices, Kind(kind));
      TotalPositive(indices, CatchAll);
    }

    method AddKind(kind: nat)
      requires IsEphemeral(kind)
      modifies `kindRefcounts
      ensures State() == CountUp(old(State()), Kind(kind))
    {
      kindRefcounts := kindRefcounts[kind := (if kind in kindRefcounts then kindRefcounts[kind] else 0) + 1];
    }

    /** removeKind erases the entry when the decremented count is zero; counts are
        never zero to begin with. */
    method RemoveKind(kind: nat)
      requires IsEphemeral(kind)
      modifies `kindRefcounts
      ensures State() == CountDown(old(State()), Kind(kind))
    {
      if kind in kindRefcounts {
        if kindRefcounts[kind] <= 1 { kindRefcounts := kindRefcounts - {kind}; }
        else { kindRefcounts := kindRefcounts[kind := kindRefcounts[kind] - 1]; }
      }
    }

    method AddCatchAll()
      modifies `catchAllCount
      ensures State() == CountUp(old(State()), CatchAll)
    {
      catchAllCount := catchAllCount + 1;
    }

    method RemoveCatchAll()
      modifies `catchAllCount
      ensures State() == CountDown(old(State()), CatchAll)
    {
      if catchAllCount > 0 { catchAllCount := catchAllCount - 1; }
    }
  }

  lemma {:induction false} NothingCounted(ms: seq<Index>, k: MonitorKey)
    requires forall t :: 0 <= t < |ms| ==> ms[t] == map[]
    ensures Total(ms, k) == 0
    decreases |ms|
  {
    if ms != [] { NothingCounted(ms[..|ms| - 1], k); }
  }

  // ---------------------------------------------------------------------------
  // The invariant

  datatype Sub = Sub(filters: seq<Filter>, latestEventId: nat)

  type Subs = map<SubKey, Sub>

  /** Filter `r` of the installed subscriptions belongs under key `k`. */
  ghost predicate Installed(subs: Subs, k: MonitorKey, r: FilterRef) {
    r.sub in subs && r.index < |subs[r.sub].filters| && k in KeysOf(subs[r.sub].filters[r.index])
  }

  /** The index holds exactly the installed filters, and no empty set. */
  ghost predicate Exact(subs: Subs, m: Index) {
    NoEmptySets(m) && forall k, r :: Has(m, k, r) <==> Installed(subs, k, r)
  }

  /** No item has been tried on an event beyond the last one processed, unless its
      subscription starts later. */
  ghost predicate Watermarks(subs: Subs, m: Index, last: nat) {
    forall k, r :: Has(m, k, r) && r.sub in subs ==> m[k][r] <= last || m[k][r] <= subs[r.sub].latestEventId
  }

  ghost predicate SubsOk(subs: Subs) {
    forall s, i :: s in subs && 0 <= i < |subs[s].filters| ==> SetsWellFormed(subs[s].filters[i])
  }

  /** `m'` is `m` with filter `r` installed under the keys `keys`. */
  ghost predicate FilterAdded(m: Index, r: FilterRef, keys: seq<MonitorKey>, latest: nat, m': Index) {
    && (forall k, r' :: Has(m', k, r') <==> Has(m, k, r') || (r' == r && k in keys))
    && (forall k, r' :: Has(m, k, r') ==> m'[k][r'] == m[k][r'])
    && (forall k :: k in keys ==> Has(m', k, r) && m'[k][r] == latest)
  }

  /** `m'` is `m` with filter `r` removed from the keys `keys`. */
  ghost predicate Removed(m: Index, r: FilterRef, keys: seq<MonitorKey>, m': Index) {
    && (forall k, r' :: Has(m', k, r') <==> Has(m, k, r') && !(r' == r && k in keys))
    && (forall k, r' :: Has(m', k, r') ==> m'[k][r'] == m[k][r'])
  }

  lemma UpdatedTwice(ms: seq<Index>, t: nat, m: Index, m': Index)
    requires t < |ms|
    ensures ms[t := m][t := m'] == ms[t := m']
  {
  }

  class ActiveMonitors {
    const tracker: EphemeralSubTracker
    const maxSubsPerConnection: nat
    var subs: Subs
    var lookups: Index
    /** The last event processed. */
    ghost var last: nat
    /** Which of the tracker's indices is this one. */
    ghost const thread: nat

    ghost predicate Joined()
      reads `lookups, tracker
    {
      var indices := tracker.indices;
      thread < |indices| && indices[thread] == lookups && Counted(tracker.State(), indices)
    }

    ghost predicate Valid()
      reads this, tracker
    {
      && SubsOk(subs) && Exact(subs, lookups) && Joined()
      && Watermarks(subs, lookups, last)
    }

    constructor (tracker: EphemeralSubTracker, maxSubsPerConnection: nat, ghost thread: nat)
      requires Counted(tracker.State(), tracker.indices) && thread < |tracker.indices| && tracker.indices[thread] == map[]
      ensures this.tracker == tracker && this.thread == thread && this.maxSubsPerConnection == maxSubsPerConnection
      ensures Valid() && subs == map[] && lookups == map[] && last == 0
    {
      this.tracker := tracker;
      this.thread := thread;
      this.maxSubsPerConnection := maxSubsPerConnection;
      subs := map[];
      lookups := map[];
      last := 0;
    }

    /** One entry of the index, counted. */
    method InstallKey(k: MonitorKey, r: FilterRef, latest: nat)
      requires NoEmptySets(lookups) && Joined() && !Has(lookups, k, r)
      modifies `lookups, tracker
      ensures NoEmptySets(lookups) && Joined() && lookups == Put(old(lookups), k, r, latest)
      ensures tracker.indices == old(tracker.indices)[thread := lookups]
    {
      PutHas(lookups, k, r, latest);
      PutCounted(tracker.State(), tracker.indices, thread, k, r, latest);
      lookups := Put(lookups, k, r, latest);
      tracker.indices := tracker.indices[thread := lookups];
      if k.Kind? && IsEphemeral(k.kind) { tracker.AddKind(k.kind); }
      if k.CatchAll? { tracker.AddCatchAll(); }
    }

    method UninstallKey(k: MonitorKey, r: FilterRef)
      requires NoEmptySets(lookups) && Joined() && Has(lookups, k, r)
      modifies `lookups, tracker
      ensures NoEmptySets(lookups) && Joined() && lookups == Drop(old(lookups), k, r)
      ensures tracker.indices == old(tracker.indices)[thread := lookups]
    {
      DropHas(lookups, k, r);
      DropCounted(tracker.State(), tracker.indices, thread, k, r);
      lookups := Drop(lookups, k, r);
      tracker.indices := tracker.indices[thread := lookups];
      if k.Kind? && IsEphemeral(k.kind) { tracker.RemoveKind(k.kind); }
      if k.CatchAll? { tracker.RemoveCatchAll(); }
    }

    /** installLookups for one filter. */
    method InstallFilter(r: FilterRef, f: Filter, latest: nat)
      requires NoEmptySets(lookups) && Joined()
      requires SetsWellFormed(f) && forall k :: !Has(lookups, k, r)
      modifies `lookups, tracker
      ensures NoEmptySets(lookups) && Joined() && tracker.indices == old(tracker.indices)[thread := lookups]
      ensures FilterAdded(old(lookups), r, KeysOf(f), latest, lookups)
    {
      var keys := KeysOf(f);
      KeysDistinct(f);
      for j := 0 to |keys|
        invariant NoEmptySets(lookups) && Joined() && tracker.indices == old(tracker.indices)[thread := lookups]
        invariant FilterAdded(old(lookups), r, keys[..j], latest, lookups)
      {
        var k := keys[j];
        assert keys[..j + 1] == keys[..j] + [k];
        assert !Has(lookups, k, r);
        AddedStep(old(lookups), r, keys[..j], latest, lookups, k);
        ghost var mine := lookups;
        InstallKey(k, r, latest);
        UpdatedTwice(old(tracker.indices), thread, mine, lookups);
      }
      assert keys[..|keys|] == keys;
    }

    /** uninstallLookups for one filter. Every key looked up is there. */
    method UninstallFilter(r: FilterRef, f: Filter)
      requires NoEmptySets(lookups) && Joined()
      requires SetsWellFormed(f) && forall k :: k in KeysOf(f) ==> Has(lookups, k, r)
      modifies `lookups, tracker
      ensures NoEmptySets(lookups) && Joined() && tracker.indices == old(tracker.indices)[thread := lookups]
      ensures Removed(old(lookups), r, KeysOf(f), lookups)
    {
      var keys := KeysOf(f);
      KeysDistinct(f);
      for j := 0 to |keys|
        invariant NoEmptySets(lookups) && Joined() && tracker.indices == old(tracker.indices)[thread := lookups]
        invariant Removed(old(lookups), r, keys[..j], lookups)
      {
        var k := keys[j];
        assert keys[..j + 1] == keys[..j] + [k];
        assert k in keys && Has(lookups, k, r);
        RemovedStep(old(lookups), r, keys[..j], lookups, k);
        ghost var mine := lookups;
        UninstallKey(k, r);
        UpdatedTwice(old(tracker.indices), thread, mine, lookups);
      }
      assert keys[..|keys|] == keys;
    }

    /** installLookups: every filter of the subscription, watermarked `latest`. */
    method InstallLookups(key: SubKey, filters: seq<Filter>, latest: nat)
      requires NoEmptySets(lookups) && Joined()
      requires forall i :: 0 <= i < |filters| ==> SetsWellFormed(filters[i])
      requires forall k, r :: Has(lookups, k, r) ==> r.sub != key
      modifies `lookups, tracker
      ensures NoEmptySets(lookups) && Joined() && tracker.indices == old(tracker.indices)[thread := lookups]
      ensures SubAdded(old(lookups), key, filters, |filters|, latest, lookups)
    {
      NothingAdded(lookups, key, filters, latest);
      for i := 0 to |filters|
        invariant NoEmptySets(lookups) && Joined() && tracker.indices == old(tracker.indices)[thread := lookups]
        invariant SubAdded(old(lookups), key, filters, i, latest, lookups)
      {
        ghost var mine := lookups;
        InstallNext(key, filters, i, latest, old(lookups));
        UpdatedTwice(old(tracker.indices), thread, mine, lookups);
      }
    }

    /** The subscription's next filter. */
    method InstallNext(key: SubKey, filters: seq<Filter>, i: nat, latest: nat, ghost before: Index)
      requires NoEmptySets(lookups) && Joined() && i < |filters| && SetsWellFormed(filters[i])
      requires SubAdded(before, key, filters, i, latest, lookups) && forall k, r :: Has(before, k, r) ==> r.sub != key
      modifies `lookups, tracker
      ensures NoEmptySets(lookups) && Joined() && tracker.indices == old(tracker.indices)[thread := lookups]
      ensures SubAdded(before, key, filters, i + 1, latest, lookups)
    {
      NotYetAdded(before, key, filters, i, latest, lookups);
      InstallFilter(FilterRef(key, i), filters[i], latest);
      SubAddedStep(before, key, filters, i, latest, old(lookups), lookups);
    }

    /** uninstallLookups. */
    method UninstallLookups(key: SubKey, filters: seq<Filter>)
      requires NoEmptySets(lookups) && Joined()
      requires forall i :: 0 <= i < |filters| ==> SetsWellFormed(filters[i])
      requires forall k: MonitorKey, r: FilterRef :: r.sub == key ==> (Has(lookups, k, r) <==> r.index < |filters| && k in KeysOf(filters[r.index]))
      modifies `lookups, tracker
      ensures NoEmptySets(lookups) && Joined() && tracker.indices == old(tracker.indices)[thread := lookups]
      ensures SubRemoved(old(lookups), key, |filters|, lookups)
      ensures forall k, r :: Has(lookups, k, r) ==> r.sub != key
    {
      for i := 0 to |filters|
        invariant NoEmptySets(lookups) && Joined() && tracker.indices == old(tracker.indices)[thread := lookups]
        invariant SubRemoved(old(lookups), key, i, lookups)
      {
        ghost var before := lookups;
        UninstallFilter(FilterRef(key, i), filters[i]);
        SubRemovedStep(old(lookups), key, filters, i, before, lookups);
        UpdatedTwice(old(tracker.indices), thread, before, lookups);
      }
    }

    /** removeSub. */
    method RemoveSub(key: SubKey)
      requires Valid()
      modifies `subs, `lookups, tracker
      ensures Valid() && subs == old(subs) - {key}
      ensures tracker.indices == old(tracker.indices)[thread := lookups]
    {
      if key !in subs {
        assert subs - {key} == subs;
        return;
      }
      UninstallLookups(key, subs[key].filters);
      RemoveKeepsExact(subs, old(lookups), key, lookups, last);
      subs := subs - {key};
    }

    /** addSub: an existing subscription of that name is replaced; a connection with
        too many subscriptions is refused. */
    method AddSub(key: SubKey, filters: seq<Filter>, latestEventId: nat, currEventId: nat) returns (r: Result<bool>)
      requires Valid() && forall i :: 0 <= i < |filters| ==> SetsWellFormed(filters[i])
      modifies `subs, `lookups, tracker
      ensures Valid() && tracker.indices == old(tracker.indices)[thread := lookups]
      ensures r.Err? <==> latestEventId != currEventId
      ensures r.Err? ==> subs == old(subs)
      ensures r.Ok? ==> (r.value <==> |OfConn(old(subs).Keys - {key}, key.connId)| < maxSubsPerConnection)
      ensures r == Ok(false) ==> subs == old(subs) - {key}
      ensures r == Ok(true) ==> subs == (old(subs) - {key})[key := Sub(filters, latestEventId)]
    {
      if latestEventId != currEventId { return Err("sub not up to date"); }
      RemoveSub(key);
      if |OfConn(subs.Keys, key.connId)| >= maxSubsPerConnection { return Ok(false); }
      Install(key, filters, latestEventId);
      return Ok(true);
    }

    /** A subscription under a name that is free. */
    method Install(key: SubKey, filters: seq<Filter>, latestEventId: nat)
      requires Valid() && key !in subs && forall i :: 0 <= i < |filters| ==> SetsWellFormed(filters[i])
      modifies `subs, `lookups, tracker
      ensures Valid() && tracker.indices == old(tracker.indices)[thread := lookups]
      ensures subs == old(subs)[key := Sub(filters, latestEventId)]
    {
      NoneInstalled(subs, lookups, key);
      ghost var before := lookups;
      InstallLookups(key, filters, latestEventId);
      AddKeepsExact(subs, before, key, filters, latestEventId, lookups, last);
      subs := subs[key := Sub(filters, latestEventId)];
    }

    /** closeConn: all subscriptions of a connection. */
    method CloseConn(connId: nat)
      requires Valid()
      modifies `subs, `lookups, tracker
      ensures Valid() && subs == old(subs) - OfConn(old(subs).Keys, connId)
      ensures tracker.indices == old(tracker.indices)[thread := lookups]
    {
      var left := OfConn(subs.Keys, connId);
      while left != {}
        invariant Valid() && tracker.indices == old(tracker.indices)[thread := lookups]
        invariant left <= OfConn(old(subs).Keys, connId)
        invariant subs == old(subs) - (OfConn(old(subs).Keys, connId) - left)
        decreases |left|
      {
        var key :| key in left;
        RemoveSub(key);
        left := left - {key};
      }
    }

    /** process: looks the event up under each of its keys and returns the
        subscriptions to send it to. Events are processed in increasing order;
        exactly the subscriptions that have not seen the event and whose filters
        match it are returned, each once. */
    method Process(levId: nat, e: Event) returns (recipients: seq<SubKey>)
      requires Valid() && levId > last
      modifies `subs, `lookups, `last, tracker`indices
      ensures Valid() && last == levId && tracker.indices == old(tracker.indices)[thread := lookups]
      ensures NoRepeats(recipients)
      ensures forall s :: s in recipients <==> s in old(subs) && old(subs)[s].latestEventId < levId && GroupMatches(old(subs)[s].filters, e)
      ensures subs == map s | s in old(subs) :: if s in recipients then old(subs)[s].(latestEventId := levId) else old(subs)[s]
    {
      StartMidway(subs, lookups, last, levId, e);
      var p := ProcessKeys(subs, lookups, levId, e);
      Finish(subs, lookups, p.subs, p.items, last, levId, e, p.recipients);
      SameShapeCounted(tracker.State(), tracker.indices, thread, p.items);
      subs, lookups, last, recipients := p.subs, p.items, levId, p.recipients;
      tracker.indices := tracker.indices[thread := lookups];
    }
  }

  /** A subscription's watermark never falls. */
  ghost predicate NoneLost(before: Subs, after: Subs) {
    before.Keys == after.Keys && forall s :: s in before ==> before[s].filters == after[s].filters && before[s].latestEventId <= after[s].latestEventId
  }

  /** While an event is processed: a subscription is a recipient exactly if its
      watermark has been raised, and only matching ones are. */
  ghost predicate SubsMidway(subs0: Subs, subs: Subs, levId: nat, e: Event, recipients: seq<SubKey>) {
    && NoneLost(subs0, subs) && NoRepeats(recipients)
    && (forall s :: s in recipients ==>
          s in subs0 && subs0[s].latestEventId < levId && subs[s].latestEventId == levId && GroupMatches(subs0[s].filters, e))
    && (forall s :: s in subs0 && s !in recipients ==> subs[s] == subs0[s])
  }

  ghost predicate SameShape(m0: Index, m: Index) {
    m.Keys == m0.Keys && forall k :: k in m ==> m[k].Keys == m0[k].Keys
  }

  lemma SameShapeCounted(c: Counts, ms: seq<Index>, t: nat, m: Index)
    requires t < |ms| && SameShape(ms[t], m) && Counted(c, ms)
    ensures Counted(c, ms[t := m])
  {
    forall k ensures Total(ms[t := m], k) == Total(ms, k) {
      TotalAt(ms, t, m, k);
      if k in m { assert |m[k].Keys| == |m[k]| && |ms[t][k].Keys| == |ms[t][k]|; }
    }
  }

  /** The index keeps its shape, and an item that has been tried without success
      belongs to a filter that does not match. */
  ghost predicate ItemsMidway(m0: Index, m: Index, subs: Subs, levId: nat, e: Event) {
    && SameShape(m0, m)
    && (forall k, r :: Has(m, k, r) ==> m[k][r] == m0[k][r] || m[k][r] == levId)
    && (forall k, r :: Has(m, k, r) && m[k][r] >= levId ==> ItemSettled(subs, r, levId, e))
  }

  /** What processing an event changes on the way. */
  datatype Pass = Pass(subs: Subs, items: Index, recipients: seq<SubKey>)

  ghost predicate Midway(subs0: Subs, m0: Index, p: Pass, levId: nat, e: Event) {
    match p
    case Pass(subs, items, recipients) =>
      SubsMidway(subs0, subs, levId, e, recipients) && ItemsMidway(m0, items, subs, levId, e)
  }

  /** Filter `r` has nothing more to say about the event. */
  ghost predicate ItemSettled(subs: Subs, r: FilterRef, levId: nat, e: Event) {
    r.sub in subs && r.index < |subs[r.sub].filters| ==>
      subs[r.sub].latestEventId >= levId || !Matches(subs[r.sub].filters[r.index], e)
  }

  ghost predicate Settled(subs: Subs, m: Index, k: MonitorKey, levId: nat, e: Event) {
    forall r :: Has(m, k, r) ==> ItemSettled(subs, r, levId, e)
  }

  /** Trying an item that does not match. */
  lemma MissStep(m0: Index, m: Index, subs: Subs, levId: nat, e: Event, k: MonitorKey, r: FilterRef, tried: MonitorSet)
    requires ItemsMidway(m0, m, subs, levId, e) && Has(m, k, r) && ItemSettled(subs, r, levId, e)
    requires tried == m[k][r := levId]
    ensures ItemsMidway(m0, m[k := tried], subs, levId, e)
  {
  }

  /** Raising one watermark settles more items, never fewer. */
  lemma MatchStep(m0: Index, m: Index, subs: Subs, levId: nat, e: Event, s: SubKey)
    requires ItemsMidway(m0, m, subs, levId, e) && s in subs
    ensures ItemsMidway(m0, m, subs[s := subs[s].(latestEventId := levId)], levId, e)
  {
    var subs' := subs[s := subs[s].(latestEventId := levId)];
    forall k, r | Has(m, k, r) && m[k][r] >= levId ensures ItemSettled(subs', r, levId, e) {
      assert ItemSettled(subs, r, levId, e);
    }
  }

  lemma RecipientStep(subs0: Subs, subs: Subs, levId: nat, e: Event, recipients: seq<SubKey>, s: SubKey, i: nat)
    requires SubsMidway(subs0, subs, levId, e, recipients) && s in subs && subs[s].latestEventId < levId
    requires i < |subs[s].filters| && Matches(subs[s].filters[i], e)
    ensures SubsMidway(subs0, subs[s := subs[s].(latestEventId := levId)], levId, e, recipients + [s])
  {
    assert s !in recipients;
    assert Matches(subs0[s].filters[i], e);
  }

  /** One item of a monitor set. */
  method TryItem(p: Pass, k: MonitorKey, r: FilterRef, levId: nat, e: Event, ghost subs0: Subs, ghost m0: Index) returns (p': Pass)
    requires Midway(subs0, m0, p, levId, e) && Has(p.items, k, r) && Installed(subs0, k, r)
    ensures Midway(subs0, m0, p', levId, e)
    ensures NoneLost(p.subs, p'.subs) && ItemSettled(p'.subs, r, levId, e)
  {
    p' := p;
    var sub := p.subs[r.sub];
    if p.items[k][r] >= levId || sub.latestEventId >= levId { return; }
    var tried: MonitorSet := p.items[k][r := levId];
    var matched := DoesMatch(sub.filters[r.index], e);
    if matched {
      RecipientStep(subs0, p.subs, levId, e, p.recipients, r.sub, r.index);
      MatchStep(m0, p.items, p.subs, levId, e, r.sub);
      p' := p'.(recipients := p.recipients + [r.sub], subs := p.subs[r.sub := sub.(latestEventId := levId)]);
    }
    MissStep(m0, p.items, p'.subs, levId, e, k, r, tried);
    p' := p'.(items := p.items[k := tried]);
  }

  /** The part of a set that is already tried has nothing more to say, and nothing was
      lost on the way. */
  ghost predicate Through(subs: Subs, p: Pass, items: seq<FilterRef>, levId: nat, e: Event) {
    match p
    case Pass(subs', _, _) => NoneLost(subs, subs') && forall x :: x in items ==> ItemSettled(subs', x, levId, e)
  }

  /** processMonitorSet, one item. */
  method TryNext(start: Pass, p: Pass, k: MonitorKey, items: seq<FilterRef>, i: nat,
                 levId: nat, e: Event, ghost subs0: Subs, ghost m0: Index) returns (p': Pass)
    requires Exact(subs0, m0) && Midway(subs0, m0, p, levId, e) && i < |items| && Has(m0, k, items[i])
    requires Through(start.subs, p, items[..i], levId, e)
    ensures Midway(subs0, m0, p', levId, e) && Through(start.subs, p', items[..i + 1], levId, e)
  {
    assert Installed(subs0, k, items[i]);
    p' := TryItem(p, k, items[i], levId, e, subs0, m0);
    OneMoreSettled(start.subs, p, p', items, i, levId, e);
  }

  /** The items of a set, in some order. */
  method ListItems(items: set<FilterRef>) returns (order: seq<FilterRef>)
    ensures forall r :: r in order <==> r in items
    ensures |order| == |items|
  {
    order := [];
    var left := items;
    while left != {}
      invariant left <= items && |order| + |left| == |items| && forall r :: r in items <==> r in order || r in left
      decreases |left|
    {
      var x :| x in left;
      order, left := order + [x], left - {x};
    }
  }

  /** processMonitorSet on the set under key `k`. */
  method ProcessMonitorSet(p: Pass, k: MonitorKey, levId: nat, e: Event, ghost subs0: Subs, ghost m0: Index) returns (p': Pass)
    requires Exact(subs0, m0) && Midway(subs0, m0, p, levId, e) && k in p.items
    ensures Midway(subs0, m0, p', levId, e) && NoneLost(p.subs, p'.subs)
    ensures Settled(p'.subs, p'.items, k, levId, e)
  {
    p' := p;
    var items := ListItems(p.items[k].Keys);
    for i := 0 to |items|
      invariant Midway(subs0, m0, p', levId, e) && Through(p.subs, p', items[..i], levId, e)
    {
      p' := TryNext(p, p', k, items, i, levId, e, subs0, m0);
    }
    AllSettled(subs0, m0, p.subs, p', k, items, levId, e);
  }

  lemma AllSettled(subs0: Subs, m0: Index, subs: Subs, p: Pass, k: MonitorKey, items: seq<FilterRef>, levId: nat, e: Event)
    requires Midway(subs0, m0, p, levId, e) && k in m0 && forall r :: r in m0[k] ==> r in items
    requires Through(subs, p, items[..|items|], levId, e)
    ensures NoneLost(subs, p.subs) && Settled(p.subs, p.items, k, levId, e)
  {
    assert items[..|items|] == items;
  }

  lemma OneMoreSettled(subs: Subs, before: Pass, after: Pass, items: seq<FilterRef>, i: nat, levId: nat, e: Event)
    requires i < |items| && Through(subs, before, items[..i], levId, e)
    requires NoneLost(before.subs, after.subs) && ItemSettled(after.subs, items[i], levId, e)
    ensures Through(subs, after, items[..i + 1], levId, e)
  {
    forall y | y in items[..i] ensures ItemSettled(after.subs, y, levId, e) { assert ItemSettled(before.subs, y, levId, e); }
  }

  ghost predicate KeysSettled(subs: Subs, m: Index, keys: seq<MonitorKey>, levId: nat, e: Event) {
    forall j :: 0 <= j < |keys| ==> Settled(subs, m, keys[j], levId, e)
  }

  lemma OneMoreKey(m0: Index, before: Subs, mBefore: Index, after: Subs, mAfter: Index, keys: seq<MonitorKey>, i: nat, levId: nat, e: Event)
    requires i < |keys| && KeysSettled(before, mBefore, keys[..i], levId, e) && NoneLost(before, after)
    requires SameShape(m0, mBefore) && SameShape(m0, mAfter) && Settled(after, mAfter, keys[i], levId, e)
    ensures KeysSettled(after, mAfter, keys[..i + 1], levId, e)
  {
    forall j | 0 <= j < i ensures Settled(after, mAfter, keys[j], levId, e) {
      assert keys[..i][j] == keys[j];
      StaysSettled(m0, before, mBefore, after, mAfter, keys[j], levId, e);
    }
  }

  /** processMonitorsExact for one key. */
  method ProcessKey(p: Pass, keys: seq<MonitorKey>, i: nat, levId: nat, e: Event, ghost subs0: Subs, ghost m0: Index) returns (p': Pass)
    requires Exact(subs0, m0) && Midway(subs0, m0, p, levId, e)
    requires i < |keys| && KeysSettled(p.subs, p.items, keys[..i], levId, e)
    ensures Midway(subs0, m0, p', levId, e)
    ensures KeysSettled(p'.subs, p'.items, keys[..i + 1], levId, e)
  {
    p' := p;
    if keys[i] in p.items { p' := ProcessMonitorSet(p, keys[i], levId, e, subs0, m0); }
    OneMoreKey(m0, p.subs, p.items, p'.subs, p'.items, keys, i, levId, e);
  }

  /** The event's keys in turn. */
  method ProcessKeys(subs: Subs, m: Index, levId: nat, e: Event) returns (p: Pass)
    requires Exact(subs, m) && Midway(subs, m, Pass(subs, m, []), levId, e)
    ensures Midway(subs, m, p, levId, e)
    ensures KeysSettled(p.subs, p.items, EventKeys(e), levId, e)
  {
    var keys := EventKeys(e);
    p := Pass(subs, m, []);
    for i := 0 to |keys|
      invariant Midway(subs, m, p, levId, e)
      invariant KeysSettled(p.subs, p.items, keys[..i], levId, e)
    {
      p := ProcessKey(p, keys, i, levId, e, subs, m);
    }
    assert keys[..|keys|] == keys;
  }

  lemma StartMidway(subs: Subs, m: Index, last: nat, levId: nat, e: Event)
    requires Exact(subs, m) && Watermarks(subs, m, last) && last < levId
    ensures Midway(subs, m, Pass(subs, m, []), levId, e)
  {
  }

  lemma StaysSettled(m0: Index, before: Subs, mBefore: Index, after: Subs, mAfter: Index, k: MonitorKey, levId: nat, e: Event)
    requires Settled(before, mBefore, k, levId, e) && NoneLost(before, after)
    requires SameShape(m0, mBefore) && SameShape(m0, mAfter)
    ensures Settled(after, mAfter, k, levId, e)
  {
    forall r | Has(mAfter, k, r) ensures ItemSettled(after, r, levId, e) {
      assert Has(mBefore, k, r) && ItemSettled(before, r, levId, e);
    }
  }

  /** A subscription with a matching filter has not been missed. */
  lemma MatchReached(subs0: Subs, m0: Index, subs: Subs, m: Index, levId: nat, e: Event, s: SubKey, i: nat)
    requires Exact(subs0, m0) && NoneLost(subs0, subs) && SameShape(m0, m) && KeysSettled(subs, m, EventKeys(e), levId, e)
    requires s in subs0 && i < |subs0[s].filters| && Matches(subs0[s].filters[i], e)
    ensures subs[s].latestEventId >= levId
  {
    MatchIsFound(subs0[s].filters[i], e);
    var k :| k in KeysOf(subs0[s].filters[i]) && k in EventKeys(e);
    var j :| 0 <= j < |EventKeys(e)| && EventKeys(e)[j] == k;
    var r := FilterRef(s, i);
    assert Installed(subs0, k, r) && Has(m0, k, r) && Has(m, k, r);
    assert Settled(subs, m, EventKeys(e)[j], levId, e) && ItemSettled(subs, r, levId, e);
  }

  lemma ExactAgain(subs0: Subs, m0: Index, subs: Subs, m: Index)
    requires Exact(subs0, m0) && NoneLost(subs0, subs) && SameShape(m0, m)
    ensures Exact(subs, m)
  {
    forall k, r ensures Has(m, k, r) <==> Installed(subs, k, r) {
      assert Has(m0, k, r) <==> Installed(subs0, k, r);
    }
    forall k | k in m ensures m[k] != map[] { assert m[k].Keys == m0[k].Keys != {}; }
  }

  /** Once every key of the event is settled, the recipients are the brute-force ones. */
  lemma Finish(subs0: Subs, m0: Index, subs: Subs, m: Index, last: nat, levId: nat, e: Event, recipients: seq<SubKey>)
    requires SubsOk(subs0) && Exact(subs0, m0) && Watermarks(subs0, m0, last) && last < levId
    requires Midway(subs0, m0, Pass(subs, m, recipients), levId, e)
    requires KeysSettled(subs, m, EventKeys(e), levId, e)
    ensures forall s :: s in recipients <==> s in subs0 && subs0[s].latestEventId < levId && GroupMatches(subs0[s].filters, e)
    ensures subs == map s | s in subs0 :: if s in recipients then subs0[s].(latestEventId := levId) else subs0[s]
    ensures SubsOk(subs) && Exact(subs, m) && Watermarks(subs, m, levId)
  {
    forall s | s in subs0 && subs0[s].latestEventId < levId && GroupMatches(subs0[s].filters, e) ensures s in recipients {
      var i :| 0 <= i < |subs0[s].filters| && Matches(subs0[s].filters[i], e);
      MatchReached(subs0, m0, subs, m, levId, e, s, i);
    }
    ExactAgain(subs0, m0, subs, m);
    WatermarksAgain(subs0, m0, subs, m, last, levId, e);
  }

  lemma WatermarksAgain(subs0: Subs, m0: Index, subs: Subs, m: Index, last: nat, levId: nat, e: Event)
    requires Watermarks(subs0, m0, last) && last < levId && NoneLost(subs0, subs) && ItemsMidway(m0, m, subs, levId, e)
    ensures Watermarks(subs, m, levId)
  {
    forall k, r | Has(m, k, r) && r.sub in subs ensures m[k][r] <= levId || m[k][r] <= subs[r.sub].latestEventId {
      assert Has(m0, k, r);
    }
  }

  /** `m'` is `m` with the first `n` filters of a subscription installed. */
  ghost predicate SubAdded(m: Index, key: SubKey, filters: seq<Filter>, n: nat, latest: nat, m': Index)
    requires n <= |filters|
  {
    match key
    case SubKey(_, _) =>
    && (forall k, r :: Has(m', k, r) <==> Has(m, k, r) || (r.sub == key && r.index < n && k in KeysOf(filters[r.index])))
    && (forall k, r :: Has(m, k, r) ==> m'[k][r] == m[k][r])
    && (forall k, r :: Has(m', k, r) && !Has(m, k, r) ==> m'[k][r] == latest)
  }

  lemma NotYetAdded(m0: Index, key: SubKey, filters: seq<Filter>, i: nat, latest: nat, m: Index)
    requires i < |filters| && SubAdded(m0, key, filters, i, latest, m) && forall k, r :: Has(m0, k, r) ==> r.sub != key
    ensures forall k :: !Has(m, k, FilterRef(key, i))
  {
  }

  lemma NothingAdded(m: Index, key: SubKey, filters: seq<Filter>, latest: nat)
    ensures SubAdded(m, key, filters, 0, latest, m)
  {
  }

  lemma NoneInstalled(subs: Subs, m: Index, key: SubKey)
    requires Exact(subs, m) && key !in subs
    ensures forall k, r :: Has(m, k, r) ==> r.sub != key
  {
    assert forall k, r :: Has(m, k, r) ==> Installed(subs, k, r);
  }

  lemma SubAddedStep(m0: Index, key: SubKey, filters: seq<Filter>, i: nat, latest: nat, m: Index, m': Index)
    requires i < |filters| && SubAdded(m0, key, filters, i, latest, m)
    requires FilterAdded(m, FilterRef(key, i), KeysOf(filters[i]), latest, m')
    requires forall k, r :: Has(m0, k, r) ==> r.sub != key
    ensures SubAdded(m0, key, filters, i + 1, latest, m')
  {
    forall k, r ensures Has(m', k, r) <==> Has(m0, k, r) || (r.sub == key && r.index < i + 1 && k in KeysOf(filters[r.index])) {
      assert r.sub == key && r.index == i ==> r == FilterRef(key, i);
    }
  }

  /** `m'` is `m` without the first `n` filters of a subscription. */
  ghost predicate SubRemoved(m: Index, key: SubKey, n: nat, m': Index) {
    && (forall k, r :: Has(m', k, r) <==> Has(m, k, r) && !(r.sub == key && r.index < n))
    && (forall k, r :: Has(m', k, r) ==> m'[k][r] == m[k][r])
  }

  lemma SubRemovedStep(m0: Index, key: SubKey, filters: seq<Filter>, i: nat, m: Index, m': Index)
    requires i < |filters| && SubRemoved(m0, key, i, m)
    requires forall k: MonitorKey, r: FilterRef :: r.sub == key ==> (Has(m0, k, r) <==> r.index < |filters| && k in KeysOf(filters[r.index]))
    requires Removed(m, FilterRef(key, i), KeysOf(filters[i]), m')
    ensures SubRemoved(m0, key, i + 1, m')
  {
    forall k, r ensures Has(m', k, r) <==> Has(m0, k, r) && !(r.sub == key && r.index < i + 1) {
      assert r.sub == key && r.index == i ==> r == FilterRef(key, i);
    }
  }

  lemma RemoveKeepsExact(subs: Subs, m: Index, key: SubKey, m': Index, last: nat)
    requires SubsOk(subs) && Exact(subs, m) && Watermarks(subs, m, last) && key in subs
    requires NoEmptySets(m') && SubRemoved(m, key, |subs[key].filters|, m')
    ensures SubsOk(subs - {key}) && Exact(subs - {key}, m') && Watermarks(subs - {key}, m', last)
  {
    var subs' := subs - {key};
    forall k, r ensures Has(m', k, r) <==> Installed(subs', k, r) {
      assert Has(m, k, r) <==> Installed(subs, k, r);
    }
  }

  lemma AddKeepsExact(subs: Subs, m: Index, key: SubKey, filters: seq<Filter>, latest: nat, m': Index, last: nat)
    requires SubsOk(subs) && Exact(subs, m) && Watermarks(subs, m, last) && key !in subs
    requires forall i :: 0 <= i < |filters| ==> SetsWellFormed(filters[i])
    requires NoEmptySets(m') && SubAdded(m, key, filters, |filters|, latest, m')
    ensures
      var subs' := subs[key := Sub(filters, latest)];
      SubsOk(subs') && Exact(subs', m') && Watermarks(subs', m', last)
  {
    var subs' := subs[key := Sub(filters, latest)];
    forall k, r ensures Has(m', k, r) <==> Installed(subs', k, r) {
      assert Has(m, k, r) <==> Installed(subs, k, r);
    }
  }

  lemma AddedStep(m0: Index, r: FilterRef, keys: seq<MonitorKey>, latest: nat, m: Index, k: MonitorKey)
    requires FilterAdded(m0, r, keys, latest, m) && !Has(m, k, r)
    ensures FilterAdded(m0, r, keys + [k], latest, Put(m, k, r, latest))
  {
    PutHas(m, k, r, latest);
  }

  lemma RemovedStep(m0: Index, r: FilterRef, keys: seq<MonitorKey>, m: Index, k: MonitorKey)
    requires Removed(m0, r, keys, m) && Has(m, k, r) && NoEmptySets(m)
    ensures Removed(m0, r, keys + [k], Drop(m, k, r))
  {
    DropHas(m, k, r);
  }
}
