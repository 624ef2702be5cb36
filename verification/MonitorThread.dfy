/** The message loop of a monitor thread around the live subscriptions
    (src/apps/relay/RelayReqMonitor.cpp). */
module MonitorThread {
  import opened Events
  import opened Sequences
  import opened Filters
  import opened Lookups
  import opened Monitors
  import opened Subscriptions

  /** An EVENT message: the event `levId` for the subscription `key`. */
  datatype Delivery = Delivery(key: SubKey, levId: nat)

  /** What one subscription gets, in order. */
  function For(out: seq<Delivery>, key: SubKey): (r: seq<nat>) {
    if out == [] then []
    else
      var rest := For(out[..|out| - 1], key);
      if out[|out| - 1].key == key then rest + [out[|out| - 1].levId] else rest
  }

  /** sendEventToBatch: one message for each recipient. */
  function ToAll(recipients: seq<SubKey>, levId: nat): (out: seq<Delivery>) {
    seq(|recipients|, i requires 0 <= i < |recipients| => Delivery(recipients[i], levId))
  }

  lemma {:induction false} ForToAll(out: seq<Delivery>, recipients: seq<SubKey>, levId: nat, key: SubKey)
    requires NoRepeats(recipients)
    ensures For(out + ToAll(recipients, levId), key) == For(out, key) + (if key in recipients then [levId] else [])
    decreases |recipients|
  {
    if recipients == [] {
      assert out + ToAll(recipients, levId) == out;
    } else {
      var n := |recipients| - 1;
      var all := out + ToAll(recipients, levId);
      assert all[..|all| - 1] == out + ToAll(recipients[..n], levId);
      ForToAll(out, recipients[..n], levId, key);
    }
  }

  function Mark(watermark: nat, found: seq<nat>): (r: nat) {
    if found == [] then watermark else found[|found| - 1]
  }

  /** One subscription has been given its matching events up to `l`, and its watermark
      follows. */
  ghost predicate ServedSub(sub0: Sub, sub: Sub, got: seq<nat>, snap: Table, curr: nat, l: nat) {
    && got == Between(snap, sub0.filters, Max(sub0.latestEventId, curr), l)
    && sub == sub0.(latestEventId := Mark(sub0.latestEventId, got))
  }

  lemma ServedSubOne(sub0: Sub, sub: Sub, got: seq<nat>, snap: Table, curr: nat, l: nat, chosen: bool)
    requires ServedSub(sub0, sub, got, snap, curr, l) && l >= curr && l + 1 in snap
    requires chosen <==> sub.latestEventId < l + 1 && GroupMatches(sub.filters, snap[l + 1])
    ensures ServedSub(sub0, if chosen then sub.(latestEventId := l + 1) else sub, got + (if chosen then [l + 1] else []), snap, curr, l + 1)
  {
    BetweenIs(snap, sub0.filters, Max(sub0.latestEventId, curr), l);
    assert got != [] ==> got[|got| - 1] in got;
  }

  ghost predicate Served(subs0: Subs, subs: Subs, out: seq<Delivery>, snap: Table, curr: nat, l: nat) {
    subs.Keys == subs0.Keys && forall s :: s in subs0 ==> ServedSub(subs0[s], subs[s], For(out, s), snap, curr, l)
  }

  /** The recipients of one event are those whose range it is in. */
  lemma ServedOne(subs0: Subs, subs: Subs, out: seq<Delivery>, snap: Table, curr: nat, l: nat, recipients: seq<SubKey>, subs': Subs)
    requires Served(subs0, subs, out, snap, curr, l) && l >= curr && l + 1 in snap
    requires NoRepeats(recipients)
    requires forall s :: s in recipients <==> s in subs && subs[s].latestEventId < l + 1 && GroupMatches(subs[s].filters, snap[l + 1])
    requires subs' == map s | s in subs :: if s in recipients then subs[s].(latestEventId := l + 1) else subs[s]
    ensures Served(subs0, subs', out + ToAll(recipients, l + 1), snap, curr, l + 1)
  {
    forall s | s in subs0 ensures ServedSub(subs0[s], subs'[s], For(out + ToAll(recipients, l + 1), s), snap, curr, l + 1) {
      ForToAll(out, recipients, l + 1, s);
      ServedSubOne(subs0[s], subs[s], For(out, s), snap, curr, l, s in recipients);
    }
  }

  lemma ServedNone(subs0: Subs, subs: Subs, out: seq<Delivery>, snap: Table, curr: nat, l: nat)
    requires Served(subs0, subs, out, snap, curr, l) && l + 1 !in snap
    ensures Served(subs0, subs, out, snap, curr, l + 1)
  {
  }

  class ReqMonitor {
    const monitors: ActiveMonitors
    var currEventId: nat

    constructor (monitors: ActiveMonitors)
      ensures this.monitors == monitors && currEventId == MAX_U64
    {
      this.monitors := monitors;
      currEventId := MAX_U64;
    }

    /** The start of a batch. */
    method Begin(latest: nat)
      requires monitors.last <= currEventId && monitors.last <= latest
      modifies this
      ensures monitors.last <= currEventId
      ensures currEventId == (if old(currEventId) > latest then latest else old(currEventId)) && currEventId <= latest
    {
      if currEventId > latest { currEventId := latest; }
    }

    /** NewSub: what came in since the query began is sent, and the subscription is
        installed with the snapshot's newest event as its watermark. */
    method OnNewSub(key: SubKey, filters: seq<Filter>, start: nat, snap: Table, latest: nat) returns (sent: seq<nat>, installed: bool)
      requires monitors.Valid() && forall i :: 0 <= i < |filters| ==> SetsWellFormed(filters[i])
      modifies monitors`subs, monitors`lookups, monitors.tracker
      ensures monitors.Valid()
      ensures sent == Between(snap, filters, start, latest)
      ensures installed <==> |OfConn(old(monitors.subs).Keys - {key}, key.connId)| < monitors.maxSubsPerConnection
      ensures monitors.subs == if installed then (old(monitors.subs) - {key})[key := Sub(filters, latest)] else old(monitors.subs) - {key}
    {
      sent := [];
      var l := start;
      while l < latest
        invariant l <= latest || l == start
        invariant sent == Between(snap, filters, start, l)
        modifies {}
      {
        l := l + 1;
        if l in snap {
          var matched := GroupDoesMatch(filters, snap[l]);
          if matched { sent := sent + [l]; }
        }
      }
      var r := monitors.AddSub(key, filters, latest, latest);
      installed := r.value;
    }

    /** One row of the event table, if it is still there. */
    method OnEvent(snap: Table, l: nat, out: seq<Delivery>, ghost subs0: Subs) returns (out': seq<Delivery>)
      requires monitors.Valid() && monitors.last <= l && currEventId <= l
      requires Served(subs0, monitors.subs, out, snap, currEventId, l)
      modifies monitors`subs, monitors`lookups, monitors`last, monitors.tracker`indices
      ensures monitors.Valid() && monitors.last <= l + 1
      ensures Served(subs0, monitors.subs, out', snap, currEventId, l + 1)
    {
      ghost var before := monitors.subs;
      if l + 1 !in snap {
        ServedNone(subs0, before, out, snap, currEventId, l);
        return out;
      }
      var recipients := monitors.Process(l + 1, snap[l + 1]);
      ServedOne(subs0, before, out, snap, currEventId, l, recipients, monitors.subs);
      return out + ToAll(recipients, l + 1);
    }

    /** DBChange: the new events in turn go to the subscriptions that match them. */
    method OnDBChange(snap: Table, latest: nat) returns (out: seq<Delivery>)
      requires monitors.Valid() && monitors.last <= currEventId <= latest
      modifies this, monitors`subs, monitors`lookups, monitors`last, monitors.tracker`indices
      ensures monitors.Valid() && monitors.last <= currEventId == latest
      ensures Served(old(monitors.subs), monitors.subs, out, snap, old(currEventId), latest)
    {
      out := [];
      StartServed(monitors.subs, snap, currEventId);
      for l := currEventId to latest
        invariant monitors.Valid() && monitors.last <= l
        invariant Served(old(monitors.subs), monitors.subs, out, snap, currEventId, l)
        modifies monitors`subs, monitors`lookups, monitors`last, monitors.tracker`indices
      {
        out := OnEvent(snap, l, out, old(monitors.subs));
      }
      currEventId := latest;
    }
  }

  lemma StartServed(subs: Subs, snap: Table, curr: nat)
    ensures Served(subs, subs, [], snap, curr, curr)
  {
  }

  /** Each subscription has moved as the protocol has it move. */
  lemma ServedIsUpdated(subs0: Subs, subs: Subs, out: seq<Delivery>, snap: Table, curr: nat, latest: nat, key: SubKey, s: Subscription)
    requires Served(subs0, subs, out, snap, curr, latest) && key in subs0
    requires s.filters == subs0[key].filters && s.latestEventId == subs0[key].latestEventId
    ensures
      var s' := Updated(s, snap, curr, latest);
      s'.live == s.live + For(out, key) && s'.latestEventId == subs[key].latestEventId
  {
  }
}
