/** The writer pipeline of import, stream and sync (src/WriterPipeline.h): a producer,
    a validator thread and a writer thread that share two queues and some counters. */
module Pipeline {
  import opened ByteStrings
  import opened Results
  import opened Events
  import opened Packed
  import Negentropy

  /** An entry of the validator's queue: an input, or the null of a flush. */
  datatype Input = Json(n: nat) | Null

  /** An entry of the writer's queue: an event, or the empty one of the validator. */
  datatype Item = Item(n: nat, packed: Bytes) | End

  /** An empty packed event ends the writer, whoever put it there. */
  predicate Ends(x: Item) {
    x.End? || x.packed == []
  }

  /** A view of the event cannot be made: it throws. */
  predicate TooShortToView(x: Item) {
    !Ends(x) && |x.packed| < HEADER
  }

  /** The bytes are a packed event, tags and all. */
  ghost predicate Decodes(packed: Bytes) {
    exists e: Event :: Fits(e) && Pack(e) == packed
  }

  /** An exception that nobody catches aborts the process. */
  datatype Phase = Idle | Collecting | Committing | Stopped | Aborted

  /** Inputs are numbered in the order they are written. `written`, `rejected`, `dups`
      and `lost` are the inputs that have met that fate, `taken` the writer's entries
      in the order it took them, and `arrived` in the order they came. */
  datatype State = State(
    validatorBatch: seq<Input>,
    validatorInbox: seq<Input>,
    validatorStopped: bool,
    writerBatch: seq<Item>,
    writerInbox: seq<Item>,
    toProc: seq<Item>,
    phase: Phase,
    shutdownComplete: bool,
    totalProcessed: nat,
    totalWritten: nat,
    totalRejected: nat,
    totalDups: nat,
    numLive: int,
    written: multiset<nat>,
    rejected: multiset<nat>,
    dups: multiset<nat>,
    lost: multiset<nat>,
    taken: seq<Item>,
    arrived: seq<Item>,
    flushed: bool)

  datatype Step =
    | WriteJson
    | WriteEvent(packed: Bytes)
    | Flush
    | ValidatorPop
    | Validate(result: Option<Bytes>)
    | WriterPop
    | Collect(writeBatchSize: nat, known: bool)
    | Commit(accepted: set<nat>, walked: set<nat>, stored: seq<Negentropy.FilterJson>)

  // ---------------------------------------------------------------------------
  // Steps

  /** What may happen, as long as the process is there. What the validator passes on
      comes from the parser, so it decodes. In a commit the tags of some events are
      read to the end: of those accepted, and of others that are refused late. The
      filter table holds `stored` by then, which is read back unless nothing is left to
      write. */
  ghost predicate Enabled(s: State, step: Step) {
    !s.phase.Aborted? &&
    match step
    case WriteJson => true
    case WriteEvent(packed) => true
    case Flush => true
    case ValidatorPop => !s.validatorStopped && s.validatorBatch == []
    case Validate(result) => !s.validatorStopped && s.validatorBatch != [] && (result.Some? ==> Decodes(result.value))
    case WriterPop => s.phase.Idle? && s.writerInbox != []
    case Collect(writeBatchSize, known) => s.phase.Collecting?
    case Commit(accepted, walked, stored) => s.phase.Committing? && accepted <= walked
  }

  /** The commit reads the tags of an event that does not decode. */
  ghost predicate ReadsBroken(s: State, walked: set<nat>) {
    exists x :: x in s.toProc && x.Item? && x.n in walked && !Decodes(x.packed)
  }

  /** The commit throws: for such an event, or before it has written anything, for a
      stored filter that cannot be read back. */
  ghost predicate Faulty(s: State, step: Step) {
    step.Commit? && s.toProc != [] && (!Negentropy.AllLoad(step.stored) || ReadsBroken(s, step.walked))
  }

  function Deliver(s: State, x: Item): (s': State) {
    s.(writerInbox := s.writerInbox + [x], arrived := s.arrived + [x])
  }

  /** The producer's three operations. */
  function WroteJson(s: State): (s': State) {
    s.(totalProcessed := s.totalProcessed + 1, numLive := s.numLive + 1,
       validatorInbox := s.validatorInbox + [Json(s.totalProcessed)])
  }

  function WroteEvent(s: State, packed: Bytes): (s': State) {
    Deliver(s, Item(s.totalProcessed, packed)).(totalProcessed := s.totalProcessed + 1, numLive := s.numLive + 1)
  }

  function Flushed(s: State): (s': State) {
    s.(validatorInbox := s.validatorInbox + [Null], flushed := true)
  }

  /** The validator's loop body; a null ends the thread. */
  function Validated(s: State, result: Option<Bytes>): (s': State)
    requires s.validatorBatch != []
  {
    var s1 := s.(validatorBatch := s.validatorBatch[1..]);
    match s.validatorBatch[0]
    case Null => Deliver(s1, End).(validatorStopped := true)
    case Json(n) =>
      if result.None? then
        s1.(numLive := s.numLive - 1, totalRejected := s.totalRejected + 1, rejected := s.rejected + multiset{n})
      else
        Deliver(s1, Item(n, result.value))
  }

  function NameOf(x: Item): (m: multiset<nat>) {
    if x.End? then multiset{} else multiset{x.n}
  }

  /** The writer's loop that collects a batch. */
  function Collected(s: State, writeBatchSize: nat, known: bool): (s': State) {
    if s.writerBatch == [] then
      s.(phase := Committing)
    else if |s.toProc| >= writeBatchSize then
      s.(writerInbox := s.writerBatch + s.writerInbox, writerBatch := [], phase := Committing)
    else
      var x := s.writerBatch[0];
      var s1 := s.(writerBatch := s.writerBatch[1..], taken := s.taken + [x]);
      if Ends(x) then
        s1.(shutdownComplete := true, phase := Committing, lost := s.lost + NameOf(x))
      else if TooShortToView(x) then
        s1.(numLive := s.numLive - 1, toProc := s.toProc + [x], phase := Aborted)
      else if known then
        s1.(numLive := s.numLive - 1, totalDups := s.totalDups + 1, dups := s.dups + NameOf(x))
      else
        s1.(numLive := s.numLive - 1, toProc := s.toProc + [x])
  }

  /** The inputs of a batch that were written, and the others. */
  function Accepted(xs: seq<Item>, accepted: set<nat>): (m: multiset<nat>) {
    if xs == [] then multiset{}
    else (if xs[0].Item? && xs[0].n in accepted then NameOf(xs[0]) else multiset{}) + Accepted(xs[1..], accepted)
  }

  function Refused(xs: seq<Item>, accepted: set<nat>): (m: multiset<nat>) {
    if xs == [] then multiset{}
    else (if xs[0].Item? && xs[0].n in accepted then multiset{} else NameOf(xs[0])) + Refused(xs[1..], accepted)
  }

  function Committed(s: State, accepted: set<nat>): (s': State) {
    s.(toProc := [],
       totalWritten := s.totalWritten + |Accepted(s.toProc, accepted)|,
       totalDups := s.totalDups + |Refused(s.toProc, accepted)|,
       written := s.written + Accepted(s.toProc, accepted),
       dups := s.dups + Refused(s.toProc, accepted),
       phase := if s.shutdownComplete then Stopped else Idle)
  }

  ghost function After(s: State, step: Step): (s': State)
    requires Enabled(s, step)
  {
    match step
    case WriteJson => WroteJson(s)
    case WriteEvent(packed) => WroteEvent(s, packed)
    case Flush => Flushed(s)
    case ValidatorPop => s.(validatorBatch := s.validatorInbox, validatorInbox := [])
    case Validate(result) => Validated(s, result)
    case WriterPop => s.(writerBatch := s.writerInbox, writerInbox := [], phase := Collecting)
    case Collect(writeBatchSize, known) => Collected(s, writeBatchSize, known)
    case Commit(accepted, walked, stored) => if Faulty(s, step) then s.(phase := Aborted) else Committed(s, accepted)
  }

  ghost predicate Initial(s: State) {
    s == State([], [], false, [], [], [], Idle, false, 0, 0, 0, 0, 0, multiset{}, multiset{}, multiset{}, multiset{}, [], [], false)
  }

  // ---------------------------------------------------------------------------
  // Where the inputs are

  function InputNames(q: seq<Input>): (m: multiset<nat>) {
    if q == [] then multiset{} else (if q[0].Json? then multiset{q[0].n} else multiset{}) + InputNames(q[1..])
  }

  function ItemNames(q: seq<Item>): (m: multiset<nat>) {
    if q == [] then multiset{} else NameOf(q[0]) + ItemNames(q[1..])
  }

  lemma {:induction false} InputNamesPush(q: seq<Input>, x: Input)
    ensures InputNames(q + [x]) == InputNames(q) + (if x.Json? then multiset{x.n} else multiset{})
  {
    if q == [] {
      assert q + [x] == [x];
    } else {
      InputNamesPush(q[1..], x);
      assert (q + [x])[1..] == q[1..] + [x];
    }
  }

  lemma {:induction false} ItemNamesPush(q: seq<Item>, x: Item)
    ensures ItemNames(q + [x]) == ItemNames(q) + NameOf(x)
  {
    if q == [] {
      assert q + [x] == [x];
    } else {
      ItemNamesPush(q[1..], x);
      assert (q + [x])[1..] == q[1..] + [x];
    }
  }

  lemma {:induction false} AcceptedOrRefused(xs: seq<Item>, accepted: set<nat>)
    ensures Accepted(xs, accepted) + Refused(xs, accepted) == ItemNames(xs)
    ensures |Accepted(xs, accepted)| + |Refused(xs, accepted)| == |ItemNames(xs)|
  {
    if xs != [] { AcceptedOrRefused(xs[1..], accepted); }
  }

  function ValidatorQueue(s: State): (q: seq<Input>) {
    s.validatorBatch + s.validatorInbox
  }

  function WriterQueue(s: State): (q: seq<Item>) {
    s.writerBatch + s.writerInbox
  }

  /** The numbers below `n`. */
  function AllInputs(n: nat): (m: multiset<nat>) {
    if n == 0 then multiset{} else AllInputs(n - 1) + multiset{n - 1}
  }

  /** Where the inputs are: with the validator, in the writer's queue, in its hands, or
      done with in one of four ways. */
  datatype Tally = Tally(
    validator: multiset<nat>,
    writer: multiset<nat>,
    hand: multiset<nat>,
    written: multiset<nat>,
    rejected: multiset<nat>,
    dups: multiset<nat>,
    lost: multiset<nat>)

  function TallyOf(s: State): (t: Tally) {
    Tally(InputNames(ValidatorQueue(s)), ItemNames(WriterQueue(s)), ItemNames(s.toProc), s.written, s.rejected, s.dups, s.lost)
  }

  function Times(t: Tally, n: nat): (k: nat) {
    t.validator[n] + t.writer[n] + t.hand[n] + t.written[n] + t.rejected[n] + t.dups[n] + t.lost[n]
  }

  /** Every input is in exactly one place. */
  ghost predicate EachOnce(t: Tally, total: nat) {
    forall n: nat :: Times(t, n) == if n < total then 1 else 0
  }

  /** The inputs that are queued or in hand. */
  function InFlight(s: State): (m: multiset<nat>) {
    InputNames(ValidatorQueue(s)) + ItemNames(WriterQueue(s)) + ItemNames(s.toProc)
  }

  /** The counters say how many inputs have met which fate. */
  ghost predicate Counted(s: State, t: Tally) {
    && s.totalWritten == |t.written| && s.totalRejected == |t.rejected| && s.totalDups == |t.dups|
    && s.numLive == |t.validator| + |t.writer| + |t.lost|
  }

  ghost predicate Conserved(s: State) {
    EachOnce(TallyOf(s), s.totalProcessed) && Counted(s, TallyOf(s))
  }

  /** The writer takes its entries in the order of their arrival. */
  ghost predicate InOrder(s: State) {
    s.arrived == s.taken + WriterQueue(s)
  }

  lemma {:induction false} AllInputsCount(n: nat)
    ensures |AllInputs(n)| == n
    ensures forall i: nat :: AllInputs(n)[i] == if i < n then 1 else 0
  {
    if n > 0 { AllInputsCount(n - 1); }
  }

  // ---------------------------------------------------------------------------
  // Conservation

  lemma Delivered(s: State, x: Item)
    ensures ItemNames(WriterQueue(Deliver(s, x))) == ItemNames(WriterQueue(s)) + NameOf(x)
    ensures InOrder(s) ==> InOrder(Deliver(s, x))
  {
    ItemNamesPush(WriterQueue(s), x);
    assert WriterQueue(Deliver(s, x)) == WriterQueue(s) + [x];
    assert InOrder(s) ==> s.arrived + [x] == s.taken + (WriterQueue(s) + [x]);
  }

  /** A new input goes to one of the queues. */
  lemma EachOnceMore(t: Tally, total: nat)
    requires EachOnce(t, total)
    ensures EachOnce(t.(validator := t.validator + multiset{total}), total + 1)
    ensures EachOnce(t.(writer := t.writer + multiset{total}), total + 1)
  {
    var t1, t2 := t.(validator := t.validator + multiset{total}), t.(writer := t.writer + multiset{total});
    forall n: nat ensures Times(t1, n) == Times(t2, n) == Times(t, n) + if n == total then 1 else 0 {}
  }

  lemma ConservedEvent(s: State, packed: Bytes)
    requires Conserved(s) && InOrder(s)
    ensures Conserved(WroteEvent(s, packed)) && InOrder(WroteEvent(s, packed))
  {
    var t := TallyOf(s);
    Delivered(s, Item(s.totalProcessed, packed));
    assert TallyOf(WroteEvent(s, packed)) == t.(writer := t.writer + multiset{s.totalProcessed});
    EachOnceMore(t, s.totalProcessed);
  }

  lemma ConservedJson(s: State)
    requires Conserved(s)
    ensures Conserved(WroteJson(s))
  {
    var s', t := WroteJson(s), TallyOf(s);
    InputNamesPush(ValidatorQueue(s), Json(s.totalProcessed));
    assert ValidatorQueue(s') == ValidatorQueue(s) + [Json(s.totalProcessed)];
    assert TallyOf(s') == t.(validator := t.validator + multiset{s.totalProcessed});
    EachOnceMore(t, s.totalProcessed);
  }

  lemma ConservedFlush(s: State)
    requires Conserved(s)
    ensures Conserved(Flushed(s))
  {
    InputNamesPush(ValidatorQueue(s), Null);
    assert ValidatorQueue(Flushed(s)) == ValidatorQueue(s) + [Null];
    assert TallyOf(Flushed(s)) == TallyOf(s);
  }

  lemma FromValidator(t: Tally, total: nat, v: multiset<nat>, m: multiset<nat>)
    requires EachOnce(t, total) && t.validator == m + v
    ensures EachOnce(t.(validator := v, writer := t.writer + m), total)
    ensures EachOnce(t.(validator := v, rejected := t.rejected + m), total)
  {
    var t1, t2 := t.(validator := v, writer := t.writer + m), t.(validator := v, rejected := t.rejected + m);
    forall n: nat ensures Times(t1, n) == Times(t2, n) == Times(t, n) {}
  }

  lemma FromWriter(t: Tally, total: nat, w: multiset<nat>, m: multiset<nat>)
    requires EachOnce(t, total) && t.writer == m + w
    ensures EachOnce(t.(writer := w, hand := t.hand + m), total)
    ensures EachOnce(t.(writer := w, dups := t.dups + m), total)
    ensures EachOnce(t.(writer := w, lost := t.lost + m), total)
  {
    var t1, t2, t3 := t.(writer := w, hand := t.hand + m), t.(writer := w, dups := t.dups + m), t.(writer := w, lost := t.lost + m);
    forall n: nat ensures Times(t1, n) == Times(t2, n) == Times(t3, n) == Times(t, n) {}
  }

  lemma FromHand(t: Tally, total: nat, a: multiset<nat>, r: multiset<nat>)
    requires EachOnce(t, total) && t.hand == a + r
    ensures EachOnce(t.(hand := multiset{}, written := t.written + a, dups := t.dups + r), total)
  {
    var t1 := t.(hand := multiset{}, written := t.written + a, dups := t.dups + r);
    forall n: nat ensures Times(t1, n) == Times(t, n) {}
  }

  lemma ConservedValidate(s: State, result: Option<Bytes>)
    requires Conserved(s) && InOrder(s) && s.validatorBatch != []
    ensures Conserved(Validated(s, result)) && InOrder(Validated(s, result))
  {
    var x := s.validatorBatch[0];
    if x.Null? { ConservedPassOn(s, result, End); }
    else if result.Some? { ConservedPassOn(s, result, Item(x.n, result.value)); }
    else { ConservedReject(s, result); }
  }

  /** The validator's queue without its first entry. */
  lemma ValidatorRest(s: State)
    requires s.validatorBatch != []
    ensures
      var q, x := ValidatorQueue(s), s.validatorBatch[0];
      q[1..] == s.validatorBatch[1..] + s.validatorInbox
      && InputNames(q) == (if x.Json? then multiset{x.n} else multiset{}) + InputNames(q[1..])
  {
    assert ValidatorQueue(s)[0] == s.validatorBatch[0];
  }

  lemma ConservedPassOn(s: State, result: Option<Bytes>, item: Item)
    requires Conserved(s) && InOrder(s) && s.validatorBatch != []
    requires
      match s.validatorBatch[0]
      case Null => item == End
      case Json(n) => result.Some? && item == Item(n, result.value)
    ensures Conserved(Validated(s, result)) && InOrder(Validated(s, result))
  {
    var t, rest := TallyOf(s), InputNames(ValidatorQueue(s)[1..]);
    ValidatorRest(s);
    Delivered(s.(validatorBatch := s.validatorBatch[1..]), item);
    FromValidator(t, s.totalProcessed, rest, NameOf(item));
    assert TallyOf(Validated(s, result)) == t.(validator := rest, writer := t.writer + NameOf(item));
  }

  lemma ConservedReject(s: State, result: Option<Bytes>)
    requires Conserved(s) && InOrder(s) && s.validatorBatch != [] && s.validatorBatch[0].Json? && result.None?
    ensures Conserved(Validated(s, result)) && InOrder(Validated(s, result))
  {
    var t, rest, m := TallyOf(s), InputNames(ValidatorQueue(s)[1..]), multiset{s.validatorBatch[0].n};
    ValidatorRest(s);
    FromValidator(t, s.totalProcessed, rest, m);
    assert TallyOf(Validated(s, result)) == t.(validator := rest, rejected := t.rejected + m);
  }

  predicate Takes(s: State, writeBatchSize: nat) {
    s.writerBatch != [] && |s.toProc| < writeBatchSize
  }

  /** The tally once the writer has taken `x`. */
  function TallyTaken(t: Tally, x: Item, rest: multiset<nat>, known: bool): (t': Tally) {
    if Ends(x) then t.(writer := rest, lost := t.lost + NameOf(x))
    else if known && !TooShortToView(x) then t.(writer := rest, dups := t.dups + NameOf(x))
    else t.(writer := rest, hand := t.hand + NameOf(x))
  }

  lemma TakenTally(s: State, writeBatchSize: nat, known: bool)
    requires Takes(s, writeBatchSize)
    ensures
      var q := WriterQueue(s);
      && ItemNames(q) == NameOf(s.writerBatch[0]) + ItemNames(q[1..])
      && TallyOf(Collected(s, writeBatchSize, known)) == TallyTaken(TallyOf(s), s.writerBatch[0], ItemNames(q[1..]), known)
  {
    var q, s' := WriterQueue(s), Collected(s, writeBatchSize, known);
    assert q[0] == s.writerBatch[0] && q[1..] == WriterQueue(s');
    ItemNamesPush(s.toProc, s.writerBatch[0]);
    assert s'.toProc == s.toProc || s'.toProc == s.toProc + [s.writerBatch[0]];
  }

  lemma ConservedTake(s: State, writeBatchSize: nat, known: bool)
    requires Conserved(s) && Takes(s, writeBatchSize)
    ensures Conserved(Collected(s, writeBatchSize, known))
  {
    var t, x, rest := TallyOf(s), s.writerBatch[0], ItemNames(WriterQueue(s)[1..]);
    TakenTally(s, writeBatchSize, known);
    FromWriter(t, s.totalProcessed, rest, NameOf(x));
    TakenCounts(t, x, rest, known);
  }

  /** Taking one input changes its place by one. */
  lemma TakenCounts(t: Tally, x: Item, rest: multiset<nat>, known: bool)
    requires t.writer == NameOf(x) + rest
    ensures
      var t' := TallyTaken(t, x, rest, known);
      && |t'.dups| == |t.dups| + (if !Ends(x) && !TooShortToView(x) && known then 1 else 0)
      && |t'.writer| + |t'.lost| == |t.writer| + |t.lost| - (if Ends(x) then 0 else 1)
  {
  }

  lemma InOrderTake(s: State, writeBatchSize: nat, known: bool)
    requires InOrder(s) && Takes(s, writeBatchSize)
    ensures InOrder(Collected(s, writeBatchSize, known))
  {
    var q := WriterQueue(s);
    assert q[0] == s.writerBatch[0] && q[1..] == s.writerBatch[1..] + s.writerInbox;
    assert s.taken + q == s.taken + [q[0]] + q[1..];
  }

  lemma ConservedCommit(s: State, accepted: set<nat>)
    requires Conserved(s) && InOrder(s)
    ensures Conserved(Committed(s, accepted)) && InOrder(Committed(s, accepted))
  {
    var t := TallyOf(s);
    AcceptedOrRefused(s.toProc, accepted);
    FromHand(t, s.totalProcessed, Accepted(s.toProc, accepted), Refused(s.toProc, accepted));
    assert TallyOf(Committed(s, accepted)) == t.(hand := multiset{},
      written := t.written + Accepted(s.toProc, accepted), dups := t.dups + Refused(s.toProc, accepted));
  }

  /** What the writer has in hand in each phase. */
  ghost predicate PhaseOk(s: State) {
    && (s.phase.Idle? || s.phase.Stopped? ==> s.toProc == [])
    && (s.phase.Idle? || (s.phase.Committing? && !s.shutdownComplete) ==> s.writerBatch == [])
    && (s.phase.Stopped? ==> s.shutdownComplete)
    && (s.shutdownComplete ==> s.phase.Stopped? || s.phase.Committing? || s.phase.Aborted?)
    && (forall x :: x in s.toProc ==> x.Item?)
  }

  ghost predicate Inv(s: State) {
    Conserved(s) && InOrder(s) && PhaseOk(s)
  }

  /** Popping a whole inbox moves nothing past anything. */
  lemma SameTally(s: State, s': State)
    requires s'.validatorBatch + s'.validatorInbox == s.validatorBatch + s.validatorInbox
    requires s'.writerBatch + s'.writerInbox == s.writerBatch + s.writerInbox
    requires s' == s.(validatorBatch := s'.validatorBatch, validatorInbox := s'.validatorInbox,
                      writerBatch := s'.writerBatch, writerInbox := s'.writerInbox, phase := s'.phase)
    requires Conserved(s) && InOrder(s)
    ensures Conserved(s') && InOrder(s')
  {
    assert TallyOf(s') == TallyOf(s);
  }

  lemma ConservedCollect(s: State, writeBatchSize: nat, known: bool)
    requires Conserved(s) && InOrder(s)
    ensures Conserved(Collected(s, writeBatchSize, known)) && InOrder(Collected(s, writeBatchSize, known))
  {
    if Takes(s, writeBatchSize) {
      ConservedTake(s, writeBatchSize, known);
      InOrderTake(s, writeBatchSize, known);
    } else {
      SameTally(s, Collected(s, writeBatchSize, known));
    }
  }

  lemma PhaseKept(s: State, step: Step)
    requires PhaseOk(s) && Enabled(s, step)
    ensures PhaseOk(After(s, step))
  {
  }

  lemma ConservedStep(s: State, step: Step)
    requires Conserved(s) && InOrder(s) && PhaseOk(s) && Enabled(s, step)
    ensures Conserved(After(s, step)) && InOrder(After(s, step))
  {
    match step
    case WriteJson => { ConservedJson(s); }
    case WriteEvent(packed) => { ConservedEvent(s, packed); }
    case Flush => { ConservedFlush(s); }
    case Validate(result) => { ConservedValidate(s, result); }
    case Collect(writeBatchSize, known) => { ConservedCollect(s, writeBatchSize, known); }
    case Commit(accepted, walked, stored) => {
      if Faulty(s, step) { SameTally(s, After(s, step)); } else { ConservedCommit(s, accepted); }
    }
    case ValidatorPop => { SameTally(s, After(s, step)); }
    case WriterPop => { SameTally(s, After(s, step)); }
  }

  /** No step loses or doubles an input or takes it out of turn. */
  lemma StepConserves(s: State, step: Step)
    requires Inv(s) && Enabled(s, step)
    ensures Inv(After(s, step))
  {
    ConservedStep(s, step);
    PhaseKept(s, step);
  }

  // ---------------------------------------------------------------------------
  // Shutdown

  /** Nothing is written after a flush, no event is too short to be one, and no commit
      throws. */
  ghost predicate Polite(s: State, step: Step) {
    && (step.WriteJson? || step.WriteEvent? ==> !s.flushed)
    && (step.WriteEvent? ==> |step.packed| >= HEADER)
    && !Faulty(s, step)
  }

  /** Nothing but nulls comes after a null. */
  ghost predicate NullsLast(q: seq<Input>) {
    forall i, j :: 0 <= i < j < |q| && q[i].Null? ==> q[j].Null?
  }

  /** The end is marked only by the validator, when it has stopped, and last. */
  ghost predicate EndLast(q: seq<Item>) {
    && (forall i :: 0 <= i < |q| && q[i].Item? ==> |q[i].packed| >= HEADER)
    && (forall i :: 0 <= i < |q| && q[i].End? ==> i == |q| - 1)
  }

  ghost predicate Orderly(s: State) {
    && NullsLast(ValidatorQueue(s)) && EndLast(WriterQueue(s))
    && (!s.flushed ==> !s.validatorStopped && forall x :: x in ValidatorQueue(s) ==> x.Json?)
    && (s.validatorStopped ==> forall x :: x in ValidatorQueue(s) ==> x.Null?)
    && (End in WriterQueue(s) || s.shutdownComplete ==> s.validatorStopped)
    && (s.shutdownComplete ==> WriterQueue(s) == [])
    && s.lost == multiset{} && !s.phase.Aborted?
  }

  lemma {:induction false} NullsHaveNoNames(q: seq<Input>)
    requires forall x :: x in q ==> x.Null?
    ensures InputNames(q) == multiset{}
  {
    if q != [] {
      assert q[0] in q;
      NullsHaveNoNames(q[1..]);
    }
  }

  lemma OrderlyWrite(s: State, step: Step)
    requires Orderly(s) && Polite(s, step) && (step.WriteJson? || step.WriteEvent? || step.Flush?)
    ensures Orderly(After(s, step))
  {
    var s' := After(s, step);
    if step.WriteEvent? {
      assert WriterQueue(s') == WriterQueue(s) + [Item(s.totalProcessed, step.packed)];
    } else {
      var x := if step.Flush? then Null else Json(s.totalProcessed);
      assert ValidatorQueue(s') == ValidatorQueue(s) + [x];
      assert forall i :: 0 <= i < |ValidatorQueue(s)| ==> ValidatorQueue(s)[i] in ValidatorQueue(s);
    }
  }

  lemma DecodedIsLong(packed: Bytes)
    requires Decodes(packed)
    ensures |packed| >= HEADER
  {
    var e: Event :| Fits(e) && Pack(e) == packed;
    PackParts(e);
  }

  lemma OrderlyValidate(s: State, result: Option<Bytes>)
    requires Orderly(s) && s.validatorBatch != [] && !s.validatorStopped && (result.Some? ==> |result.value| >= HEADER)
    ensures Orderly(Validated(s, result))
  {
    var s', q := Validated(s, result), ValidatorQueue(s);
    assert q[0] == s.validatorBatch[0] && ValidatorQueue(s') == q[1..];
    assert q[0] in q;
    if q[0].Null? || result.Some? {
      var x := if q[0].Null? then End else Item(q[0].n, result.value);
      assert WriterQueue(s') == WriterQueue(s) + [x];
      assert forall i :: 0 <= i < |WriterQueue(s)| ==> WriterQueue(s)[i] in WriterQueue(s);
    }
  }

  lemma OrderlyCollect(s: State, writeBatchSize: nat, known: bool)
    requires Orderly(s) && PhaseOk(s) && s.phase.Collecting?
    ensures Orderly(Collected(s, writeBatchSize, known))
  {
    var s', q := Collected(s, writeBatchSize, known), WriterQueue(s);
    if s.writerBatch != [] && |s.toProc| < writeBatchSize {
      assert q[0] == s.writerBatch[0] && WriterQueue(s') == q[1..];
      assert q[0] in q;
    } else {
      assert WriterQueue(s') == q;
    }
  }

  lemma StepOrderly(s: State, step: Step)
    requires Orderly(s) && PhaseOk(s) && Enabled(s, step) && Polite(s, step)
    ensures Orderly(After(s, step))
  {
    match step
    case Validate(result) => {
      if result.Some? { DecodedIsLong(result.value); }
      OrderlyValidate(s, result);
    }
    case Collect(writeBatchSize, known) => { OrderlyCollect(s, writeBatchSize, known); }
    case Commit(accepted, walked, stored) => {}
    case ValidatorPop => { assert ValidatorQueue(After(s, step)) == ValidatorQueue(s); }
    case WriterPop => { assert WriterQueue(After(s, step)) == WriterQueue(s); }
    case _ => { OrderlyWrite(s, step); }
  }

  // ---------------------------------------------------------------------------
  // Runs

  ghost predicate CanRun(s: State, steps: seq<Step>)
    decreases |steps|
  {
    steps == [] || (Enabled(s, steps[0]) && CanRun(After(s, steps[0]), steps[1..]))
  }

  ghost function Run(s: State, steps: seq<Step>): (s': State)
    requires CanRun(s, steps)
    decreases |steps|
  {
    if steps == [] then s else Run(After(s, steps[0]), steps[1..])
  }

  ghost predicate PoliteRun(s: State, steps: seq<Step>)
    requires CanRun(s, steps)
    decreases |steps|
  {
    steps == [] || (Polite(s, steps[0]) && PoliteRun(After(s, steps[0]), steps[1..]))
  }

  lemma {:induction false} RunConserves(s: State, steps: seq<Step>)
    requires Inv(s) && CanRun(s, steps)
    ensures Inv(Run(s, steps))
    ensures Orderly(s) && PoliteRun(s, steps) ==> Orderly(Run(s, steps))
    decreases |steps|
  {
    if steps != [] {
      StepConserves(s, steps[0]);
      if Orderly(s) && PoliteRun(s, steps) { StepOrderly(s, steps[0]); }
      RunConserves(After(s, steps[0]), steps[1..]);
    }
  }

  /** In every interleaving, what has been processed is what was written, rejected or
      found to be a duplicate, and what is still queued or in hand. */
  lemma CountersAddUp(s0: State, steps: seq<Step>, s: State)
    requires Initial(s0) && CanRun(s0, steps) && s == Run(s0, steps)
    ensures s.totalProcessed == s.totalWritten + s.totalRejected + s.totalDups + |InFlight(s)| + |s.lost|
    ensures s.totalWritten == |s.written| && s.totalRejected == |s.rejected| && s.totalDups == |s.dups|
    ensures s.arrived == s.taken + WriterQueue(s)
  {
    InitialInv(s0);
    RunConserves(s0, steps);
    HowMany(TallyOf(s), s.totalProcessed);
  }

  lemma InitialInv(s: State)
    requires Initial(s)
    ensures Inv(s) && Orderly(s)
  {
  }

  lemma HowMany(t: Tally, total: nat)
    requires EachOnce(t, total)
    ensures total == |t.validator| + |t.writer| + |t.hand| + |t.written| + |t.rejected| + |t.dups| + |t.lost|
  {
    AllInputsCount(total);
    var all := t.validator + t.writer + t.hand + t.written + t.rejected + t.dups + t.lost;
    forall n: nat ensures all[n] == AllInputs(total)[n] { assert all[n] == Times(t, n); }
    assert all == AllInputs(total);
  }

  /** Under these rules the writer stops with nothing left over: every input has been
      counted once. */
  lemma CleanShutdown(s0: State, steps: seq<Step>, s: State)
    requires Initial(s0) && CanRun(s0, steps) && PoliteRun(s0, steps) && s == Run(s0, steps) && s.phase.Stopped?
    ensures s.numLive == 0 && InFlight(s) == multiset{} && s.lost == multiset{}
    ensures s.totalProcessed == s.totalWritten + s.totalRejected + s.totalDups
    ensures forall n: nat :: n < s.totalProcessed ==> s.written[n] + s.rejected[n] + s.dups[n] == 1
  {
    InitialInv(s0);
    RunConserves(s0, steps);
    NullsHaveNoNames(ValidatorQueue(s));
    HowMany(TallyOf(s), s.totalProcessed);
    forall n: nat | n < s.totalProcessed ensures s.written[n] + s.rejected[n] + s.dups[n] == 1 {
      assert Times(TallyOf(s), n) == 1;
    }
  }

  // ---------------------------------------------------------------------------
  // What becomes of an input

  datatype Fate = Written | Duplicate | Rejected

  function Met(s: State, fate: Fate): (m: multiset<nat>) {
    match fate
    case Written => s.written
    case Duplicate => s.dups
    case Rejected => s.rejected
  }

  /** The writer has input `n` in hand. */
  ghost predicate InHand(s: State, n: nat) {
    exists x :: x in s.toProc && x.Item? && x.n == n
  }

  /** A commit that does not throw accepts input `n`. */
  ghost predicate Accepts(s: State, step: Step, n: nat) {
    step.Commit? && !Faulty(s, step) && InHand(s, n) && n in step.accepted
  }

  /** A commit that does not throw refuses it. */
  ghost predicate Refuses(s: State, step: Step, n: nat) {
    step.Commit? && !Faulty(s, step) && InHand(s, n) && n !in step.accepted
  }

  /** Its event is known when the writer collects it. */
  predicate Recognizes(s: State, step: Step, n: nat) {
    && step.Collect? && step.known && |s.toProc| < step.writeBatchSize
    && s.writerBatch != [] && s.writerBatch[0].Item? && s.writerBatch[0].n == n && |s.writerBatch[0].packed| >= HEADER
  }

  /** Its validation fails. */
  predicate Rejects(s: State, step: Step, n: nat) {
    step == Validate(None) && s.validatorBatch != [] && s.validatorBatch[0] == Json(n)
  }

  ghost predicate Meets(s: State, step: Step, n: nat, fate: Fate) {
    match fate
    case Written => Accepts(s, step, n)
    case Duplicate => Refuses(s, step, n) || Recognizes(s, step, n)
    case Rejected => Rejects(s, step, n)
  }

  lemma {:induction false} AcceptedAre(xs: seq<Item>, accepted: set<nat>, n: nat)
    ensures n in Accepted(xs, accepted) <==> n in accepted && exists x :: x in xs && x.Item? && x.n == n
    ensures n in Refused(xs, accepted) <==> n !in accepted && exists x :: x in xs && x.Item? && x.n == n
  {
    if xs != [] {
      AcceptedAre(xs[1..], accepted, n);
      assert forall x :: x in xs <==> x == xs[0] || x in xs[1..];
    }
  }

  lemma CommitMeets(s: State, step: Step, n: nat, fate: Fate)
    requires Enabled(s, step) && step.Commit?
    ensures n in Met(After(s, step), fate) <==> n in Met(s, fate) || Meets(s, step, n, fate)
  {
    AcceptedAre(s.toProc, step.accepted, n);
  }

  lemma CollectMeets(s: State, step: Step, n: nat, fate: Fate)
    requires Enabled(s, step) && step.Collect?
    ensures n in Met(After(s, step), fate) <==> n in Met(s, fate) || Meets(s, step, n, fate)
  {
  }

  lemma ValidateMeets(s: State, step: Step, n: nat, fate: Fate)
    requires Enabled(s, step) && step.Validate?
    ensures n in Met(After(s, step), fate) <==> n in Met(s, fate) || Meets(s, step, n, fate)
  {
  }

  lemma StepMeets(s: State, step: Step, n: nat, fate: Fate)
    requires Enabled(s, step)
    ensures n in Met(After(s, step), fate) <==> n in Met(s, fate) || Meets(s, step, n, fate)
  {
    match step
    case Commit(_, _, _) => CommitMeets(s, step, n, fate);
    case Collect(_, _) => CollectMeets(s, step, n, fate);
    case Validate(_) => ValidateMeets(s, step, n, fate);
    case _ =>
  }

  /** The state that step `k` finds. */
  ghost function Before(s: State, steps: seq<Step>, k: nat): (s': State)
    requires CanRun(s, steps) && k <= |steps|
    ensures k < |steps| ==> Enabled(s', steps[k])
    decreases k
  {
    if k == 0 then s else Before(After(s, steps[0]), steps[1..], k - 1)
  }

  lemma {:induction false} RunMeets(s: State, steps: seq<Step>, n: nat, fate: Fate)
    requires CanRun(s, steps)
    ensures n in Met(Run(s, steps), fate) <==>
      n in Met(s, fate) || exists k :: 0 <= k < |steps| && Meets(Before(s, steps, k), steps[k], n, fate)
    decreases |steps|
  {
    if steps != [] {
      var s1, rest := After(s, steps[0]), steps[1..];
      StepMeets(s, steps[0], n, fate);
      RunMeets(s1, rest, n, fate);
      forall k | 0 <= k < |steps| ensures Meets(Before(s, steps, k), steps[k], n, fate) <==>
        if k == 0 then Meets(s, steps[0], n, fate) else Meets(Before(s1, rest, k - 1), rest[k - 1], n, fate) {}
      if k :| 0 <= k < |rest| && Meets(Before(s1, rest, k), rest[k], n, fate) {
        assert Meets(Before(s, steps, k + 1), steps[k + 1], n, fate);
      }
      if Meets(s, steps[0], n, fate) { assert Meets(Before(s, steps, 0), steps[0], n, fate); }
    }
  }

  /** In every run an input has been written exactly if some commit that did not throw
      accepted it. */
  lemma WrittenIsAccepted(s0: State, steps: seq<Step>, s: State, n: nat)
    requires Initial(s0) && CanRun(s0, steps) && s == Run(s0, steps)
    ensures n in s.written <==> exists k :: 0 <= k < |steps| && Accepts(Before(s0, steps, k), steps[k], n)
  {
    RunMeets(s0, steps, n, Written);
  }

  /** It counts as a duplicate exactly if its event was known when it was collected, or
      such a commit refused it. */
  lemma DuplicateIsKnownOrRefused(s0: State, steps: seq<Step>, s: State, n: nat)
    requires Initial(s0) && CanRun(s0, steps) && s == Run(s0, steps)
    ensures n in s.dups <==>
      exists k :: 0 <= k < |steps| && (Refuses(Before(s0, steps, k), steps[k], n) || Recognizes(Before(s0, steps, k), steps[k], n))
  {
    RunMeets(s0, steps, n, Duplicate);
  }

  /** And it has been rejected exactly if its validation failed. */
  lemma RejectedIsInvalid(s0: State, steps: seq<Step>, s: State, n: nat)
    requires Initial(s0) && CanRun(s0, steps) && s == Run(s0, steps)
    ensures n in s.rejected <==> exists k :: 0 <= k < |steps| && Rejects(Before(s0, steps, k), steps[k], n)
  {
    RunMeets(s0, steps, n, Rejected);
  }

  // ---------------------------------------------------------------------------
  // Events that are none

  /** Nothing is written after a flush. */
  ghost predicate Timely(s: State, steps: seq<Step>)
    requires CanRun(s, steps)
    decreases |steps|
  {
    steps == [] ||
      ((steps[0].WriteJson? || steps[0].WriteEvent? ==> !s.flushed) && Timely(After(s, steps[0]), steps[1..]))
  }

  /** No commit throws: each event whose tags do not decode is found to be a duplicate, or
      deleted, before they are read, and the stored filters can be read back. */
  ghost predicate NoFault(s: State, steps: seq<Step>)
    requires CanRun(s, steps)
    decreases |steps|
  {
    steps == [] || (!Faulty(s, steps[0]) && NoFault(After(s, steps[0]), steps[1..]))
  }

  /** The producer writes nothing that is too short for an event. */
  predicate LongEnough(steps: seq<Step>) {
    forall i :: 0 <= i < |steps| && steps[i].WriteEvent? ==> |steps[i].packed| >= HEADER
  }

  /** The writer has stopped by itself and nothing is live. */
  predicate Clean(s: State) {
    s.phase.Stopped? && s.numLive == 0
  }

  lemma {:induction false} TimelyIsPolite(s: State, steps: seq<Step>)
    requires CanRun(s, steps) && Timely(s, steps) && NoFault(s, steps) && LongEnough(steps)
    ensures PoliteRun(s, steps)
    decreases |steps|
  {
    if steps != [] {
      forall i | 0 <= i < |steps[1..]| && steps[1..][i].WriteEvent? ensures |steps[1..][i].packed| >= HEADER {
        assert steps[1..][i] == steps[i + 1];
      }
      TimelyIsPolite(After(s, steps[0]), steps[1..]);
    }
  }

  lemma {:induction false} FaultAborts(s: State, steps: seq<Step>)
    requires CanRun(s, steps) && !NoFault(s, steps)
    ensures Run(s, steps).phase.Aborted?
    decreases |steps|
  {
    var s' := After(s, steps[0]);
    if Faulty(s, steps[0]) {
      assert s'.phase.Aborted?;
      assert steps[1..] == [];
    } else {
      FaultAborts(s', steps[1..]);
    }
  }

  predicate IsShort(x: Item) {
    x.Item? && |x.packed| < HEADER
  }

  /** Bytes that are too short are queued, have been taken for the end or have aborted
      the process. */
  ghost predicate ShortSeen(s: State) {
    s.lost != multiset{} || s.phase.Aborted? || exists i :: 0 <= i < |WriterQueue(s)| && IsShort(WriterQueue(s)[i])
  }

  lemma {:induction false} ItemIsNamed(q: seq<Item>, i: nat)
    requires i < |q| && q[i].Item?
    ensures q[i].n in ItemNames(q)
  {
    if i > 0 { ItemIsNamed(q[1..], i - 1); }
  }

  lemma ShortIsUnclean(s: State)
    requires Conserved(s) && ShortSeen(s)
    ensures !Clean(s)
  {
    if s.lost != multiset{} {
      var n :| n in s.lost;
      assert |s.lost| > 0;
    } else if !s.phase.Aborted? {
      var i :| 0 <= i < |WriterQueue(s)| && IsShort(WriterQueue(s)[i]);
      ItemIsNamed(WriterQueue(s), i);
      assert |ItemNames(WriterQueue(s))| > 0;
    }
  }

  lemma ShortTaken(s: State, writeBatchSize: nat, known: bool)
    requires ShortSeen(s) && !s.phase.Aborted?
    ensures ShortSeen(Collected(s, writeBatchSize, known))
  {
    var s', q := Collected(s, writeBatchSize, known), WriterQueue(s);
    if Takes(s, writeBatchSize) {
      assert q[0] == s.writerBatch[0] && q[1..] == WriterQueue(s');
      if s.lost == multiset{} {
        var i :| 0 <= i < |q| && IsShort(q[i]);
        if i > 0 { assert IsShort(WriterQueue(s')[i - 1]); }
        else if q[0].packed == [] { assert q[0].n in s'.lost; }
      }
    } else {
      assert WriterQueue(s') == q;
    }
  }

  lemma ShortRemains(s: State, s': State)
    requires ShortSeen(s) && !s.phase.Aborted? && WriterQueue(s) <= WriterQueue(s') && (!s'.phase.Aborted? ==> s'.lost == s.lost)
    ensures ShortSeen(s')
  {
    if s.lost == multiset{} {
      var i :| 0 <= i < |WriterQueue(s)| && IsShort(WriterQueue(s)[i]);
      assert IsShort(WriterQueue(s')[i]);
    }
  }

  /** Once written, bytes that are too short are never counted as done. */
  lemma ShortStays(s: State, step: Step)
    requires Enabled(s, step) && PhaseOk(s) && (ShortSeen(s) || (step.WriteEvent? && |step.packed| < HEADER))
    ensures ShortSeen(After(s, step))
  {
    if step.Collect? {
      ShortTaken(s, step.writeBatchSize, step.known);
    } else if step.WriteEvent? && |step.packed| < HEADER {
      assert IsShort(WriterQueue(After(s, step))[|WriterQueue(s)|]);
    } else {
      QueueGrows(s, step);
      ShortRemains(s, After(s, step));
    }
  }

  /** Only collecting takes anything out of the writer's queue. */
  lemma QueueGrows(s: State, step: Step)
    requires Enabled(s, step) && PhaseOk(s) && !step.Collect?
    ensures WriterQueue(s) <= WriterQueue(After(s, step))
    ensures !After(s, step).phase.Aborted? ==> After(s, step).lost == s.lost
  {
  }

  lemma {:induction false} ShortEndsUnclean(s: State, steps: seq<Step>)
    requires Inv(s) && CanRun(s, steps) && (ShortSeen(s) || !LongEnough(steps))
    ensures !Clean(Run(s, steps))
    decreases |steps|
  {
    if steps == [] {
      ShortIsUnclean(s);
    } else {
      StepConserves(s, steps[0]);
      if ShortSeen(s) || (steps[0].WriteEvent? && |steps[0].packed| < HEADER) {
        ShortStays(s, steps[0]);
      } else {
        var i :| 0 <= i < |steps| && steps[i].WriteEvent? && |steps[i].packed| < HEADER;
        assert steps[1..][i - 1] == steps[i];
      }
      ShortEndsUnclean(After(s, steps[0]), steps[1..]);
    }
  }

  /** A run in which nothing is written after a flush, and which has come to an end, has
      ended cleanly exactly if every event written was long enough to be one, none had
      its tags read that does not decode, and the stored filters could be read back
      whenever there was something to write. */
  lemma CleanIffEventsDecode(s0: State, steps: seq<Step>, s: State)
    requires Initial(s0) && CanRun(s0, steps) && Timely(s0, steps) && s == Run(s0, steps)
    requires s.phase.Stopped? || s.phase.Aborted?
    ensures Clean(s) <==> LongEnough(steps) && NoFault(s0, steps)
  {
    InitialInv(s0);
    if !LongEnough(steps) {
      ShortEndsUnclean(s0, steps);
    } else if !NoFault(s0, steps) {
      FaultAborts(s0, steps);
    } else {
      TimelyIsPolite(s0, steps);
      RunConserves(s0, steps);
      CleanShutdown(s0, steps, s);
    }
  }

  /** Everything that waits for the writer decodes. */
  ghost predicate AllDecode(s: State) {
    && (forall x :: x in WriterQueue(s) && x.Item? ==> Decodes(x.packed))
    && (forall x :: x in s.toProc && x.Item? ==> Decodes(x.packed))
  }

  lemma FewerDecode(s: State, s': State)
    requires AllDecode(s)
    requires forall x :: x in WriterQueue(s') ==> x in WriterQueue(s)
    requires forall x :: x in s'.toProc ==> x in s.toProc || x in WriterQueue(s)
    ensures AllDecode(s')
  {
  }

  lemma OneMoreDecodes(s: State, x: Item, s': State)
    requires AllDecode(s) && (x.Item? ==> Decodes(x.packed))
    requires WriterQueue(s') == WriterQueue(s) + [x] && s'.toProc == s.toProc
    ensures AllDecode(s')
  {
  }

  lemma NothingFaulty(s: State, step: Step)
    requires AllDecode(s) && (step.Commit? ==> Negentropy.AllLoad(step.stored))
    ensures !Faulty(s, step)
  {
  }

  lemma ValidatedAllDecode(s: State, result: Option<Bytes>)
    requires AllDecode(s) && s.validatorBatch != [] && (result.Some? ==> Decodes(result.value))
    ensures AllDecode(Validated(s, result))
  {
    var s', x := Validated(s, result), s.validatorBatch[0];
    if x.Null? { OneMoreDecodes(s, End, s'); }
    else if result.Some? { OneMoreDecodes(s, Item(x.n, result.value), s'); }
    else { FewerDecode(s, s'); }
  }

  lemma StepAllDecode(s: State, step: Step)
    requires AllDecode(s) && Enabled(s, step) && (step.WriteEvent? ==> Decodes(step.packed)) && PhaseOk(s)
    requires step.Commit? ==> Negentropy.AllLoad(step.stored)
    ensures !Faulty(s, step) && AllDecode(After(s, step))
  {
    NothingFaulty(s, step);
    match step
    case WriteEvent(packed) => { OneMoreDecodes(s, Item(s.totalProcessed, packed), WroteEvent(s, packed)); }
    case Validate(result) => { ValidatedAllDecode(s, result); }
    case Collect(writeBatchSize, known) => {
      CollectedIsFewer(s, writeBatchSize, known);
      FewerDecode(s, Collected(s, writeBatchSize, known));
    }
    case Commit(accepted, walked, stored) => { FewerDecode(s, Committed(s, accepted)); }
    case _ => { FewerDecode(s, After(s, step)); }
  }

  lemma CollectedIsFewer(s: State, writeBatchSize: nat, known: bool)
    ensures forall x :: x in WriterQueue(Collected(s, writeBatchSize, known)) ==> x in WriterQueue(s)
    ensures forall x :: x in Collected(s, writeBatchSize, known).toProc ==> x in s.toProc || x in WriterQueue(s)
  {
    var s', q := Collected(s, writeBatchSize, known), WriterQueue(s);
    if Takes(s, writeBatchSize) {
      assert q[0] == s.writerBatch[0] && WriterQueue(s') == q[1..];
    } else {
      assert WriterQueue(s') == q;
    }
  }

  /** It is enough that every event written decodes and that the stored filters can be
      read back. */
  lemma {:induction false} DecodingIsEnough(s: State, steps: seq<Step>)
    requires AllDecode(s) && PhaseOk(s) && CanRun(s, steps)
    requires forall i :: 0 <= i < |steps| && steps[i].WriteEvent? ==> Decodes(steps[i].packed)
    requires forall i :: 0 <= i < |steps| && steps[i].Commit? ==> Negentropy.AllLoad(steps[i].stored)
    ensures LongEnough(steps) && NoFault(s, steps)
    decreases |steps|
  {
    if steps != [] {
      StepAllDecode(s, steps[0]);
      PhaseKept(s, steps[0]);
      forall i | 0 <= i < |steps[1..]| && steps[1..][i].WriteEvent? ensures Decodes(steps[1..][i].packed) {
        assert steps[1..][i] == steps[i + 1];
      }
      forall i | 0 <= i < |steps[1..]| && steps[1..][i].Commit? ensures Negentropy.AllLoad(steps[1..][i].stored) {
        assert steps[1..][i] == steps[i + 1];
      }
      DecodingIsEnough(After(s, steps[0]), steps[1..]);
      forall i | 0 <= i < |steps| && steps[i].WriteEvent? ensures |steps[i].packed| >= HEADER { DecodedIsLong(steps[i].packed); }
    }
  }

  // ---------------------------------------------------------------------------
  // Inputs that end the writer

  lemma RunCons(s: State, step: Step, steps: seq<Step>)
    requires Enabled(s, step) && CanRun(After(s, step), steps)
    ensures CanRun(s, [step] + steps) && Run(s, [step] + steps) == Run(After(s, step), steps)
  {
    assert ([step] + steps)[1..] == steps;
  }

  lemma RunOne(s: State, a: Step)
    requires Enabled(s, a)
    ensures CanRun(s, [a]) && Run(s, [a]) == After(s, a)
  {
    var none: seq<Step> := [];
    assert CanRun(After(s, a), none) && Run(After(s, a), none) == After(s, a);
    RunCons(s, a, none);
    assert [a] + none == [a];
  }

  lemma RunThree(s: State, a: Step, s1: State, b: Step, s2: State, c: Step)
    requires Enabled(s, a) && s1 == After(s, a) && Enabled(s1, b) && s2 == After(s1, b) && Enabled(s2, c)
    ensures CanRun(s, [a, b, c]) && Run(s, [a, b, c]) == After(s2, c)
  {
    RunOne(s2, c);
    RunCons(s1, b, [c]);
    RunCons(s, a, [b] + [c]);
    assert [a] + ([b] + [c]) == [a, b, c];
  }

  /** An empty event is taken for the end: an event after it is never written. */
  lemma EmptyEventStopsWriter(s0: State, packed: Bytes)
    requires Initial(s0) && packed != []
    ensures
      var steps := [WriteEvent([])] + ([WriteEvent(packed)] + [WriterPop, Collect(1000, false), Commit({}, {}, [])]);
      CanRun(s0, steps) && Run(s0, steps).phase.Stopped? && Run(s0, steps).numLive == 2 && Run(s0, steps).totalWritten == 0
  {
    var s1 := After(s0, WriteEvent([]));
    var s2 := After(s1, WriteEvent(packed));
    var s3 := After(s2, WriterPop);
    assert s3.writerBatch[0] == Item(0, []);
    RunThree(s2, WriterPop, s3, Collect(1000, false), After(s3, Collect(1000, false)), Commit({}, {}, []));
    RunCons(s1, WriteEvent(packed), [WriterPop, Collect(1000, false), Commit({}, {}, [])]);
    RunCons(s0, WriteEvent([]), [WriteEvent(packed)] + [WriterPop, Collect(1000, false), Commit({}, {}, [])]);
  }

  /** An event of 1 to 87 bytes aborts the process, with nothing live and nothing
      counted. */
  lemma ShortEventAborts(s0: State, packed: Bytes)
    requires Initial(s0) && 0 < |packed| < HEADER
    ensures
      var steps := [WriteEvent(packed), WriterPop, Collect(1000, false)];
      && CanRun(s0, steps) && Run(s0, steps).phase.Aborted? && Run(s0, steps).numLive == 0
      && Run(s0, steps).totalWritten + Run(s0, steps).totalRejected + Run(s0, steps).totalDups == 0
  {
    var s1 := After(s0, WriteEvent(packed));
    assert After(s1, WriterPop).writerBatch[0] == Item(0, packed);
    RunThree(s0, WriteEvent(packed), s1, WriterPop, After(s1, WriterPop), Collect(1000, false));
  }

  lemma CommitAborts(s0: State, packed: Bytes, stored: seq<Negentropy.FilterJson>)
    requires Initial(s0) && |packed| >= HEADER && (!Decodes(packed) || !Negentropy.AllLoad(stored))
    ensures
      var steps := [WriteEvent(packed)] + ([WriterPop] + [Collect(1000, false), Collect(1000, false), Commit({0}, {0}, stored)]);
      CanRun(s0, steps) && Run(s0, steps).phase.Aborted? && Run(s0, steps).totalWritten == 0
  {
    var commit := Commit({0}, {0}, stored);
    var s1 := After(s0, WriteEvent(packed));
    var s2 := After(s1, WriterPop);
    assert s2.writerBatch[0] == Item(0, packed);
    var s3 := After(s2, Collect(1000, false));
    assert s3.toProc[0] == Item(0, packed) && s3.toProc[0] in s3.toProc;
    RunThree(s2, Collect(1000, false), s3, Collect(1000, false), After(s3, Collect(1000, false)), commit);
    RunCons(s1, WriterPop, [Collect(1000, false), Collect(1000, false), commit]);
    RunCons(s0, WriteEvent(packed), [WriterPop] + [Collect(1000, false), Collect(1000, false), commit]);
  }

  /** An event with a whole header whose tags do not decode aborts it when it is
      inserted. */
  lemma BrokenTagsAbort(s0: State, packed: Bytes)
    requires Initial(s0) && |packed| >= HEADER && !Decodes(packed)
    ensures
      var steps := [WriteEvent(packed)] + ([WriterPop] + [Collect(1000, false), Collect(1000, false), Commit({0}, {0}, [])]);
      CanRun(s0, steps) && Run(s0, steps).phase.Aborted? && Run(s0, steps).totalWritten == 0
  {
    CommitAborts(s0, packed, []);
  }

  /** So does a proper event while a filter array is stored, and it is not written. */
  lemma StoredArrayAborts(s0: State, packed: Bytes, stored: seq<Negentropy.FilterJson>)
    requires Initial(s0) && Decodes(packed) && exists j :: j in stored && j.Many?
    ensures
      var steps := [WriteEvent(packed)] + ([WriterPop] + [Collect(1000, false), Collect(1000, false), Commit({0}, {0}, stored)]);
      CanRun(s0, steps) && Run(s0, steps).phase.Aborted? && Run(s0, steps).totalWritten == 0
  {
    DecodedIsLong(packed);
    CommitAborts(s0, packed, stored);
  }
}
