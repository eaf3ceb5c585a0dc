/**
 The one-slot report mailbox (sphactor_actor.c) together with the controller's latest_report
 (sphactor.c). Two threads share the slot through atomic exchanges; everything else in a call is
 local to its thread, so each exchange, flag access and free is one step and the threads interleave
 freely between steps.
 */
module Mailbox {
  import opened Options
  import opened Reports

  /** Where the actor's thread stands. Reports are named by the order in which they were built. */
  datatype Producer =
    | Working
    | Holding(made: nat)             // built a report, about to exchange it into the slot
    | Dropping(prev: Option<nat>)    // exchanged, about to destroy what came out
    | Taken(rest: Option<nat>)       // the last exchange of sphactor_actor_destroy
    | Ended

  /** Where the controlling thread stands; seen is the newest publication at its exchange. */
  datatype Consumer =
    | Resting
    | Called                                   // entered sphactor_report
    | FlagOn                                   // read reporting as true, about to exchange
    | Swapped(got: Option<nat>, seen: nat)     // exchanged with NULL
    | Storing(report: nat, seen: nat)          // destroyed the old latest_report
    | Joining                                  // in sphactor_destroy, waiting for the actor's thread
    | Finished

  /** One return of sphactor_report: its result, and the newest publication where the call took effect. */
  datatype Answer = Answer(result: Option<nat>, newest: nat, flag: bool)

  datatype Box = Box(
    log: seq<Report>,          // every report ever built; a report's id is its index
    reporting: bool,
    dying: bool,               // sphactor_actor_destroy has begun
    slot: Option<nat>,
    newest: nat,               // the report most recently exchanged into the slot
    producer: Producer,
    consumer: Consumer,
    latest: Option<nat>,
    freed: multiset<nat>,
    answers: seq<Answer>
  )

  /** sphactor_actor_new stores the first report and sphactor_new clears latest_report. */
  function Start(first: Report): Box {
    Box([first], true, false, Some(0), 0, Working, Resting, None, multiset{}, [])
  }

  datatype Step =
    | Construct(report: Report, sock: bool)    // the SOCK branch builds one even when reporting is off
    | Publish                                  // exchange the report into the slot
    | DropPrevious
    | SetReporting(on: bool)
    | BeginDestroy(last: Report)
    | TakeLast                                 // the accessor, called by sphactor_actor_destroy
    | FreeLast
    | Call
    | ReadFlag
    | SwapNull
    | FreeOld
    | Store
    | Join
    | FreeLatest

  /** sphactor_report_destroy through a pointer that may be NULL. */
  function Destroy(freed: multiset<nat>, o: Option<nat>): multiset<nat> {
    match o
    case None => freed
    case Some(r) => freed[r := freed[r] + 1]
  }

  predicate Enabled(b: Box, s: Step) {
    match s
    case Construct(_, sock) => b.producer.Working? && !b.dying && (b.reporting || sock)
    case Publish => b.producer.Holding?
    case DropPrevious => b.producer.Dropping?
    case SetReporting(_) => b.producer.Working? && !b.dying
    case BeginDestroy(_) => b.producer.Working? && !b.dying && b.consumer.Joining?
    case TakeLast => b.producer.Working? && b.dying
    case FreeLast => b.producer.Taken?
    case Call => b.consumer.Resting?
    case ReadFlag => b.consumer.Called?
    case SwapNull => b.consumer.FlagOn?
    case FreeOld => b.consumer.Swapped?
    case Store => b.consumer.Storing?
    case Join => b.consumer.Resting?
    case FreeLatest => b.consumer.Joining? && b.producer.Ended?
  }

  function Do(b: Box, s: Step): Box
    requires Enabled(b, s)
  {
    match s
    case Construct(report, _) =>
      b.(log := b.log + [report], producer := Holding(|b.log|))
    case Publish =>
      b.(slot := Some(b.producer.made), newest := b.producer.made, producer := Dropping(b.slot))
    case DropPrevious =>
      b.(freed := Destroy(b.freed, b.producer.prev), producer := Working)
    case SetReporting(on) =>
      b.(reporting := on)
    case BeginDestroy(last) =>
      if b.reporting then
        b.(dying := true, log := b.log + [last], producer := Holding(|b.log|))
      else
        b.(dying := true)
    case TakeLast =>
      if b.reporting then b.(slot := None, producer := Taken(b.slot)) else b.(producer := Taken(None))
    case FreeLast =>
      b.(freed := Destroy(b.freed, b.producer.rest), producer := Ended)
    case Call =>
      b.(consumer := Called)
    case ReadFlag =>
      if b.reporting then b.(consumer := FlagOn)
      else b.(consumer := Resting, answers := b.answers + [Answer(b.latest, b.newest, false)])
    case SwapNull =>
      b.(slot := None, consumer := Swapped(b.slot, b.newest))
    case FreeOld =>
      if b.consumer.got.None? then
        b.(consumer := Resting, answers := b.answers + [Answer(b.latest, b.consumer.seen, true)])
      else
        b.(freed := Destroy(b.freed, b.latest), latest := None,
           consumer := Storing(b.consumer.got.value, b.consumer.seen))
    case Store =>
      b.(latest := Some(b.consumer.report), consumer := Resting,
         answers := b.answers + [Answer(Some(b.consumer.report), b.consumer.seen, true)])
    case Join =>
      b.(consumer := Joining)
    case FreeLatest =>
      b.(freed := Destroy(b.freed, b.latest), latest := None, consumer := Finished)
  }

  predicate Allowed(b: Box, steps: seq<Step>)
    decreases |steps|
  {
    steps == [] || (Enabled(b, steps[0]) && Allowed(Do(b, steps[0]), steps[1..]))
  }

  function Run(b: Box, steps: seq<Step>): Box
    requires Allowed(b, steps)
    decreases |steps|
  {
    if steps == [] then b else Run(Do(b, steps[0]), steps[1..])
  }

  // ---------------------------------------------------------------- ownership

  /** How often report i is in a place that holds at most one. */
  function Occurs(o: Option<nat>, i: nat): nat {
    if o == Some(i) then 1 else 0
  }

  function InProducer(p: Producer): Option<nat> {
    match p
    case Holding(r) => Some(r)
    case Dropping(prev) => prev
    case Taken(rest) => rest
    case _ => None
  }

  function InConsumer(c: Consumer): Option<nat> {
    match c
    case Swapped(got, _) => got
    case Storing(r, _) => Some(r)
    case _ => None
  }

  /** In how many places report i can still be used. */
  function Live(b: Box, i: nat): nat {
    Occurs(InProducer(b.producer), i) + Occurs(b.slot, i) + Occurs(InConsumer(b.consumer), i) + Occurs(b.latest, i)
  }

  /** Each report built so far is in exactly one of the five places, and no other report is anywhere. */
  ghost predicate Conserved(b: Box) {
    forall i: nat :: Live(b, i) + b.freed[i] == (if i < |b.log| then 1 else 0)
  }

  /** The lifecycle of the two threads: the controller is joined before the actor is torn down. */
  predicate Orderly(b: Box) {
    && (b.dying ==> b.consumer.Joining? || b.consumer.Finished?)
    && (b.producer.Taken? || b.producer.Ended? ==> b.dying)
    && (b.consumer.Finished? ==> b.producer.Ended? && b.latest.None?)
    && ((b.producer.Taken? || b.producer.Ended?) && b.reporting ==> b.slot.None?)
    && (b.producer.Taken? && !b.reporting ==> b.producer.rest.None?)
  }

  /** Who has the newest publication, and that nothing held by the controller is newer. */
  predicate Fresh(b: Box) {
    && b.newest < |b.log|
    && (b.producer.Holding? ==> b.newest < b.producer.made == |b.log| - 1)
    && (b.slot.Some? ==> b.slot.value == b.newest)
    && (b.latest.Some? ==> b.latest.value <= b.newest)
    && (b.slot.Some? && b.latest.Some? ==> b.latest.value < b.newest)
    && (b.consumer.Swapped? ==>
          && b.consumer.seen <= b.newest
          && (b.consumer.got.Some? ==> b.consumer.got.value == b.consumer.seen)
          && (b.consumer.got.None? ==> b.latest == Some(b.consumer.seen))
          && (b.latest.Some? ==> b.latest.value <= b.consumer.seen)
          && (b.slot.Some? ==> b.consumer.seen < b.newest)
          && (b.slot.None? ==> b.consumer.seen == b.newest))
    && (b.consumer.Storing? ==>
          && b.consumer.report == b.consumer.seen <= b.newest
          && b.latest.None?
          && (b.slot.Some? ==> b.consumer.seen < b.newest)
          && (b.slot.None? ==> b.consumer.seen == b.newest))
    && (b.slot.None? && !b.dying && !b.consumer.Swapped? && !b.consumer.Storing? ==>
          b.latest == Some(b.newest))
  }

  /** A call that found reporting on returned the newest publication, and none returned a newer one. */
  predicate Truthful(b: Box) {
    && (forall a :: a in b.answers && a.flag ==> a.result == Some(a.newest))
    && (forall a :: a in b.answers && a.result.Some? ==> a.result.value <= a.newest)
  }

  predicate Ascending(b: Box) {
    forall i, j :: 0 <= i < j < |b.answers| && b.answers[i].result.Some? ==>
      b.answers[j].result.Some? && b.answers[i].result.value <= b.answers[j].result.value
  }

  /** No answer is newer than what the controller will answer next. */
  predicate Bounded(b: Box) {
    && (!b.consumer.Swapped? && !b.consumer.Storing? && !b.consumer.Finished? ==>
          forall a :: a in b.answers && a.result.Some? ==> b.latest.Some? && a.result.value <= b.latest.value)
    && (b.consumer.Swapped? || b.consumer.Storing? ==>
          forall a :: a in b.answers && a.result.Some? ==> a.result.value <= b.consumer.seen)
  }

  /** What the answers given so far satisfy. */
  predicate Answered(b: Box) {
    Truthful(b) && Ascending(b) && Bounded(b)
  }

  /** What the call before answer j returned: NULL when there was none. */
  function Before(answers: seq<Answer>, j: nat): Option<nat>
    requires j <= |answers|
  {
    if j == 0 then None else answers[j - 1].result
  }

  /** A call that found reporting off returned what the call before it returned. */
  predicate Chained(b: Box) {
    && (forall j :: 0 <= j < |b.answers| && !b.answers[j].flag ==> b.answers[j].result == Before(b.answers, j))
    && (!b.consumer.Storing? && !b.consumer.Finished? ==> b.latest == Before(b.answers, |b.answers|))
  }

  ghost predicate Inv(b: Box) {
    Conserved(b) && Orderly(b) && Fresh(b) && Answered(b) && Chained(b)
  }

  lemma StartInv(first: Report)
    ensures Inv(Start(first))
  {
  }

  /** A step builds at most one report, and otherwise only moves reports between places. */
  lemma StepMoves(b: Box, s: Step, i: nat)
    requires Enabled(b, s)
    requires b.consumer.Storing? ==> b.latest.None?
    ensures var after := Do(b, s);
      Live(after, i) + after.freed[i]
      == Live(b, i) + b.freed[i] + (if i == |b.log| && |after.log| > |b.log| then 1 else 0)
  {
  }

  lemma StepConserves(b: Box, s: Step)
    requires Conserved(b) && Fresh(b) && Enabled(b, s)
    ensures Conserved(Do(b, s))
  {
    forall i: nat ensures Live(Do(b, s), i) + Do(b, s).freed[i] == (if i < |Do(b, s).log| then 1 else 0) {
      StepMoves(b, s, i);
    }
  }

  lemma StepOrderly(b: Box, s: Step)
    requires Orderly(b) && Enabled(b, s)
    ensures Orderly(Do(b, s))
  {
  }

  lemma StepFresh(b: Box, s: Step)
    requires Fresh(b) && Orderly(b) && Enabled(b, s)
    ensures Fresh(Do(b, s))
  {
  }

  lemma StepTruthful(b: Box, s: Step)
    requires Truthful(b) && Fresh(b) && Enabled(b, s)
    ensures Truthful(Do(b, s))
  {
  }

  lemma StepAscending(b: Box, s: Step)
    requires Ascending(b) && Bounded(b) && Fresh(b) && Enabled(b, s)
    ensures Ascending(Do(b, s))
  {
  }

  lemma StepBounded(b: Box, s: Step)
    requires Bounded(b) && Fresh(b) && Enabled(b, s)
    ensures Bounded(Do(b, s))
  {
  }

  lemma StepAnswered(b: Box, s: Step)
    requires Answered(b) && Fresh(b) && Enabled(b, s)
    ensures Answered(Do(b, s))
  {
    hide Fresh, Truthful, Ascending, Bounded;
    StepTruthful(b, s);
    StepAscending(b, s);
    StepBounded(b, s);
  }

  lemma StepChained(b: Box, s: Step)
    requires Chained(b) && Enabled(b, s)
    ensures Chained(Do(b, s))
  {
  }

  lemma StepInv(b: Box, s: Step)
    requires Inv(b) && Enabled(b, s)
    ensures Inv(Do(b, s))
  {
    StepConserves(b, s);
    StepOrderly(b, s);
    StepFresh(b, s);
    StepAnswered(b, s);
    StepChained(b, s);
  }

  lemma {:induction false} RunInv(b: Box, steps: seq<Step>)
    requires Inv(b) && Allowed(b, steps)
    ensures Inv(Run(b, steps))
    decreases |steps|
  {
    if steps != [] {
      StepInv(b, steps[0]);
      RunInv(Do(b, steps[0]), steps[1..]);
    }
  }

  // ---------------------------------------------------------------- what the runs of the two threads give

  /** The reports that some pointer still reaches. */
  function LiveIds(b: Box): set<nat> {
    Deref(InProducer(b.producer)) + Deref(b.slot) + Deref(InConsumer(b.consumer)) + Deref(b.latest)
  }

  function Deref(o: Option<nat>): set<nat> {
    match o
    case None => {}
    case Some(r) => {r}
  }

  lemma LiveExactly(b: Box, i: nat)
    ensures i in LiveIds(b) <==> Live(b, i) > 0
  {
  }

  /**
   Under every interleaving no report is destroyed twice or destroyed while a pointer still reaches
   it, none is lost, and at most four are alive.
   */
  lemma {:induction false} OwnershipConserved(first: Report, steps: seq<Step>)
    requires Allowed(Start(first), steps)
    ensures var b := Run(Start(first), steps);
      && (forall i: nat :: i < |b.log| ==>
            (b.freed[i] == 1 && i !in LiveIds(b)) || (b.freed[i] == 0 && i in LiveIds(b)))
      && (forall i: nat :: i >= |b.log| ==> b.freed[i] == 0 && i !in LiveIds(b))
      && |LiveIds(b)| <= 4
  {
    hide Orderly, Fresh, Answered, Chained, Allowed, Run;
    StartInv(first);
    RunInv(Start(first), steps);
    var b := Run(Start(first), steps);
    forall i: nat ensures i in LiveIds(b) <==> Live(b, i) > 0 { LiveExactly(b, i); }
    FourPlaces(InProducer(b.producer), b.slot, InConsumer(b.consumer), b.latest);
  }

  lemma FourPlaces(p: Option<nat>, q: Option<nat>, r: Option<nat>, s: Option<nat>)
    ensures |Deref(p) + Deref(q) + Deref(r) + Deref(s)| <= 4
  {
    UnionSize(Deref(p), Deref(q));
    UnionSize(Deref(p) + Deref(q), Deref(r));
    UnionSize(Deref(p) + Deref(q) + Deref(r), Deref(s));
  }

  lemma UnionSize(s: set<nat>, t: set<nat>)
    ensures |s + t| <= |s| + |t|
  {
    assert s + t == s + (t - s) && s !! t - s;
  }

  /** Runs are extended one step at a time. */
  lemma {:induction false} Extend(start: Box, steps: seq<Step>, s: Step) returns (more: seq<Step>)
    requires Allowed(start, steps) && Enabled(Run(start, steps), s)
    ensures more == steps + [s] && Allowed(start, more) && Run(start, more) == Do(Run(start, steps), s)
    decreases |steps|
  {
    more := steps + [s];
    if steps != [] {
      var rest := Extend(Do(start, steps[0]), steps[1..], s);
      assert more[1..] == rest;
    }
  }

  /** The controller has taken report 0 and the actor has published report 1 into the slot. */
  lemma TwoAlive(r: Report) returns (steps: seq<Step>)
    ensures Allowed(Start(r), steps)
    ensures Run(Start(r), steps) == Box([r, r], true, false, Some(1), 1, Working, Resting, Some(0), multiset{},
                                        [Answer(Some(0), 0, true)])
  {
    steps := Extend(Start(r), [], Call);
    steps := Extend(Start(r), steps, ReadFlag);
    steps := Extend(Start(r), steps, SwapNull);
    steps := Extend(Start(r), steps, FreeOld);
    steps := Extend(Start(r), steps, Store);
    steps := Extend(Start(r), steps, Construct(r, false));
    steps := Extend(Start(r), steps, Publish);
    steps := Extend(Start(r), steps, DropPrevious);
  }

  /** The bound is reached: the actor builds a report while the controller is between exchange and free. */
  lemma FourAlive(r: Report)
    ensures exists steps :: Allowed(Start(r), steps) && LiveIds(Run(Start(r), steps)) == {0, 1, 2, 3}
  {
    var steps := TwoAlive(r);
    steps := Extend(Start(r), steps, Call);
    steps := Extend(Start(r), steps, ReadFlag);
    steps := Extend(Start(r), steps, SwapNull);
    steps := Extend(Start(r), steps, Construct(r, false));
    steps := Extend(Start(r), steps, Publish);
    steps := Extend(Start(r), steps, DropPrevious);
    steps := Extend(Start(r), steps, Construct(r, false));
  }

  // ---------------------------------------------------------------- what destroying both sides leaves

  /** Once destroy has begun with reporting off, nobody touches the slot any more. */
  lemma {:induction false} SlotStays(b: Box, steps: seq<Step>)
    requires Orderly(b) && b.dying && !b.reporting && Allowed(b, steps)
    requires !b.producer.Holding? && !b.producer.Dropping?
    ensures Run(b, steps).slot == b.slot && !Run(b, steps).reporting && Run(b, steps).log == b.log
    decreases |steps|
  {
    if steps != [] {
      StepOrderly(b, steps[0]);
      SlotStays(Do(b, steps[0]), steps[1..]);
    }
  }

  lemma {:induction false} ReportingStays(b: Box, steps: seq<Step>)
    requires b.dying && Allowed(b, steps)
    ensures Run(b, steps).reporting == b.reporting && Run(b, steps).dying
    decreases |steps|
  {
    if steps != [] { ReportingStays(Do(b, steps[0]), steps[1..]); }
  }

  /**
   From any reachable state in which the controller waits in sphactor_destroy and the actor begins
   its own destroy: when both are done, a report is still allocated if and only if it was in the
   slot and reporting was off.
   */
  lemma {:induction false} DestroyFreesAllButSlot(first: Report, before: seq<Step>, last: Report, after: seq<Step>)
    requires Allowed(Start(first), before)
    requires Enabled(Run(Start(first), before), BeginDestroy(last))
    requires Allowed(Do(Run(Start(first), before), BeginDestroy(last)), after)
    requires Run(Do(Run(Start(first), before), BeginDestroy(last)), after).consumer.Finished?
    ensures var b := Run(Start(first), before);
      var end := Run(Do(b, BeginDestroy(last)), after);
      forall i: nat :: i < |end.log| ==>
        (end.freed[i] == 0 <==> !b.reporting && b.slot == Some(i))
  {
    StartInv(first);
    RunInv(Start(first), before);
    var b := Run(Start(first), before);
    StepInv(b, BeginDestroy(last));
    var begun := Do(b, BeginDestroy(last));
    RunInv(begun, after);
    ReportingStays(begun, after);
    var end := Run(begun, after);
    if !b.reporting { SlotStays(begun, after); }
    forall i: nat | i < |end.log| ensures end.freed[i] == 0 <==> !b.reporting && b.slot == Some(i) {
      assert Live(end, i) + end.freed[i] == 1;
    }
  }

  /** A run that leaks: reporting is switched off and both sides are destroyed. */
  lemma LeaksWhenOff(r: Report)
    ensures exists steps :: Allowed(Start(r), steps)
                            && Run(Start(r), steps).consumer.Finished? && Run(Start(r), steps).freed[0] == 0
  {
    var steps := Extend(Start(r), [], SetReporting(false));
    steps := Extend(Start(r), steps, Join);
    steps := Extend(Start(r), steps, BeginDestroy(r));
    steps := Extend(Start(r), steps, TakeLast);
    steps := Extend(Start(r), steps, FreeLast);
    steps := Extend(Start(r), steps, FreeLatest);
  }

  // ---------------------------------------------------------------- refinement of an atomic register

  /** A register with one writer, one reader, and a switch that the reader looks at first. */
  datatype Register = Register(value: nat, on: bool, last: Option<nat>, reader: Reader)

  datatype Reader = Quiet | Asked | Sampling | Found(v: nat) | Closed

  datatype Label = Silent | Wrote(v: nat) | Switched(on: bool) | Invoked | Returned(result: Option<nat>)

  predicate Next(r: Register, l: Label, s: Register) {
    match l
    case Silent =>
      || s == r
      || (r.reader.Asked? && r.on && s == r.(reader := Sampling))
      || (r.reader.Sampling? && s == r.(reader := Found(r.value)))
      || (r.reader.Quiet? && s == r.(reader := Closed))
    case Wrote(v) => s == r.(value := v)
    case Switched(on) => s == r.(on := on)
    case Invoked => r.reader.Quiet? && s == r.(reader := Asked)
    case Returned(x) =>
      && s == r.(reader := Quiet, last := x)
      && ((r.reader.Asked? && !r.on && x == r.last) || (r.reader.Found? && x == Some(r.reader.v)))
  }

  ghost predicate Behaves(r: Register, labels: seq<Label>, s: Register)
    decreases |labels|
  {
    if labels == [] then r == s
    else exists m :: Next(r, labels[0], m) && Behaves(m, labels[1..], s)
  }

  function Abs(b: Box): Register {
    Register(b.newest, b.reporting, Before(b.answers, |b.answers|),
             match b.consumer
             case Resting => Quiet
             case Called => Asked
             case FlagOn => Sampling
             case Swapped(_, seen) => Found(seen)
             case Storing(_, seen) => Found(seen)
             case Joining => Closed
             case Finished => Closed)
  }

  /** What an onlooker sees of a step; a return shows the result the code actually returned. */
  function Shown(b: Box, s: Step): Label
    requires Enabled(b, s)
  {
    match s
    case Publish => Wrote(b.producer.made)
    case SetReporting(on) => Switched(on)
    case Call => Invoked
    case ReadFlag => if b.reporting then Silent else Returned(b.latest)
    case FreeOld => if b.consumer.got.None? then Returned(b.latest) else Silent
    case Store => Returned(Some(b.consumer.report))
    case _ => Silent
  }

  function ShownAll(b: Box, steps: seq<Step>): seq<Label>
    requires Allowed(b, steps)
    decreases |steps|
  {
    if steps == [] then [] else [Shown(b, steps[0])] + ShownAll(Do(b, steps[0]), steps[1..])
  }

  lemma StepRefines(b: Box, s: Step)
    requires Inv(b) && Enabled(b, s)
    ensures Next(Abs(b), Shown(b, s), Abs(Do(b, s)))
  {
    hide Conserved, Orderly, Answered;
  }

  lemma {:induction false} Refines(b: Box, steps: seq<Step>)
    requires Inv(b) && Allowed(b, steps)
    ensures Behaves(Abs(b), ShownAll(b, steps), Abs(Run(b, steps)))
    decreases |steps|
  {
    if steps != [] {
      StepRefines(b, steps[0]);
      StepInv(b, steps[0]);
      var rest := ShownAll(Do(b, steps[0]), steps[1..]);
      Refines(Do(b, steps[0]), steps[1..]);
      assert ([Shown(b, steps[0])] + rest)[1..] == rest;
    }
  }

  /** Slot and latest_report together behave as one atomic register, under every interleaving. */
  lemma {:induction false} MailboxRefinesRegister(first: Report, steps: seq<Step>)
    requires Allowed(Start(first), steps)
    ensures Behaves(Register(0, true, None, Quiet), ShownAll(Start(first), steps), Abs(Run(Start(first), steps)))
  {
    StartInv(first);
    Refines(Start(first), steps);
  }

  // ---------------------------------------------------------------- what sphactor_report returns

  predicate NeverSwitchedOff(steps: seq<Step>) {
    forall s :: s in steps && s.SetReporting? ==> s.on
  }

  lemma {:induction false} StaysOn(b: Box, steps: seq<Step>)
    requires b.reporting && Allowed(b, steps) && NeverSwitchedOff(steps)
    requires forall a :: a in b.answers ==> a.flag
    ensures forall a :: a in Run(b, steps).answers ==> a.flag
    decreases |steps|
  {
    if steps != [] {
      assert steps[0] in steps;
      StaysOn(Do(b, steps[0]), steps[1..]);
    }
  }

  /**
   However reporting is switched: a call that found it on returns the report published most recently at its
   exchange, and once a call has returned a report every later one does, never an older one, provided the
   actor builds its reports in order (ReportOrder.ReportsSorted).
   */
  lemma {:induction false} ResultsNeverGoBack(first: Report, steps: seq<Step>)
    requires Allowed(Start(first), steps)
    requires Sorted(Run(Start(first), steps).log)
    ensures var b := Run(Start(first), steps);
      && (forall j :: 0 <= j < |b.answers| && b.answers[j].flag ==> b.answers[j].result == Some(b.answers[j].newest))
      && (forall j :: 0 <= j < |b.answers| && b.answers[j].result.Some? ==> b.answers[j].result.value < |b.log|)
      && (forall i, j :: 0 <= i < j < |b.answers| && b.answers[i].result.Some? ==>
            && b.answers[j].result.Some? && b.answers[i].result.value <= b.answers[j].result.value
            && NotOlder(b.log[b.answers[i].result.value], b.log[b.answers[j].result.value]))
  {
    hide Conserved, Orderly, Fresh, Chained, Run, Allowed, NotOlder;
    StartInv(first);
    RunInv(Start(first), steps);
    AnswersBuilt(Start(first), steps);
    var b := Run(Start(first), steps);
    forall j | 0 <= j < |b.answers|
      ensures b.answers[j].flag ==> b.answers[j].result == Some(b.answers[j].newest)
      ensures b.answers[j].result.Some? ==> b.answers[j].result.value <= b.answers[j].newest < |b.log|
    {
      assert b.answers[j] in b.answers;
    }
    forall i, j | 0 <= i < j < |b.answers| && b.answers[i].result.Some?
      ensures b.answers[j].result.Some? && b.answers[i].result.value <= b.answers[j].result.value
      ensures NotOlder(b.log[b.answers[i].result.value], b.log[b.answers[j].result.value])
    {
      SortedAt(b.log, b.answers[i].result.value, b.answers[j].result.value);
    }
  }

  lemma SortedAt(log: seq<Report>, i: nat, j: nat)
    requires Sorted(log) && i <= j < |log|
    ensures NotOlder(log[i], log[j])
  {
  }

  /** With reporting on, every call returns the report published most recently at its exchange, so never NULL. */
  lemma {:induction false} ReportNeverGoesBack(first: Report, steps: seq<Step>)
    requires Allowed(Start(first), steps) && NeverSwitchedOff(steps)
    requires Sorted(Run(Start(first), steps).log)
    ensures var b := Run(Start(first), steps);
      && (forall j :: 0 <= j < |b.answers| ==>
            b.answers[j].result == Some(b.answers[j].newest) && b.answers[j].newest < |b.log|)
      && (forall i, j :: 0 <= i < j < |b.answers| ==>
            && b.answers[i].newest <= b.answers[j].newest
            && NotOlder(b.log[b.answers[i].newest], b.log[b.answers[j].newest]))
  {
    hide Run, Allowed, Sorted, NotOlder, NeverSwitchedOff;
    StaysOn(Start(first), steps);
    ResultsNeverGoBack(first, steps);
    var b := Run(Start(first), steps);
    forall j | 0 <= j < |b.answers| ensures b.answers[j].flag {
      assert b.answers[j] in b.answers;
    }
  }

  lemma {:induction false} AnswersBuilt(b: Box, steps: seq<Step>)
    requires Inv(b) && Allowed(b, steps)
    requires forall a :: a in b.answers ==> a.newest < |b.log|
    ensures forall a :: a in Run(b, steps).answers ==> a.newest < |Run(b, steps).log|
    decreases |steps|
  {
    if steps != [] {
      StepInv(b, steps[0]);
      AnswersBuilt(Do(b, steps[0]), steps[1..]);
    }
  }

  /**
   sphactor.h promises NULL while reporting is off. A call that finds it off returns NULL if and only
   if no call before it returned a report; otherwise it repeats the last report.
   */
  lemma {:induction false} NullWhenOffExactly(first: Report, steps: seq<Step>, j: nat)
    requires Allowed(Start(first), steps)
    requires j < |Run(Start(first), steps).answers| && !Run(Start(first), steps).answers[j].flag
    ensures var answers := Run(Start(first), steps).answers;
      && answers[j].result == Before(answers, j)
      && (answers[j].result.None? <==> forall i :: 0 <= i < j ==> answers[i].result.None?)
  {
    StartInv(first);
    RunInv(Start(first), steps);
  }

  /** A run in which the promise fails: report, switch reporting off, report again. */
  lemma StaleWhenOff(r: Report)
    ensures exists steps ::
      && Allowed(Start(r), steps)
      && !Run(Start(r), steps).reporting
      && Run(Start(r), steps).answers == [Answer(Some(0), 0, true), Answer(Some(0), 0, false)]
  {
    var steps := Extend(Start(r), [], Call);
    steps := Extend(Start(r), steps, ReadFlag);
    steps := Extend(Start(r), steps, SwapNull);
    steps := Extend(Start(r), steps, FreeOld);
    steps := Extend(Start(r), steps, Store);
    steps := Extend(Start(r), steps, SetReporting(false));
    steps := Extend(Start(r), steps, Call);
    steps := Extend(Start(r), steps, ReadFlag);
  }

  // ---------------------------------------------------------------- the calls, run without interruption

  /** The steps of one whole call of sphactor_report. */
  function ReportSteps(b: Box): seq<Step> {
    if !b.reporting then [Call, ReadFlag]
    else if b.slot.None? then [Call, ReadFlag, SwapNull, FreeOld]
    else [Call, ReadFlag, SwapNull, FreeOld, Store]
  }

  lemma {:induction false} ReportRun(b: Box)
    requires b.consumer.Resting?
    ensures Allowed(b, ReportSteps(b))
    ensures var got := if b.reporting then b.slot else None;
      var latest := if got.Some? then got else b.latest;
      Run(b, ReportSteps(b)) == b.(
        slot := if b.reporting then None else b.slot,
        latest := latest,
        freed := if got.Some? then Destroy(b.freed, b.latest) else b.freed,
        answers := b.answers + [Answer(latest, b.newest, b.reporting)])
  {
    hide Destroy;
    var steps := Extend(b, [], Call);
    steps := Extend(b, steps, ReadFlag);
    if b.reporting {
      steps := Extend(b, steps, SwapNull);
      steps := Extend(b, steps, FreeOld);
      if b.slot.Some? { steps := Extend(b, steps, Store); }
    }
    assert steps == ReportSteps(b);
  }

  /**
   The fields behind the mailbox. Each method is one call of the program made while the other thread
   is quiet; the interleaved executions are the runs of Do above.
   */
  class ReportSlot {
    var log: seq<Report>
    var reporting: bool
    var atomicReport: Option<nat>
    var newest: nat
    var latestReport: Option<nat>
    var freed: multiset<nat>
    var answers: seq<Answer>

    ghost function State(): Box
      reads this
    {
      Box(log, reporting, false, atomicReport, newest, Working, Resting, latestReport, freed, answers)
    }

    constructor (first: Report)
      ensures State() == Start(first)
    {
      log, reporting, atomicReport, newest := [first], true, Some(0), 0;
      latestReport, freed, answers := None, multiset{}, [];
    }

    /** sphactor_report_construct followed by sphactor_actor_atomic_set_report. */
    method SetReport(report: Report, sock: bool)
      requires reporting || sock
      modifies this
      ensures Allowed(old(State()), [Construct(report, sock), Publish, DropPrevious])
      ensures State() == Run(old(State()), [Construct(report, sock), Publish, DropPrevious])
    {
      ghost var steps := Extend(State(), [], Construct(report, sock));
      steps := Extend(State(), steps, Publish);
      steps := Extend(State(), steps, DropPrevious);
      var made := |log|;
      log := log + [report];
      var prev := atomicReport;
      atomicReport, newest := Some(made), made;
      if prev.Some? { freed := freed[prev.value := freed[prev.value] + 1]; }
    }

    /** sphactor_actor_atomic_report: the caller owns what it gets. */
    method AtomicReport() returns (report: Option<nat>)
      modifies this`atomicReport
      ensures report == (if reporting then old(atomicReport) else None)
      ensures atomicReport == (if reporting then None else old(atomicReport))
    {
      if !reporting { return None; }
      report := atomicReport;
      atomicReport := None;
    }

    /** sphactor_report. */
    method GetReport() returns (result: Option<nat>)
      modifies this
      ensures Allowed(old(State()), ReportSteps(old(State())))
      ensures State() == Run(old(State()), ReportSteps(old(State())))
      ensures |answers| == |old(answers)| + 1 && result == answers[|answers| - 1].result
    {
      ReportRun(State());
      var flag, seen := reporting, newest;
      var report := AtomicReport();
      if report.Some? {
        if latestReport.Some? { freed := freed[latestReport.value := freed[latestReport.value] + 1]; }
        latestReport := report;
      }
      result := latestReport;
      answers := answers + [Answer(result, seen, flag)];
    }
  }
}
