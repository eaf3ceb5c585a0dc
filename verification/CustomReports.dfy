/**
 The OSC message a report may carry (sphactor_report.c): the actor keeps one as reportMsg, each report gets
 a duplicate, and a report takes its duplicate with it when it is destroyed. Messages, like reports, are
 named by the order in which they were built.
 */
module CustomReports {
  import opened Options
  import opened Reports
  import Mailbox

  datatype Osc = Osc(
    built: nat,
    freed: multiset<nat>,
    reportMsg: Option<nat>,
    customs: seq<Option<nat>>     // the custom field of each report, by the report's id
  )

  /** sphactor_report_construct with zosc_dup (self->reportMsg). */
  function Attach(o: Osc): Osc {
    if o.reportMsg.None? then o.(customs := o.customs + [None])
    else o.(built := o.built + 1, customs := o.customs + [Some(o.built)])
  }

  /** sphactor_report_set_custom, with a new message or NULL. */
  function Replace(o: Osc, r: nat, given: bool): Osc
    requires r < |o.customs|
  {
    o.(freed := Mailbox.Destroy(o.freed, o.customs[r]),
       built := if given then o.built + 1 else o.built,
       customs := o.customs[r := if given then Some(o.built) else None])
  }

  /** sphactor_report_destroy through a pointer that may be NULL. */
  function Detach(o: Osc, r: Option<nat>): Osc {
    if r.Some? && r.value < |o.customs| then Replace(o, r.value, false) else o
  }

  /** sphactor_actor_set_custom_report_data, with a new message or NULL. */
  function SetData(o: Osc, given: bool): Osc {
    o.(freed := Mailbox.Destroy(o.freed, o.reportMsg),
       built := if given then o.built + 1 else o.built,
       reportMsg := if given then Some(o.built) else None)
  }

  /** What a step of the mailbox does to the messages; sphactor_actor_destroy ends by destroying reportMsg. */
  function Follow(b: Mailbox.Box, s: Mailbox.Step, o: Osc): Osc
    requires Mailbox.Enabled(b, s)
  {
    match s
    case Construct(_, _) => Attach(o)
    case BeginDestroy(_) => if b.reporting then Attach(o) else o
    case DropPrevious => Detach(o, b.producer.prev)
    case FreeLast => SetData(Detach(o, b.producer.rest), false)
    case FreeOld => if b.consumer.got.None? then o else Detach(o, b.latest)
    case FreeLatest => Detach(o, b.latest)
    case _ => o
  }

  /** A step of the mailbox; the actor's handler sets its data; the controller sets that of its latest report. */
  datatype Step = Mail(mail: Mailbox.Step) | Data(given: bool) | Custom(given: bool)

  datatype State = State(box: Mailbox.Box, osc: Osc)

  function Start(first: Report): State {
    State(Mailbox.Start(first), Osc(0, multiset{}, None, [None]))
  }

  predicate Enabled(s: State, step: Step) {
    match step
    case Mail(m) => Mailbox.Enabled(s.box, m)
    case Data(_) => s.box.producer.Working?
    case Custom(_) => s.box.consumer.Resting? && s.box.latest.Some? && s.box.latest.value < |s.osc.customs|
  }

  function Do(s: State, step: Step): State
    requires Enabled(s, step)
  {
    match step
    case Mail(m) => State(Mailbox.Do(s.box, m), Follow(s.box, m, s.osc))
    case Data(given) => s.(osc := SetData(s.osc, given))
    case Custom(given) => s.(osc := Replace(s.osc, s.box.latest.value, given))
  }

  predicate Allowed(s: State, steps: seq<Step>)
    decreases |steps|
  {
    steps == [] || (Enabled(s, steps[0]) && Allowed(Do(s, steps[0]), steps[1..]))
  }

  function Run(s: State, steps: seq<Step>): State
    requires Allowed(s, steps)
    decreases |steps|
  {
    if steps == [] then s else Run(Do(s, steps[0]), steps[1..])
  }

  /** A step that builds a report. */
  predicate Builds(b: Mailbox.Box, m: Mailbox.Step) {
    m.Construct? || (m.BeginDestroy? && b.reporting)
  }

  /**
   A report built while the actor has data carries a message of its own, made for it; without data it carries
   none. No other step gives a report a message, or changes what the actor's data is until the actor ends.
   */
  lemma ReportCarriesExactly(s: State, m: Mailbox.Step)
    requires Enabled(s, Mail(m)) && |s.osc.customs| == |s.box.log|
    ensures var v := Do(s, Mail(m));
      && |v.osc.customs| == |v.box.log| == |s.box.log| + (if Builds(s.box, m) then 1 else 0)
      && (Builds(s.box, m) ==>
            && v.osc.customs == s.osc.customs + [if s.osc.reportMsg.Some? then Some(s.osc.built) else None]
            && v.osc.built == (if s.osc.reportMsg.Some? then s.osc.built + 1 else s.osc.built))
      && (!Builds(s.box, m) ==> v.osc.built == s.osc.built)
      && (forall r: nat :: r < |s.box.log| ==> v.osc.customs[r] in {None, s.osc.customs[r]})
      && (v.osc.reportMsg == (if m.FreeLast? then None else s.osc.reportMsg))
  {
  }

  /** Setting the data replaces the old message by a new one, or by none. */
  lemma DataExactly(s: State, given: bool)
    requires Enabled(s, Data(given))
    ensures var v := Do(s, Data(given)).osc;
      && v.reportMsg == (if given then Some(s.osc.built) else None)
      && v.built == (if given then s.osc.built + 1 else s.osc.built) && v.customs == s.osc.customs
      && forall i: nat :: v.freed[i] == s.osc.freed[i] + (if s.osc.reportMsg == Some(i) then 1 else 0)
  {
  }

  // ---------------------------------------------------------------- every message has one owner

  /** Each message built so far is reportMsg, or the custom field of one report, or was destroyed once. */
  ghost predicate Owned(o: Osc) {
    forall i: nat ::
      Mailbox.Occurs(o.reportMsg, i) + multiset(o.customs)[Some(i)] + o.freed[i] == (if i < o.built then 1 else 0)
  }

  /** A report that was destroyed holds no message, nor does an actor that has ended. */
  ghost predicate Tied(s: State) {
    && |s.osc.customs| == |s.box.log|
    && (forall r: nat :: r < |s.osc.customs| && s.box.freed[r] > 0 ==> s.osc.customs[r].None?)
    && (s.box.producer.Ended? ==> s.osc.reportMsg.None?)
  }

  ghost predicate Inv(s: State) {
    Mailbox.Inv(s.box) && Owned(s.osc) && Tied(s)
  }

  lemma AttachOwned(o: Osc)
    requires Owned(o)
    ensures Owned(Attach(o))
  {
  }

  lemma ReplaceOwned(o: Osc, r: nat, given: bool)
    requires Owned(o) && r < |o.customs|
    ensures Owned(Replace(o, r, given))
  {
    var v, c := Replace(o, r, given), if given then Some(o.built) else None;
    assert multiset(v.customs) == multiset(o.customs) - multiset{o.customs[r]} + multiset{c};
    assert o.customs[r] in multiset(o.customs);
    forall i: nat
      ensures Mailbox.Occurs(v.reportMsg, i) + multiset(v.customs)[Some(i)] + v.freed[i]
           == (if i < v.built then 1 else 0)
    {
      assert Mailbox.Occurs(o.reportMsg, i) + multiset(o.customs)[Some(i)] + o.freed[i]
          == (if i < o.built then 1 else 0);
    }
  }

  lemma SetDataOwned(o: Osc, given: bool)
    requires Owned(o)
    ensures Owned(SetData(o, given))
  {
  }

  lemma FollowOwned(b: Mailbox.Box, m: Mailbox.Step, o: Osc)
    requires Owned(o) && Mailbox.Enabled(b, m)
    ensures Owned(Follow(b, m, o))
  {
    hide Owned, Attach, Replace, SetData;
    AttachOwned(o);
    DetachOwned(o, b.latest);
    match m {
      case DropPrevious => DetachOwned(o, b.producer.prev);
      case FreeLast =>
        DetachOwned(o, b.producer.rest);
        SetDataOwned(Detach(o, b.producer.rest), false);
      case _ =>
    }
  }

  lemma DetachOwned(o: Osc, r: Option<nat>)
    requires Owned(o)
    ensures Owned(Detach(o, r))
  {
    if r.Some? && r.value < |o.customs| { ReplaceOwned(o, r.value, false); }
  }

  /** No report is destroyed without its message, and a report that is alive keeps its own. */
  lemma MailTied(s: State, m: Mailbox.Step)
    requires Mailbox.Conserved(s.box) && Tied(s) && Mailbox.Enabled(s.box, m)
    ensures Tied(Do(s, Mail(m)))
  {
    hide Mailbox.Conserved;
    LiveInLog(s.box);
    FreshNotFreed(s.box);
  }

  /** Reports within reach have been built. */
  lemma LiveInLog(b: Mailbox.Box)
    requires Mailbox.Conserved(b)
    ensures Built(b, Mailbox.InProducer(b.producer)) && Built(b, b.latest)
  {
    var p := Mailbox.InProducer(b.producer);
    if p.Some? { assert Mailbox.Live(b, p.value) > 0; }
    if b.latest.Some? { assert Mailbox.Live(b, b.latest.value) > 0; }
  }

  predicate Built(b: Mailbox.Box, r: Option<nat>) {
    r.Some? ==> r.value < |b.log|
  }

  lemma FreshNotFreed(b: Mailbox.Box)
    requires Mailbox.Conserved(b)
    ensures b.freed[|b.log|] == 0
  {
    assert Mailbox.Live(b, |b.log|) + b.freed[|b.log|] == 0;
  }

  lemma LatestNotFreed(b: Mailbox.Box)
    requires Mailbox.Conserved(b)
    ensures b.latest.Some? ==> b.freed[b.latest.value] == 0
  {
    if b.latest.Some? { assert Mailbox.Live(b, b.latest.value) + b.freed[b.latest.value] <= 1; }
  }

  lemma StepInv(s: State, step: Step)
    requires Inv(s) && Enabled(s, step)
    ensures Inv(Do(s, step))
  {
    hide Mailbox.Enabled, Mailbox.Do, Mailbox.Conserved, Mailbox.Orderly, Mailbox.Fresh, Mailbox.Answered;
    hide Mailbox.Chained;
    hide Follow, Owned;
    match step {
      case Mail(m) =>
        Mailbox.StepInv(s.box, m);
        FollowOwned(s.box, m, s.osc);
        MailTied(s, m);
      case Data(given) =>
        SetDataOwned(s.osc, given);
      case Custom(given) =>
        ReplaceOwned(s.osc, s.box.latest.value, given);
        LatestNotFreed(s.box);
    }
  }

  lemma {:induction false} RunInv(s: State, steps: seq<Step>)
    requires Inv(s) && Allowed(s, steps)
    ensures Inv(Run(s, steps))
    decreases |steps|
  {
    hide Do, Enabled, Inv;
    if steps != [] {
      StepInv(s, steps[0]);
      RunInv(Do(s, steps[0]), steps[1..]);
    }
  }

  lemma StartInv(first: Report)
    ensures Inv(Start(first))
  {
    Mailbox.StartInv(first);
    assert Start(first).osc.customs == [None];
  }

  /**
   Under every interleaving, messages being set at any time: no OSC message is destroyed twice or while its
   report is alive, and one that was not destroyed is the actor's own or that of a report that is alive.
   */
  lemma {:induction false} CustomFollowsReport(first: Report, steps: seq<Step>)
    requires Allowed(Start(first), steps)
    ensures var s := Run(Start(first), steps);
      && |s.osc.customs| == |s.box.log|
      && (forall i: nat :: i < s.osc.built ==> s.osc.freed[i] <= 1)
      && (forall r: nat, i: nat :: r < |s.osc.customs| && s.osc.customs[r] == Some(i) ==>
            i < s.osc.built && s.osc.freed[i] == 0 && s.box.freed[r] == 0)
      && (forall i: nat :: i < s.osc.built && s.osc.freed[i] == 0 ==> Held(s, i))
  {
    hide Mailbox.Inv, Owned, Run, Allowed;
    StartInv(first);
    RunInv(Start(first), steps);
    var s := Run(Start(first), steps);
    forall i: nat | i < s.osc.built ensures s.osc.freed[i] <= 1 { AtMostOnce(s.osc, i); }
    forall r: nat, i: nat | r < |s.osc.customs| && s.osc.customs[r] == Some(i)
      ensures i < s.osc.built && s.osc.freed[i] == 0
    {
      CustomKept(s.osc, r, i);
    }
    forall i: nat | i < s.osc.built && s.osc.freed[i] == 0 ensures Held(s, i) { StillHeld(s, i); }
  }

  lemma AtMostOnce(o: Osc, i: nat)
    requires Owned(o)
    ensures o.freed[i] <= 1
  {
  }

  lemma CustomKept(o: Osc, r: nat, i: nat)
    requires Owned(o) && r < |o.customs| && o.customs[r] == Some(i)
    ensures i < o.built && o.freed[i] == 0
  {
    assert multiset(o.customs)[Some(i)] > 0;
  }

  /** Message i is reportMsg or the custom field of a report that was not destroyed. */
  predicate Held(s: State, i: nat) {
    s.osc.reportMsg == Some(i)
    || exists r: nat :: r < |s.osc.customs| && s.osc.customs[r] == Some(i) && s.box.freed[r] == 0
  }

  lemma StillHeld(s: State, i: nat)
    requires Owned(s.osc) && Tied(s) && i < s.osc.built && s.osc.freed[i] == 0
    ensures Held(s, i)
  {
    if s.osc.reportMsg != Some(i) {
      assert Some(i) in multiset(s.osc.customs);
      var r :| 0 <= r < |s.osc.customs| && s.osc.customs[r] == Some(i);
    }
  }

  /**
   When both sides have been destroyed, every OSC message has been destroyed once, except the one of the
   report that stays behind in the slot; there is such a report only if reporting was off.
   */
  lemma {:induction false} OnlySlotLeaks(first: Report, steps: seq<Step>)
    requires Allowed(Start(first), steps) && Run(Start(first), steps).box.consumer.Finished?
    ensures var s := Run(Start(first), steps);
      && (s.box.slot.Some? ==> !s.box.reporting && s.box.slot.value < |s.osc.customs|)
      && forall i: nat :: i < s.osc.built ==>
           (s.osc.freed[i] == 0 <==> s.box.slot.Some? && s.osc.customs[s.box.slot.value] == Some(i))
  {
    hide Mailbox.Fresh, Mailbox.Answered, Mailbox.Chained, Run, Allowed;
    StartInv(first);
    RunInv(Start(first), steps);
    var s := Run(Start(first), steps);
    SlotInLog(s.box);
    forall i: nat | i < s.osc.built
      ensures s.osc.freed[i] == 0 <==> s.box.slot.Some? && s.osc.customs[s.box.slot.value] == Some(i)
    {
      if s.osc.freed[i] == 0 { LastHolder(s, i); }
      if s.box.slot.Some? && s.osc.customs[s.box.slot.value] == Some(i) {
        assert multiset(s.osc.customs)[Some(i)] > 0;
      }
    }
  }

  lemma SlotInLog(b: Mailbox.Box)
    requires Mailbox.Conserved(b)
    ensures Built(b, b.slot)
  {
    if b.slot.Some? { assert Mailbox.Live(b, b.slot.value) > 0; }
  }

  lemma LastHolder(s: State, i: nat)
    requires Mailbox.Conserved(s.box) && Mailbox.Orderly(s.box) && Owned(s.osc) && Tied(s) && s.box.consumer.Finished?
    requires i < s.osc.built && s.osc.freed[i] == 0
    ensures s.box.slot.Some? && s.box.slot.value < |s.osc.customs| && s.osc.customs[s.box.slot.value] == Some(i)
  {
    assert Some(i) in multiset(s.osc.customs);
    var r :| 0 <= r < |s.osc.customs| && s.osc.customs[r] == Some(i);
    assert Mailbox.Live(s.box, r) + s.box.freed[r] == 1;
  }

  // ---------------------------------------------------------------- the code

  /** The OSC messages destroyed so far. */
  class Messages {
    var freed: multiset<nat>

    method Destroy(id: nat)
      modifies this
      ensures freed == Mailbox.Destroy(old(freed), Some(id))
    {
      freed := freed[id := freed[id] + 1];
    }
  }

  class StatusReport {
    var status: Status
    var iterations: nat
    var recvTime: int
    var sendTime: int
    var custom: Option<nat>

    ghost function Value(): Report
      reads this
    {
      Report(status, iterations, recvTime, sendTime)
    }

    constructor Construct(status: Status, iterations: nat, recvTime: int, sendTime: int, custom: Option<nat>)
      ensures Value() == Report(status, iterations, recvTime, sendTime) && this.custom == custom
    {
      this.status, this.iterations, this.recvTime, this.sendTime := status, iterations, recvTime, sendTime;
      this.custom := custom;
    }

    /** The message given is still whole afterwards exactly when it is not the one the report held already. */
    method SetCustom(message: Option<nat>, osc: Messages)
      modifies this`custom, osc
      ensures custom == message && osc.freed == Mailbox.Destroy(old(osc.freed), old(custom))
      ensures message.Some? && old(osc.freed)[message.value] == 0 ==>
                (osc.freed[message.value] == 0 <==> old(custom) != message)
    {
      if custom.Some? { osc.Destroy(custom.value); }
      custom := message;
    }

    method Destroy(osc: Messages)
      modifies this`status, this`custom, osc
      ensures status == DESTROY && custom == None
      ensures osc.freed == Mailbox.Destroy(old(osc.freed), old(custom))
    {
      status := DESTROY;
      if custom.Some? {
        osc.Destroy(custom.value);
        custom := None;
      }
    }
  }
}
