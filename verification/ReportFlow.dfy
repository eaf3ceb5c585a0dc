/**
 The event loop and the mailbox together: the calls of an actor's life are acts of the mailbox's producer, so
 what sphactor_report returns is about the reports of that life.
 */
module ReportFlow {
  import opened Options
  import opened Reports
  import opened Sequences
  import opened PollTimer
  import opened ActorModel
  import ActorRuns
  import Mailbox
  import ReportOrder
  import TurnOutputs

  type Act = Mailbox.Step

  const FIRST: Report := Report(INIT, 0, 0, 0)

  /** The steps by which the actor builds a report or changes what the mailbox does. */
  predicate IsAct(s: Act) {
    s.Construct? || s.SetReporting? || s.BeginDestroy?
  }

  /** The acts in a run of both threads, in order. */
  function Acts(steps: seq<Mailbox.Step>): seq<Act> {
    if steps == [] then []
    else if IsAct(steps[0]) then [steps[0]] + Acts(steps[1..])
    else Acts(steps[1..])
  }

  lemma {:induction false} ActsAppend(steps: seq<Mailbox.Step>, s: Mailbox.Step)
    ensures Acts(steps + [s]) == Acts(steps) + (if IsAct(s) then [s] else [])
  {
    hide IsAct;
    if steps == [] {
      assert (steps + [s])[1..] == [];
    } else {
      assert (steps + [s])[1..] == steps[1..] + [s];
      ActsAppend(steps[1..], s);
      Associates([steps[0]], Acts(steps[1..]), if IsAct(s) then [s] else []);
    }
  }

  function Switched(on: bool, act: Act): bool {
    if act.SetReporting? then act.on else on
  }

  /** Whether reporting is on after these acts. */
  function OnAfter(on: bool, acts: seq<Act>): bool
    decreases |acts|
  {
    if acts == [] then on else OnAfter(Switched(on, acts[0]), acts[1..])
  }

  /** The reports that one act builds. */
  function BuiltBy(on: bool, act: Act): seq<Report> {
    match act
    case Construct(report, _) => [report]
    case BeginDestroy(last) => if on then [last] else []
    case _ => []
  }

  function Built(on: bool, acts: seq<Act>): seq<Report>
    decreases |acts|
  {
    if acts == [] then []
    else BuiltBy(on, acts[0]) + Built(Switched(on, acts[0]), acts[1..])
  }

  lemma {:induction false} BuiltBoth(on: bool, a: seq<Act>, b: seq<Act>)
    ensures Built(on, a + b) == Built(on, a) + Built(OnAfter(on, a), b)
    ensures OnAfter(on, a + b) == OnAfter(OnAfter(on, a), b)
    decreases |a|
  {
    hide BuiltBy, Switched;
    if a == [] {
      assert a + b == b;
    } else {
      var now := Switched(on, a[0]);
      assert (a + b)[1..] == a[1..] + b;
      BuiltBoth(now, a[1..], b);
      Associates(BuiltBy(on, a[0]), Built(now, a[1..]), Built(OnAfter(on, a), b));
    }
  }

  /** Only the acts decide which reports a run of the mailbox builds, whatever the controller does in between. */
  lemma {:induction false} LogIsBuilt(b: Mailbox.Box, steps: seq<Mailbox.Step>)
    requires Mailbox.Allowed(b, steps)
    ensures Mailbox.Run(b, steps).log == b.log + Built(b.reporting, Acts(steps))
    decreases |steps|
  {
    hide Mailbox.Do, Mailbox.Enabled, IsAct, BuiltBy;
    if steps != [] {
      var s, v := steps[0], Mailbox.Do(b, steps[0]);
      StepLog(b, s);
      LogIsBuilt(v, steps[1..]);
      var rest := Built(v.reporting, Acts(steps[1..]));
      if IsAct(s) {
        assert Acts(steps)[1..] == Acts(steps[1..]);
        Associates(b.log, BuiltBy(b.reporting, s), rest);
        assert Built(b.reporting, Acts(steps)) == BuiltBy(b.reporting, s) + rest;
      } else {
        KeepsSwitch(b.reporting, s);
      }
    }
  }

  lemma KeepsSwitch(on: bool, s: Act)
    requires !IsAct(s)
    ensures Switched(on, s) == on
  {
  }

  lemma StepLog(b: Mailbox.Box, s: Mailbox.Step)
    requires Mailbox.Enabled(b, s)
    ensures Mailbox.Do(b, s).log == (if IsAct(s) then b.log + BuiltBy(b.reporting, s) else b.log)
    ensures Mailbox.Do(b, s).reporting == Switched(b.reporting, s)
  {
    assert b.log + [] == b.log;
  }

  // ---------------------------------------------------------------- the acts of an actor's life

  function Constructs(reports: seq<Report>, sock: bool): seq<Act> {
    if reports == [] then [] else [Mailbox.Construct(reports[0], sock)] + Constructs(reports[1..], sock)
  }

  lemma {:induction false} ConstructsBuild(on: bool, reports: seq<Report>, sock: bool)
    ensures Built(on, Constructs(reports, sock)) == reports && OnAfter(on, Constructs(reports, sock)) == on
  {
    if reports != [] {
      hide Built, OnAfter;
      var act, rest := Mailbox.Construct(reports[0], sock), Constructs(reports[1..], sock);
      ConstructsBuild(on, reports[1..], sock);
      BuiltFirst(on, act, rest);
    } else {
      NothingBuilt(on);
    }
  }

  lemma {:induction false} NothingBuilt(on: bool)
    ensures Built(on, []) == [] && OnAfter(on, []) == on
  {
  }

  lemma {:induction false} BuiltFirst(on: bool, act: Act, rest: seq<Act>)
    ensures Built(on, [act] + rest) == BuiltBy(on, act) + Built(Switched(on, act), rest)
    ensures OnAfter(on, [act] + rest) == OnAfter(Switched(on, act), rest)
  {
    assert ([act] + rest)[1..] == rest;
  }

  /** From w to v: the reports published, then the switch if it was moved. */
  function ActsFrom(w: World, v: World, sock: bool): seq<Act>
    requires w.reports <= v.reports
  {
    Constructs(v.reports[|w.reports|..], sock)
    + SwitchActs(w.settings.reporting, v.settings.reporting)
  }

  function SwitchActs(was: bool, on: bool): seq<Act> {
    if on == was then [] else [Mailbox.SetReporting(on)]
  }

  lemma {:induction false} SwitchBuilds(was: bool, on: bool)
    ensures Built(was, SwitchActs(was, on)) == [] && OnAfter(was, SwitchActs(was, on)) == on
    ensures Fit(was, SwitchActs(was, on))
  {
  }

  lemma ActsFromBuild(w: World, v: World, sock: bool)
    requires w.reports <= v.reports
    ensures w.reports + Built(w.settings.reporting, ActsFrom(w, v, sock)) == v.reports
    ensures OnAfter(w.settings.reporting, ActsFrom(w, v, sock)) == v.settings.reporting
  {
    hide Constructs, SwitchActs;
    var on, reports := w.settings.reporting, v.reports[|w.reports|..];
    ConstructsBuild(on, reports, sock);
    SwitchBuilds(on, v.settings.reporting);
    BuiltBoth(on, Constructs(reports, sock), SwitchActs(on, v.settings.reporting));
    assert reports + [] == reports;
  }

  lemma ReportsGrow(w: World, t: Turn)
    requires TurnOk(w, t)
    ensures w.reports <= Once(w, t).reports
  {
    hide Once, FiresIn, Possible, TurnOutputs.AfterPollReports;
    TurnOutputs.OutputsOfTurn(w, t);
  }

  /** The turn serves a data message. */
  predicate ServesData(w: World, t: Turn)
    requires TurnOk(w, t)
  {
    !FiresIn(w, t) && TurnOutputs.IsData(Arrive(w, t), t)
  }

  function TurnActs(w: World, t: Turn): seq<Act>
    requires TurnOk(w, t)
  {
    ReportsGrow(w, t);
    ActsFrom(w, Once(w, t), ServesData(w, t))
  }

  function RunActs(w: World, ts: seq<Turn>): seq<Act>
    requires CanRun(w, ts)
    decreases |ts|
  {
    if ts == [] then [] else TurnActs(w, ts[0]) + RunActs(Once(w, ts[0]), ts[1..])
  }

  lemma {:induction false} RunActsBuild(w: World, ts: seq<Turn>)
    requires CanRun(w, ts)
    ensures w.reports + Built(w.settings.reporting, RunActs(w, ts)) == Turns(w, ts).reports
    ensures OnAfter(w.settings.reporting, RunActs(w, ts)) == Turns(w, ts).settings.reporting
    decreases |ts|
  {
    hide Once, TurnOk, ServesData, ActsFrom;
    if ts != [] {
      var v := Once(w, ts[0]);
      ReportsGrow(w, ts[0]);
      ActsFromBuild(w, v, ServesData(w, ts[0]));
      RunActsBuild(v, ts[1..]);
      BuiltBoth(w.settings.reporting, TurnActs(w, ts[0]), RunActs(v, ts[1..]));
      Associates(w.reports, Built(w.settings.reporting, TurnActs(w, ts[0])),
                 Built(v.settings.reporting, RunActs(v, ts[1..])));
    }
  }

  /** Stopping, and the beginning of destroy with the last status. */
  function EndActs(v: World): seq<Act> {
    Constructs(StopReports(v), false)
    + [Mailbox.BeginDestroy(LastReport(v))]
  }

  function LastReport(v: World): Report {
    Report(DESTROY, v.stats.iterations, v.stats.recvTime, v.stats.sendTime)
  }

  function StopReports(v: World): seq<Report> {
    if v.settings.reporting
    then [Report(Status.STOP, v.stats.iterations, v.stats.recvTime, v.stats.sendTime)] else []
  }

  lemma EndReports(v: World, stop: Turn, end: Turn)
    ensures EndActor(StopActor(v, stop), end).reports
         == v.reports + StopReports(v) + (if v.settings.reporting then [LastReport(v)] else [])
  {
    hide Handle, Inform;
    InformReports(Announce(v, Status.STOP), Status.STOP, stop);
    var s := StopActor(v, stop);
    InformReports(Announce(s, DESTROY), DESTROY, end);
    InformReports(s, DESTROY, end);
    assert v.reports + [] == v.reports;
  }

  lemma EndActsBuild(v: World, stop: Turn, end: Turn)
    ensures v.reports + Built(v.settings.reporting, EndActs(v)) == EndActor(StopActor(v, stop), end).reports
  {
    hide EndActor, StopActor, LastReport, StopReports, Constructs;
    var on, last := v.settings.reporting, Mailbox.BeginDestroy(LastReport(v));
    EndReports(v, stop, end);
    ConstructsBuild(on, StopReports(v), false);
    BuiltBoth(on, Constructs(StopReports(v), false), [last]);
    assert [last][1..] == [];
    assert Built(on, [last]) == (if on then [LastReport(v)] else []);
    Associates(v.reports, StopReports(v), Built(on, [last]));
  }

  lemma InformReports(w: World, kind: Status, t: Turn)
    ensures Inform(w, kind, t).reports == w.reports && Inform(w, kind, t).settings.reporting == w.settings.reporting
    ensures Inform(w, kind, t).stats == w.stats
  {
  }

  /** Everything the producer does in a whole life. */
  function LifeActs(uuid: string, name: string, now: int, start: Turn, ts: seq<Turn>): seq<Act>
    requires CanRun(StartActor(New(uuid, name, now), start), ts)
  {
    var w := StartActor(New(uuid, name, now), start);
    RunActs(w, ts) + EndActs(Turns(w, ts))
  }

  lemma StartReports(uuid: string, name: string, now: int, start: Turn)
    ensures var w := StartActor(New(uuid, name, now), start); w.reports == [FIRST] && w.settings.reporting
  {
  }

  /** The reports of a life are the first one and those its acts build. */
  lemma {:induction false} LifeActsBuild(uuid: string, name: string, now: int, start: Turn, ts: seq<Turn>, stop: Turn,
                                         end: Turn)
    requires CanRun(StartActor(New(uuid, name, now), start), ts)
    requires Turns(StartActor(New(uuid, name, now), start), ts).terminated
    ensures [FIRST] + Built(true, LifeActs(uuid, name, now, start, ts))
         == ActorRuns.Lifetime(uuid, name, now, start, ts, stop, end).reports
  {
    hide StartActor, New, CanRun, Turns, RunActs, EndActs, StopActor, EndActor;
    var w := StartActor(New(uuid, name, now), start);
    StartReports(uuid, name, now, start);
    RunActsBuild(w, ts);
    EndActsBuild(Turns(w, ts), stop, end);
    BuiltBoth(true, RunActs(w, ts), EndActs(Turns(w, ts)));
  }

  // ---------------------------------------------------------------- a life is a run of the mailbox

  /** The producer can perform these acts: a report with reporting off comes from a data message. */
  predicate Fit(on: bool, acts: seq<Act>)
    decreases |acts|
  {
    acts == []
    || match acts[0]
       case Construct(_, sock) => (on || sock) && Fit(on, acts[1..])
       case SetReporting(now) => Fit(now, acts[1..])
       case _ => false
  }

  lemma {:induction false} FitBoth(on: bool, a: seq<Act>, b: seq<Act>)
    requires Fit(on, a) && Fit(OnAfter(on, a), b)
    ensures Fit(on, a + b)
    decreases |a|
  {
    if a == [] {
      assert a + b == b;
    } else {
      assert (a + b)[1..] == a[1..] + b;
      FitBoth(Switched(on, a[0]), a[1..], b);
    }
  }

  lemma {:induction false} ConstructsFit(on: bool, reports: seq<Report>, sock: bool)
    requires on || sock || reports == []
    ensures Fit(on, Constructs(reports, sock))
  {
    if reports != [] {
      if reports[1..] != [] || on || sock { ConstructsFit(on, reports[1..], sock); }
      assert Constructs(reports, sock)[1..] == Constructs(reports[1..], sock);
    }
  }

  lemma TurnActsFit(w: World, t: Turn)
    requires TurnOk(w, t)
    ensures Fit(w.settings.reporting, TurnActs(w, t))
  {
    hide Once, FiresIn, Possible, Constructs, SwitchActs, Fit;
    ReportsGrow(w, t);
    var v, on, sock := Once(w, t), w.settings.reporting, ServesData(w, t);
    var reports := v.reports[|w.reports|..];
    if !on { TurnOutputs.ReportsWhenOffExactly(w, t); }
    ConstructsFit(on, reports, sock);
    ConstructsBuild(on, reports, sock);
    SwitchBuilds(on, v.settings.reporting);
    FitBoth(on, Constructs(reports, sock), SwitchActs(on, v.settings.reporting));
  }

  lemma {:induction false} RunActsFit(w: World, ts: seq<Turn>)
    requires CanRun(w, ts)
    ensures Fit(w.settings.reporting, RunActs(w, ts))
    decreases |ts|
  {
    hide Once, TurnOk, ServesData, ActsFrom;
    if ts != [] {
      var v := Once(w, ts[0]);
      TurnActsFit(w, ts[0]);
      ReportsGrow(w, ts[0]);
      ActsFromBuild(w, v, ServesData(w, ts[0]));
      RunActsFit(v, ts[1..]);
      FitBoth(w.settings.reporting, TurnActs(w, ts[0]), RunActs(v, ts[1..]));
    }
  }

  /** Each act carried through before the next, the controller resting. */
  lemma {:induction false} Perform(start: Mailbox.Box, done: seq<Mailbox.Step>, acts: seq<Act>)
    returns (steps: seq<Mailbox.Step>)
    requires Mailbox.Allowed(start, done) && Quiet(Mailbox.Run(start, done))
    requires Fit(Mailbox.Run(start, done).reporting, acts)
    ensures Mailbox.Allowed(start, steps) && Quiet(Mailbox.Run(start, steps))
    ensures Acts(steps) == Acts(done) + acts
    ensures Mailbox.Run(start, steps).reporting == OnAfter(Mailbox.Run(start, done).reporting, acts)
    decreases |acts|
  {
    hide Mailbox.Run, Mailbox.Allowed, Acts;
    steps := done;
    if acts != [] {
      steps := PerformOne(start, done, acts[0]);
      assert Acts(done) + acts == (Acts(done) + [acts[0]]) + acts[1..];
      steps := Perform(start, steps, acts[1..]);
    }
  }

  predicate Quiet(b: Mailbox.Box) {
    b.producer.Working? && !b.dying && b.consumer.Resting?
  }

  lemma PerformOne(start: Mailbox.Box, done: seq<Mailbox.Step>, act: Act) returns (steps: seq<Mailbox.Step>)
    requires Mailbox.Allowed(start, done) && Quiet(Mailbox.Run(start, done))
    requires match act
             case Construct(_, sock) => Mailbox.Run(start, done).reporting || sock
             case SetReporting(_) => true
             case _ => false
    ensures Mailbox.Allowed(start, steps) && Quiet(Mailbox.Run(start, steps))
    ensures Acts(steps) == Acts(done) + [act]
    ensures Mailbox.Run(start, steps).reporting
         == Switched(Mailbox.Run(start, done).reporting, act)
  {
    hide Mailbox.Run, Mailbox.Allowed, Acts;
    steps := Mailbox.Extend(start, done, act);
    ActsAppend(done, act);
    if act.Construct? {
      ActsAppend(steps, Mailbox.Publish);
      steps := Mailbox.Extend(start, steps, Mailbox.Publish);
      ActsAppend(steps, Mailbox.DropPrevious);
      steps := Mailbox.Extend(start, steps, Mailbox.DropPrevious);
    }
  }

  /** What an actor has published so far, finished or not, is what the mailbox can be made to carry. */
  lemma RunIsMailboxRun(uuid: string, name: string, now: int, start: Turn, ts: seq<Turn>)
    returns (steps: seq<Mailbox.Step>)
    requires CanRun(StartActor(New(uuid, name, now), start), ts)
    ensures Mailbox.Allowed(Mailbox.Start(FIRST), steps) && Quiet(Mailbox.Run(Mailbox.Start(FIRST), steps))
    ensures Acts(steps) == RunActs(StartActor(New(uuid, name, now), start), ts)
    ensures var b, v := Mailbox.Run(Mailbox.Start(FIRST), steps), Turns(StartActor(New(uuid, name, now), start), ts);
      b.log == v.reports && b.reporting == v.settings.reporting
  {
    hide StartActor, New, CanRun, Turns, RunActs, Mailbox.Run, Mailbox.Allowed, Acts, Built;
    var w, b := StartActor(New(uuid, name, now), start), Mailbox.Start(FIRST);
    NothingDone(b);
    StartReports(uuid, name, now, start);
    RunActsFit(w, ts);
    RunActsBuild(w, ts);
    steps := Perform(b, [], RunActs(w, ts));
    LogIsBuilt(b, steps);
  }

  /** The acts of a life can all be performed, up to the end of sphactor_actor_destroy. */
  lemma LifeIsMailboxRun(uuid: string, name: string, now: int, start: Turn, ts: seq<Turn>, stop: Turn, end: Turn)
    returns (steps: seq<Mailbox.Step>)
    requires CanRun(StartActor(New(uuid, name, now), start), ts)
    requires Turns(StartActor(New(uuid, name, now), start), ts).terminated
    ensures Mailbox.Allowed(Mailbox.Start(FIRST), steps)
    ensures Acts(steps) == LifeActs(uuid, name, now, start, ts)
    ensures var b := Mailbox.Run(Mailbox.Start(FIRST), steps);
      && b.producer.Ended?
      && b.log == ActorRuns.Lifetime(uuid, name, now, start, ts, stop, end).reports
  {
    hide StartActor, New, CanRun, Turns, RunActs, ActorRuns.Lifetime, Mailbox.Run, Mailbox.Allowed;
    hide Acts, Built, LastReport;
    var b, v := Mailbox.Start(FIRST), Turns(StartActor(New(uuid, name, now), start), ts);
    steps := RunIsMailboxRun(uuid, name, now, start, ts);
    var reports := StopReports(v);
    ConstructsFit(v.settings.reporting, reports, false);
    ConstructsBuild(v.settings.reporting, reports, false);
    steps := Perform(b, steps, Constructs(reports, false));
    steps := Finish(b, steps, LastReport(v));
    LifeActsBuild(uuid, name, now, start, ts, stop, end);
    LogIsBuilt(b, steps);
  }

  lemma {:induction false} NothingDone(b: Mailbox.Box)
    ensures Mailbox.Allowed(b, []) && Mailbox.Run(b, []) == b && Acts([]) == []
  {
  }

  lemma Finish(start: Mailbox.Box, done: seq<Mailbox.Step>, last: Report) returns (steps: seq<Mailbox.Step>)
    requires Mailbox.Allowed(start, done) && Quiet(Mailbox.Run(start, done))
    ensures Mailbox.Allowed(start, steps) && Mailbox.Run(start, steps).producer.Ended?
    ensures Acts(steps) == Acts(done) + [Mailbox.BeginDestroy(last)]
  {
    hide Mailbox.Run, Mailbox.Allowed, Acts;
    ActsAppend(done, Mailbox.Join);
    steps := Mailbox.Extend(start, done, Mailbox.Join);
    ActsAppend(steps, Mailbox.BeginDestroy(last));
    steps := Mailbox.Extend(start, steps, Mailbox.BeginDestroy(last));
    if Mailbox.Run(start, done).reporting {
      ActsAppend(steps, Mailbox.Publish);
      steps := Mailbox.Extend(start, steps, Mailbox.Publish);
      ActsAppend(steps, Mailbox.DropPrevious);
      steps := Mailbox.Extend(start, steps, Mailbox.DropPrevious);
    }
    ActsAppend(steps, Mailbox.TakeLast);
    steps := Mailbox.Extend(start, steps, Mailbox.TakeLast);
    ActsAppend(steps, Mailbox.FreeLast);
    steps := Mailbox.Extend(start, steps, Mailbox.FreeLast);
  }

  // ---------------------------------------------------------------- end to end

  lemma PrefixSorted(p: seq<Report>, q: seq<Report>)
    requires p <= q && Sorted(q)
    ensures Sorted(p)
  {
    forall i, j | 0 <= i < j < |p| ensures NotOlder(p[i], p[j]) {
      assert p[i] == q[i] && p[j] == q[j];
    }
  }

  /** The reports of a part of the acts are the first of the reports of all. */
  lemma {:induction false} LogOfPart(steps: seq<Mailbox.Step>, acts: seq<Act>)
    requires Mailbox.Allowed(Mailbox.Start(FIRST), steps) && Acts(steps) <= acts
    ensures Mailbox.Run(Mailbox.Start(FIRST), steps).log <= [FIRST] + Built(true, acts)
  {
    hide Mailbox.Run, Mailbox.Allowed, Acts, Built;
    LogIsBuilt(Mailbox.Start(FIRST), steps);
    BuiltBoth(true, Acts(steps), acts[|Acts(steps)|..]);
    assert acts == Acts(steps) + acts[|Acts(steps)|..];
    Associates([FIRST], Built(true, Acts(steps)), Built(OnAfter(true, Acts(steps)), acts[|Acts(steps)|..]));
  }

  /** Both threads at once, the producer part of the way through what the actor has done so far. */
  lemma {:induction false} LogOfRun(uuid: string, name: string, now: int, start: Turn, ts: seq<Turn>,
                                    steps: seq<Mailbox.Step>)
    requires CanRun(StartActor(New(uuid, name, now), start), ts)
    requires Mailbox.Allowed(Mailbox.Start(FIRST), steps)
    requires Acts(steps) <= RunActs(StartActor(New(uuid, name, now), start), ts)
    ensures Mailbox.Run(Mailbox.Start(FIRST), steps).log <= Turns(StartActor(New(uuid, name, now), start), ts).reports
  {
    hide CanRun, Turns, StartActor, New, Mailbox.Run, Mailbox.Allowed, Acts, RunActs, Built;
    var w := StartActor(New(uuid, name, now), start);
    StartReports(uuid, name, now, start);
    RunActsBuild(w, ts);
    LogOfPart(steps, RunActs(w, ts));
  }

  /** The same for a life that has ended. */
  lemma {:induction false} LogOfLife(uuid: string, name: string, now: int, start: Turn, ts: seq<Turn>, stop: Turn,
                                     end: Turn, steps: seq<Mailbox.Step>)
    requires CanRun(StartActor(New(uuid, name, now), start), ts)
    requires Turns(StartActor(New(uuid, name, now), start), ts).terminated
    requires Mailbox.Allowed(Mailbox.Start(FIRST), steps)
    requires Acts(steps) <= LifeActs(uuid, name, now, start, ts)
    ensures Mailbox.Run(Mailbox.Start(FIRST), steps).log
         <= ActorRuns.Lifetime(uuid, name, now, start, ts, stop, end).reports
  {
    hide CanRun, Turns, StartActor, New, ActorRuns.Lifetime, Mailbox.Run, Mailbox.Allowed, Acts, LifeActs, Built;
    LifeActsBuild(uuid, name, now, start, ts, stop, end);
    LogOfPart(steps, LifeActs(uuid, name, now, start, ts));
  }

  /** What the controller was answered: the newest report while on, never NULL after a report, never back. */
  predicate NeverBack(b: Mailbox.Box) {
    && (forall j :: 0 <= j < |b.answers| && b.answers[j].flag ==> b.answers[j].result == Some(b.answers[j].newest))
    && (forall j :: 0 <= j < |b.answers| && b.answers[j].result.Some? ==> b.answers[j].result.value < |b.log|)
    && (forall i, j :: 0 <= i < j < |b.answers| && b.answers[i].result.Some? ==>
          && b.answers[j].result.Some?
          && NotOlder(b.log[b.answers[i].result.value], b.log[b.answers[j].result.value]))
  }

  lemma {:induction false} SortedNeverBack(steps: seq<Mailbox.Step>, reports: seq<Report>)
    requires Mailbox.Allowed(Mailbox.Start(FIRST), steps)
    requires Mailbox.Run(Mailbox.Start(FIRST), steps).log <= reports && Sorted(reports)
    ensures var b := Mailbox.Run(Mailbox.Start(FIRST), steps);
      && NeverBack(b)
      && (Mailbox.NeverSwitchedOff(steps) ==> forall j :: 0 <= j < |b.answers| ==> b.answers[j].result.Some?)
  {
    hide Mailbox.Run, Mailbox.Allowed, Sorted;
    var b := Mailbox.Run(Mailbox.Start(FIRST), steps);
    PrefixSorted(b.log, reports);
    Mailbox.ResultsNeverGoBack(FIRST, steps);
    if Mailbox.NeverSwitchedOff(steps) {
      Mailbox.StaysOn(Mailbox.Start(FIRST), steps);
      forall j | 0 <= j < |b.answers| ensures b.answers[j].result.Some? {
        assert b.answers[j] in b.answers;
      }
    }
  }

  /**
   For any run of the loop, of an actor that is still running, never ends, or has ended, and every interleaving
   with its controller, however reporting is switched: a call of sphactor_report that finds reporting on returns
   the newest report, and no call ever returns NULL after a report or goes back in iterations, recv_time or
   send_time.
   */
  lemma {:induction false} ControllerNeverGoesBack(uuid: string, name: string, now: int, start: Turn, ts: seq<Turn>,
                                steps: seq<Mailbox.Step>)
    requires ActorRuns.StartOk(now, start) && |ts| < TWO_64
    requires CanRun(StartActor(New(uuid, name, now), start), ts)
    requires Mailbox.Allowed(Mailbox.Start(FIRST), steps)
    requires Acts(steps) <= RunActs(StartActor(New(uuid, name, now), start), ts)
    ensures var b := Mailbox.Run(Mailbox.Start(FIRST), steps);
      && b.log <= Turns(StartActor(New(uuid, name, now), start), ts).reports
      && NeverBack(b)
      && (Mailbox.NeverSwitchedOff(steps) ==> forall j :: 0 <= j < |b.answers| ==> b.answers[j].result.Some?)
  {
    hide CanRun, Turns, StartActor, New, Mailbox.Run, Mailbox.Allowed, Acts, RunActs, Sorted, NeverBack;
    hide Mailbox.NeverSwitchedOff;
    ReportOrder.ReportsSorted(uuid, name, now, start, ts);
    LogOfRun(uuid, name, now, start, ts, steps);
    SortedNeverBack(steps, Turns(StartActor(New(uuid, name, now), start), ts).reports);
  }

  /** And through the end of a life, with its STOP and DESTROY reports. */
  lemma {:induction false} LifeNeverGoesBack(uuid: string, name: string, now: int, start: Turn, ts: seq<Turn>,
                                             stop: Turn, end: Turn, steps: seq<Mailbox.Step>)
    requires ActorRuns.StartOk(now, start) && |ts| < TWO_64
    requires CanRun(StartActor(New(uuid, name, now), start), ts)
    requires Turns(StartActor(New(uuid, name, now), start), ts).terminated
    requires Mailbox.Allowed(Mailbox.Start(FIRST), steps)
    requires Acts(steps) <= LifeActs(uuid, name, now, start, ts)
    ensures var b := Mailbox.Run(Mailbox.Start(FIRST), steps);
      && b.log <= ActorRuns.Lifetime(uuid, name, now, start, ts, stop, end).reports
      && NeverBack(b)
      && (Mailbox.NeverSwitchedOff(steps) ==> forall j :: 0 <= j < |b.answers| ==> b.answers[j].result.Some?)
  {
    hide CanRun, Turns, StartActor, New, ActorRuns.Lifetime, Mailbox.Run, Mailbox.Allowed, Acts, LifeActs, Sorted;
    hide NeverBack, Mailbox.NeverSwitchedOff;
    ReportOrder.LifeReportsSorted(uuid, name, now, start, ts, stop, end);
    LogOfLife(uuid, name, now, start, ts, stop, end, steps);
    SortedNeverBack(steps, ActorRuns.Lifetime(uuid, name, now, start, ts, stop, end).reports);
  }
}
