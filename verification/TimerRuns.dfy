/** The timer inside the event loop: the turns of an actor are the ticks of its timer. */
module TimerRuns {
  import opened Options
  import opened Reports
  import opened Wire
  import opened PollTimer
  import opened ActorModel
  import ActorRuns
  import TurnEffects
  import TurnOutputs

  /** How many TIME events the handler saw. */
  function Times(trace: seq<Event>): nat {
    if trace == [] then 0
    else Times(trace[..|trace| - 1]) + (if trace[|trace| - 1].kind.TIME? then 1 else 0)
  }

  lemma {:induction false} TimesAppend(trace: seq<Event>, e: Event)
    ensures Times(trace + [e]) == Times(trace) + (if e.kind.TIME? then 1 else 0)
  {
    assert (trace + [e])[..|trace|] == trace;
  }

  /** A command that leaves the timer alone. */
  predicate SteadyCommand(c: Command) {
    !c.SetTimeout? && !c.Start?
  }

  /** A turn in which nothing sets the timeout. */
  predicate Steady(w: World, t: Turn)
    requires ReaderReady(w, t)
  {
    t.reaction.rearm.None? && (CommandOf(w, t).Some? ==> SteadyCommand(CommandOf(w, t).value))
  }

  /** The timer is untouched and no TIME event was raised. */
  predicate NoTick(w: World, v: World) {
    TimerOf(v) == TimerOf(w) && Times(v.trace) == Times(w.trace)
  }

  lemma HandleTick(w: World, kind: Status, msg: Option<nat>, r: Reaction, now: int)
    requires r.rearm.None?
    ensures TimerOf(Handle(w, kind, msg, r, now)) == TimerOf(w)
    ensures Times(Handle(w, kind, msg, r, now).trace) == Times(w.trace) + (if kind.TIME? then 1 else 0)
  {
    TimesAppend(w.trace, Event(kind, w.stats.status, msg));
  }

  lemma DispatchTick(w: World, kind: Status, msg: Option<nat>, t: Turn)
    requires t.reaction.rearm.None?
    ensures TimerOf(Dispatch(w, kind, msg, t)) == TimerOf(w)
    ensures Times(Dispatch(w, kind, msg, t).trace) == Times(w.trace) + (if kind.TIME? then 1 else 0)
  {
    hide Handle, Times;
    HandleTick(w, kind, msg, t.reaction, t.arm);
  }

  lemma StopTick(w: World, t: Turn)
    requires t.reaction.rearm.None?
    ensures NoTick(w, StopActor(w, t))
  {
    hide Handle, Times;
    HandleTick(Announce(w, Status.STOP), Status.STOP, None, t.reaction, t.arm);
  }

  lemma BuiltinTick(w: World, c: Command, t: Turn)
    requires t.reaction.rearm.None? && SteadyCommand(c)
    ensures NoTick(w, Builtin(w, c, t))
  {
    hide Dispatch, StopActor, Times;
    DispatchTick(w, SOCK, None, t);
    StopTick(w, t);
  }

  lemma RecvApiTick(w: World, id: nat, c: Command, t: Turn)
    requires t.reaction.rearm.None? && SteadyCommand(c)
    ensures NoTick(w, RecvApi(w, id, c, t))
  {
    hide Builtin, Handle, Times, Reply;
    HandleTick(Announce(w, API), API, Some(id), t.reaction, t.arm);
    BuiltinTick(Announce(w, API), c, t);
  }

  lemma DataTick(w: World, id: nat, t: Turn)
    requires t.reaction.rearm.None?
    ensures NoTick(w, OnData(w, id, t))
  {
    hide Dispatch, Times;
    var seen := SetStatus(w, SOCK);
    DispatchTick(AddReport(seen), SOCK, Some(id), t);
    DispatchTick(AddReport(seen.(stats := seen.stats.(recvTime := t.recv))), SOCK, Some(id), t);
  }

  lemma ReactTick(w: World, fires: bool, t: Turn)
    requires t.which.Pipe? ==> w.pipe.waiting != []
    requires t.which.Sub? ==> w.sub.waiting != []
    requires t.reaction.rearm.None?
    requires CommandAt(w, fires, t).Some? ==> SteadyCommand(CommandAt(w, fires, t).value)
    ensures TimerOf(React(w, fires, t)) == TimerOf(w)
    ensures Times(React(w, fires, t).trace) == Times(w.trace) + (if fires then 1 else 0)
  {
    hide Dispatch, RecvApi, AnswerApi, OnData, Filtered, Times, SteadyCommand;
    var id := w.messages.built;
    if fires {
      DispatchTick(Announce(w, TIME), TIME, None, t);
    } else if t.which.Pipe? {
      RecvApiTick(ReadPipe(w), id, w.pipe.waiting[0].command, t);
    } else if t.which.Sub? {
      var m := w.sub.waiting[0];
      if !IsApi(m) { DataTick(ReadSub(w), id, t); }
      else if !Filtered(m) { RecvApiTick(ReadSub(w), id, m.request.command, t); }
    } else {
      DispatchTick(Build(Announce(w, FDSOCK)), FDSOCK, Some(id), t);
    }
  }

  function TickOf(t: Turn): Tick {
    Tick(t.poll, t.which.Nobody?)
  }

  /** A steady turn is one tick of the timer, and raises TIME exactly when the tick fires. */
  lemma OnceTick(w: World, t: Turn)
    requires TurnOk(w, t) && Steady(w, t)
    ensures TimerOf(Once(w, t)) == Advance(TimerOf(w), t.poll)
    ensures Times(Once(w, t).trace) == Times(w.trace) + (if Fires(TimerOf(w), TickOf(t)) then 1 else 0)
  {
    hide React, Times, Filtered, SteadyCommand, Possible;
    PolledReady(w, t);
    ActorRuns.PolledKeeps(w, t);
    ReactTick(Polled(w, t), FiresIn(w, t), t);
  }

  predicate SteadyRun(w: World, ts: seq<Turn>)
    requires CanRun(w, ts)
    decreases |ts|
  {
    ts == [] || (Steady(w, ts[0]) && SteadyRun(Once(w, ts[0]), ts[1..]))
  }

  function TicksOf(ts: seq<Turn>): seq<Tick> {
    if ts == [] then [] else [TickOf(ts[0])] + TicksOf(ts[1..])
  }

  lemma ClockAhead(w: World, t: Turn, last: int)
    requires TurnOk(w, t) && last <= w.clock
    ensures Possible(TimerOf(w), last, TickOf(t))
    ensures last <= LastRead(t.poll) <= Once(w, t).clock
  {
    hide React, CommandOf, PollerKept;
    assert t.poll.wake <= LastRead(t.poll);
  }

  /** The turns of a run are a run of the timer, with the same deadline and the same TIME events. */
  lemma {:induction false} TurnsAreTicks(w: World, ts: seq<Turn>, last: int)
    requires CanRun(w, ts) && SteadyRun(w, ts) && last <= w.clock
    ensures AllPossible(TimerOf(w), last, TicksOf(ts))
    ensures Run(TimerOf(w), last, TicksOf(ts)) == TimerOf(Turns(w, ts))
    ensures Times(Turns(w, ts).trace) == Times(w.trace) + Fired(TimerOf(w), last, TicksOf(ts))
    ensures last <= LastOf(last, TicksOf(ts)) <= Turns(w, ts).clock
    decreases |ts|
  {
    hide Once, TurnOk, Times, Steady, Possible;
    if ts != [] {
      var v, now := Once(w, ts[0]), LastRead(ts[0].poll);
      OnceTick(w, ts[0]);
      ClockAhead(w, ts[0], last);
      TurnsAreTicks(v, ts[1..], now);
      assert TicksOf(ts)[1..] == TicksOf(ts[1..]);
      TicksLength(ts);
    }
  }

  lemma {:induction false} TicksLength(ts: seq<Turn>)
    ensures |TicksOf(ts)| == |ts|
    ensures forall i :: 0 <= i < |ts| ==> TicksOf(ts)[i] == TickOf(ts[i])
  {
    if ts != [] { TicksLength(ts[1..]); }
  }

  /** From arming at t0 a run that does not touch the timer raises at most (now - t0) / T TIME events. */
  lemma {:induction false} TimeEventsBounded(w: World, ts: seq<Turn>, t0: int)
    requires CanRun(w, ts) && SteadyRun(w, ts) && t0 <= w.clock
    requires 0 < w.settings.timeout < TWO_32 && w.next == t0 + w.settings.timeout
    ensures Times(Turns(w, ts).trace) - Times(w.trace) <= (Turns(w, ts).clock - t0) / w.settings.timeout
  {
    hide CanRun, SteadyRun, Turns, Times;
    var T := w.settings.timeout;
    TurnsAreTicks(w, ts, t0);
    RateBound(T, t0, TicksOf(ts));
    var now := LastOf(t0, TicksOf(ts));
    QuotientBelow(now - t0, T);
    AtMostQuotient((now - t0) / T, Turns(w, ts).clock - t0, T);
  }

  /** The run keeps to the rate. */
  predicate RateKeptBy(w: World, ts: seq<Turn>)
    requires w.settings.timeout > 0 && CanRun(w, ts)
  {
    Times(Turns(w, ts).trace) - Times(w.trace) <= (Turns(w, ts).clock - w.clock) / w.settings.timeout
  }

  /** A timer armed just now: every run keeps to the rate if and only if the timeout is below 2^32. */
  lemma {:induction false} TimeEventsBoundedExactly(w: World)
    requires !w.terminated && w.settings.timeout > 0 && w.next == w.clock + w.settings.timeout
    ensures (forall ts :: CanRun(w, ts) && SteadyRun(w, ts) ==> RateKeptBy(w, ts)) <==> w.settings.timeout < TWO_32
  {
    hide CanRun, SteadyRun, Turns, Times;
    if w.settings.timeout < TWO_32 {
      forall ts | CanRun(w, ts) && SteadyRun(w, ts) ensures RateKeptBy(w, ts) {
        TimeEventsBounded(w, ts, w.clock);
      }
    } else {
      var ts := EarlyTime(w);
      assert !RateKeptBy(w, ts);
    }
  }

  /** A TIME event before the first deadline. */
  lemma EarlyTime(w: World) returns (ts: seq<Turn>)
    requires !w.terminated && w.settings.timeout >= TWO_32 && w.next == w.clock + w.settings.timeout
    ensures CanRun(w, ts) && SteadyRun(w, ts) && !RateKeptBy(w, ts)
  {
    hide Once, Times;
    var T, now := w.settings.timeout, w.clock + w.settings.timeout - TWO_32;
    var k := EarlyTick(T, w.clock);
    var t := Turn([], [], Reads(now, now, now, [now]), Nobody, now, now, now, Reaction(Null, true, None));
    DivUnique(TWO_32, TWO_32, 1, 0);
    assert TurnOk(w, t);
    OnceTick(w, t);
    ts := [t];
    assert ts[1..] == [];
    ActorRuns.OnceClock(w, t);
    DivUnique(T - TWO_32, T, 0, T - TWO_32);
    assert Turns(w, ts) == Once(w, t);
    assert Times(Turns(w, ts).trace) == Times(w.trace) + 1;
  }

  lemma QuotientBelow(x: int, T: int)
    requires T > 0
    ensures x / T * T <= x
  {
  }

  /** And its deadline stays on the grid it was armed on, at the first point after the last read. */
  lemma {:induction false} DeadlineStaysOnGrid(w: World, ts: seq<Turn>, t0: int)
    requires CanRun(w, ts) && SteadyRun(w, ts) && t0 <= w.clock
    requires w.settings.timeout > 0 && w.next == t0 + w.settings.timeout
    ensures var T, v, now := w.settings.timeout, Turns(w, ts), LastOf(t0, TicksOf(ts));
      && v.settings.timeout == T && v.next % T == w.next % T
      && (ts != [] ==> now < v.next && forall g :: g % T == w.next % T && now < g ==> v.next <= g)
  {
    hide CanRun, SteadyRun, Turns;
    TurnsAreTicks(w, ts, t0);
    TicksLength(ts);
    DriftFree(TimerOf(w), t0, TicksOf(ts));
  }

  /** The turn reads a message from the pipe or from SUB, or tells the handler of another socket. */
  predicate Serves(w: World, v: World) {
    || |v.pipe.seen| > |w.pipe.seen| || |v.sub.seen| > |w.sub.seen|
    || (|v.trace| > |w.trace| && v.trace[|w.trace|].kind.FDSOCK?)
  }

  lemma OnceServes(w: World, t: Turn)
    requires TurnOk(w, t) && !FiresIn(w, t)
    ensures Serves(w, Once(w, t))
  {
    ActorRuns.OnceQueues(w, t);
    if t.which.Socket? { SocketServes(w, t); }
  }

  lemma SocketServes(w: World, t: Turn)
    requires TurnOk(w, t) && !FiresIn(w, t) && t.which.Socket?
    ensures |Once(w, t).trace| == |w.trace| + 1 && Once(w, t).trace[|w.trace|].kind.FDSOCK?
  {
    hide Dispatch, FiresIn, Possible;
    var p := Polled(w, t);
    ActorRuns.DispatchEvent(Build(Announce(p, FDSOCK)), FDSOCK, Some(p.messages.built), t);
  }

  /**
   While some socket is ready at each poll and the deadline checks are at most half a timeout apart, a
   socket is served at least every third call.
   */
  lemma {:induction false} ServedEveryThird(w: World, t1: Turn, t2: Turn, t3: Turn, d: int)
    requires CanRun(w, [t1, t2, t3]) && SteadyRun(w, [t1, t2, t3])
    requires w.settings.timeout > 0 && 2 * d <= w.settings.timeout
    requires !t1.which.Nobody? && !t2.which.Nobody? && !t3.which.Nobody?
    requires t2.poll.wake - t1.poll.wake <= d && t3.poll.wake - t2.poll.wake <= d
    ensures TurnOk(w, t1) && TurnOk(Once(w, t1), t2) && TurnOk(Once(Once(w, t1), t2), t3)
    ensures var w1 := Once(w, t1);
      var w2 := Once(w1, t2);
      Serves(w, w1) || Serves(w1, w2) || Serves(w2, Once(w2, t3))
  {
    hide Once, TurnOk, Steady, Serves, Times;
    var ts := [t1, t2, t3];
    Unfold(w, t1, [t2, t3]);
    Unfold(Once(w, t1), t2, [t3]);
    Unfold(Once(Once(w, t1), t2), t3, []);
    var w1 := Once(w, t1);
    var w2 := Once(w1, t2);
    TurnsAreTicks(w, ts, w.clock);
    TicksLength(ts);
    NoThreeInARow(TimerOf(w), w.clock, TicksOf(ts), d);
    if !FiresIn(w, t1) { OnceServes(w, t1); }
    else if !FiresIn(w1, t2) { OnceServes(w1, t2); }
    else if !FiresIn(w2, t3) { OnceServes(w2, t3); }
    else { AllThreeFire(w, t1, t2, t3); }
  }

  lemma {:induction false} Unfold(w: World, t: Turn, rest: seq<Turn>)
    requires CanRun(w, [t] + rest) && SteadyRun(w, [t] + rest)
    ensures TurnOk(w, t) && Steady(w, t) && CanRun(Once(w, t), rest) && SteadyRun(Once(w, t), rest)
    ensures Turns(w, [t] + rest) == Turns(Once(w, t), rest)
  {
    hide Once, TurnOk, Steady;
    assert ([t] + rest)[1..] == rest;
  }

  lemma {:induction false} AllThreeFire(w: World, t1: Turn, t2: Turn, t3: Turn)
    requires CanRun(w, [t1, t2, t3]) && SteadyRun(w, [t1, t2, t3])
    requires TurnOk(w, t1) && TurnOk(Once(w, t1), t2) && TurnOk(Once(Once(w, t1), t2), t3)
    requires FiresIn(w, t1) && FiresIn(Once(w, t1), t2) && FiresIn(Once(Once(w, t1), t2), t3)
    ensures Times(Turns(w, [t1, t2, t3]).trace) == Times(w.trace) + 3
  {
    hide Once, TurnOk, Steady, Times;
    Unfold(w, t1, [t2, t3]);
    Unfold(Once(w, t1), t2, [t3]);
    Unfold(Once(Once(w, t1), t2), t3, []);
    OnceTick(w, t1);
    OnceTick(Once(w, t1), t2);
    OnceTick(Once(Once(w, t1), t2), t3);
    assert [t1] + [t2, t3] == [t1, t2, t3] && [t2] + [t3] == [t2, t3] && [t3] + [] == [t3];
  }

  /**
   With a timeout of zero, or a negative one that start took for a real one, every turn is a TIME
   event: no message is ever read, so not even $TERM ends the actor.
   */
  lemma {:induction false} Starves(w: World, ts: seq<Turn>)
    requires CanRun(w, ts) && w.settings.timeout <= 0 && w.next <= w.clock
    requires forall t :: t in ts ==> t.reaction.rearm.None?
    ensures var v := Turns(w, ts);
      && v.pipe.seen == w.pipe.seen && v.sub.seen == w.sub.seen
      && v.terminated == w.terminated
      && Times(v.trace) == Times(w.trace) + |ts|
    decreases |ts|
  {
    hide Once, TurnOk, Times;
    if ts != [] {
      assert ts[0] in ts;
      StarvedTurn(w, ts[0]);
      Starves(Once(w, ts[0]), ts[1..]);
    }
  }

  lemma StarvedTurn(w: World, t: Turn)
    requires TurnOk(w, t) && w.settings.timeout <= 0 && w.next <= w.clock && t.reaction.rearm.None?
    ensures var v := Once(w, t);
      && v.pipe.seen == w.pipe.seen && v.sub.seen == w.sub.seen && v.terminated == w.terminated
      && v.settings.timeout == w.settings.timeout && v.next == w.next <= v.clock
      && Times(v.trace) == Times(w.trace) + 1
  {
    hide React, Times;
    ClockAhead(w, t, w.clock);
    assert FiresIn(w, t);
    OnceTick(w, t);
    ActorRuns.OnceQueues(w, t);
    PolledReady(w, t);
    ActorRuns.ReactKeeps(Polled(w, t), true, t);
  }

  // ---------------------------------------------------------------- switching the timer off

  /** The timeout that the turn sets last: by its handler, or by the command SET TIMEOUT. */
  function SetBy(w: World, t: Turn): Option<int>
    requires TurnOk(w, t)
  {
    var c := CommandOf(w, t);
    if TurnEffects.TurnEvents(w, t) != [] && t.reaction.rearm.Some? then t.reaction.rearm
    else if c.Some? && c.value.SetTimeout? then Some(c.value.timeout)
    else None
  }

  /** A turn that sets the timeout leaves the timer as set_timeout does, unless START armed it once more. */
  lemma SetByArms(w: World, t: Turn)
    requires TurnOk(w, t) && SetBy(w, t).Some? && CommandOf(w, t) != Some(Start)
    ensures TimerOf(Once(w, t)) == PollTimer.SetTimeout(SetBy(w, t).value, t.arm)
  {
    hide Once, FiresIn, Possible, Filtered, Advance, TurnEffects.CommandEvents, TurnOutputs.AfterPollPublishes;
    TurnEffects.EffectsOfTurn(w, t);
  }

  /**
   After a SET TIMEOUT below zero, or a handler's set_timeout below zero, the handler sees no TIME event while a
   reader is ready at each poll and nobody sets the timeout again.
   */
  lemma {:induction false} NegativeIsSilent(w: World, t: Turn, ts: seq<Turn>)
    requires TurnOk(w, t) && SetBy(w, t).Some? && SetBy(w, t).value < 0 && CommandOf(w, t) != Some(Start)
    requires CanRun(Once(w, t), ts) && SteadyRun(Once(w, t), ts)
    requires forall u :: u in ts ==> !u.which.Nobody? && u.poll.wake < INT64_MAX
    ensures Times(Turns(Once(w, t), ts).trace) == Times(Once(w, t).trace)
  {
    hide Once, CanRun, SteadyRun, Turns, Times, TurnOk, SetBy;
    var v := Once(w, t);
    SetByArms(w, t);
    TurnsAreTicks(v, ts, v.clock);
    TicksReady(ts);
    FarAheadIsSilent(TimerOf(v), v.clock, TicksOf(ts));
  }

  lemma {:induction false} TicksReady(ts: seq<Turn>)
    requires forall u :: u in ts ==> !u.which.Nobody? && u.poll.wake < INT64_MAX
    ensures AlwaysReady(TicksOf(ts)) && BeforeEnd(TicksOf(ts))
  {
    TicksLength(ts);
    forall k | k in TicksOf(ts) ensures !k.idle && k.clock.wake < INT64_MAX {
      var i :| 0 <= i < |ts| && TicksOf(ts)[i] == k;
      assert ts[i] in ts;
    }
  }

  // ---------------------------------------------------------------- the timer of a started actor

  /** start arms one timeout after its clock read, with the timeout its INIT event left; -1 arms nothing. */
  lemma StartArms(w: World, t: Turn)
    ensures var v := StartActor(w, t);
      && v.clock == t.send
      && v.settings.timeout == (if t.reaction.rearm.Some? then t.reaction.rearm.value else w.settings.timeout)
      && v.next == (if v.settings.timeout == -1 then INT64_MAX else t.send + v.settings.timeout)
  {
  }

  /** So from the start on the handler sees at most (now - started) / T TIME events. */
  lemma {:induction false} TimeEventsSinceStart(uuid: string, name: string, now: int, start: Turn, ts: seq<Turn>)
    requires var w := StartActor(New(uuid, name, now), start);
      && CanRun(w, ts) && SteadyRun(w, ts) && 0 < w.settings.timeout < TWO_32
    ensures var w := StartActor(New(uuid, name, now), start);
      Times(Turns(w, ts).trace) <= (Turns(w, ts).clock - start.send) / w.settings.timeout
  {
    hide CanRun, SteadyRun, Turns, Times, StartActor, New;
    StartArms(New(uuid, name, now), start);
    StartTimes(uuid, name, now, start);
    TimeEventsBounded(StartActor(New(uuid, name, now), start), ts, start.send);
  }

  lemma StartTimes(uuid: string, name: string, now: int, start: Turn)
    ensures Times(StartActor(New(uuid, name, now), start).trace) == 0
  {
    hide StartActor, New;
    ActorRuns.StartEvent(uuid, name, now, start);
    TimesAppend([], Event(INIT, INIT, None));
    assert [] + [Event(INIT, INIT, None)] == [Event(INIT, INIT, None)];
  }
}
