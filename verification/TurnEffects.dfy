/**
 What one call of run_once leaves behind: the events it raised, the settings, the deadline and the two
 time stamps; and from that, over whole runs, exactly which events the handler sees.
 */
module TurnEffects {
  import opened Options
  import opened Reports
  import opened Wire
  import opened PollTimer
  import opened ActorModel
  import opened TurnOutputs
  import ActorRuns

  datatype Effect = Effect(settings: Settings, next: int, recvTime: int, sendTime: int, trace: seq<Event>)

  function EffectOf(w: World): Effect {
    Effect(w.settings, w.next, w.stats.recvTime, w.stats.sendTime, w.trace)
  }

  /** These events are raised, and the handler may call set_timeout in them. */
  function Called(f: Effect, events: seq<Event>, r: Reaction, now: int): Effect {
    var g := f.(trace := f.trace + events);
    if events != [] && r.rearm.Some? then
      g.(settings := g.settings.(timeout := r.rearm.value), next := PollTimer.SetTimeout(r.rearm.value, now).next)
    else g
  }

  function Sent(f: Effect, frames: seq<Frames>, now: int): Effect {
    if frames == [] then f else f.(sendTime := now)
  }

  lemma HandleEffect(w: World, kind: Status, msg: Option<nat>, r: Reaction, now: int)
    ensures EffectOf(Handle(w, kind, msg, r, now)) == Called(EffectOf(w), [Event(kind, w.stats.status, msg)], r, now)
    ensures Handle(w, kind, msg, r, now).stats == w.stats
  {
  }

  lemma DispatchEffect(w: World, kind: Status, msg: Option<nat>, t: Turn)
    ensures EffectOf(Dispatch(w, kind, msg, t))
         == Sent(Called(EffectOf(w), [Event(kind, w.stats.status, msg)], t.reaction, t.arm),
                 ResultOf(t.reaction, msg.Some?), t.send)
  {
    hide Handle, Called;
    HandleEffect(w, kind, msg, t.reaction, t.arm);
  }

  lemma InformEffect(w: World, kind: Status, t: Turn)
    ensures EffectOf(Inform(w, kind, t)) == Called(EffectOf(w), [Event(kind, w.stats.status, None)], t.reaction, t.arm)
  {
    hide Handle, Called;
    HandleEffect(w, kind, None, t.reaction, t.arm);
  }

  /** The events a command raises; its own message, if it needs the handler, is id. */
  function CommandEvents(c: Command, id: nat): seq<Event> {
    match c
    case Start => [Event(INIT, API, None)]
    case Stop => [Event(Status.STOP, Status.STOP, None)]
    case Trigger => [Event(SOCK, API, None)]
    case Unknown(_) => [Event(API, API, Some(id))]
    case _ => []
  }

  /** START arms the timer last; SET TIMEOUT is the only other command that arms it. */
  function Arm(f: Effect, c: Command, t: Turn): Effect {
    match c
    case Start => f.(next := StartTimer(f.settings.timeout, t.send).next)
    case SetTimeout(timeout) => f.(next := PollTimer.SetTimeout(timeout, t.arm).next)
    case _ => f
  }

  /** A command's effect: its change of the settings, the handler's events, what is sent, and the timer. */
  function Obeyed(f: Effect, name: string, c: Command, id: nat, t: Turn): Effect {
    var called := Called(f.(settings := Apply(f.settings, c)), CommandEvents(c, id), t.reaction, t.arm);
    Arm(Sent(called, CommandPublishes(name, c, t.reaction), t.send), c, t)
  }

  lemma BuiltinEffect(w: World, c: Command, id: nat, t: Turn)
    requires !c.Unknown? && w.stats.status.API?
    ensures EffectOf(Builtin(w, c, t)) == Obeyed(EffectOf(w), w.settings.name, c, id, t)
  {
    hide Inform, Dispatch, Called;
    NoCall(EffectOf(w).(settings := Apply(w.settings, c)), t);
    DispatchEffect(w, SOCK, None, t);
    InformEffect(w.(replies := w.replies + [SIGNAL]), INIT, t);
    InformEffect(Announce(w, Status.STOP), Status.STOP, t);
  }

  lemma NoCall(f: Effect, t: Turn)
    ensures Called(f, [], t.reaction, t.arm) == f
  {
    assert f.trace + [] == f.trace;
  }

  lemma RecvApiEffect(w: World, id: nat, c: Command, t: Turn)
    ensures EffectOf(RecvApi(w, id, c, t)) == Obeyed(EffectOf(w), w.settings.name, c, id, t)
  {
    hide Builtin, Handle, Reply, Obeyed;
    if c.Unknown? {
      HandleEffect(Announce(w, API), API, Some(id), t.reaction, t.arm);
      UnknownObeyed(EffectOf(w), w.settings.name, c, id, t);
    } else {
      BuiltinEffect(Announce(w, API), c, id, t);
    }
  }

  lemma UnknownObeyed(f: Effect, name: string, c: Command, id: nat, t: Turn)
    requires c.Unknown?
    ensures Obeyed(f, name, c, id, t) == Called(f, [Event(API, API, Some(id))], t.reaction, t.arm)
  {
  }

  // ---------------------------------------------------------------- one turn

  /** The events after the poll. */
  function EventsIn(w: World, fires: bool, t: Turn): seq<Event>
    requires t.which.Pipe? ==> w.pipe.waiting != []
    requires t.which.Sub? ==> w.sub.waiting != []
  {
    var c, id := CommandAt(w, fires, t), w.messages.built;
    if fires then [Event(TIME, TIME, None)]
    else if c.Some? then CommandEvents(c.value, id)
    else if IsData(w, t) then [Event(SOCK, SOCK, Some(id))]
    else if t.which.Sub? then []
    else [Event(FDSOCK, FDSOCK, Some(id))]
  }

  /** The settings afterwards: changed by a command, and by a set_timeout of the handler. */
  function SettingsAfter(w: World, fires: bool, t: Turn): Settings
    requires t.which.Pipe? ==> w.pipe.waiting != []
    requires t.which.Sub? ==> w.sub.waiting != []
  {
    var c := CommandAt(w, fires, t);
    var s := if c.Some? then Apply(w.settings, c.value) else w.settings;
    if EventsIn(w, fires, t) != [] && t.reaction.rearm.Some? then s.(timeout := t.reaction.rearm.value) else s
  }

  /** What set_timeout arms at a time: a negative timeout puts the deadline out of reach. */
  function ArmedAt(timeout: int, now: int): int {
    if timeout < 0 then INT64_MAX else now + timeout
  }

  /** The deadline afterwards: START arms last, then the handler, then SET TIMEOUT; otherwise it stays. */
  function DeadlineAfter(w: World, fires: bool, t: Turn): int
    requires t.which.Pipe? ==> w.pipe.waiting != []
    requires t.which.Sub? ==> w.sub.waiting != []
  {
    var c, timeout := CommandAt(w, fires, t), SettingsAfter(w, fires, t).timeout;
    if c == Some(Start) then (if timeout == -1 then INT64_MAX else t.send + timeout)
    else if EventsIn(w, fires, t) != [] && t.reaction.rearm.Some? then ArmedAt(t.reaction.rearm.value, t.arm)
    else if c.Some? && c.value.SetTimeout? then ArmedAt(c.value.timeout, t.arm)
    else w.next
  }

  /** v is what is left of w. */
  predicate Leaves(w: World, fires: bool, t: Turn, v: World)
    requires t.which.Pipe? ==> w.pipe.waiting != []
    requires t.which.Sub? ==> w.sub.waiting != []
  {
    && v.trace == w.trace + EventsIn(w, fires, t)
    && v.settings == SettingsAfter(w, fires, t)
    && v.next == DeadlineAfter(w, fires, t)
    && v.stats.sendTime == (if AfterPollPublishes(w, fires, t) != [] then t.send else w.stats.sendTime)
    && v.stats.recvTime == (if !fires && IsData(w, t) && w.settings.reporting then t.recv else w.stats.recvTime)
  }

  lemma CommandLeaves(w: World, t: Turn, v: World)
    requires t.which.Pipe? ==> w.pipe.waiting != []
    requires t.which.Sub? ==> w.sub.waiting != []
    requires var c := CommandAt(w, false, t);
      c.Some? && EffectOf(v) == Obeyed(EffectOf(w), w.settings.name, c.value, w.messages.built, t)
    ensures Leaves(w, false, t, v)
  {
    hide Apply, Filtered;
  }

  lemma SubLeaves(w: World, t: Turn)
    requires t.which.Sub? && w.sub.waiting != []
    ensures Leaves(w, false, t, OnSub(w, t))
  {
    hide RecvApi, AnswerApi, Dispatch, Filtered, Obeyed;
    var m, v, id := w.sub.waiting[0], ReadSub(w), w.messages.built;
    FilteredApi(m);
    if IsApi(m) {
      if !Filtered(m) {
        RecvApiEffect(v, id, m.request.command, t);
        CommandLeaves(w, t, OnSub(w, t));
      }
    } else {
      DataLeaves(w, t);
    }
  }

  lemma DataLeaves(w: World, t: Turn)
    requires t.which.Sub? && w.sub.waiting != [] && !IsApi(w.sub.waiting[0])
    ensures Leaves(w, false, t, OnSub(w, t))
  {
    hide Dispatch;
    var id := w.messages.built;
    var seen := SetStatus(ReadSub(w), SOCK);
    DispatchEffect(AddReport(seen), SOCK, Some(id), t);
    DispatchEffect(AddReport(seen.(stats := seen.stats.(recvTime := t.recv))), SOCK, Some(id), t);
  }

  lemma PipeLeaves(w: World, t: Turn)
    requires t.which.Pipe? && w.pipe.waiting != []
    ensures Leaves(w, false, t, OnPipe(w, t))
  {
    hide RecvApi, AnswerApi, Obeyed, Leaves;
    RecvApiEffect(ReadPipe(w), w.messages.built, w.pipe.waiting[0].command, t);
    CommandLeaves(w, t, OnPipe(w, t));
  }

  lemma ReactLeaves(w: World, fires: bool, t: Turn)
    requires t.which.Pipe? ==> w.pipe.waiting != []
    requires t.which.Sub? ==> w.sub.waiting != []
    ensures Leaves(w, fires, t, React(w, fires, t))
  {
    hide OnPipe, OnSub, Dispatch, CommandEvents, CommandPublishes, Filtered;
    if fires {
      DispatchEffect(Announce(w, TIME), TIME, None, t);
    } else if t.which.Pipe? {
      PipeLeaves(w, t);
    } else if t.which.Sub? {
      SubLeaves(w, t);
    } else {
      DispatchEffect(Build(Announce(w, FDSOCK)), FDSOCK, Some(w.messages.built), t);
    }
  }

  /**
   A whole call: the events raised, the settings, the deadline that the catch-up loop and then commands and
   the handler left, and the time stamps, of which send_time moves exactly when something was published.
   */
  lemma EffectsOfTurn(w: World, t: Turn)
    requires TurnOk(w, t)
    ensures Leaves(Arrive(w, t).(next := Advance(TimerOf(w), t.poll).next), FiresIn(w, t), t, Once(w, t))
  {
    hide React, FiresIn, InOrder, PollerKept, EventsIn, SettingsAfter, DeadlineAfter, AfterPollPublishes, Advance;
    PolledReady(w, t);
    var p := Arrive(w, t).(next := Advance(TimerOf(w), t.poll).next);
    ReactLeaves(Polled(w, t), FiresIn(w, t), t);
    SameLeaves(p, Polled(w, t), FiresIn(w, t), t);
  }

  lemma SameLeaves(p: World, q: World, fires: bool, t: Turn)
    requires q.pipe == p.pipe && q.sub == p.sub && q.settings == p.settings
    requires q.messages == p.messages && q.next == p.next
    requires t.which.Pipe? ==> p.pipe.waiting != []
    requires t.which.Sub? ==> p.sub.waiting != []
    ensures EventsIn(p, fires, t) == EventsIn(q, fires, t)
    ensures SettingsAfter(p, fires, t) == SettingsAfter(q, fires, t)
    ensures DeadlineAfter(p, fires, t) == DeadlineAfter(q, fires, t)
    ensures AfterPollPublishes(p, fires, t) == AfterPollPublishes(q, fires, t)
    ensures IsData(p, t) == IsData(q, t)
  {
    hide CommandEvents, CommandPublishes, Filtered, Apply;
  }

  // ---------------------------------------------------------------- whole runs

  function TurnEvents(w: World, t: Turn): seq<Event>
    requires TurnOk(w, t)
  {
    EventsIn(Arrive(w, t), FiresIn(w, t), t)
  }

  /** The events of a run, turn by turn. */
  function EventsOf(w: World, ts: seq<Turn>): seq<Event>
    requires CanRun(w, ts)
    decreases |ts|
  {
    if ts == [] then []
    else TurnEvents(w, ts[0]) + EventsOf(Once(w, ts[0]), ts[1..])
  }

  lemma EventsOfTurn(w: World, t: Turn)
    requires TurnOk(w, t)
    ensures Once(w, t).trace == w.trace + TurnEvents(w, t)
  {
    hide Once, FiresIn, Possible, CommandEvents, Filtered, Advance;
    EffectsOfTurn(w, t);
  }

  lemma {:induction false} TraceOfRun(w: World, ts: seq<Turn>)
    requires CanRun(w, ts)
    ensures Turns(w, ts).trace == w.trace + EventsOf(w, ts)
    decreases |ts|
  {
    hide Once, TurnOk, TurnEvents;
    if ts != [] {
      EventsOfTurn(w, ts[0]);
      TraceOfRun(Once(w, ts[0]), ts[1..]);
    }
  }

  lemma TurnLoopEventsExactly(w: World, t: Turn)
    requires TurnOk(w, t)
    ensures ActorRuns.LoopEvents(TurnEvents(w, t)) <==> ActorRuns.NotLifecycle(CommandOf(w, t))
  {
    hide FiresIn, Possible, Filtered, CommandEvents;
    var c := CommandOf(w, t);
    if c.Some? { CommandEventsLoop(c.value, w.messages.built); }
  }

  lemma CommandEventsLoop(c: Command, id: nat)
    ensures ActorRuns.LoopEvents(CommandEvents(c, id)) <==> !c.Start? && !c.Stop?
  {
    if c.Start? { assert CommandEvents(c, id)[0] in CommandEvents(c, id); }
    if c.Stop? { assert CommandEvents(c, id)[0] in CommandEvents(c, id); }
  }

  lemma {:induction false} RunLoopEventsExactly(w: World, ts: seq<Turn>)
    requires CanRun(w, ts)
    ensures ActorRuns.LoopEvents(EventsOf(w, ts)) <==> ActorRuns.NoLifecycleCommands(w, ts)
    decreases |ts|
  {
    hide Once, TurnOk, TurnEvents, ActorRuns.NotLifecycle, ActorRuns.LoopEvent, CommandOf;
    if ts != [] {
      TurnLoopEventsExactly(w, ts[0]);
      RunLoopEventsExactly(Once(w, ts[0]), ts[1..]);
      LoopEventsBoth(TurnEvents(w, ts[0]), EventsOf(Once(w, ts[0]), ts[1..]));
    }
  }

  lemma LoopEventsBoth(a: seq<Event>, b: seq<Event>)
    ensures ActorRuns.LoopEvents(a + b) <==> ActorRuns.LoopEvents(a) && ActorRuns.LoopEvents(b)
  {
    hide ActorRuns.LoopEvent;
    assert forall e :: e in a + b <==> e in a || e in b;
  }

  lemma StopLeaves(w: World, t: Turn)
    ensures StopActor(w, t).settings.reporting == w.settings.reporting && StopActor(w, t).stats.status.STOP?
  {
    hide Inform;
    InformEffect(Announce(w, Status.STOP), Status.STOP, t);
    InformStats(Announce(w, Status.STOP), Status.STOP, t);
  }

  lemma InformStats(w: World, kind: Status, t: Turn)
    ensures Inform(w, kind, t).stats == w.stats
  {
  }

  /**
   The handler's whole trace is INIT, then the events of the turns, then STOP and DESTROY; and the middle
   consists of TIME, SOCK, FDSOCK and API events alone if and only if no START or STOP command was carried out.
   */
  lemma {:induction false} LifecycleExactly(uuid: string, name: string, now: int, start: Turn, ts: seq<Turn>,
                                            stop: Turn, end: Turn)
    requires CanRun(StartActor(New(uuid, name, now), start), ts)
    requires Turns(StartActor(New(uuid, name, now), start), ts).terminated
    ensures var w := StartActor(New(uuid, name, now), start);
      var trace := ActorRuns.Lifetime(uuid, name, now, start, ts, stop, end).trace;
      && |trace| >= 3
      && trace[..|trace| - 1] == [Event(INIT, INIT, None)] + EventsOf(w, ts) + [Event(Status.STOP, Status.STOP, None)]
      && trace[|trace| - 1]
         == Event(DESTROY, if Turns(w, ts).settings.reporting then DESTROY else Status.STOP, None)
      && (ActorRuns.LoopEvents(trace[1..|trace| - 2]) <==> ActorRuns.NoLifecycleCommands(w, ts))
  {
    hide StartActor, StopActor, EndActor, New, CanRun, Turns, EventsOf;
    hide ActorRuns.NoLifecycleCommands, ActorRuns.LoopEvents;
    var w := StartActor(New(uuid, name, now), start);
    var v := Turns(w, ts);
    ActorRuns.StartEvent(uuid, name, now, start);
    TraceOfRun(w, ts);
    ActorRuns.StopEvent(v, stop);
    ActorRuns.EndEvent(StopActor(v, stop), end);
    StopLeaves(v, stop);
    RunLoopEventsExactly(w, ts);
    var trace := ActorRuns.Lifetime(uuid, name, now, start, ts, stop, end).trace;
    assert trace[1..|trace| - 2] == EventsOf(w, ts);
  }
}
