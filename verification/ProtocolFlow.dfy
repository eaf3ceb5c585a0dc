/**
 The event loop and the controller together: every run of an actor's turns, interleaved with the calls of its
 controller, is a run of the protocol.
 */
module ProtocolFlow {
  import opened Options
  import opened Sequences
  import opened Wire
  import opened ActorModel
  import ActorRuns
  import PollTimer
  import Protocol
  import TurnEffects
  import TurnOutputs

  /**
   Controller and actor. sent: the messages on their way to the actor; taken: how many messages were received
   from the pipe, the first of them by zactor_new; served: as in Protocol.System.
   */
  datatype Pair = Pair(ctl: Protocol.Controller, world: World, sent: seq<Request>, taken: nat, served: Settings)

  /** One step of a call of the controller, or one turn of the event loop. */
  datatype Move = Call(step: Protocol.Step) | Loop(turn: Turn)

  /** A command as a message; only the command is looked at here. */
  function AsRequest(c: Command): Request {
    Request(if c.Unknown? then c.frames else if c.Malformed? then [] else Encode(c), c)
  }

  /** All that the actor's side has put on the pipe: at the end, the signal of its thread. */
  function Output(w: World): seq<Frames> {
    if w.terminated then w.replies + [SIGNAL] else w.replies
  }

  function Commands(requests: seq<Request>): seq<Command> {
    seq(|requests|, i requires 0 <= i < |requests| => requests[i].command)
  }

  predicate Valid(p: Pair) {
    p.taken <= |Output(p.world)|
  }

  /** The pair as the protocol sees it. */
  function Seen(p: Pair): Protocol.System
    requires Valid(p)
  {
    Protocol.System(p.ctl, p.world.settings, Commands(p.world.pipe.waiting + p.sent), Output(p.world)[p.taken..],
                    p.world.terminated, p.served)
  }

  predicate ByController(step: Protocol.Step) {
    step.Ask? || step.Tell? || step.Api? || step.Receive?
  }

  predicate Enabled(p: Pair, m: Move)
    requires Valid(p)
  {
    match m
    case Call(step) => ByController(step) && Protocol.Enabled(Seen(p), step)
    case Loop(t) => !p.world.terminated && TurnOk(p.world, t) && t.pipeArrivals <= p.sent
  }

  /** The settings that the turn's command from the pipe leaves, if it has one. */
  function Served(w: World, t: Turn, before: Settings): Settings
    requires TurnOk(w, t)
  {
    var c := CommandOf(w, t);
    if c.Some? && t.which.Pipe? then Apply(w.settings, c.value) else before
  }

  function Do(p: Pair, m: Move): Pair
    requires Valid(p) && Enabled(p, m)
  {
    match m
    case Call(step) =>
      var ctl := Protocol.Do(Seen(p), step).ctl;
      (match step
       case Ask(c) => p.(ctl := ctl, sent := p.sent + [AsRequest(c)])
       case Tell(c) => p.(ctl := ctl, sent := p.sent + [AsRequest(c)])
       case Api(c) => p.(ctl := ctl, sent := p.sent + [AsRequest(c)])
       case _ => p.(ctl := ctl, taken := p.taken + 1))
    case Loop(t) =>
      p.(world := Once(p.world, t), sent := p.sent[|t.pipeArrivals|..], served := Served(p.world, t, p.served))
  }

  // ---------------------------------------------------------------- a turn is at most two steps

  function Back(r: Reaction): Option<Frames> {
    if r.outcome.Null? then None else Some(Body(r))
  }

  /** The turn's command alone. */
  function CommandSteps(w: World, t: Turn): seq<Protocol.Step>
    requires TurnOk(w, t)
  {
    var c := CommandOf(w, t);
    if c.None? then []
    else if t.which.Pipe? then [Protocol.Serve(Back(t.reaction))]
    else [Protocol.Remote(c.value)]
  }

  /** The command that is carried out, then the timeout that the handler sets. */
  function StepsOf(w: World, t: Turn): seq<Protocol.Step>
    requires TurnOk(w, t)
  {
    CommandSteps(w, t)
    + (if TurnEffects.TurnEvents(w, t) != [] && t.reaction.rearm.Some?
       then [Protocol.Rearm(t.reaction.rearm.value)] else [])
  }

  /** What a turn does to the parts that the protocol looks at. */
  lemma TurnSeen(w: World, t: Turn)
    requires TurnOk(w, t) && !w.terminated
    ensures var v, c := Once(w, t), CommandOf(w, t);
      && v.settings == Protocol.Rearmed(if c.Some? then Apply(w.settings, c.value) else w.settings,
                                        TurnEffects.TurnEvents(w, t) != [], t.reaction.rearm)
      && v.replies == w.replies + TurnOutputs.AfterPollReplies(Arrive(w, t), FiresIn(w, t), t)
      && v.terminated == (c == Some(Term))
      && v.pipe.waiting == (if !FiresIn(w, t) && t.which.Pipe? then (w.pipe.waiting + t.pipeArrivals)[1..]
                            else w.pipe.waiting + t.pipeArrivals)
  {
    hide React, FiresIn, PollTimer.Possible, TurnEffects.EventsIn, TurnOutputs.AfterPollReplies, Apply;
    hide TurnOutputs.AfterPollReports, TurnOutputs.AfterPollPublishes, PollTimer.Advance, TurnEffects.DeadlineAfter;
    TurnEffects.EffectsOfTurn(w, t);
    TurnOutputs.OutputsOfTurn(w, t);
    ActorRuns.TerminatedExactly(w, t);
    PipeSeen(w, t);
    SameEvents(w, t);
  }

  lemma PipeSeen(w: World, t: Turn)
    requires TurnOk(w, t)
    ensures Once(w, t).pipe.waiting
         == (if !FiresIn(w, t) && t.which.Pipe? then (w.pipe.waiting + t.pipeArrivals)[1..]
             else w.pipe.waiting + t.pipeArrivals)
  {
    hide React, FiresIn, PollTimer.Possible, PollTimer.Advance;
    PolledReady(w, t);
    ActorRuns.PolledKeeps(w, t);
    ActorRuns.ReactKeeps(Polled(w, t), FiresIn(w, t), t);
  }

  /** The deadline is not looked at when events and settings are told. */
  lemma SameEvents(w: World, t: Turn)
    requires TurnOk(w, t)
    ensures var p := Arrive(w, t).(next := PollTimer.Advance(TimerOf(w), t.poll).next);
      TurnEffects.SettingsAfter(p, FiresIn(w, t), t)
      == Protocol.Rearmed(if CommandOf(w, t).Some? then Apply(w.settings, CommandOf(w, t).value) else w.settings,
                          TurnEffects.TurnEvents(w, t) != [], t.reaction.rearm)
  {
    hide FiresIn, PollTimer.Advance, TurnEffects.CommandEvents, Filtered, Apply;
    hide PollTimer.InOrder, PollTimer.PollerKept;
  }

  /** Before the handler's own change of the timeout. */
  function Middle(p: Pair, t: Turn): Protocol.System
    requires Valid(p) && Enabled(p, Loop(t))
  {
    var s, c := Seen(p), CommandOf(p.world, t);
    if c.None? then s
    else
      var after := Apply(p.world.settings, c.value);
      var out := if !t.which.Pipe? then (if Protocol.Signals(c.value) then Some(SIGNAL) else None)
                 else Protocol.Response(after, c.value, Back(t.reaction));
      s.(actor := after,
         pipe := if t.which.Pipe? && s.pipe != [] then s.pipe[1..] else s.pipe,
         replies := if out.Some? then s.replies + [out.value] else s.replies,
         ended := c.value.Term?,
         served := if t.which.Pipe? then after else s.served)
  }

  lemma CommandStep(p: Pair, t: Turn)
    requires Valid(p) && Enabled(p, Loop(t)) && CommandOf(p.world, t).Some?
    ensures var c := CommandOf(p.world, t).value;
      var step := if t.which.Pipe? then Protocol.Serve(Back(t.reaction)) else Protocol.Remote(c);
      Protocol.Enabled(Seen(p), step) && Protocol.Do(Seen(p), step) == Middle(p, t)
  {
    hide Apply, AssertsHold, Protocol.Response, FiresIn, PollTimer.Possible, Filtered;
    if t.which.Pipe? {
      var waiting := p.world.pipe.waiting + t.pipeArrivals;
      assert (p.world.pipe.waiting + p.sent)[0] == waiting[0];
      assert Seen(p).pipe[0] == waiting[0].command;
    }
  }

  /** What comes back on the pipe for a command that came through it, as the protocol has it. */
  lemma AnswersAre(s: Settings, c: Command, r: Reaction)
    ensures var out := Protocol.Response(Apply(s, c), c, Back(r));
      (if Protocol.Signals(c) then [SIGNAL] else []) + TurnOutputs.AnswersTo(s, c, r)
      == (if out.Some? then [out.value] else [])
  {
    hide Apply;
    if Protocol.Signals(c) { Protocol.SignalsSilent(Apply(s, c), c); }
  }

  function Added(w: World, t: Turn): seq<Frames>
    requires TurnOk(w, t)
  {
    var c := CommandOf(w, t);
    if c.None? then []
    else if t.which.Pipe? then
      (if Protocol.Signals(c.value) then [SIGNAL] else []) + TurnOutputs.AnswersTo(w.settings, c.value, t.reaction)
    else if Protocol.Signals(c.value) then [SIGNAL]
    else []
  }

  /** $TERM has no answer, so its signal is all there is. */
  lemma TermAlone(w: World, t: Turn)
    requires TurnOk(w, t)
    ensures TurnOutputs.AfterPollReplies(Arrive(w, t), FiresIn(w, t), t)
            + (if CommandOf(w, t) == Some(Term) then [SIGNAL] else []) == Added(w, t)
  {
    hide Apply, FiresIn, PollTimer.Possible, Filtered;
    var c := CommandOf(w, t);
    if c.Some? && c.value.Term? { Protocol.SignalsSilent(Apply(w.settings, c.value), c.value); }
  }

  lemma OutputIs(w: World, t: Turn)
    requires TurnOk(w, t) && !w.terminated
    ensures Output(Once(w, t)) == w.replies + Added(w, t)
  {
    hide Once, FiresIn, PollTimer.Possible, AssertsHold, CommandOf, Added, TurnOutputs.AfterPollReplies;
    TurnSeen(w, t);
    TermAlone(w, t);
    Associates(w.replies, TurnOutputs.AfterPollReplies(Arrive(w, t), FiresIn(w, t), t), [SIGNAL]);
    var replies := TurnOutputs.AfterPollReplies(Arrive(w, t), FiresIn(w, t), t);
    assert replies + [] == replies;
  }

  lemma MiddleReplies(p: Pair, t: Turn)
    requires Valid(p) && Enabled(p, Loop(t))
    ensures Middle(p, t).replies == p.world.replies[p.taken..] + Added(p.world, t)
  {
    hide FiresIn, PollTimer.Possible, ReaderReady, AssertsHold, CommandOf, Apply, Protocol.Response;
    hide Protocol.Signals, TurnOutputs.AnswersTo;
    var c, rest := CommandOf(p.world, t), p.world.replies[p.taken..];
    assert rest + [] == rest;
    if c.Some? { AnswersAre(p.world.settings, c.value, t.reaction); }
  }

  lemma DropAppend<T>(a: seq<T>, b: seq<T>, k: nat)
    requires k <= |a|
    ensures (a + b)[k..] == a[k..] + b
  {
  }

  /** The output of the actor's side grows by exactly what the protocol's step puts there. */
  lemma OutputGrows(p: Pair, t: Turn)
    requires Valid(p) && Enabled(p, Loop(t))
    ensures Valid(Do(p, Loop(t)))
    ensures Output(Once(p.world, t))[p.taken..] == Middle(p, t).replies
  {
    hide Once, TurnOk, Middle, Added, Served;
    OutputIs(p.world, t);
    MiddleReplies(p, t);
    DropAppend(p.world.replies, Added(p.world, t), p.taken);
  }

  lemma MiddleSeen(p: Pair, t: Turn)
    requires Valid(p) && Enabled(p, Loop(t)) && Valid(Do(p, Loop(t)))
    ensures var s := Middle(p, t);
      Seen(Do(p, Loop(t)))
      == s.(actor := Protocol.Rearmed(s.actor, TurnEffects.TurnEvents(p.world, t) != [], t.reaction.rearm))
  {
    hide Once, Apply, AssertsHold, FiresIn, PollTimer.Possible, Protocol.Response, TurnOutputs.AfterPollReplies;
    hide TurnEffects.TurnEvents, Filtered;
    TurnSeen(p.world, t);
    OutputGrows(p, t);
    PipeMoves(p, t);
  }

  /** Messages that arrive only move from one queue to the next. */
  lemma Arrivals(waiting: seq<Request>, arrivals: seq<Request>, sent: seq<Request>)
    requires arrivals <= sent
    ensures (waiting + arrivals) + sent[|arrivals|..] == waiting + sent
    ensures waiting + arrivals != [] ==> (waiting + arrivals)[1..] + sent[|arrivals|..] == (waiting + sent)[1..]
  {
    assert sent == arrivals + sent[|arrivals|..];
    Associates(waiting, arrivals, sent[|arrivals|..]);
  }

  lemma CommandsRest(requests: seq<Request>)
    requires requests != []
    ensures Commands(requests[1..]) == Commands(requests)[1..]
  {
  }

  lemma PipeMoves(p: Pair, t: Turn)
    requires Valid(p) && Enabled(p, Loop(t))
    ensures Commands(Once(p.world, t).pipe.waiting + p.sent[|t.pipeArrivals|..]) == Middle(p, t).pipe
  {
    hide Once, Apply, AssertsHold, FiresIn, PollTimer.Possible, Protocol.Response, Filtered, Commands;
    var w := p.world;
    PipeSeen(w, t);
    Arrivals(w.pipe.waiting, t.pipeArrivals, p.sent);
    if !FiresIn(w, t) && t.which.Pipe? { CommandsRest(w.pipe.waiting + p.sent); }
    CommandsLength(w.pipe.waiting + p.sent);
  }

  lemma CommandsLength(requests: seq<Request>)
    ensures |Commands(requests)| == |requests|
  {
  }

  /** A turn ends the actor only by $TERM, which the handler does not hear of. */
  lemma NoEventForTerm(w: World, t: Turn)
    requires TurnOk(w, t) && CommandOf(w, t) == Some(Term)
    ensures TurnEffects.TurnEvents(w, t) == []
  {
    hide FiresIn, PollTimer.Possible, Filtered;
  }

  lemma CommandIsSteps(p: Pair, t: Turn)
    requires Valid(p) && Enabled(p, Loop(t))
    ensures Protocol.Allowed(Seen(p), CommandSteps(p.world, t))
    ensures Protocol.Run(Seen(p), CommandSteps(p.world, t)) == Middle(p, t)
  {
    hide Seen, Middle, Protocol.Do, Protocol.Enabled, PollTimer.Possible, ReaderReady, AssertsHold, CommandOf;
    hide Protocol.Allowed, Protocol.Run;
    MiddleIs(p, t);
    Nothing(Seen(p));
    if CommandOf(p.world, t).Some? {
      CommandStep(p, t);
      Then(Seen(p), [], CommandSteps(p.world, t)[0]);
      assert [] + [CommandSteps(p.world, t)[0]] == CommandSteps(p.world, t);
    }
  }

  lemma TurnIsSteps(p: Pair, t: Turn)
    requires Valid(p) && Enabled(p, Loop(t))
    ensures Valid(Do(p, Loop(t))) && Protocol.Allowed(Seen(p), StepsOf(p.world, t))
    ensures Protocol.Run(Seen(p), StepsOf(p.world, t)) == Seen(Do(p, Loop(t)))
  {
    hide Do, Seen, Middle, CommandSteps, Protocol.Do, Protocol.Allowed, Protocol.Run, Protocol.Enabled;
    hide TurnEffects.TurnEvents, TurnOk;
    OutputGrows(p, t);
    MiddleSeen(p, t);
    CommandIsSteps(p, t);
    var steps := CommandSteps(p.world, t);
    if TurnEffects.TurnEvents(p.world, t) != [] && t.reaction.rearm.Some? {
      MiddleRuns(p, t);
      RearmStep(Middle(p, t), t.reaction.rearm.value);
      Then(Seen(p), steps, Protocol.Rearm(t.reaction.rearm.value));
    } else {
      assert steps + [] == steps;
    }
  }

  lemma MiddleIs(p: Pair, t: Turn)
    requires Valid(p) && Enabled(p, Loop(t))
    ensures CommandOf(p.world, t).None? ==> Middle(p, t) == Seen(p)
    ensures Middle(p, t).ended == (CommandOf(p.world, t) == Some(Term))
  {
    hide Apply, FiresIn, PollTimer.Possible, AssertsHold, CommandOf, Protocol.Response;
  }

  lemma MiddleRuns(p: Pair, t: Turn)
    requires Valid(p) && Enabled(p, Loop(t)) && TurnEffects.TurnEvents(p.world, t) != []
    ensures !Middle(p, t).ended
  {
    hide Apply, FiresIn, PollTimer.Possible, AssertsHold, CommandOf, Protocol.Response, TurnEffects.TurnEvents;
    if CommandOf(p.world, t) == Some(Term) { NoEventForTerm(p.world, t); }
    MiddleIs(p, t);
  }

  lemma RearmStep(s: Protocol.System, timeout: int)
    requires !s.ended
    ensures Protocol.Enabled(s, Protocol.Rearm(timeout))
    ensures Protocol.Do(s, Protocol.Rearm(timeout)) == s.(actor := s.actor.(timeout := timeout))
  {
  }

  lemma {:induction false} Nothing(s: Protocol.System)
    ensures Protocol.Allowed(s, []) && Protocol.Run(s, []) == s
  {
  }

  // ---------------------------------------------------------------- runs

  /** Protocol runs are put together. */
  lemma {:induction false} Both(s: Protocol.System, a: seq<Protocol.Step>, b: seq<Protocol.Step>)
    requires Protocol.Allowed(s, a) && Protocol.Allowed(Protocol.Run(s, a), b)
    ensures Protocol.Allowed(s, a + b) && Protocol.Run(s, a + b) == Protocol.Run(Protocol.Run(s, a), b)
    decreases |a|
  {
    hide Protocol.Do, Protocol.Enabled;
    if a == [] {
      assert a + b == b;
    } else {
      assert (a + b)[1..] == a[1..] + b;
      Both(Protocol.Do(s, a[0]), a[1..], b);
    }
  }

  lemma {:induction false} Then(s: Protocol.System, a: seq<Protocol.Step>, step: Protocol.Step)
    requires Protocol.Allowed(s, a) && Protocol.Enabled(Protocol.Run(s, a), step)
    ensures Protocol.Allowed(s, a + [step])
    ensures Protocol.Run(s, a + [step]) == Protocol.Do(Protocol.Run(s, a), step)
  {
    hide Protocol.Do, Protocol.Enabled;
    var u := Protocol.Run(s, a);
    assert [step][1..] == [];
    assert Protocol.Allowed(u, [step]) && Protocol.Run(u, [step]) == Protocol.Do(u, step);
    Both(s, a, [step]);
  }

  lemma CallIsStep(p: Pair, step: Protocol.Step)
    requires Valid(p) && Enabled(p, Call(step))
    ensures Valid(Do(p, Call(step))) && Seen(Do(p, Call(step))) == Protocol.Do(Seen(p), step)
  {
    hide Protocol.NoteTell, Protocol.Note, Protocol.Absorb, Protocol.EchoHolds, Protocol.Cached, Encode;
    if !step.Receive? {
      var c := if step.Ask? then step.request else if step.Tell? then step.command else step.call;
      var all := p.world.pipe.waiting + p.sent;
      assert p.world.pipe.waiting + (p.sent + [AsRequest(c)]) == all + [AsRequest(c)];
      assert Commands(all + [AsRequest(c)]) == Commands(all) + [c];
    }
  }

  function MoveSteps(p: Pair, m: Move): seq<Protocol.Step>
    requires Valid(p) && Enabled(p, m)
  {
    match m
    case Call(step) => [step]
    case Loop(t) => StepsOf(p.world, t)
  }

  lemma MoveIsSteps(p: Pair, m: Move)
    requires Valid(p) && Enabled(p, m)
    ensures Valid(Do(p, m)) && Protocol.Allowed(Seen(p), MoveSteps(p, m))
    ensures Protocol.Run(Seen(p), MoveSteps(p, m)) == Seen(Do(p, m))
  {
    hide Do, Seen, StepsOf, Protocol.Do, Protocol.Enabled;
    match m {
      case Call(step) =>
        CallIsStep(p, step);
        assert [step][1..] == [];
      case Loop(t) =>
        TurnIsSteps(p, t);
    }
  }

  predicate Allowed(p: Pair, moves: seq<Move>)
    requires Valid(p)
    decreases |moves|
  {
    moves == []
    || (Enabled(p, moves[0])
        && (MoveIsSteps(p, moves[0]);
            Allowed(Do(p, moves[0]), moves[1..])))
  }

  function Run(p: Pair, moves: seq<Move>): (q: Pair)
    requires Valid(p) && Allowed(p, moves)
    ensures Valid(q)
    decreases |moves|
  {
    if moves == [] then p
    else
      MoveIsSteps(p, moves[0]);
      Run(Do(p, moves[0]), moves[1..])
  }

  function Steps(p: Pair, moves: seq<Move>): seq<Protocol.Step>
    requires Valid(p) && Allowed(p, moves)
    decreases |moves|
  {
    if moves == [] then []
    else
      MoveIsSteps(p, moves[0]);
      MoveSteps(p, moves[0]) + Steps(Do(p, moves[0]), moves[1..])
  }

  /** Turns and calls, interleaved in any way, are a run of the protocol that ends as they do. */
  lemma {:induction false} RunIsProtocol(p: Pair, moves: seq<Move>)
    requires Valid(p) && Allowed(p, moves)
    ensures Protocol.Allowed(Seen(p), Steps(p, moves))
    ensures Protocol.Run(Seen(p), Steps(p, moves)) == Seen(Run(p, moves))
    decreases |moves|
  {
    hide Do, Enabled, Seen, MoveSteps, Protocol.Allowed, Protocol.Run;
    if moves == [] {
      Nothing(Seen(p));
    } else {
      MoveIsSteps(p, moves[0]);
      RunIsProtocol(Do(p, moves[0]), moves[1..]);
      Both(Seen(p), MoveSteps(p, moves[0]), Steps(Do(p, moves[0]), moves[1..]));
    }
  }

  /** zactor_new has started the actor and taken its signal; a name that was given is on its way again. */
  function Start(uuid: string, name: string, uuidGiven: bool, nameGiven: bool, now: int, start: Turn): (p: Pair)
    ensures Valid(p)
  {
    Pair(Protocol.Begin(uuid, name, uuidGiven, nameGiven).ctl,
         StartActor(New(uuid, name, now), start),
         if nameGiven then [AsRequest(SetName(name))] else [],
         1,
         NewSettings(uuid, name))
  }

  /** The INIT event may set the timeout. */
  function InitSteps(start: Turn): seq<Protocol.Step> {
    if start.reaction.rearm.Some? then [Protocol.Rearm(start.reaction.rearm.value)] else []
  }

  lemma StartWorld(uuid: string, name: string, now: int, start: Turn)
    ensures var w := StartActor(New(uuid, name, now), start);
      && w.settings == Protocol.Rearmed(NewSettings(uuid, name), true, start.reaction.rearm)
      && w.pipe.waiting == [] && w.replies == [SIGNAL] && !w.terminated
  {
  }

  lemma StartSeen(uuid: string, name: string, uuidGiven: bool, nameGiven: bool, now: int, start: Turn)
    ensures var s := Protocol.Begin(uuid, name, uuidGiven, nameGiven);
      Seen(Start(uuid, name, uuidGiven, nameGiven, now, start))
      == s.(actor := Protocol.Rearmed(s.actor, true, start.reaction.rearm))
  {
    hide StartActor, New, NewSettings, Encode;
    StartWorld(uuid, name, now, start);
  }

  lemma StartIsBegin(uuid: string, name: string, uuidGiven: bool, nameGiven: bool, now: int, start: Turn)
    ensures var p, s := Start(uuid, name, uuidGiven, nameGiven, now, start),
                        Protocol.Begin(uuid, name, uuidGiven, nameGiven);
      Protocol.Allowed(s, InitSteps(start)) && Protocol.Run(s, InitSteps(start)) == Seen(p)
  {
    hide Start, Seen, NewSettings, Protocol.Allowed, Protocol.Run, Protocol.Do, Protocol.Enabled;
    var s := Protocol.Begin(uuid, name, uuidGiven, nameGiven);
    StartSeen(uuid, name, uuidGiven, nameGiven, now, start);
    Nothing(s);
    if start.reaction.rearm.Some? {
      RearmStep(s, start.reaction.rearm.value);
      Then(s, [], Protocol.Rearm(start.reaction.rearm.value));
      assert [] + [InitSteps(start)[0]] == InitSteps(start);
    }
  }

  /** The whole of it is a run of the protocol from its beginning. */
  lemma {:induction false} WholeIsProtocol(uuid: string, name: string, uuidGiven: bool, nameGiven: bool, now: int,
                                           start: Turn, moves: seq<Move>)
    requires Allowed(Start(uuid, name, uuidGiven, nameGiven, now, start), moves)
    ensures var p, s := Start(uuid, name, uuidGiven, nameGiven, now, start),
                        Protocol.Begin(uuid, name, uuidGiven, nameGiven);
      && Protocol.Allowed(s, InitSteps(start) + Steps(p, moves))
      && Protocol.Run(s, InitSteps(start) + Steps(p, moves)) == Seen(Run(p, moves))
  {
    hide Start, Allowed, Run, Steps, Seen, Protocol.Allowed, Protocol.Run, Protocol.Begin, InitSteps;
    var p, s := Start(uuid, name, uuidGiven, nameGiven, now, start),
                Protocol.Begin(uuid, name, uuidGiven, nameGiven);
    StartIsBegin(uuid, name, uuidGiven, nameGiven, now, start);
    RunIsProtocol(p, moves);
    Both(s, InitSteps(start), Steps(p, moves));
  }

  function AllSteps(uuid: string, name: string, uuidGiven: bool, nameGiven: bool, now: int, start: Turn,
                    moves: seq<Move>): (steps: seq<Protocol.Step>)
    requires Allowed(Start(uuid, name, uuidGiven, nameGiven, now, start), moves)
    ensures Protocol.Allowed(Protocol.Begin(uuid, name, uuidGiven, nameGiven), steps)
  {
    WholeIsProtocol(uuid, name, uuidGiven, nameGiven, now, start, moves);
    InitSteps(start) + Steps(Start(uuid, name, uuidGiven, nameGiven, now, start), moves)
  }

  /**
   So the assertions of the controller hold on the real event loop: whatever arrives on SUB, whenever TIME
   fires and whatever the handler does, as long as no step leaves the lock-step, the reply the controller reads
   is the one the actor gave to its own request, and the actor is still there.
   */
  lemma {:induction false} LoopKeepsLockStep(uuid: string, name: string, uuidGiven: bool, nameGiven: bool, now: int,
                                             start: Turn, moves: seq<Move>)
    requires Allowed(Start(uuid, name, uuidGiven, nameGiven, now, start), moves)
    requires Protocol.AllHarmless(Protocol.Begin(uuid, name, uuidGiven, nameGiven),
                                  AllSteps(uuid, name, uuidGiven, nameGiven, now, start, moves))
    requires Protocol.AllSensible(AllSteps(uuid, name, uuidGiven, nameGiven, now, start, moves))
    ensures var p := Run(Start(uuid, name, uuidGiven, nameGiven, now, start), moves);
      && !p.world.terminated && Protocol.LockStep(Seen(p))
      && (p.ctl.waiting.Some? && p.taken < |p.world.replies| ==>
            && Protocol.EchoHolds(p.ctl.waiting.value, p.world.replies[p.taken])
            && Some(p.world.replies[p.taken]) == Reply(p.served, p.ctl.waiting.value))
  {
    hide Start, Allowed, Run, Steps, Protocol.Allowed, Protocol.Run, Protocol.AllHarmless, Protocol.AllSensible;
    hide InitSteps, Protocol.EchoHolds, Reply, Protocol.Begin;
    WholeIsProtocol(uuid, name, uuidGiven, nameGiven, now, start, moves);
    Protocol.AssertionsNeverFail(uuid, name, uuidGiven, nameGiven,
                                 AllSteps(uuid, name, uuidGiven, nameGiven, now, start, moves));
  }
}
