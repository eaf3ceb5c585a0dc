/**
 The command pipe between a controller (sphactor.c) and its actor: two FIFO queues, requests that are
 answered and commands that are not, remote commands arriving on SUB, and the controller's cached
 copies of what the actor told it. Commands stand for the frames that carry them (Wire.DecodeEncode).
 */
module Protocol {
  import opened Options
  import opened Wire
  import opened ActorModel
  import SubFilters
  import Decimal
  import ActorRuns
  import TurnEffects
  import TurnOutputs

  datatype Controller = Controller(
    waiting: Option<Command>,        // the request whose reply the controller blocks on
    uuid: Option<string>,
    name: Option<string>,
    typeName: Option<string>,
    endpoint: Option<string>,
    instance: bool,                  // the pointer to the actor is cached
    subscriptions: seq<string>,
    asked: Wishes                    // for stating what the controller gets
  )

  /** What the controller asked for last. */
  datatype Wishes = Wishes(timeout: int, reporting: bool, verbose: bool, filters: seq<string>)

  /**
   ended: the actor has left its loop, and its thread has signalled that on the pipe.
   served: the settings the last command from the pipe left, for stating what a reply says.
   */
  datatype System = System(
    ctl: Controller,
    actor: Settings,
    pipe: seq<Command>,
    replies: seq<Frames>,
    ended: bool,
    served: Settings
  )

  /** sphactor_new, once zactor_new has taken the start signal: a given name is sent as well. */
  function Begin(uuid: string, name: string, uuidGiven: bool, nameGiven: bool): System {
    System(Controller(None, if uuidGiven then Some(uuid) else None, None, None, None, false, [],
                      Wishes(-1, true, false, [])),
           NewSettings(uuid, name),
           if nameGiven then [SetName(name)] else [],
           [],
           false,
           NewSettings(uuid, name))
  }

  /** The requests of the sphactor_ask_* calls that wait for a reply. */
  predicate IsAsk(c: Command) {
    || c.Uuid? || c.Name? || c.Type? || c.Endpoint? || c.Timeout?
    || c.Connect? || c.Disconnect? || c.Filters? || c.Instance?
  }

  /** The commands of the calls that do not. */
  predicate IsTell(c: Command) {
    || c.SetName? || c.SetType? || c.SetVerbose? || c.SetReporting?
    || (c.SetTimeout? && c.timeout != 0)
    || c.FilterAdd? || c.FilterRemove?
  }

  /** The commands that put a message on the pipe; START with its signal, $TERM with that of the ending thread. */
  predicate Replies(c: Command) {
    IsAsk(c) || c.Capability? || Signals(c)
  }

  predicate Signals(c: Command) {
    c.Start? || c.Term?
  }

  predicate Cached(k: Controller, c: Command) {
    match c
    case Uuid => k.uuid.Some?
    case Name => k.name.Some?
    case Type => k.typeName.Some?
    case Endpoint => k.endpoint.Some?
    case Instance => k.instance
    case _ => false
  }

  /** The controller's own record of a command it sends; a type is cached at once. */
  function Note(k: Controller, c: Command): Controller {
    match c
    case SetTimeout(t) => k.(asked := k.asked.(timeout := t))
    case SetReporting(on) => k.(asked := k.asked.(reporting := on))
    case SetVerbose(on) => k.(asked := k.asked.(verbose := on))
    case FilterAdd(f) => k.(asked := k.asked.(filters := SubFilters.Reference(k.asked.filters, SubFilters.Add(f))))
    case FilterRemove(f) =>
      k.(asked := k.asked.(filters := SubFilters.Reference(k.asked.filters, SubFilters.Remove(f))))
    case _ => k
  }

  function NoteTell(k: Controller, c: Command): Controller {
    if c.SetType? then k.(typeName := Some(c.typeName)) else Note(k, c)
  }

  /** The assertions the controller makes on the reply to request c. */
  predicate EchoHolds(c: Command, r: Frames) {
    match c
    case Connect(dest) => r == ["CONNECTED", dest, "0"]
    case Disconnect(dest) => r == ["DISCONNECTED", dest, "0"]
    case Timeout => r != [] && r[0] != ""
    case Filters => !SubFilters.Decode(r).AssertionFails?
    case _ => r != []
  }

  lemma EchoNonempty(c: Command, r: Frames)
    requires EchoHolds(c, r)
    ensures r != []
  {
  }

  /** What the controller does with the reply. */
  function Absorb(k: Controller, c: Command, r: Frames): Controller
    requires EchoHolds(c, r)
  {
    match c
    case Uuid => k.(uuid := Some(r[0]))
    case Name => k.(name := Some(r[0]))
    case Type => k.(typeName := Some(r[0]))
    case Endpoint => k.(endpoint := Some(r[0]))
    case Instance => k.(instance := true)
    case Connect(dest) =>
      if dest in k.subscriptions then k else k.(subscriptions := k.subscriptions + [dest])
    case Disconnect(dest) => k.(subscriptions := SubFilters.Without(k.subscriptions, dest))
    case _ => k
  }

  /** What the actor puts on the pipe for a command; back is what its handler returns on an API event. */
  function Response(after: Settings, c: Command, back: Option<Frames>): Option<Frames> {
    if c.Unknown? then back
    else if Signals(c) then Some(SIGNAL)
    else Reply(after, c)
  }

  datatype Step =
    | Ask(request: Command)
    | Tell(command: Command)
    | Api(call: Command)                            // sphactor_ask_api, whatever its call decodes to
    | Serve(back: Option<Frames>)                   // the actor handles the next command of the pipe
    | Remote(remote: Command)                       // the actor handles a command from SUB; its answer is destroyed
    | Rearm(timeout: int)                           // the actor's handler sets its timeout itself
    | Receive

  predicate Enabled(s: System, step: Step) {
    match step
    case Ask(c) => s.ctl.waiting.None? && IsAsk(c) && !Cached(s.ctl, c)
    case Tell(c) => s.ctl.waiting.None? && IsTell(c)
    case Api(_) => s.ctl.waiting.None?
    case Serve(_) => !s.ended && s.pipe != [] && AssertsHold(s.actor, s.pipe[0])
    case Remote(c) => !s.ended && AssertsHold(s.actor, c)
    case Rearm(_) => !s.ended
    case Receive => s.ctl.waiting.Some? && s.replies != [] && EchoHolds(s.ctl.waiting.value, s.replies[0])
  }

  function Do(s: System, step: Step): System
    requires Enabled(s, step)
  {
    match step
    case Ask(c) => s.(ctl := s.ctl.(waiting := Some(c)), pipe := s.pipe + [c])
    case Tell(c) => s.(ctl := NoteTell(s.ctl, c), pipe := s.pipe + [c])
    case Api(c) => s.(ctl := Note(s.ctl, c), pipe := s.pipe + [c])
    case Serve(back) =>
      var after := Apply(s.actor, s.pipe[0]);
      var out := Response(after, s.pipe[0], back);
      s.(actor := after, served := after, pipe := s.pipe[1..], ended := s.pipe[0].Term?,
         replies := if out.Some? then s.replies + [out.value] else s.replies)
    case Remote(c) =>
      s.(actor := Apply(s.actor, c), ended := c.Term?,
         replies := if Signals(c) then s.replies + [SIGNAL] else s.replies)
    case Rearm(timeout) => s.(actor := s.actor.(timeout := timeout))
    case Receive =>
      s.(ctl := Absorb(s.ctl, s.ctl.waiting.value, s.replies[0]).(waiting := None), replies := s.replies[1..])
  }

  predicate Allowed(s: System, steps: seq<Step>)
    decreases |steps|
  {
    steps == [] || (Enabled(s, steps[0]) && Allowed(Do(s, steps[0]), steps[1..]))
  }

  function Run(s: System, steps: seq<Step>): System
    requires Allowed(s, steps)
    decreases |steps|
  {
    if steps == [] then s else Run(Do(s, steps[0]), steps[1..])
  }

  function AnswerFrames(a: Answer): Option<Frames> {
    if a.Message? then Some(a.frames) else None
  }

  /** The settings once the handler, if it was called, has set the timeout it wants. */
  function Rearmed(s: Settings, called: bool, rearm: Option<int>): Settings {
    if called && rearm.Some? then s.(timeout := rearm.value) else s
  }

  /**
   The actor's step is recv_api: it changes the settings and answers as in ActorModel; a set_timeout of the
   handler, in the commands that call it, comes on top. $TERM ends the loop, and the signal for it follows.
   */
  lemma ServeIsRecvApi(w: World, id: nat, c: Command, t: Turn)
    ensures var back := if t.reaction.outcome.Null? then None else Some(Body(t.reaction));
      var signal := if c.Start? then [SIGNAL] else [];
      && RecvApi(w, id, c, t).settings
         == Rearmed(Apply(w.settings, c), TurnEffects.CommandEvents(c, id) != [], t.reaction.rearm)
      && RecvApi(w, id, c, t).replies == w.replies + signal
      && RecvApi(w, id, c, t).terminated == (w.terminated || c.Term?)
      && (if Signals(c) then Some(SIGNAL) else AnswerFrames(AnswerApi(w, id, c, t)))
         == Response(Apply(w.settings, c), c, back)
      && (Signals(c) ==> AnswerApi(w, id, c, t).Nothing?)
  {
    hide RecvApi, AnswerApi, Reply, Apply, TurnEffects.CommandEvents;
    TurnEffects.RecvApiEffect(w, id, c, t);
    TurnOutputs.RecvApiOutputs(w, id, c, t);
    TurnOutputs.AnswerApiText(w, id, c, t);
    ActorRuns.RecvApiKeeps(w, id, c, t);
    if Signals(c) { SignalsSilent(Apply(w.settings, c), c); }
  }

  /** A remote command changes the settings in the same way; on the pipe it leaves START's signal or nothing. */
  lemma RemoteIsOnRemote(w: World, id: nat, c: Command, t: Turn)
    ensures var v := OnRemote(w, id, c, t);
      && v.settings == Rearmed(Apply(w.settings, c), TurnEffects.CommandEvents(c, id) != [], t.reaction.rearm)
      && v.replies == w.replies + (if c.Start? then [SIGNAL] else [])
      && v.terminated == (w.terminated || c.Term?)
  {
    hide RecvApi, AnswerApi, Apply, TurnEffects.CommandEvents;
    ServeIsRecvApi(w, id, c, t);
  }

  lemma SignalsSilent(s: Settings, c: Command)
    requires Signals(c)
    ensures Reply(s, c) == None
  {
  }

  /** What is cached is not asked for again; everything else can be asked whenever nothing is outstanding. */
  lemma AskedExactly(s: System, dest: string)
    ensures Enabled(s, Ask(Uuid)) <==> s.ctl.waiting.None? && s.ctl.uuid.None?
    ensures Enabled(s, Ask(Name)) <==> s.ctl.waiting.None? && s.ctl.name.None?
    ensures Enabled(s, Ask(Type)) <==> s.ctl.waiting.None? && s.ctl.typeName.None?
    ensures Enabled(s, Ask(Endpoint)) <==> s.ctl.waiting.None? && s.ctl.endpoint.None?
    ensures Enabled(s, Ask(Instance)) <==> s.ctl.waiting.None? && !s.ctl.instance
    ensures Enabled(s, Ask(Timeout)) <==> s.ctl.waiting.None?
    ensures Enabled(s, Ask(Filters)) <==> s.ctl.waiting.None?
    ensures Enabled(s, Ask(Connect(dest))) <==> s.ctl.waiting.None?
    ensures Enabled(s, Ask(Disconnect(dest))) <==> s.ctl.waiting.None?
  {
  }

  /**
   A command from the pipe can be served exactly when the actor is there, its argument is, it does not connect the
   actor to itself, and it disconnects from nothing else than what is connected.
   */
  lemma ServedExactly(s: System, back: Option<Frames>)
    ensures Enabled(s, Serve(back)) <==>
      && !s.ended && s.pipe != [] && !s.pipe[0].Malformed?
      && (s.pipe[0].Connect? ==> s.pipe[0].dest != s.actor.endpoint)
      && (s.pipe[0].Disconnect? ==> s.pipe[0].dest in s.actor.connected)
  {
  }

  // ---------------------------------------------------------------- lock-step

  function Count(pipe: seq<Command>): nat {
    if pipe == [] then 0 else (if Replies(pipe[0]) then 1 else 0) + Count(pipe[1..])
  }

  lemma {:induction false} CountAppend(pipe: seq<Command>, c: Command)
    ensures Count(pipe + [c]) == Count(pipe) + (if Replies(c) then 1 else 0)
  {
    if pipe == [] {
      assert (pipe + [c])[1..] == [];
    } else {
      assert (pipe + [c])[1..] == pipe[1..] + [c];
      CountAppend(pipe[1..], c);
    }
  }

  /**
   The actor is there, and commands still to be answered and answers still to be read are one while the
   controller waits, else none.
   */
  predicate LockStep(s: System) {
    !s.ended && Count(s.pipe) + |s.replies| == (if s.ctl.waiting.Some? then 1 else 0)
  }

  /**
   The ways out of step: an API call that is answered or ends the actor, a handler that answers an API event,
   the $TERM itself, and a START or $TERM from SUB, whose signal goes on the pipe.
   */
  predicate Harmless(s: System, step: Step) {
    match step
    case Api(c) => !Replies(c)
    case Serve(back) => s.pipe != [] ==> !s.pipe[0].Term? && (s.pipe[0].Unknown? ==> back.None?)
    case Remote(c) => !Signals(c)
    case _ => true
  }

  lemma ReplyExactly(s: Settings, c: Command)
    ensures c.Unknown? || (Replies(c) <==> Response(s, c, None).Some?)
  {
  }

  lemma StepLockStepExactly(s: System, step: Step)
    requires LockStep(s) && Enabled(s, step)
    ensures LockStep(Do(s, step)) <==> Harmless(s, step)
  {
    hide Apply, Response, AssertsHold, Absorb, EchoHolds;
    match step
    case Ask(c) => CountAppend(s.pipe, c);
    case Tell(c) => CountAppend(s.pipe, c);
    case Api(c) => CountAppend(s.pipe, c);
    case Serve(back) => ServeCounts(s, back);
    case Remote(_) =>
    case Rearm(_) =>
    case Receive =>
  }

  lemma ServeCounts(s: System, back: Option<Frames>)
    requires s.pipe != []
    ensures var c := s.pipe[0];
      var out := Response(Apply(s.actor, c), c, back);
      Count(s.pipe[1..]) + (if out.Some? then 1 else 0)
      == Count(s.pipe) + (if c.Unknown? && back.Some? then 1 else 0)
  {
    hide Apply;
    ReplyExactly(Apply(s.actor, s.pipe[0]), s.pipe[0]);
  }

  predicate AllHarmless(s: System, steps: seq<Step>)
    requires Allowed(s, steps)
    decreases |steps|
  {
    steps == [] || (Harmless(s, steps[0]) && AllHarmless(Do(s, steps[0]), steps[1..]))
  }

  /** So with handlers that return NULL on API events, every interleaving stays in step. */
  lemma {:induction false} RunLockStep(s: System, steps: seq<Step>)
    requires LockStep(s) && Allowed(s, steps) && AllHarmless(s, steps)
    ensures LockStep(Run(s, steps))
    decreases |steps|
  {
    hide Do, Enabled, LockStep, Harmless;
    if steps != [] {
      StepLockStepExactly(s, steps[0]);
      RunLockStep(Do(s, steps[0]), steps[1..]);
    }
  }

  // ---------------------------------------------------------------- every request gets its own reply

  /** The filter commands carry a nonempty filter. */
  predicate Sensible(c: Command) {
    c.FilterAdd? || c.FilterRemove? ==> c.filter != ""
  }

  predicate FiltersOk(s: Settings) {
    s.sub.filters.Some? ==> s.sub.filters.value != [] && "" !in s.sub.filters.value
  }

  predicate SensibleStep(step: Step) {
    match step
    case Tell(c) => Sensible(c)
    case Api(c) => Sensible(c)
    case Remote(c) => Sensible(c)
    case _ => true
  }

  predicate Unanswered(c: Command, pipe: seq<Command>) {
    pipe != [] && pipe[|pipe| - 1] == c && Count(pipe[..|pipe| - 1]) == 0
  }

  /** The request is last in the pipe, unanswered; or the pipe is empty and its reply is there. */
  predicate Matched(s: System) {
    && !s.ended && FiltersOk(s.actor) && (forall c :: c in s.pipe ==> Sensible(c))
    && match s.ctl.waiting
       case None => Count(s.pipe) == 0 && s.replies == []
       case Some(c) =>
         && IsAsk(c)
         && ((s.replies == [] && Unanswered(c, s.pipe))
             || (s.pipe == [] && |s.replies| == 1
                 && Some(s.replies[0]) == Reply(s.served, c) && EchoHolds(c, s.replies[0])))
  }

  lemma ApplyFiltersOk(s: Settings, c: Command)
    requires FiltersOk(s) && Sensible(c)
    ensures FiltersOk(Apply(s, c))
  {
    if c.FilterAdd? || c.FilterRemove? {
      if c.FilterRemove? && s.sub.filters.Some? { WithoutStays(s.sub.filters.value, c.filter); }
    }
  }

  lemma {:induction false} WithoutStays(list: seq<string>, f: string)
    ensures forall g :: g in SubFilters.Without(list, f) ==> g in list
  {
    if list != [] && list[0] != f { WithoutStays(list[1..], f); }
  }

  /** What the actor replies to a request passes the controller's assertions. */
  lemma ReplyEchoes(s: Settings, c: Command)
    requires IsAsk(c) && FiltersOk(s)
    ensures Reply(s, c).Some? && EchoHolds(c, Reply(s, c).value)
  {
    if c.Timeout? { Decimal.PrintParse(s.timeout); }
    if c.Filters? { SubFilters.DecodeExactly(s.sub.filters); }
  }

  lemma ServeMatched(s: System, back: Option<Frames>)
    requires Matched(s) && Enabled(s, Serve(back)) && Harmless(s, Serve(back))
    ensures Matched(Do(s, Serve(back)))
  {
    hide Apply, Reply, EchoHolds, AssertsHold, FiltersOk, Sensible;
    var c, rest := s.pipe[0], s.pipe[1..];
    var after := Apply(s.actor, c);
    ApplyFiltersOk(s.actor, c);
    if s.ctl.waiting.Some? {
      var request := s.ctl.waiting.value;
      if rest == [] {
        assert s.pipe[|s.pipe| - 1] == c;
        ReplyEchoes(after, c);
      } else {
        assert s.pipe[..|s.pipe| - 1][0] == c && s.pipe[..|s.pipe| - 1][1..] == rest[..|rest| - 1];
        ReplyExactly(after, c);
      }
    } else {
      ReplyExactly(after, c);
    }
  }

  lemma AskMatched(s: System, c: Command)
    requires Matched(s) && Enabled(s, Ask(c))
    ensures Matched(Do(s, Ask(c)))
  {
    hide Cached, EchoHolds, FiltersOk, Reply;
    assert (s.pipe + [c])[..|s.pipe|] == s.pipe;
  }

  /** A command without a reply is sent. */
  lemma SendMatched(s: System, k: Controller, c: Command)
    requires Matched(s) && s.ctl.waiting.None? && k.waiting.None? && !Replies(c) && Sensible(c)
    ensures Matched(s.(ctl := k, pipe := s.pipe + [c]))
  {
    hide Replies, EchoHolds, FiltersOk, Reply, Sensible;
    CountAppend(s.pipe, c);
  }

  lemma ReceiveMatched(s: System)
    requires Matched(s) && Enabled(s, Receive)
    ensures Matched(Do(s, Receive))
  {
    hide EchoHolds, FiltersOk, Reply, Absorb;
  }

  lemma RemoteMatched(s: System, c: Command)
    requires Matched(s) && Sensible(c) && !Signals(c) && Enabled(s, Remote(c))
    ensures Matched(Do(s, Remote(c)))
  {
    hide Apply, EchoHolds, FiltersOk, Reply, AssertsHold, Unanswered;
    ApplyFiltersOk(s.actor, c);
  }

  lemma RearmMatched(s: System, timeout: int)
    requires Matched(s)
    ensures Matched(Do(s, Rearm(timeout)))
  {
    hide EchoHolds, Reply, Unanswered;
  }

  lemma NoteWaits(k: Controller, c: Command)
    ensures Note(k, c).waiting == k.waiting && NoteTell(k, c).waiting == k.waiting
  {
  }

  lemma TellReplies(c: Command)
    requires IsTell(c)
    ensures !Replies(c)
  {
  }

  lemma StepMatched(s: System, step: Step)
    requires Matched(s) && Enabled(s, step) && Harmless(s, step) && SensibleStep(step)
    ensures Matched(Do(s, step))
  {
    hide Matched, Note, NoteTell, Apply, Response, AssertsHold, Absorb, IsTell, Replies, Cached, EchoHolds, Sensible;
    match step
    case Ask(c) => AskMatched(s, c);
    case Tell(c) =>
      NoteWaits(s.ctl, c);
      TellReplies(c);
      SendMatched(s, NoteTell(s.ctl, c), c);
    case Api(c) =>
      NoteWaits(s.ctl, c);
      SendMatched(s, Note(s.ctl, c), c);
    case Serve(back) => ServeMatched(s, back);
    case Remote(c) => RemoteMatched(s, c);
    case Rearm(timeout) => RearmMatched(s, timeout);
    case Receive => ReceiveMatched(s);
  }

  predicate AllSensible(steps: seq<Step>) {
    forall step :: step in steps ==> SensibleStep(step)
  }

  lemma {:induction false} RunMatched(s: System, steps: seq<Step>)
    requires Matched(s) && Allowed(s, steps) && AllHarmless(s, steps) && AllSensible(steps)
    ensures Matched(Run(s, steps))
    decreases |steps|
  {
    hide Do, Enabled, Matched, Harmless, SensibleStep;
    if steps != [] {
      assert steps[0] in steps;
      StepMatched(s, steps[0]);
      RunMatched(Do(s, steps[0]), steps[1..]);
    }
  }

  lemma BeginMatched(uuid: string, name: string, uuidGiven: bool, nameGiven: bool)
    ensures Matched(Begin(uuid, name, uuidGiven, nameGiven))
  {
  }

  /**
   In every interleaving of controller, actor and remote commands: at most one reply is outstanding, only
   while the controller waits, it is what the actor answered to the controller's own request when it served
   it, and the assertions on it (CONNECTED, DISCONNECTED, nonempty) hold.
   */
  lemma {:induction false} AssertionsNeverFail(uuid: string, name: string, uuidGiven: bool, nameGiven: bool,
                                               steps: seq<Step>)
    requires Allowed(Begin(uuid, name, uuidGiven, nameGiven), steps)
    requires AllHarmless(Begin(uuid, name, uuidGiven, nameGiven), steps) && AllSensible(steps)
    ensures var s := Run(Begin(uuid, name, uuidGiven, nameGiven), steps);
      && LockStep(s) && !s.ended
      && (s.ctl.waiting.Some? && s.replies != [] ==>
            && EchoHolds(s.ctl.waiting.value, s.replies[0])
            && Some(s.replies[0]) == Reply(s.served, s.ctl.waiting.value))
  {
    hide Run, Allowed, AllHarmless, EchoHolds;
    BeginMatched(uuid, name, uuidGiven, nameGiven);
    assert LockStep(Begin(uuid, name, uuidGiven, nameGiven));
    RunLockStep(Begin(uuid, name, uuidGiven, nameGiven), steps);
    RunMatched(Begin(uuid, name, uuidGiven, nameGiven), steps);
  }

  /** The stock Log and Count actors return ev->msg on API events: the next reply read is not the controller's own. */
  lemma EchoedApiBreaksConnect(dest: string, frames: Frames)
    requires frames != ["CONNECTED", dest, "0"]
    ensures var s0 := Begin("u", "n", true, false);
      var s1 := Do(s0, Api(Unknown(frames)));
      var s2 := Do(s1, Serve(Some(frames)));
      && s2.replies == [frames] && !LockStep(s2)
      && var s3 := Do(s2, Ask(Connect(dest)));
         s3.ctl.waiting == Some(Connect(dest)) && !EchoHolds(Connect(dest), s3.replies[0])
  {
  }

  /**
   An ask_api with the text $TERM ends the actor: a connect sent after it is never read, and what the
   controller receives for it is the signal of the ended thread.
   */
  lemma TermBreaksConnect(dest: string)
    ensures var s0 := Begin("u", "n", true, false);
      var s1 := Do(Do(s0, Api(Term)), Ask(Connect(dest)));
      var s2 := Do(s1, Serve(None));
      && s2.ended && s2.pipe == [Connect(dest)] && s2.replies == [SIGNAL]
      && (forall back :: !Enabled(s2, Serve(back))) && !EchoHolds(Connect(dest), s2.replies[0])
  {
    assert ["signal 0"] != ["CONNECTED", dest, "0"];
  }

  // ---------------------------------------------------------------- the caches

  /** The actor's settings once every command still in the pipe has reached it. */
  function Fold(s: Settings, pipe: seq<Command>): Settings
    decreases |pipe|
  {
    if pipe == [] then s else Fold(Apply(s, pipe[0]), pipe[1..])
  }

  lemma {:induction false} FoldAppend(s: Settings, pipe: seq<Command>, c: Command)
    ensures Fold(s, pipe + [c]) == Apply(Fold(s, pipe), c)
    decreases |pipe|
  {
    hide Apply;
    if pipe == [] {
      assert (pipe + [c])[1..] == [];
    } else {
      assert (pipe + [c])[1..] == pipe[1..] + [c];
      FoldAppend(Apply(s, pipe[0]), pipe[1..], c);
    }
  }

  /** Commands without a reply do not touch identity or connections. */
  lemma {:induction false} FoldKeeps(s: Settings, pipe: seq<Command>)
    requires Count(pipe) == 0
    ensures Fold(s, pipe).connected == s.connected
    decreases |pipe|
  {
    if pipe != [] {
      ApplyKeeps(s, pipe[0]);
      FoldKeeps(Apply(s, pipe[0]), pipe[1..]);
    }
  }

  lemma ApplyKeeps(s: Settings, c: Command)
    requires !Replies(c)
    ensures Apply(s, c).connected == s.connected
  {
  }

  function Members(list: seq<string>): set<string> {
    set e | e in list
  }

  /** The connections the actor has once the outstanding request, if any, has been carried out. */
  function Connections(k: Controller): set<string> {
    match k.waiting
    case Some(Connect(dest)) => Members(k.subscriptions) + {dest}
    case Some(Disconnect(dest)) => Members(k.subscriptions) - {dest}
    case _ => Members(k.subscriptions)
  }

  /**
   The names and types that were sent, through any call: the last ones, and those that were the last when the
   controller took its copy.
   */
  datatype Texts = Texts(name: string, typeName: Option<string>, nameTaken: string, typeTaken: string)

  function FirstTexts(name: string): Texts {
    Texts(name, None, name, "")
  }

  function TextOf(typeName: Option<string>): string {
    if typeName.Some? then typeName.value else ""
  }

  /** A command is sent. */
  function Send(h: Texts, c: Command): Texts {
    match c
    case SetName(name) => h.(name := name)
    case SetType(t) => h.(typeName := Some(t))
    case _ => h
  }

  /** A copy is taken: by asking, or of a type by sphactor_ask_set_actor_type. */
  function TakeStep(h: Texts, step: Step): Texts {
    match step
    case Ask(Name) => h.(nameTaken := h.name)
    case Ask(Type) => h.(typeTaken := TextOf(h.typeName))
    case Tell(SetType(t)) => Send(h, SetType(t)).(typeTaken := t)
    case Tell(c) => Send(h, c)
    case Api(c) => Send(h, c)
    case _ => h
  }

  function TakeAll(h: Texts, steps: seq<Step>): Texts
    decreases |steps|
  {
    if steps == [] then h else TakeAll(TakeStep(h, steps[0]), steps[1..])
  }

  predicate TextsAgree(k: Controller, actor: Settings, f: Settings, h: Texts) {
    && (k.uuid.Some? ==> k.uuid.value == actor.uuid)
    && (k.endpoint.Some? ==> k.endpoint.value == actor.endpoint)
    && f.uuid == actor.uuid && f.endpoint == actor.endpoint
    && f.name == h.name && f.actorType == h.typeName
    && (k.name.Some? ==> k.name.value == h.nameTaken)
    && (k.typeName.Some? ==> k.typeName.value == h.typeTaken)
    && (k.waiting == Some(Name) ==> h.nameTaken == h.name)
    && (k.waiting == Some(Type) ==> h.typeTaken == TextOf(h.typeName))
  }

  predicate RequestsAgree(k: Controller, f: Settings) {
    && k.asked.timeout == f.timeout && k.asked.reporting == f.reporting && k.asked.verbose == f.verbose
    && f.sub.filters == SubFilters.ListOrNull(k.asked.filters)
    && SubFilters.Distinct(k.subscriptions)
    && f.connected == Connections(k)
  }

  /** The controller's copies agree with the actor modulo the commands still in the pipe. */
  predicate Agree(s: System, h: Texts) {
    && Matched(s)
    && TextsAgree(s.ctl, s.actor, Fold(s.actor, s.pipe), h)
    && RequestsAgree(s.ctl, Fold(s.actor, s.pipe))
    && s.served == s.actor
  }

  /** All changes go through the controller's calls. */
  predicate ThroughController(step: Step) {
    !step.Remote? && !step.Rearm?
  }

  lemma {:induction false} SetMembers(list: seq<string>, dest: string)
    requires SubFilters.Distinct(list)
    ensures Members(list + [dest]) == Members(list) + {dest}
    ensures dest !in list ==> SubFilters.Distinct(list + [dest])
    ensures Members(SubFilters.Without(list, dest)) == Members(list) - {dest}
    ensures SubFilters.Distinct(SubFilters.Without(list, dest))
  {
    SubFilters.WithoutMembers(list, dest);
  }

  /** Sending a request. */
  lemma AskAgrees(k: Controller, actor: Settings, f: Settings, h: Texts, c: Command)
    requires TextsAgree(k, actor, f, h) && RequestsAgree(k, f) && IsAsk(c) && !Cached(k, c) && k.waiting.None?
    ensures TextsAgree(k.(waiting := Some(c)), actor, Apply(f, c), TakeStep(h, Ask(c)))
    ensures RequestsAgree(k.(waiting := Some(c)), Apply(f, c))
  {
  }

  /** Sending any other command. */
  lemma NoteAgrees(k: Controller, actor: Settings, f: Settings, h: Texts, c: Command)
    requires TextsAgree(k, actor, f, h) && RequestsAgree(k, f) && !Replies(c) && k.waiting.None?
    ensures TextsAgree(Note(k, c), actor, Apply(f, c), Send(h, c)) && RequestsAgree(Note(k, c), Apply(f, c))
  {
    hide SubFilters.Apply, SubFilters.Reference, SubFilters.Distinct;
    if c.FilterAdd? { SubFilters.StepRefines(f.sub, k.asked.filters, SubFilters.Add(c.filter)); }
    if c.FilterRemove? { SubFilters.StepRefines(f.sub, k.asked.filters, SubFilters.Remove(c.filter)); }
  }

  lemma TypeAgrees(k: Controller, actor: Settings, f: Settings, h: Texts, t: string)
    requires TextsAgree(k, actor, f, h) && RequestsAgree(k, f) && k.waiting.None?
    ensures var c := SetType(t);
      && TextsAgree(NoteTell(k, c), actor, Apply(f, c), TakeStep(h, Tell(c)))
      && RequestsAgree(NoteTell(k, c), Apply(f, c))
  {
  }

  lemma TellAgrees(k: Controller, actor: Settings, f: Settings, h: Texts, c: Command)
    requires TextsAgree(k, actor, f, h) && RequestsAgree(k, f) && IsTell(c) && k.waiting.None?
    ensures TextsAgree(NoteTell(k, c), actor, Apply(f, c), TakeStep(h, Tell(c)))
    ensures RequestsAgree(NoteTell(k, c), Apply(f, c))
  {
    hide TextsAgree, RequestsAgree, Note, Apply, Send, IsTell, Replies;
    TellReplies(c);
    if c.SetType? { TypeAgrees(k, actor, f, h, c.typeName); } else { NoteAgrees(k, actor, f, h, c); }
  }

  /** Reading the reply, with nothing left in the pipe. */
  lemma AbsorbAgrees(k: Controller, actor: Settings, h: Texts, c: Command, r: Frames)
    requires TextsAgree(k, actor, actor, h) && RequestsAgree(k, actor) && IsAsk(c) && k.waiting == Some(c)
    requires Some(r) == Reply(actor, c) && EchoHolds(c, r)
    ensures var v := Absorb(k, c, r).(waiting := None); TextsAgree(v, actor, actor, h) && RequestsAgree(v, actor)
  {
    hide SubFilters.Reply, SubFilters.Decode;
    if c.Connect? || c.Disconnect? { SetMembers(k.subscriptions, c.dest); }
  }

  /** The actor handling its next command leaves the folded settings as they are. */
  lemma ServeAgrees(s: System, back: Option<Frames>, h: Texts)
    requires Agree(s, h) && Enabled(s, Serve(back)) && Harmless(s, Serve(back))
    ensures Agree(Do(s, Serve(back)), h)
  {
    hide Apply, Matched, EchoHolds, AssertsHold, RequestsAgree;
    ServeMatched(s, back);
    ServeIdentity(s.actor, s.pipe[0]);
  }

  lemma ServeIdentity(s: Settings, c: Command)
    ensures Apply(s, c).uuid == s.uuid && Apply(s, c).endpoint == s.endpoint
  {
  }

  lemma StepAgrees(s: System, step: Step, h: Texts)
    requires Agree(s, h) && Enabled(s, step) && Harmless(s, step) && SensibleStep(step) && ThroughController(step)
    ensures Agree(Do(s, step), TakeStep(h, step))
  {
    hide Apply, Matched, TextsAgree, RequestsAgree, EchoHolds, AssertsHold, Absorb, Note, NoteTell, Response, Reply;
    hide IsTell, Replies, Cached, Send;
    StepMatched(s, step);
    MatchedQuiet(s);
    var f := Fold(s.actor, s.pipe);
    match step
    case Ask(c) =>
      FoldAppend(s.actor, s.pipe, c);
      AskAgrees(s.ctl, s.actor, f, h, c);
    case Tell(c) =>
      FoldAppend(s.actor, s.pipe, c);
      TellAgrees(s.ctl, s.actor, f, h, c);
    case Api(c) =>
      FoldAppend(s.actor, s.pipe, c);
      NoteAgrees(s.ctl, s.actor, f, h, c);
    case Serve(back) =>
      ServeAgrees(s, back, h);
    case Receive =>
      AbsorbAgrees(s.ctl, s.actor, h, s.ctl.waiting.value, s.replies[0]);
      AbsorbAwaits(s.ctl, s.ctl.waiting.value, s.replies[0]);
  }

  /** While nothing is outstanding no reply waits; and a reply waits only with the pipe empty. */
  lemma MatchedQuiet(s: System)
    requires Matched(s)
    ensures s.ctl.waiting.None? ==> s.replies == []
    ensures s.replies != [] ==>
      && s.pipe == [] && |s.replies| == 1 && IsAsk(s.ctl.waiting.value)
      && Some(s.replies[0]) == Reply(s.served, s.ctl.waiting.value)
  {
    hide Reply;
  }

  lemma AbsorbAwaits(k: Controller, c: Command, r: Frames)
    requires EchoHolds(c, r)
    ensures Absorb(k, c, r).waiting == k.waiting
  {
  }

  predicate AllThroughController(steps: seq<Step>) {
    forall step :: step in steps ==> SensibleStep(step) && ThroughController(step)
  }

  lemma {:induction false} RunAgrees(s: System, steps: seq<Step>, h: Texts)
    requires Agree(s, h) && Allowed(s, steps) && AllHarmless(s, steps) && AllThroughController(steps)
    ensures Agree(Run(s, steps), TakeAll(h, steps))
    decreases |steps|
  {
    hide Do, Enabled, Agree, Harmless, SensibleStep, ThroughController, TakeStep;
    if steps != [] {
      assert steps[0] in steps;
      StepAgrees(s, steps[0], h);
      RunAgrees(Do(s, steps[0]), steps[1..], TakeStep(h, steps[0]));
    }
  }

  lemma BeginAgrees(uuid: string, name: string, uuidGiven: bool, nameGiven: bool)
    ensures Agree(Begin(uuid, name, uuidGiven, nameGiven), FirstTexts(name))
  {
    BeginMatched(uuid, name, uuidGiven, nameGiven);
  }

  // ---------------------------------------------------------------- the order of filters and connections

  /** The filter operation that a call sends. */
  function FilterOp(step: Step): seq<SubFilters.Op> {
    match step
    case Tell(FilterAdd(f)) => [SubFilters.Add(f)]
    case Tell(FilterRemove(f)) => [SubFilters.Remove(f)]
    case Api(FilterAdd(f)) => [SubFilters.Add(f)]
    case Api(FilterRemove(f)) => [SubFilters.Remove(f)]
    case _ => []
  }

  function FilterOps(steps: seq<Step>): seq<SubFilters.Op> {
    if steps == [] then [] else FilterOp(steps[0]) + FilterOps(steps[1..])
  }

  /** A connect adds its endpoint, a disconnect removes it. */
  function ConnectionOp(step: Step): seq<SubFilters.Op> {
    match step
    case Ask(Connect(dest)) => [SubFilters.Add(dest)]
    case Ask(Disconnect(dest)) => [SubFilters.Remove(dest)]
    case _ => []
  }

  function ConnectionOps(steps: seq<Step>): seq<SubFilters.Op> {
    if steps == [] then [] else ConnectionOp(steps[0]) + ConnectionOps(steps[1..])
  }

  /** The list of connections once the outstanding request has been answered. */
  function Answered(k: Controller): seq<string> {
    match k.waiting
    case Some(Connect(dest)) => if dest in k.subscriptions then k.subscriptions else k.subscriptions + [dest]
    case Some(Disconnect(dest)) => SubFilters.Without(k.subscriptions, dest)
    case _ => k.subscriptions
  }

  lemma {:induction false} ReferenceMore(list: seq<string>, a: seq<SubFilters.Op>, b: seq<SubFilters.Op>)
    requires |a| <= 1
    ensures SubFilters.ReferenceRun(list, a + b) == SubFilters.ReferenceRun(SubFilters.ReferenceRun(list, a), b)
  {
    if a == [] {
      assert a + b == b;
    } else {
      assert (a + b)[1..] == b && a[1..] == [];
    }
  }

  lemma StepLists(s: System, step: Step)
    requires Enabled(s, step)
    ensures Do(s, step).ctl.asked.filters == SubFilters.ReferenceRun(s.ctl.asked.filters, FilterOp(step))
    ensures Answered(Do(s, step).ctl) == SubFilters.ReferenceRun(Answered(s.ctl), ConnectionOp(step))
  {
    hide Apply, Response, EchoHolds, AssertsHold, SubFilters.Without, Cached;
    assert FilterOp(step) != [] ==> FilterOp(step)[1..] == [];
    assert ConnectionOp(step) != [] ==> ConnectionOp(step)[1..] == [];
  }

  lemma {:induction false} RunLists(s: System, steps: seq<Step>)
    requires Allowed(s, steps)
    ensures Run(s, steps).ctl.asked.filters == SubFilters.ReferenceRun(s.ctl.asked.filters, FilterOps(steps))
    ensures Answered(Run(s, steps).ctl) == SubFilters.ReferenceRun(Answered(s.ctl), ConnectionOps(steps))
    decreases |steps|
  {
    hide Do, Enabled, Answered, FilterOp, ConnectionOp;
    if steps != [] {
      StepLists(s, steps[0]);
      RunLists(Do(s, steps[0]), steps[1..]);
      OneOp(steps[0]);
      ReferenceMore(s.ctl.asked.filters, FilterOp(steps[0]), FilterOps(steps[1..]));
      ReferenceMore(Answered(s.ctl), ConnectionOp(steps[0]), ConnectionOps(steps[1..]));
    }
  }

  lemma OneOp(step: Step)
    ensures |FilterOp(step)| <= 1 && |ConnectionOp(step)| <= 1
  {
  }

  /** Both lists hold what was added and not removed since, in the order in which it was put there. */
  lemma {:induction false} ListsInOrder(uuid: string, name: string, uuidGiven: bool, nameGiven: bool, steps: seq<Step>)
    requires Allowed(Begin(uuid, name, uuidGiven, nameGiven), steps)
    ensures var k := Run(Begin(uuid, name, uuidGiven, nameGiven), steps).ctl;
      && SubFilters.InOrder(FilterOps(steps), k.asked.filters)
      && (k.waiting.None? ==> SubFilters.InOrder(ConnectionOps(steps), k.subscriptions))
  {
    hide Run, Allowed, SubFilters.InOrder, FilterOps, ConnectionOps;
    RunLists(Begin(uuid, name, uuidGiven, nameGiven), steps);
    SubFilters.ReferenceInOrder(FilterOps(steps));
    SubFilters.ReferenceInOrder(ConnectionOps(steps));
  }

  /**
   If all changes go through the controller: the cached texts agree with the actor as far as TextsAgree says; the
   switches and the timeout the controller last set are the actor's once the pipe is empty; when nothing is
   outstanding the duplicate-free subscription list is exactly the set of endpoints the actor is connected to,
   in the order of the connects; and a
   disconnect made then passes the actor's assertion exactly when its endpoint is in that list.
   */
  lemma {:induction false} CachesAgree(uuid: string, name: string, uuidGiven: bool, nameGiven: bool, steps: seq<Step>)
    requires Allowed(Begin(uuid, name, uuidGiven, nameGiven), steps)
    requires AllHarmless(Begin(uuid, name, uuidGiven, nameGiven), steps) && AllThroughController(steps)
    ensures var s := Run(Begin(uuid, name, uuidGiven, nameGiven), steps);
      var f := Fold(s.actor, s.pipe);
      && TextsAgree(s.ctl, s.actor, f, TakeAll(FirstTexts(name), steps))
      && f.reporting == s.ctl.asked.reporting && f.verbose == s.ctl.asked.verbose && f.timeout == s.ctl.asked.timeout
      && (s.ctl.waiting.None? ==>
            && SubFilters.Distinct(s.ctl.subscriptions)
            && Members(s.ctl.subscriptions) == s.actor.connected
            && SubFilters.InOrder(ConnectionOps(steps), s.ctl.subscriptions)
            && forall e :: AssertsHold(f, Disconnect(e)) <==> e in s.ctl.subscriptions)
  {
    hide Run, Allowed, AllHarmless, TakeAll, ConnectionOps, SubFilters.InOrder;
    ListsInOrder(uuid, name, uuidGiven, nameGiven, steps);
    BeginAgrees(uuid, name, uuidGiven, nameGiven);
    RunAgrees(Begin(uuid, name, uuidGiven, nameGiven), steps, FirstTexts(name));
    var s := Run(Begin(uuid, name, uuidGiven, nameGiven), steps);
    if s.ctl.waiting.None? { FoldKeeps(s.actor, s.pipe); }
  }

  /**
   The copies of name and type. Once the pipe is empty the actor has the name and the type that were sent last,
   through whatever call. A copy is what had been sent last when it was taken, so it agrees with the actor if
   and only if that is still what was sent last.
   */
  lemma {:induction false} CopiesAgreeExactly(uuid: string, name: string, uuidGiven: bool, nameGiven: bool,
                                              steps: seq<Step>)
    requires Allowed(Begin(uuid, name, uuidGiven, nameGiven), steps)
    requires AllHarmless(Begin(uuid, name, uuidGiven, nameGiven), steps) && AllThroughController(steps)
    ensures var s := Run(Begin(uuid, name, uuidGiven, nameGiven), steps);
      var f, h := Fold(s.actor, s.pipe), TakeAll(FirstTexts(name), steps);
      && f.name == h.name && TypeText(f) == TextOf(h.typeName)
      && (s.ctl.name.Some? ==>
            s.ctl.name.value == h.nameTaken && (s.ctl.name.value == f.name <==> h.nameTaken == h.name))
      && (s.ctl.typeName.Some? ==>
            && s.ctl.typeName.value == h.typeTaken
            && (s.ctl.typeName.value == TypeText(f) <==> h.typeTaken == TextOf(h.typeName)))
  {
    hide Run, Allowed, AllHarmless, TakeAll, Matched, RequestsAgree;
    BeginAgrees(uuid, name, uuidGiven, nameGiven);
    RunAgrees(Begin(uuid, name, uuidGiven, nameGiven), steps, FirstTexts(name));
  }

  /** The controller never waits for what it has cached. */
  predicate AsksUncached(k: Controller) {
    k.waiting.Some? ==> !Cached(k, k.waiting.value)
  }

  lemma StepKeepsName(s: System, step: Step)
    requires AsksUncached(s.ctl) && Enabled(s, step)
    ensures AsksUncached(Do(s, step).ctl)
    ensures s.ctl.name.Some? ==> Do(s, step).ctl.name == s.ctl.name
  {
    hide Apply, Response, EchoHolds, AssertsHold, IsAsk, SubFilters.Reference, SubFilters.Without;
  }

  lemma {:induction false} RunKeepsName(s: System, steps: seq<Step>)
    requires AsksUncached(s.ctl) && Allowed(s, steps)
    ensures AsksUncached(Run(s, steps).ctl)
    ensures s.ctl.name.Some? ==> Run(s, steps).ctl.name == s.ctl.name
    decreases |steps|
  {
    hide Do, Enabled, AsksUncached;
    if steps != [] {
      StepKeepsName(s, steps[0]);
      RunKeepsName(Do(s, steps[0]), steps[1..]);
    }
  }

  /** A cached name is never replaced, whatever is done afterwards by anyone. */
  lemma {:induction false} CachedNameStays(uuid: string, name: string, uuidGiven: bool, nameGiven: bool,
                        before: seq<Step>, after: seq<Step>)
    requires Allowed(Begin(uuid, name, uuidGiven, nameGiven), before)
    requires Allowed(Run(Begin(uuid, name, uuidGiven, nameGiven), before), after)
    ensures var s := Run(Begin(uuid, name, uuidGiven, nameGiven), before);
      s.ctl.name.Some? ==> Run(s, after).ctl.name == s.ctl.name
  {
    hide Run, Allowed;
    RunKeepsName(Begin(uuid, name, uuidGiven, nameGiven), before);
    RunKeepsName(Run(Begin(uuid, name, uuidGiven, nameGiven), before), after);
  }

  /**
   What the waiting calls return: the actor's present answer; so ask_timeout the last timeout sent (-1 if none
   was), through printing and reading back; ask_filters exactly the filters added and not since removed, in
   order, NULL if none.
   */
  lemma {:induction false} AsksReturn(uuid: string, name: string, uuidGiven: bool, nameGiven: bool, steps: seq<Step>)
    requires Allowed(Begin(uuid, name, uuidGiven, nameGiven), steps)
    requires AllHarmless(Begin(uuid, name, uuidGiven, nameGiven), steps) && AllThroughController(steps)
    ensures var s := Run(Begin(uuid, name, uuidGiven, nameGiven), steps);
      s.ctl.waiting.Some? && s.replies != [] ==>
        Some(s.replies[0]) == Reply(s.actor, s.ctl.waiting.value) &&
        match s.ctl.waiting.value
        case Timeout => s.replies[0] != [] && Decimal.Parse(s.replies[0][0]) == s.ctl.asked.timeout
        case Filters => SubFilters.InOrder(FilterOps(steps), s.ctl.asked.filters)
                        && SubFilters.Decode(s.replies[0])
                        == (if s.ctl.asked.filters == [] then SubFilters.Null else SubFilters.List(s.ctl.asked.filters))
        case _ => true
  {
    hide Run, Allowed, AllHarmless, TextsAgree, TakeAll, SubFilters.Decode, SubFilters.Reply;
    hide SubFilters.InOrder, FilterOps;
    ListsInOrder(uuid, name, uuidGiven, nameGiven, steps);
    BeginAgrees(uuid, name, uuidGiven, nameGiven);
    RunAgrees(Begin(uuid, name, uuidGiven, nameGiven), steps, FirstTexts(name));
    var s := Run(Begin(uuid, name, uuidGiven, nameGiven), steps);
    if s.ctl.waiting.Some? && s.replies != [] {
      Decimal.PrintParse(s.actor.timeout);
      SubFilters.DecodeExactly(s.actor.sub.filters);
    }
  }

  /** set_name does not refresh a cached name: the two differ once the command has been delivered. */
  lemma NameGoesStale(before: string, after: string)
    requires before != after
    ensures var asked := Do(Do(Do(Begin("u", before, true, false), Ask(Name)), Serve(None)), Receive);
      var end := Do(Do(asked, Tell(SetName(after))), Serve(None));
      end.pipe == [] && end.actor.name == after && end.ctl.name == Some(before)
  {
  }

  /** ask_api with SET TYPE does not refresh the cached type. */
  lemma TypeGoesStale(before: string, after: string)
    requires before != after
    ensures var told := Do(Do(Begin("u", "n", true, false), Tell(SetType(before))), Serve(None));
      var end := Do(Do(told, Api(SetType(after))), Serve(None));
      end.pipe == [] && end.actor.actorType == Some(after) && end.ctl.typeName == Some(before)
  {
  }

  // ---------------------------------------------------------------- the code

  class Proxy {
    var uuid: Option<string>
    var name: Option<string>
    var typeName: Option<string>
    var endpoint: Option<string>
    var sphAct: bool
    var subscriptions: seq<string>
    var waiting: Option<Command>
    var asked: Wishes
    var sent: seq<Command>       // the frames put on the pipe, as commands

    ghost function State(): Controller
      reads this
    {
      Controller(waiting, uuid, name, typeName, endpoint, sphAct, subscriptions, asked)
    }

    /** The first half of a waiting sphactor_ask_*: nothing is sent when the answer is cached. */
    method AskFor(c: Command) returns (cached: bool)
      requires waiting.None? && IsAsk(c)
      modifies this
      ensures cached == Cached(old(State()), c)
      ensures State() == (if cached then old(State()) else old(State()).(waiting := Some(c)))
      ensures sent == (if cached then old(sent) else old(sent) + [c])
    {
      match c {
        case Uuid => cached := uuid != None;
        case Name => cached := name != None;
        case Type => cached := typeName != None;
        case Endpoint => cached := endpoint != None;
        case Instance => cached := sphAct;
        case _ => cached := false;
      }
      if !cached {
        sent := sent + [c];
        waiting := Some(c);
      }
    }

    /** sphactor_ask_set_*, sphactor_ask_add_filter, sphactor_ask_remove_filter. */
    method SendCommand(c: Command)
      requires waiting.None? && IsTell(c)
      modifies this
      ensures State() == NoteTell(old(State()), c) && sent == old(sent) + [c]
    {
      hide IsTell, SubFilters.Without;
      match c {
        case SetType(t) => typeName := Some(t);
        case SetTimeout(t) => asked := asked.(timeout := t);
        case SetReporting(on) => asked := asked.(reporting := on);
        case SetVerbose(on) => asked := asked.(verbose := on);
        case FilterAdd(f) => if f !in asked.filters { asked := asked.(filters := asked.filters + [f]); }
        case FilterRemove(f) => asked := asked.(filters := SubFilters.Without(asked.filters, f));
        case _ =>
      }
      sent := sent + [c];
    }

    /** sphactor_ask_connect and sphactor_ask_disconnect keep the list of connections. */
    method Remember(dest: string, connected: bool)
      modifies this`subscriptions
      ensures subscriptions == (if !connected then SubFilters.Without(old(subscriptions), dest)
                                else if dest in old(subscriptions) then old(subscriptions)
                                else old(subscriptions) + [dest])
    {
      if !connected {
        subscriptions := SubFilters.Without(subscriptions, dest);
      } else if dest !in subscriptions {
        subscriptions := subscriptions + [dest];
      }
    }

    /** The second half of a waiting call: its reply has been received. */
    method TakeReply(r: Frames)
      requires waiting.Some? && EchoHolds(waiting.value, r)
      modifies this
      ensures State() == Absorb(old(State()), old(waiting).value, r).(waiting := None)
      ensures sent == old(sent)
    {
      hide EchoHolds, SubFilters.Without;
      var c := waiting.value;
      EchoNonempty(c, r);
      if c.Uuid? { uuid := Some(r[0]); }
      else if c.Name? { name := Some(r[0]); }
      else if c.Type? { typeName := Some(r[0]); }
      else if c.Endpoint? { endpoint := Some(r[0]); }
      else if c.Instance? { sphAct := true; }
      else if c.Connect? { Remember(c.dest, true); }
      else if c.Disconnect? { Remember(c.dest, false); }
      waiting := None;
    }
  }
}
