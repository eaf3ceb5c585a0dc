/**
 What one call of run_once lets out: the reports it publishes, the messages it puts on the PUB socket, and
 the answers it sends back on the pipe.
 */
module TurnOutputs {
  import opened Options
  import opened Sequences
  import opened Reports
  import opened Wire
  import opened PollTimer
  import opened ActorModel
  import ActorRuns

  /** The handler's result, as what is sent on; an event without a message has none to give back. */
  function ResultOf(r: Reaction, carries: bool): seq<Frames> {
    match r.outcome
    case Null => []
    case Same(frames) => if carries then [frames] else []
    case Other(frames) => [frames]
  }

  function AtMostOne(o: Option<Frames>): seq<Frames> {
    if o.Some? then [o.value] else []
  }

  /** A report of w with this status: it carries the counters as they are. */
  function Stamped(w: World, s: Status): Report {
    Report(s, w.stats.iterations, w.stats.recvTime, w.stats.sendTime)
  }

  /** Reports with these statuses, none if reporting is off. */
  function WhenOn(w: World, statuses: seq<Status>): seq<Report> {
    if !w.settings.reporting then []
    else seq(|statuses|, i requires 0 <= i < |statuses| => Stamped(w, statuses[i]))
  }

  lemma AnnounceAdds(w: World, s: Status)
    ensures Announce(w, s).reports == w.reports + WhenOn(w, [s])
    ensures Announce(w, s).settings == w.settings && Announce(w, s).stats == w.stats.(status := s)
  {
    assert w.reports + [] == w.reports;
    assert WhenOn(w, [s]) == (if w.settings.reporting then [Stamped(w, s)] else []);
  }

  /** Only reports, published and replies are looked at here. */
  predicate SameOutputs(w: World, v: World) {
    v.reports == w.reports && v.published == w.published && v.replies == w.replies
  }

  lemma HandleOutputs(w: World, kind: Status, msg: Option<nat>, r: Reaction, now: int)
    ensures SameOutputs(w, Handle(w, kind, msg, r, now))
  {
  }

  lemma DispatchOutputs(w: World, kind: Status, msg: Option<nat>, t: Turn)
    ensures SameOutputs(w.(published := w.published + ResultOf(t.reaction, msg.Some?)), Dispatch(w, kind, msg, t))
  {
    hide Handle;
    HandleOutputs(w, kind, msg, t.reaction, t.arm);
  }

  lemma InformOutputs(w: World, kind: Status, t: Turn)
    ensures SameOutputs(w, Inform(w, kind, t))
  {
    hide Handle;
    HandleOutputs(w, kind, None, t.reaction, t.arm);
  }

  function CommandPublishes(name: string, c: Command, r: Reaction): seq<Frames> {
    match c
    case Trigger => ResultOf(r, false)
    case Send(body) => [if body == [] then [name] else body]
    case _ => []
  }

  /** The reports of a command. */
  function CommandStatuses(c: Command): seq<Status> {
    [API] + (if c.Stop? then [Status.STOP] else [])
  }

  lemma BuiltinOutputs(w: World, c: Command, t: Turn)
    ensures var v := Builtin(w, c, t);
      && v.published == w.published + CommandPublishes(w.settings.name, c, t.reaction)
      && v.replies == (if c.Start? then w.replies + [SIGNAL] else w.replies)
      && v.reports == w.reports + WhenOn(w, if c.Stop? then [Status.STOP] else [])
  {
    hide Inform, Dispatch, Announce, WhenOn;
    DispatchOutputs(w, SOCK, None, t);
    InformOutputs(w.(replies := w.replies + [SIGNAL]), INIT, t);
    AnnounceAdds(w, Status.STOP);
    AnnounceSame(w, Status.STOP);
    InformOutputs(Announce(w, Status.STOP), Status.STOP, t);
    NothingWhenOn(w);
  }

  lemma AnnounceSame(w: World, s: Status)
    ensures Announce(w, s).published == w.published && Announce(w, s).replies == w.replies
  {
  }

  lemma NothingWhenOn(w: World)
    ensures WhenOn(w, []) == [] && w.reports + WhenOn(w, []) == w.reports
  {
  }

  /** The status alone does not matter for what later reports carry. */
  lemma WhenOnBoth(w: World, v: World, a: seq<Status>, b: seq<Status>)
    requires v.settings.reporting == w.settings.reporting && v.stats.(status := INIT) == w.stats.(status := INIT)
    ensures WhenOn(w, a) + WhenOn(v, b) == WhenOn(w, a + b)
  {
    StampedSame(w, v);
  }

  lemma StampedSame(w: World, v: World)
    requires v.stats.(status := INIT) == w.stats.(status := INIT)
    ensures forall s :: Stamped(v, s) == Stamped(w, s)
  {
    assert v.stats.(status := INIT).iterations == v.stats.iterations;
    assert w.stats.(status := INIT).iterations == w.stats.iterations;
    assert v.stats.(status := INIT).recvTime == v.stats.recvTime;
    assert w.stats.(status := INIT).recvTime == w.stats.recvTime;
    assert v.stats.(status := INIT).sendTime == v.stats.sendTime;
    assert w.stats.(status := INIT).sendTime == w.stats.sendTime;
  }

  /** The answer to a command: from the handler for a command of its own, else from the settings it leaves. */
  function AnswersTo(s: Settings, c: Command, r: Reaction): seq<Frames> {
    if c.Unknown? then ResultOf(r, true) else AtMostOne(Reply(Apply(s, c), c))
  }

  lemma RecvApiOutputs(w: World, id: nat, c: Command, t: Turn)
    ensures var v := RecvApi(w, id, c, t);
      && v.published == w.published + CommandPublishes(w.settings.name, c, t.reaction)
      && v.replies == (if c.Start? then w.replies + [SIGNAL] else w.replies)
      && v.reports == w.reports + WhenOn(w, CommandStatuses(c))
  {
    hide Builtin, Handle, Reply, Announce, WhenOn;
    var u, rest := Announce(w, API), if c.Stop? then [Status.STOP] else [];
    HandleOutputs(u, API, Some(id), t.reaction, t.arm);
    BuiltinOutputs(u, c, t);
    AnnounceAdds(w, API);
    AnnounceSame(w, API);
    WhenOnBoth(w, u, [API], rest);
    NothingWhenOn(u);
    Associates(w.reports, WhenOn(w, [API]), WhenOn(u, rest));
  }

  lemma AnswerApiText(w: World, id: nat, c: Command, t: Turn)
    ensures var a := AnswerApi(w, id, c, t);
      (if a.Message? then [a.frames] else []) == AnswersTo(w.settings, c, t.reaction)
  {
    hide Inform, Dispatch, SendBody, Rearm, Apply;
    if Replied(c) { ApplyOnly(Announce(w, API), c, t); }
    NoReply(Builtin(Announce(w, API), c, t).settings, c);
    NoReply(Apply(w.settings, c), c);
  }

  predicate Replied(c: Command) {
    c.Instance? || c.Connect? || c.Disconnect? || c.Filters? || c.Uuid? || c.Name? || c.Type? || c.Endpoint?
    || c.Timeout? || c.Capability?
  }

  lemma ApplyOnly(w: World, c: Command, t: Turn)
    requires Replied(c)
    ensures Builtin(w, c, t).settings == Apply(w.settings, c)
  {
  }

  lemma NoReply(s: Settings, c: Command)
    ensures Replied(c) || Reply(s, c) == None
  {
  }

  // ---------------------------------------------------------------- one turn

  /** A message on SUB that is data: it has no signal frame, or one with code zero. */
  predicate IsData(w: World, t: Turn)
    requires t.which.Sub? ==> w.sub.waiting != []
  {
    t.which.Sub? && (w.sub.waiting[0].Data? || w.sub.waiting[0].code == 0)
  }

  /** The reports after the poll; the one of a data message has the time it came in, if reporting is on. */
  function AfterPollReports(w: World, fires: bool, t: Turn): seq<Report>
    requires t.which.Pipe? ==> w.pipe.waiting != []
    requires t.which.Sub? ==> w.sub.waiting != []
  {
    var c := CommandAt(w, fires, t);
    if fires then WhenOn(w, [TIME])
    else if c.Some? then WhenOn(w, CommandStatuses(c.value))
    else if IsData(w, t) then
      [Report(SOCK, w.stats.iterations, if w.settings.reporting then t.recv else w.stats.recvTime, w.stats.sendTime)]
    else if t.which.Sub? then []
    else WhenOn(w, [FDSOCK])
  }

  function AfterPollPublishes(w: World, fires: bool, t: Turn): seq<Frames>
    requires t.which.Pipe? ==> w.pipe.waiting != []
    requires t.which.Sub? ==> w.sub.waiting != []
  {
    if fires then ResultOf(t.reaction, false)
    else if CommandAt(w, fires, t).Some? then
      CommandPublishes(w.settings.name, CommandAt(w, fires, t).value, t.reaction)
    else if t.which.Sub? && !IsData(w, t) then []
    else ResultOf(t.reaction, true)
  }

  /** The pipe alone gets answers; START puts its signal there wherever it came from. */
  function AfterPollReplies(w: World, fires: bool, t: Turn): seq<Frames>
    requires t.which.Pipe? ==> w.pipe.waiting != []
    requires t.which.Sub? ==> w.sub.waiting != []
  {
    var c := CommandAt(w, fires, t);
    if c.None? then []
    else (if c.value.Start? then [SIGNAL] else [])
         + (if t.which.Pipe? then AnswersTo(w.settings, c.value, t.reaction) else [])
  }

  /** v is w after outputs of exactly these. */
  predicate Outputs(w: World, v: World, reports: seq<Report>, published: seq<Frames>, replies: seq<Frames>) {
    v.reports == w.reports + reports && v.published == w.published + published && v.replies == w.replies + replies
  }

  lemma PipeOutputs(w: World, t: Turn)
    requires w.pipe.waiting != []
    ensures var c := w.pipe.waiting[0].command;
      Outputs(w, OnPipe(w, t), WhenOn(w, CommandStatuses(c)), CommandPublishes(w.settings.name, c, t.reaction),
              (if c.Start? then [SIGNAL] else []) + AnswersTo(w.settings, c, t.reaction))
  {
    hide RecvApi, AnswerApi, CommandPublishes, CommandStatuses, AnswersTo;
    var v, id, c := ReadPipe(w), w.messages.built, w.pipe.waiting[0].command;
    RecvApiOutputs(v, id, c, t);
    AnswerApiText(v, id, c, t);
  }

  lemma SubOutputs(w: World, t: Turn)
    requires t.which.Sub? && w.sub.waiting != []
    ensures Outputs(w, OnSub(w, t), AfterPollReports(w, false, t), AfterPollPublishes(w, false, t),
                    AfterPollReplies(w, false, t))
  {
    hide RecvApi, AnswerApi, OnData, CommandPublishes, CommandStatuses, Filtered;
    var m, v, id := w.sub.waiting[0], ReadSub(w), w.messages.built;
    FilteredApi(m);
    assert w.reports + [] == w.reports && w.published + [] == w.published && w.replies + [] == w.replies;
    if IsApi(m) {
      RecvApiOutputs(v, id, m.request.command, t);
    } else {
      DataOutputs(v, id, t);
    }
  }

  lemma DataOutputs(w: World, id: nat, t: Turn)
    ensures var at := if w.settings.reporting then t.recv else w.stats.recvTime;
      Outputs(w, OnData(w, id, t), [Report(SOCK, w.stats.iterations, at, w.stats.sendTime)],
              ResultOf(t.reaction, true), [])
  {
    hide Dispatch;
    var seen := SetStatus(w, SOCK);
    DispatchOutputs(AddReport(seen), SOCK, Some(id), t);
    DispatchOutputs(AddReport(seen.(stats := seen.stats.(recvTime := t.recv))), SOCK, Some(id), t);
    assert w.replies + [] == w.replies;
  }

  lemma FilteredApi(m: SubMsg)
    ensures Filtered(m) ==> IsApi(m)
  {
  }

  lemma ReactOutputs(w: World, fires: bool, t: Turn)
    requires t.which.Pipe? ==> w.pipe.waiting != []
    requires t.which.Sub? ==> w.sub.waiting != []
    ensures Outputs(w, React(w, fires, t), AfterPollReports(w, fires, t), AfterPollPublishes(w, fires, t),
                    AfterPollReplies(w, fires, t))
  {
    hide OnPipe, OnSub, Dispatch, CommandPublishes, CommandStatuses, AnswersTo, Announce, WhenOn;
    assert w.replies + [] == w.replies;
    if fires {
      AnnounceAdds(w, TIME);
      AnnounceSame(w, TIME);
      DispatchOutputs(Announce(w, TIME), TIME, None, t);
    } else if t.which.Pipe? {
      PipeOutputs(w, t);
    } else if t.which.Sub? {
      SubOutputs(w, t);
    } else {
      AnnounceAdds(w, FDSOCK);
      AnnounceSame(w, FDSOCK);
      DispatchOutputs(Build(Announce(w, FDSOCK)), FDSOCK, Some(w.messages.built), t);
    }
  }

  /** The IDLE report before the poll. */
  function IdleReports(w: World, t: Turn): seq<Report> {
    if t.poll.check > w.next then [] else WhenOn(w, [IDLE])
  }

  /**
   What one call lets out. Reports: IDLE unless it is late, then the status of what it serves, all of them only
   when reporting is on, except the one for a data message; each with the counters as they stand, for data with
   the time it came in. PUB: the handler's result for TIME, data and socket events and for TRIGGER, or the body
   of SEND. Pipe: the answer to a command read from it.
   */
  lemma OutputsOfTurn(w: World, t: Turn)
    requires TurnOk(w, t)
    ensures var p, fires := Arrive(w, t), FiresIn(w, t);
      Outputs(w, Once(w, t), IdleReports(w, t) + AfterPollReports(p, fires, t),
              AfterPollPublishes(p, fires, t), AfterPollReplies(p, fires, t))
  {
    hide React, FiresIn, IdleReports, AfterPollReports, AfterPollPublishes, AfterPollReplies, Possible, Polled;
    PolledReady(w, t);
    var p, v := Arrive(w, t), Polled(w, t);
    PolledAdds(w, t);
    SameAfterPoll(p, v, FiresIn(w, t), t);
    ReactOutputs(v, FiresIn(w, t), t);
    Associates(w.reports, IdleReports(w, t), AfterPollReports(p, FiresIn(w, t), t));
  }

  lemma PolledAdds(w: World, t: Turn)
    requires TurnOk(w, t)
    ensures Polled(w, t).reports == w.reports + IdleReports(w, t)
    ensures var v := Polled(w, t); v.published == w.published && v.replies == w.replies && v.settings == w.settings
    ensures Polled(w, t).pipe == Arrive(w, t).pipe && Polled(w, t).sub == Arrive(w, t).sub
    ensures Polled(w, t).stats.(status := INIT) == w.stats.(status := INIT)
  {
    hide Announce, WhenOn, Possible, CommandOf, AssertsHold;
    var p := Arrive(w, t);
    AnnounceAdds(p, IDLE);
    AnnounceSame(p, IDLE);
    AnnounceQueues(p, IDLE);
    WhenOnSame(w, p, [IDLE]);
    assert w.reports + [] == w.reports;
  }

  lemma AnnounceQueues(w: World, s: Status)
    ensures Announce(w, s).pipe == w.pipe && Announce(w, s).sub == w.sub
  {
  }

  lemma WhenOnSame(w: World, v: World, statuses: seq<Status>)
    requires v.settings.reporting == w.settings.reporting && v.stats.(status := INIT) == w.stats.(status := INIT)
    ensures WhenOn(v, statuses) == WhenOn(w, statuses)
  {
    StampedSame(w, v);
  }

  lemma SameAfterPoll(p: World, v: World, fires: bool, t: Turn)
    requires v.pipe == p.pipe && v.sub == p.sub && v.settings == p.settings
    requires v.stats.(status := INIT) == p.stats.(status := INIT)
    requires t.which.Pipe? ==> p.pipe.waiting != []
    requires t.which.Sub? ==> p.sub.waiting != []
    ensures AfterPollReports(v, fires, t) == AfterPollReports(p, fires, t)
    ensures AfterPollPublishes(v, fires, t) == AfterPollPublishes(p, fires, t)
    ensures AfterPollReplies(v, fires, t) == AfterPollReplies(p, fires, t)
  {
    hide WhenOn, CommandPublishes, AnswersTo, Filtered;
    var c := CommandAt(p, fires, t);
    WhenOnSame(p, v, [TIME]);
    WhenOnSame(p, v, [FDSOCK]);
    if c.Some? { WhenOnSame(p, v, CommandStatuses(c.value)); }
    StampedSame(p, v);
    assert Stamped(v, SOCK) == Stamped(p, SOCK);
  }

  /** With reporting off a call publishes a report exactly when it serves a data message. */
  lemma ReportsWhenOffExactly(w: World, t: Turn)
    requires TurnOk(w, t) && !w.settings.reporting
    ensures Once(w, t).reports != w.reports <==> !FiresIn(w, t) && IsData(Arrive(w, t), t)
  {
    hide Once, FiresIn, Possible;
    OutputsOfTurn(w, t);
  }

  /** Such a call happens in any world with reporting off, nothing waiting on SUB and the deadline ahead. */
  lemma DataReportsThoughOff(w: World, frames: Frames) returns (t: Turn)
    requires !w.settings.reporting && w.sub.waiting == [] && w.clock < w.next
    ensures TurnOk(w, t) && Once(w, t).reports != w.reports
  {
    hide Once;
    t := ActorRuns.PromptTurn(w, [], [Data(frames)], Which.Sub, Reaction(Null, true, None));
    ActorRuns.PromptTurnOk(w, [], [Data(frames)], Which.Sub, Reaction(Null, true, None));
    ReportsWhenOffExactly(w, t);
  }
}
