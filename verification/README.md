# libsphactor: the actor runtime and its controller, modelled and proved in Dafny

An actor of libsphactor is a thread that runs one event loop over a timer, a command pipe, a SUB socket and
any sockets its handler added. A controller object in another thread sends it commands, waits for replies,
keeps copies of what it was told, reads the actor's status reports out of a one-slot lock-free mailbox, and
saves and reloads actors and the graph of their connections. This project models that machinery and proves
what it keeps over every run and every interleaving.

The code works by updating fields, so each entity is a class whose methods follow the C code statement by
statement. Each method is proved to take the object's state to the value of a function on plain datatypes, and
the laws are proved about those functions, over runs of any length. Clock reads, arrivals, the poller's answer
and what a handler does are parameters of a run: a nondecreasing clock with a separate value for each read, and
a poller that returns nothing only after the wait it was asked for, and never after a negative one.

| file | content |
|---|---|
| Mailbox.dfy | the report slot and latest_report as a state machine of single atomic steps of two threads |
| ReportFlow.dfy | event loop and mailbox together: an actor's life as the mailbox's producer |
| CustomReports.dfy | the OSC message a report carries, driven by the runs of the mailbox |
| PollTimer.dfy | the re-arming timer: wait, catch-up loop, when TIME fires |
| SubFilters.dfy | filter list against SUB subscriptions, and the FILTERS query |
| Wire.dfy | frames on the pipe, the command read from them, decimal text |
| ActorModel.dfy | one actor: commands, one call of run_once, the run loop |
| ActorRuns.dfy, ReportOrder.dfy, TimerRuns.dfy, MessageLedger.dfy, TurnOutputs.dfy, TurnEffects.dfy | what runs of the loop keep |
| Protocol.dfy | controller, pipe and actor together; lock-step and caches |
| ProtocolFlow.dfy | event loop and controller together: turns and calls as a run of the protocol |
| Params.dfy | values_cache, capability, save and load of parameters |
| Stage.dfy | save and load of a stage |
| MemberHandler.dfy | the C++ base class and the message contract |
| Reports.dfy | the option type, a law of sequences and the status report |

## Where the code and its promises differ

The model follows the code. For each difference a theorem says when the promise is met, or gives a run in which it is not.

- sphactor.h (198-199) promises NULL while reporting is off. The code repeats the last report it took, and a
  report left in the slot is never freed (`NullWhenOffExactly`, `StaleWhenOff`, `DestroyFreesAllButSlot`,
  `LeaksWhenOff`).
- Two missing braces (sphactor_actor.c 1002-1008): a data message publishes a report even when reporting is off
  (`ReportsWhenOffExactly`, `DataReportsThoughOff`).
- filter_remove (331-344) never unsubscribes, so removed filters may still let messages in (`ExactExactly`).
- start (244) takes only -1 for "no timeout", set_timeout (391) any negative value; a timeout of zero, or below
  -1 at start, makes every call a TIME event (`StarvesExactly`, `SetStarvesExactly`, `Starves`).
- The clock is read at 903 and again at 910; a deadline between the two makes the wait negative, usually endless
  (`WaitBounded`, `StraddlingReads`). With the timer off the cast to int decides whether the wait is endless (`OffFiresExactly`).
- A handler's answer to an unknown command goes back on the pipe (710-711, 975-976), and a START from anywhere
  signals on the pipe (232): both break the request/reply order (`StepLockStepExactly`, `EchoedApiBreaksConnect`).
- $TERM through ask_api, or from SUB in a frame with a NUL, ends the actor while its controller goes on: the next
  request is never read and its assertion meets the signal of the ended thread (`StepLockStepExactly`,
  `TermBreaksConnect`, `RemoteTerminatesExactly`).
- ask_api with format 'b' returns 0 and caches a value that it does not send (sphactor.c 594-604;
  `CachedIsSentExactly`, `CachedNeverSent`).
- The cast also turns a wait of 2^32 milliseconds into none: with a timeout of 2^32 or more TIME can fire long before
  its deadline (`FiresWhenDueExactly`, `RateBoundExactly`, `TimeEventsBoundedExactly`).
- ask_set_name (sphactor.c 377-382) leaves a cached name as it is, and so does ask_api with SET TYPE with a cached
  type (`CopiesAgreeExactly`, `CachedNameStays`, `NameGoesStale`, `TypeGoesStale`).
- TRIGGER destroys a message it has published (618-623), a remote $TERM leaks its message (990-996)
  (`TurnBalancedExactly`, `TriggerFreesTwice`, `RemoteTermLeaks`).
- A capability entry without api_call is loaded into the capability only, so its value is lost on the next save
  (sphactor.c 219-227; `ParameterSurvivesExactly`, `CallessValueLost`).
- An empty stage saves to a tree that cannot be loaded (sph_stage.c 82; `LoadableExactly`).

## Model

| member | source | states |
|---|---|---|
| Mailbox.OwnershipConserved | src/sphactor_actor.c:431-463 | in every interleaving of actor and controller steps each report ever built is either destroyed exactly once and out of reach, or not destroyed and reachable; never more than four are alive |
| Mailbox.FourAlive | src/sphactor.c:787-798 | the bound of four is reached by a run |
| Mailbox.DestroyFreesAllButSlot | src/sphactor_actor.c:160-221 | from any reachable state, once both sides are destroyed a report is still allocated if and only if it was in the slot and reporting was off |
| Mailbox.LeaksWhenOff | src/sphactor_actor.c:210-213 | a run in which reporting is switched off, both sides are destroyed, and the first report is never freed |
| Mailbox.MailboxRefinesRegister | src/sphactor.c:771-799 | slot, exchanges and latest_report together refine an atomic register: every run shows the calls and results of a register read once per call |
| Mailbox.ResultsNeverGoBack | src/sphactor.c:771-799 | however reporting is switched, a call that finds it on returns the report most recently published at its exchange; after a call has returned a report none returns NULL, and none returns an older one |
| Mailbox.ReportNeverGoesBack | src/sphactor.c:787-798 | with reporting on throughout every call returns the newest report at its exchange, never NULL, never an older one than before |
| Mailbox.NullWhenOffExactly | include/sphactor.h:198-201 | a call that finds reporting off returns what the call before it returned; NULL if and only if no earlier call returned a report |
| Mailbox.StaleWhenOff | src/sphactor.c:788-791 | a run in which reporting is off and the stale report is returned |
| Mailbox.ReportSlot.constructor | src/sphactor_actor.c:104-108 | a new actor's first report is in the slot without anything being freed |
| Mailbox.ReportSlot.SetReport | src/sphactor_actor.c:431-448 | building and exchanging a report, with the other thread quiet, is the run Construct, Publish, DropPrevious |
| Mailbox.ReportSlot.AtomicReport | src/sphactor_actor.c:450-463 | the caller gets what was in the slot and leaves NULL there; with reporting off it gets NULL and the slot stays |
| Mailbox.ReportSlot.GetReport | src/sphactor.c:771-799 | one whole call of sphactor_report is a run of the consumer's steps and returns the last answer of that run |
| CustomReports.CustomFollowsReport | src/sphactor_report.c:141-167 | whatever messages the handler and the controller set and whatever the interleaving, an OSC message is destroyed at most once, never while the report that holds it is alive, and one that was not destroyed is the actor's own or that of a report not destroyed |
| CustomReports.OnlySlotLeaks | src/sphactor_actor.c:210-215 | after both destroys every OSC message is destroyed except the one of a report left in the slot, which exists only with reporting off |
| CustomReports.ReportCarriesExactly | src/sphactor_actor.c:915-919 | a report built while the actor has data carries a message of its own, one built without carries none, and no other step gives a report a message |
| CustomReports.DataExactly | src/sphactor_actor.c:465-472 | setting the data frees the old message and keeps the new one |
| CustomReports.StatusReport.Construct | src/sphactor_report.c:52-64 | a report has the four values given and owns the message |
| CustomReports.StatusReport.SetCustom | src/sphactor_report.c:141-148 | the old message is destroyed and the new one kept; the new one is still whole exactly when it was not the old one |
| CustomReports.StatusReport.Destroy | src/sphactor_report.c:153-167 | the message of the report is destroyed with it |
| ReportOrder.ReportsSorted | src/sphactor_actor.c:900-1079 | the reports of a started actor, after any number of calls below 2^64 and whether it ever ends or not, never go back in iterations, recv_time or send_time |
| ReportOrder.LifeReportsSorted | src/sphactor_actor.c:1085-1105 | neither do those of a whole life with its STOP and DESTROY reports |
| ReportFlow.RunIsMailboxRun | src/sphactor_actor.c:1099-1102 | what an actor has published and switched so far, taken as producer steps, can be performed by the mailbox and builds exactly its reports |
| ReportFlow.LifeIsMailboxRun | src/sphactor_actor.c:1085-1105 | what an actor publishes and switches in a whole life, taken as producer steps, can be performed by the mailbox up to the end of destroy, and builds exactly the reports of that life |
| ReportFlow.LogOfRun | src/sphactor_actor.c:431-448 | in every interleaving with a controller in which the producer is part of the way through what the actor has done, the reports built are a prefix of the actor's |
| ReportFlow.LogOfLife | src/sphactor_actor.c:431-448 | the same through the end of a life |
| ReportFlow.ControllerNeverGoesBack | src/sphactor.c:771-799 | so for any run of the loop, of an actor that still runs, never ends or has ended, and every such interleaving, however reporting is switched, a call that finds it on returns the newest report, and no call returns NULL after a report or goes back in iterations, recv_time or send_time |
| ReportFlow.LifeNeverGoesBack | src/sphactor.c:771-799 | and so through the STOP and DESTROY reports of a whole life |
| PollTimer.CatchUp | src/sphactor_actor.c:926-930 | on any clock one of whose reads is before its grid point the loop ends, having made exactly the reads that decide it, at the deadline plus as many timeouts as it went round |
| PollTimer.CeilingStops | src/sphactor_actor.c:926-930 | a clock that stays below some ceiling has such a read |
| PollTimer.LoopEndsExactly | src/sphactor_actor.c:926-930 | the loop ends if and only if some read is before its grid point |
| PollTimer.AdvanceToGrid | src/sphactor_actor.c:926-930 | one call moves the deadline along its grid, past its last clock read, to old + T*((now-old)/T + 1) whenever it moves |
| PollTimer.DriftFree | src/sphactor_actor.c:900-930 | after any number of calls the deadline is congruent to where it was armed and is the least grid point after the last read |
| PollTimer.WaitBounded | src/sphactor_actor.c:903-923 | the wait is none when the deadline has passed and else what is left of it at the second read; it lies in [0, T] if and only if the two clock reads do not straddle the deadline, and then the cast to int is exact if and only if it is below 2^31; when they do, the wait is endless if and only if the lag modulo 2^32 is in (0, 2^31] |
| PollTimer.StraddlingReads | src/sphactor_actor.c:903-910 | reads that straddle the deadline by any lag, with the wait minus that lag |
| PollTimer.OffWait | src/sphactor_actor.c:387-393 | after set_timeout with any negative timeout, or start with -1, the cast wait is endless exactly when bit 31 of the clock is clear |
| PollTimer.OffFiresExactly | src/sphactor_actor.c:910-932 | then an idle actor can see a TIME event exactly when bit 31 of the clock is set |
| PollTimer.FiresWhenDue | src/sphactor_actor.c:923-932 | with 0 < T < 2^32 an empty poll never comes before the deadline, so TIME fires exactly when the deadline has passed at the read of line 925 |
| PollTimer.FiresWhenDueExactly | src/sphactor_actor.c:923-932 | for T > 0 this holds of every call if and only if T < 2^32 |
| PollTimer.Coalesces | src/sphactor_actor.c:925-932 | with 0 < T < 2^32 a TIME event comes with an advance of at least T; an advance without one happens exactly when the deadline falls between the reads of lines 925 and 927 |
| PollTimer.CoalescesExactly | src/sphactor_actor.c:925-932 | for T > 0 every TIME event comes with such an advance if and only if T < 2^32 |
| PollTimer.RateBound | src/sphactor_actor.c:387-393 | with 0 < T < 2^32 there are at most (now-t0)/T TIME events between arming at t0 and the last read now |
| PollTimer.RateBoundExactly | src/sphactor_actor.c:387-393 | for T > 0 and any t0 every run keeps to that bound if and only if T < 2^32 |
| PollTimer.ConsecutiveFires | src/sphactor_actor.c:925-932 | n TIME events in a row while a socket is ready span more than n-2 timeouts |
| PollTimer.NoThreeInARow | src/sphactor_actor.c:900-963 | with deadline checks at most T/2 apart no three calls in a row fire TIME while a socket is ready |
| PollTimer.NoThreeInARowExactly | src/sphactor_actor.c:900-963 | for T > 0 and checks at most d apart, three TIME events in a row while a socket is ready are ruled out if and only if 2d <= T |
| PollTimer.StarvesExactly | src/sphactor_actor.c:241-248 | started with timeout T, every call of every run fires TIME if and only if T <= 0 and T is not -1 |
| PollTimer.SetStarvesExactly | src/sphactor_actor.c:387-393 | after set_timeout(T) the same happens if and only if T is zero |
| PollTimer.SetSilentExactly | src/sphactor_actor.c:387-393 | after set_timeout(T) no call of any run with a socket ready fires TIME while the clock stays below its end, if and only if T is negative or ends after the clock does |
| PollTimer.StartSilentExactly | src/sphactor_actor.c:241-248 | for start the same holds exactly for -1 or such a T |
| PollTimer.FirstFires | src/sphactor_actor.c:242-248 | while a socket is ready a call fires TIME exactly when its deadline check is at least a timeout after the arming |
| TimerRuns.TurnsAreTicks | src/sphactor_actor.c:900-1079 | calls of run_once in which nothing sets the timeout are a run of the timer: same deadline, and as many TIME events at the handler as the timer fires |
| TimerRuns.TimeEventsBounded | src/sphactor_actor.c:932-962 | so with 0 < T < 2^32 the handler sees at most (now-t0)/T TIME events |
| TimerRuns.TimeEventsBoundedExactly | src/sphactor_actor.c:932-962 | for a timer with T > 0 armed just now every run of the loop keeps to that bound if and only if T < 2^32 |
| TimerRuns.DeadlineStaysOnGrid | src/sphactor_actor.c:925-930 | and time_next stays on the grid of its arming through the event loop |
| TimerRuns.ServedEveryThird | src/sphactor_actor.c:900-1079 | with checks at most T/2 apart and some socket ready, one of any three calls reads the pipe, reads SUB or raises FDSOCK |
| TimerRuns.Starves | src/sphactor_actor.c:925-932 | with a timeout of zero or below and the deadline passed no message is ever read, $TERM included, and every call is a TIME event |
| TimerRuns.SetByArms | src/sphactor_actor.c:387-393 | a turn whose command or handler sets the timeout leaves the timer as set_timeout does, unless START armed it again |
| TimerRuns.NegativeIsSilent | src/sphactor_actor.c:391-392 | after a SET TIMEOUT or a handler's set_timeout below zero the handler sees no TIME event in any run in which a reader is ready and nobody sets the timeout |
| TimerRuns.StartArms | src/sphactor_actor.c:241-248 | start arms one timeout after its clock read with the timeout the INIT event left, nothing for -1 |
| TimerRuns.TimeEventsSinceStart | src/sphactor_actor.c:1097-1102 | so since its start the handler of an actor sees at most (now-started)/T TIME events |
| SubFilters.WantedGetsThrough | src/sphactor_actor.c:306-344 | after any adds and removes the subscription to everything is there once exactly when the list is NULL, a list is nonempty and without duplicates, and every wanted message is accepted |
| SubFilters.ExactExactly | src/sphactor_actor.c:306-344 | the socket accepts exactly the wanted messages if and only if the list is NULL or every filter ever added is covered by one still listed |
| SubFilters.ExactUntilRemoval | src/sphactor_actor.c:306-326 | it is exact in every run without an effective removal |
| SubFilters.RemovedStillAccepted | src/sphactor_actor.c:330-344 | a removed filter that still lets its messages through |
| SubFilters.WithoutKeepsOrder | src/sphactor_actor.c:336-336 | removing a filter leaves all others in their order |
| SubFilters.InOrderUnique | src/sphactor.c:494-523 | only one list holds the filters present after given adds and removes in the order in which they were put there |
| SubFilters.DecodeExactly | src/sphactor.c:494-523 | the controller decodes a FILTERS reply to the actor's list exactly when the list holds no empty filter |
| SubFilters.QueryIsInsertionOrderedSet | src/sphactor.c:494-541 | ask_filters returns exactly the filters whose last add no remove followed, ordered by the positions of the adds that put them there, and NULL exactly when there are none |
| SubFilters.AskFilters | src/sphactor.c:500-522 | the loop over the reply's frames gives a list, NULL, or a failed assertion as Decode says |
| Decimal.PrintParse | src/sphactor.c:404-424 | a number survives "%li" and atol |
| Decimal.ParseReads | src/sphactor_actor.c:680-680 | atol skips space, takes a sign and ends where the digits end |
| Decimal.DigitsAreDecimal | src/sphactor.c:406-406 | numbers are printed in decimal, most significant digit first, with a minus sign |
| Wire.DecodeEncode | src/sphactor_actor.c:503-700 | the interpreter reads back every command, with its NUL-free argument, from the frames the controller sends for it |
| Wire.PlainFrames | src/sphactor_actor.c:505-700 | the texts of the commands without argument |
| Wire.MorePlainFrames | src/sphactor_actor.c:590-700 | the remaining ones |
| Wire.TextFrames | src/sphactor.c:375-541 | the frames of the commands with a text |
| Wire.ValueFrames | src/sphactor.c:400-563 | the frames of the switches, of SET TIMEOUT and of SEND |
| Wire.MissingArgument | src/sphactor_actor.c:646-682 | without its argument SET VERBOSE switches off, SET REPORTING on, and the others fail |
| Wire.SwitchExactly | src/sphactor_actor.c:646-674 | any text but FALSE switches on |
| Wire.UnknownIsWhole | src/sphactor_actor.c:702-712 | a command of the actor's own reaches the handler as it was sent |
| Wire.CStringStops | src/sphactor_actor.c:503-503 | a text ends at its first NUL |
| ActorModel.SphactorActor.constructor | src/sphactor_actor.c:75-153 | a new actor reports, has no timeout and no filter list, subscribes to everything, and has published its first report |
| ActorModel.SphactorActor.FilterAdd | src/sphactor_actor.c:306-326 | list and subscriptions after an add are those of the filter model |
| ActorModel.SphactorActor.FilterRemove | src/sphactor_actor.c:330-344 | list and subscriptions after a remove are those of the filter model |
| ActorModel.SphactorActor.SetTimeout | src/sphactor_actor.c:387-393 | the timeout is set and the deadline armed, at INT64_MAX for a negative timeout |
| ActorModel.SphactorActor.Start | src/sphactor_actor.c:227-251 | the signal goes on the pipe, the handler hears INIT, its result is destroyed, and then the timer is armed with whatever timeout it set |
| ActorModel.SphactorActor.Stop | src/sphactor_actor.c:256-278 | status STOP, a report if reporting, the handler's STOP event, its result destroyed |
| ActorModel.SphactorActor.End | src/sphactor_actor.c:159-185 | status DESTROY and a report if reporting, then the handler's DESTROY event |
| ActorModel.SphactorActor.FilterFrames | src/sphactor_actor.c:542-560 | one frame for each filter in order, or one empty frame |
| ActorModel.SphactorActor.RunBuiltin | src/sphactor_actor.c:505-700 | the effect of each command but its reply on settings, deadline, sockets and messages |
| ActorModel.SphactorActor.HandleApi | src/sphactor_actor.c:489-716 | a command's whole effect and the answer built after it, or the handler's answer for a command of its own |
| ActorModel.SphactorActor.ServePipe | src/sphactor_actor.c:965-977 | one message leaves the pipe and its answer, if any, goes back on it |
| ActorModel.SphactorActor.ServeSub | src/sphactor_actor.c:979-1021 | one message leaves SUB: data is handled and the result published, a command is carried out and its answer destroyed, $TERM is dropped |
| ActorModel.SphactorActor.ServeSocket | src/sphactor_actor.c:1022-1048 | a custom socket raises FDSOCK with a message of its own |
| ActorModel.SphactorActor.ServeTime | src/sphactor_actor.c:932-962 | TIME reaches the handler without a message and its result is published |
| ActorModel.SphactorActor.Wait | src/sphactor_actor.c:902-930 | the IDLE report unless late, and the catch-up loop, whose deadline is that of the timer model |
| ActorModel.SphactorActor.RunOnce | src/sphactor_actor.c:899-1079 | one call of run_once takes the actor to Once of its state |
| ActorModel.SphactorActor.Run | src/sphactor_actor.c:1099-1102 | the loop ends in the state the turns lead to, on the first turn that terminates the actor |
| ActorRuns.NothingLost | src/sphactor_actor.c:900-1079 | in every run the messages read, followed by those waiting, are those sent, in order, for pipe and SUB; a call reads at most one; iterations counts the calls modulo 2^64 |
| ActorRuns.OnceQueues | src/sphactor_actor.c:923-1079 | a TIME event that preempts a ready socket leaves both queues as they are; otherwise the named socket alone gives up its first message |
| TurnEffects.LifecycleExactly | src/sphactor_actor.c:1085-1105 | the handler's trace over every complete run is INIT, the events of the turns, STOP, DESTROY with their status fields; the middle is TIME, SOCK, FDSOCK and API events alone, each shown by the status field, if and only if no START or STOP command was carried out |
| TurnEffects.TraceOfRun | src/sphactor_actor.c:1099-1102 | over any run the handler sees exactly the events of its turns, in order: one for a TIME, data or socket turn, and for a command those the command raises |
| TurnEffects.EffectsOfTurn | src/sphactor_actor.c:899-1079 | the events, settings, deadline and time stamps any call leaves; settings change only by commands and the handler's set_timeout, send_time moves exactly when something was published, recv_time exactly for a data message while reporting |
| ActorRuns.TerminatedExactly | src/sphactor_actor.c:698-700 | a call sets terminated if and only if the command it carries out is $TERM |
| ActorRuns.RemoteTerminatesExactly | src/sphactor_actor.c:986-997 | a command from SUB terminates the actor exactly when its first frame reads "$TERM" as a C string without being that frame, so never when frames hold no NUL |
| ActorRuns.PipeTerminates | src/sphactor_actor.c:1099-1102 | with frames free of NUL, a run that terminates does so in its last turn, by a $TERM read from the pipe |
| MessageLedger.TurnBalancedExactly | src/sphactor_actor.c:946-1075 | with handlers that return or destroy their message, a call lets every message go exactly once if and only if it is neither a TRIGGER with a result nor a remote $TERM |
| MessageLedger.TriggerFreesTwice | src/sphactor_actor.c:614-624 | from any balanced state a TRIGGER whose handler returns a message lets that message go twice |
| MessageLedger.RemoteTermLeaks | src/sphactor_actor.c:986-997 | from any balanced state a $TERM from SUB is received and never let go |
| MessageLedger.EveryMessageOnce | src/sphactor_actor.c:1085-1105 | over an actor's whole life, on handlers that return or destroy the message they are given, every message received, built or returned is freed or handed to a socket exactly once if and only if no call was a TRIGGER with a result or a remote $TERM |
| TurnOutputs.OutputsOfTurn | src/sphactor_actor.c:899-1079 | the exact reports of any call with all four fields (the counters as they stand; for data the time it came in, stored before the report is built), its PUB messages and its pipe answers |
| TurnOutputs.ReportsWhenOffExactly | src/sphactor_actor.c:999-1008 | with reporting off a call publishes a report if and only if it serves a data message |
| TurnOutputs.DataReportsThoughOff | src/sphactor_actor.c:1001-1008 | from any state with reporting off, nothing waiting on SUB and the deadline ahead, a data message makes a call that publishes a report |
| Protocol.ServeIsRecvApi | src/sphactor_actor.c:489-716 | the actor's step of the protocol is recv_api of the actor model: same answer, same settings with a set_timeout of the handler on top, and the loop ended exactly by $TERM |
| Protocol.RemoteIsOnRemote | src/sphactor_actor.c:986-997 | a remote command changes the settings and ends the loop alike, and leaves nothing on the pipe but START's signal |
| Protocol.AskedExactly | src/sphactor.c:321-373 | a request is made exactly when nothing is outstanding and its answer is not cached; timeout, filters, connect and disconnect always |
| Protocol.ServedExactly | src/sphactor_actor.c:284-356 | a command is served exactly when no assertion of the actor fails on it: it has its argument, a connect is not to the actor's own endpoint, a disconnect is from one it is connected to |
| Protocol.StepLockStepExactly | src/sphactor_actor.c:698-711 | the actor stays there and pending answered commands plus queued replies stay one while the controller waits and zero otherwise, step by step, if and only if the step is not an API call that is answered or is $TERM, an answer to an API event, $TERM itself, or a START or $TERM from SUB |
| Protocol.RunLockStep | src/sphactor.c:321-541 | so they do in every interleaving without such steps |
| Protocol.AssertionsNeverFail | src/sphactor.c:426-485 | in every such interleaving the actor is still there, the reply the controller reads is the one the actor gave to that very request, and the assertions on it hold |
| Protocol.EchoedApiBreaksConnect | src/sph_stock.c:64-64 | a handler that returns the message of an API event makes the next connect read a foreign reply and fail its assertion |
| Protocol.TermBreaksConnect | src/sphactor.c:578-634 | after ask_api with the text $TERM a connect is never read, and what comes back for it is the signal of the ended thread, which fails its assertion |
| ProtocolFlow.TurnIsSteps | src/sphactor_actor.c:899-1079 | one call of run_once, as controller and pipe see it, is the protocol step of its command followed by the handler's set_timeout, or nothing |
| ProtocolFlow.RunIsProtocol | src/sphactor_actor.c:1099-1102 | every run of the event loop interleaved with calls of a controller is a run of the protocol and ends as it does |
| ProtocolFlow.LoopKeepsLockStep | src/sphactor.c:426-485 | so on the event loop itself, with whatever data, TIME events and handler reactions, as long as none of those steps is taken the actor has not ended and the next message on the pipe is the answer to the controller's own request |
| Protocol.CachesAgree | src/sphactor.c:321-492 | if all changes go through the controller, by any of its calls, the cached uuid and endpoint are the actor's, and so are the timeout and the switches last set once the pipe has drained; when idle the subscription list has no duplicates and is the set of the actor's connections in the order of the connects, and a disconnect passes the actor's assertion exactly for its members |
| Protocol.ListsInOrder | src/sphactor.c:442-477 | in every run the filters asked for and the connections are those added and not removed since, ordered by the calls that put them there |
| Protocol.CopiesAgreeExactly | src/sphactor.c:339-393 | then the actor's name and type are, once the pipe has drained, those sent last through any call; the cached name and type are those that had been sent last when the copy was taken, so each agrees with the actor if and only if that is still what was sent last |
| Protocol.CachedNameStays | src/sphactor.c:339-349 | a cached name is never replaced in any later run, whatever the controller, the actor and remote senders do |
| Protocol.AsksReturn | src/sphactor.c:412-424 | then every ask returns the actor's present answer: ask_timeout the last timeout sent, ask_filters the filters in insertion order |
| Protocol.NameGoesStale | src/sphactor.c:375-382 | any name set after another was asked for leaves the cached one different from the actor's |
| Protocol.TypeGoesStale | src/sphactor.c:578-634 | so does a type set through ask_api |
| Protocol.Proxy.AskFor | src/sphactor.c:321-373 | a request is sent and waited for exactly when its answer is not cached |
| Protocol.Proxy.SendCommand | src/sphactor.c:375-407 | a command without reply is sent, and only the type is cached at once |
| Protocol.Proxy.TakeReply | src/sphactor.c:434-485 | the reply goes into the cache or the duplicate-free subscription list |
| Params.CacheIsLastAccepted | src/sphactor.c:578-634 | after any calls values_cache holds for each name the last value whose ask_api returned 0 |
| Params.SentIsLastDelivered | src/sphactor.c:586-626 | the last message the actor gets of a name is that of the last accepted call of it whose format is not 'b' |
| Params.CachedIsSentExactly | src/sphactor.c:592-631 | the cached value is what the actor was sent last if and only if the last accepted call did not have format 'b', or the value sent before is the same |
| Params.CachedNeverSent | src/sphactor.c:594-604 | a value that is cached and was never sent |
| Params.FormatsExactly | src/sphactor.c:586-631 | format by format what a call sends and caches: 'i' the number, 'f', 's' and any format of another length the text, 'b' nothing; any other single letter is refused |
| Params.SentMeansCached | src/sphactor.c:605-626 | over any calls the actor's last message of a name means the value cached for it, and a decimal number is sent as it stands, unless the last format was 'b' |
| Params.LoadIsCalls | src/sphactor.c:195-233 | loading makes exactly the calls of the defaults and then those of each stored value against each entry, in order |
| Params.LoadedMeansCached | src/sphactor.c:195-233 | so after save and load, or loading anything, the new actor was sent a message that means what is cached for each entry whose format is not 'b' |
| Params.LoadedValues | src/sphactor.c:213-218 | the value of each entry in the capability after loading |
| Params.SaveBoth | src/sphactor.c:743-766 | saving goes through the entries in order |
| Params.SaveOne | src/sphactor.c:747-763 | one entry: its name with the value cached for its api_call, or for its name; nothing if there is none |
| Params.LastResultExactly | src/sphactor.c:297-318 | the result of setting a capability is that of the last entry with a value, -1 if there is none |
| Params.ReloadedValue | src/sphactor.c:159-245 | what the cache holds for an entry after save and load: the saved value if load sends it, else the default |
| Params.ParameterSurvivesExactly | src/sphactor.c:206-231 | an entry's value survives save and load if and only if it is no trigger and has an api_call with a supported format, or the value is the default anyway |
| Params.ResaveExactly | src/sphactor.c:720-769 | saving again writes the same entries if and only if every entry is such |
| Params.LoadSettles | src/sphactor.c:720-769 | after one load, of whatever was stored, saving and loading change nothing that is saved |
| Params.ParametersRoundTrip | src/sphactor.c:159-245 | after any calls on a new actor every such entry comes back with the value last accepted for it |
| Params.CallessValueLost | src/sphactor.c:219-227 | an entry without api_call whose value is lost |
| Params.SphactorParams.AskApi | src/sphactor.c:578-634 | what is sent, what is cached, and 0 exactly for the supported formats |
| Params.SphactorParams.SetCapability | src/sphactor.c:285-319 | every default is sent and cached in order and the result is that of the last call; a second capability is refused with -1 |
| Params.SphactorParams.Save | src/sphactor.c:740-767 | the loop over the entries writes those that have a cached value, in order |
| Params.SphactorParams.LoadStored | src/sphactor.c:206-231 | one stored value against every entry of the capability |
| Params.SphactorParams.LoadParams | src/sphactor.c:195-233 | the loop over the stored values |
| Stage.ParseJoinExactly | src/sph_stage.c:115-123 | strtok reads back a saved connection if and only if both endpoints are nonempty and free of commas |
| Stage.ParseWords | src/sph_stage.c:115-123 | any line gives its first three words, commas in a row counting once |
| Stage.StageRoundTrip | src/sph_stage.c:72-142 | a nonempty stage of registered types loads from its saved tree as the same table, each actor with the same sequence of connections and the parameters that load makes of those saved, whatever the order of the hash table on either side |
| Stage.StageParameters | src/sph_stage.c:84-98 | the cached value of each entry of each actor after saving and loading the stage: the one it had if load sends it, else the default |
| Stage.StageResaveExactly | src/sph_stage.c:211-234 | a stage saved, loaded and saved again has the same tree if and only if every parameter of every actor survives |
| Stage.LoadableExactly | src/sph_stage.c:79-82 | the saved tree can be loaded if and only if the stage is not empty |
| Stage.LoadAnyWalks | src/sph_stage.c:99-140 | loading any tree gives the same table in whatever order the table is walked for its lines |
| Stage.LoadActorsExactly | src/sph_stage.c:84-98 | the actors after the nodes are those before, unchanged, and one for each node of a registered type with its own type, name, endpoint and parameters; other nodes are skipped wherever they stand |
| Stage.ConnectLinesExactly | src/sph_stage.c:101-140 | each actor is connected to the outputs of the lines with its endpoint, in order and without repetition, and nothing else of it changes |
| Stage.LoadExactly | src/sph_stage.c:72-142 | loading any tree into an empty stage gives exactly these actors with these connections |
| Stage.SavedNodes | src/sph_stage.c:217-219 | one node for each actor in the order of the walk, with uuid, type, name, endpoint and parameters |
| Stage.ActorEndpoint | src/sphactor_actor.c:129-130 | the endpoint of a running actor is at any time the one its stage works out from its uuid |
| Stage.LoadedStageRoundTrip | src/sph_stage.c:211-234 | whatever tree a stage was loaded from, it saves and loads back as the same actors and connections, and from then on saves the same tree |
| Stage.SphStage.AddActor | src/sph_stage.c:273-281 | an actor whose uuid is known is refused and the table stays |
| Stage.SphStage.RemoveActor | src/sph_stage.c:283-297 | the actor leaves the table and is destroyed, and no other; -1 and nothing changed if there is none |
| Stage.SphStage.Clear | src/sph_stage.c:195-209 | every actor of the table is destroyed exactly once, no other is, and the table is empty |
| Stage.SphStage.SaveZconfig | src/sph_stage.c:211-234 | the nested loops write the tree of the model for the order of the walk |
| Stage.SphStage.LoadLine | src/sph_stage.c:115-136 | one line that joins no actor to itself connects the first actor with the input's endpoint and no other |
| Stage.SphStage.CnfLoad | src/sph_stage.c:72-142 | the table after loading a tree on which no assertion fails: the actors before and those of the nodes of registered types, and their number |
| MemberHandler.Sphactor.HandleMsg | include/libsphactor.hpp:73-111 | for INIT, TIME, API, SOCK, FDSOCK and STOP the handler's result is passed on, for other events NULL; the event's message is destroyed at most once, exactly when the reaction seen by the event loop says so |
| MemberHandler.HandleMsgKeepsContractExactly | include/libsphactor.hpp:73-111 | whatever the handlers override, the event loop's message contract is kept if and only if none returns a message it has destroyed |

## Left out

- CZMQ and ZeroMQ: threads, sockets, high-water marks, the text format of zconfig, uuids and OSC encoding are queues, a counted set of prefixes, lists and opaque values.
- The memory model below an atomic exchange: the unsynchronised read of the reporting flag is one step that sees the flag's present value.
- Interrupts: an interrupted poll or receive, which ends the actor, does not occur in the runs.
- 64-bit overflow: clock values, deadlines and numbers read by atol are unbounded integers; only the cast of the wait to int and the wrap of the iteration count are modelled.
- A NULL handler: every actor has one.
- What a handler does inside its event: its result, the fate of its message, a call of set_timeout and a change of the report's OSC message are modelled; sending, filters and pollers from inside a handler are not.
- A failing socket: sends succeed, and the PUB socket stays bound, so the destroys behind each publish (lines 957, 1018, 1044, 1072) are not reached.
- Positions of actors, the verbose flag's output, sphactor_new_proc, the type registry and the stock actors.
- Files: sph_stage_load, sph_stage_save and sph_stage_save_as, with their working directory and paths.
- Pointers sent by INSTANCE and CAPABILITY: each is one opaque reply.
- sphactor_zconfig_append, which stores the capability's own values instead of the cached ones.
- Empty filters: the runs of SubFilters and Protocol add and remove nonempty strings; single calls take any string.
- Protocol.AssertionsNeverFail: a connect to the actor's own endpoint, or a disconnect from one it is not connected to, stops the actor at its own assertion; such steps are not taken.
- ReportOrder.ReportsSorted: up to 2^64 calls, where the iteration count has not wrapped.
- Stage.StageRoundTrip: positions of actors are not in the node; distinct uuids are the keys of the table, endpoints are free of commas and shorter than 256, as the buffers of the loader demand.
- Mailbox.OwnershipConserved: an actor is destroyed only while its controller waits for it in sphactor_destroy; the report of an actor that $TERM ended earlier, which the controller's pointer would reach in freed memory, is not covered.
- Endpoints that zsock_connect refuses, which stop the actor at its assertion.
- Params.ParametersRoundTrip: names and keys of a capability's entries are distinct, and cached values whose key belongs to no entry are never saved.
- Protocol.CachesAgree: commands from SUB and a handler that sets its own timeout are excluded, as changes that do not go through the controller.
- TimerRuns.ServedEveryThird: nothing sets the timeout during the three calls.
