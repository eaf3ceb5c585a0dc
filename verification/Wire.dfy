/** Decimal text, as printed by "%li" and read back by atol/atoll. */
module Decimal {
  function Digits(n: nat): string {
    if n < 10 then [DigitChar(n)] else Digits(n / 10) + [DigitChar(n % 10)]
  }

  function DigitChar(d: nat): char
    requires d < 10
  {
    '0' + d as char
  }

  function Print(i: int): string {
    if i < 0 then "-" + Digits(-i) else Digits(i)
  }

  predicate IsDigit(c: char) {
    '0' <= c <= '9'
  }

  function SkipSpace(s: string): string {
    if s != [] && (s[0] == ' ' || '\t' <= s[0] <= '\r') then SkipSpace(s[1..]) else s
  }

  /** The digits at the front of s, read after a number that stands at n. */
  function Leading(s: string, n: nat): nat {
    if s == [] || !IsDigit(s[0]) then n else Leading(s[1..], 10 * n + (s[0] - '0') as nat)
  }

  function Parse(s: string): int {
    var t := SkipSpace(s);
    if t != [] && t[0] == '-' then -(Leading(t[1..], 0) as int)
    else if t != [] && t[0] == '+' then Leading(t[1..], 0)
    else Leading(t, 0)
  }

  lemma {:induction false} LeadingAppend(s: string, c: char, n: nat)
    requires (forall i :: 0 <= i < |s| ==> IsDigit(s[i])) && IsDigit(c)
    ensures Leading(s + [c], n) == 10 * Leading(s, n) + (c - '0') as nat
  {
    if s == [] {
      assert (s + [c])[1..] == [];
    } else {
      assert (s + [c])[1..] == s[1..] + [c];
      LeadingAppend(s[1..], c, 10 * n + (s[0] - '0') as nat);
    }
  }

  lemma {:induction false} DigitsRead(n: nat)
    ensures |Digits(n)| > 0 && (forall i :: 0 <= i < |Digits(n)| ==> IsDigit(Digits(n)[i]))
    ensures Leading(Digits(n), 0) == n
  {
    if n < 10 {
      assert Digits(n)[1..] == [];
    } else {
      DigitsRead(n / 10);
      LeadingAppend(Digits(n / 10), DigitChar(n % 10), 0);
    }
  }

  /** A number survives being printed and read back. */
  lemma PrintParse(i: int)
    ensures Print(i) != "" && Parse(Print(i)) == i
  {
    if i < 0 {
      DigitsRead(-i);
      assert Print(i)[0] == '-' && Print(i)[1..] == Digits(-i);
    } else {
      DigitsRead(i);
      assert IsDigit(Digits(i)[0]);
    }
  }

  predicate AllSpace(s: string) {
    forall i :: 0 <= i < |s| ==> s[i] == ' ' || '\t' <= s[i] <= '\r'
  }

  lemma {:induction false} SkipSpaces(space: string, s: string)
    requires AllSpace(space)
    ensures SkipSpace(space + s) == SkipSpace(s)
  {
    if space == [] {
      assert space + s == s;
    } else {
      assert (space + s)[1..] == space[1..] + s && (space + s)[0] == space[0];
      SkipSpaces(space[1..], s);
    }
  }

  lemma {:induction false} LeadingStops(digits: string, rest: string, n: nat)
    requires forall i :: 0 <= i < |digits| ==> IsDigit(digits[i])
    requires rest == [] || !IsDigit(rest[0])
    ensures Leading(digits + rest, n) == Leading(digits, n)
    decreases |digits|
  {
    if digits == [] {
      assert digits + rest == rest;
    } else {
      assert (digits + rest)[1..] == digits[1..] + rest;
      assert IsDigit(digits[0]);
      LeadingStops(digits[1..], rest, 10 * n + (digits[0] - '0') as nat);
    }
  }

  /** Leading space is skipped, a sign is taken, and the number ends where the digits end. */
  lemma {:induction false} ParseReads(space: string, n: nat, rest: string)
    requires AllSpace(space) && (rest == [] || !IsDigit(rest[0]))
    ensures Parse(space + (Digits(n) + rest)) == n
    ensures Parse(space + ("+" + (Digits(n) + rest))) == n
    ensures Parse(space + ("-" + (Digits(n) + rest))) == 0 - n
  {
    var text := Digits(n) + rest;
    DigitsRead(n);
    LeadingStops(Digits(n), rest, 0);
    SkipSpaces(space, text);
    SkipSpaces(space, "+" + text);
    SkipSpaces(space, "-" + text);
    assert IsDigit(text[0]);
    assert ("+" + text)[1..] == text && ("-" + text)[1..] == text;
  }

  /** Digits are decimal, most significant first, without leading zeros. */
  lemma DigitsAreDecimal(n: nat, d: nat)
    requires d < 10
    ensures Digits(d) == ["0123456789"[d]]
    ensures n > 0 ==> Digits(10 * n + d) == Digits(n) + ["0123456789"[d]]
    ensures n > 0 ==> Print(0 - n) == "-" + Digits(n)
  {
  }
}

/**
 The messages on an actor's command pipe: frames as sent, and the command sphactor_actor_recv_api
 reads from them by comparing the first frame with each name in turn.
 */
module Wire {
  import Decimal

  type Frames = seq<string>

  datatype Command =
    | Start
    | Stop
    | Instance
    | Connect(dest: string)
    | Disconnect(dest: string)
    | Filters
    | FilterAdd(filter: string)
    | FilterRemove(filter: string)
    | Uuid
    | Name
    | Type
    | Endpoint
    | Send(body: Frames)
    | Trigger
    | SetName(name: string)
    | SetType(typeName: string)
    | SetVerbose(on: bool)
    | SetReporting(on: bool)
    | SetTimeout(timeout: int)
    | Timeout
    | Capability
    | Term
    | Unknown(frames: Frames)    // handed to the actor's own handler
    | Malformed                  // an argument is missing where the code asserts or dereferences it

  /** zmsg_popstr gives a C string, which ends at the first NUL of the frame. */
  function CString(frame: string): string {
    if frame == [] || frame[0] == '\0' then [] else [frame[0]] + CString(frame[1..])
  }

  predicate NulFree(frame: string) {
    forall i :: 0 <= i < |frame| ==> frame[i] != '\0'
  }

  lemma {:induction false} CStringNulFree(frame: string)
    requires NulFree(frame)
    ensures CString(frame) == frame
  {
    if frame != [] { CStringNulFree(frame[1..]); }
  }

  /** The names sphactor_actor_recv_api compares the first frame with, in its order. */
  datatype Verb =
    | START | STOP | INSTANCE | CONNECT | DISCONNECT | FILTERS | FILTER_ADD | FILTER_REMOVE | UUID | NAME | TYPE
    | ENDPOINT | SEND | TRIGGER | SET_NAME | SET_TYPE | SET_VERBOSE | SET_REPORTING | SET_TIMEOUT | TIMEOUT
    | CAPABILITY | TERM | OTHER

  function VerbOf(command: string): Verb {
    if command == "START" then START
    else if command == "STOP" then STOP
    else if command == "INSTANCE" then INSTANCE
    else if command == "CONNECT" then CONNECT
    else if command == "DISCONNECT" then DISCONNECT
    else if command == "FILTERS" then FILTERS
    else if command == "FILTER ADD" then FILTER_ADD
    else if command == "FILTER REMOVE" then FILTER_REMOVE
    else if command == "UUID" then UUID
    else if command == "NAME" then NAME
    else if command == "TYPE" then TYPE
    else if command == "ENDPOINT" then ENDPOINT
    else if command == "SEND" then SEND
    else if command == "TRIGGER" then TRIGGER
    else if command == "SET NAME" then SET_NAME
    else if command == "SET TYPE" then SET_TYPE
    else if command == "SET VERBOSE" then SET_VERBOSE
    else if command == "SET REPORTING" then SET_REPORTING
    else if command == "SET TIMEOUT" then SET_TIMEOUT
    else if command == "TIMEOUT" then TIMEOUT
    else if command == "CAPABILITY" then CAPABILITY
    else if command == "$TERM" then TERM
    else OTHER
  }

  function Decode(message: Frames): Command {
    if message == [] then Malformed else DecodeVerb(VerbOf(CString(message[0])), CString(message[0]), message[1..])
  }

  function SwitchText(on: bool): string {
    if on then "TRUE" else "FALSE"
  }

  function ReadSwitch(frame: string): bool {
    CString(frame) != "FALSE"
  }

  function DecodeVerb(v: Verb, command: string, rest: Frames): Command {
    match v
    case START => Start
    case STOP => Stop
    case INSTANCE => Instance
    case CONNECT => if rest == [] then Malformed else Connect(CString(rest[0]))
    case DISCONNECT => if rest == [] then Malformed else Disconnect(CString(rest[0]))
    case FILTERS => Filters
    case FILTER_ADD => if rest == [] then Malformed else FilterAdd(CString(rest[0]))
    case FILTER_REMOVE => if rest == [] then Malformed else FilterRemove(CString(rest[0]))
    case UUID => Uuid
    case NAME => Name
    case TYPE => Type
    case ENDPOINT => Endpoint
    case SEND => Send(rest)
    case TRIGGER => Trigger
    case SET_NAME => if rest == [] then Malformed else SetName(CString(rest[0]))
    case SET_TYPE => if rest == [] then Malformed else SetType(CString(rest[0]))
    case SET_VERBOSE => SetVerbose(rest != [] && ReadSwitch(rest[0]))
    case SET_REPORTING => SetReporting(rest == [] || ReadSwitch(rest[0]))
    case SET_TIMEOUT => if rest == [] then Malformed else SetTimeout(Decimal.Parse(CString(rest[0])))
    case TIMEOUT => Timeout
    case CAPABILITY => Capability
    case TERM => Term
    case OTHER => Unknown([command] + rest)
  }

  /** The verb of a command, its name, and the frames that follow the name. */
  function VerbFor(c: Command): Verb {
    match c
    case Start => START
    case Stop => STOP
    case Instance => INSTANCE
    case Connect(_) => CONNECT
    case Disconnect(_) => DISCONNECT
    case Filters => FILTERS
    case FilterAdd(_) => FILTER_ADD
    case FilterRemove(_) => FILTER_REMOVE
    case Uuid => UUID
    case Name => NAME
    case Type => TYPE
    case Endpoint => ENDPOINT
    case Send(_) => SEND
    case Trigger => TRIGGER
    case SetName(_) => SET_NAME
    case SetType(_) => SET_TYPE
    case SetVerbose(_) => SET_VERBOSE
    case SetReporting(_) => SET_REPORTING
    case SetTimeout(_) => SET_TIMEOUT
    case Timeout => TIMEOUT
    case Capability => CAPABILITY
    case Term => TERM
    case Unknown(_) => OTHER
    case Malformed => OTHER
  }

  function Text(v: Verb): string {
    match v
    case START => "START"
    case STOP => "STOP"
    case INSTANCE => "INSTANCE"
    case CONNECT => "CONNECT"
    case DISCONNECT => "DISCONNECT"
    case FILTERS => "FILTERS"
    case FILTER_ADD => "FILTER ADD"
    case FILTER_REMOVE => "FILTER REMOVE"
    case UUID => "UUID"
    case NAME => "NAME"
    case TYPE => "TYPE"
    case ENDPOINT => "ENDPOINT"
    case SEND => "SEND"
    case TRIGGER => "TRIGGER"
    case SET_NAME => "SET NAME"
    case SET_TYPE => "SET TYPE"
    case SET_VERBOSE => "SET VERBOSE"
    case SET_REPORTING => "SET REPORTING"
    case SET_TIMEOUT => "SET TIMEOUT"
    case TIMEOUT => "TIMEOUT"
    case CAPABILITY => "CAPABILITY"
    case TERM => "$TERM"
    case OTHER => ""
  }

  function Rest(c: Command): Frames {
    match c
    case Connect(dest) => [dest]
    case Disconnect(dest) => [dest]
    case FilterAdd(f) => [f]
    case FilterRemove(f) => [f]
    case Send(body) => body
    case SetName(name) => [name]
    case SetType(t) => [t]
    case SetVerbose(on) => [SwitchText(on)]
    case SetReporting(on) => [SwitchText(on)]
    case SetTimeout(t) => [Decimal.Print(t)]
    case _ => []
  }

  /** The frames the controller sends for a command. */
  function Encode(c: Command): Frames
    requires !c.Unknown? && !c.Malformed?
  {
    [Text(VerbFor(c))] + Rest(c)
  }

  lemma {:induction false} DigitsNulFree(n: nat)
    ensures NulFree(Decimal.Digits(n))
  {
    if n >= 10 { DigitsNulFree(n / 10); }
  }

  /** The text argument of a command, if it has one. */
  function Argument(c: Command): string {
    match c
    case Connect(dest) => dest
    case Disconnect(dest) => dest
    case FilterAdd(f) => f
    case FilterRemove(f) => f
    case SetName(name) => name
    case SetType(t) => t
    case _ => ""
  }

  lemma TextNulFree(v: Verb)
    ensures NulFree(Text(v))
  {
  }

  predicate Listed(v: Verb) {
    v.START? || v.STOP? || v.INSTANCE? || v.CONNECT? || v.DISCONNECT? || v.FILTERS? || v.FILTER_ADD?
    || v.FILTER_REMOVE? || v.UUID? || v.NAME? || v.TYPE? || v.ENDPOINT? || v.SEND? || v.TRIGGER?
  }

  lemma VerbOfFirst(v: Verb)
    requires Listed(v)
    ensures VerbOf(Text(v)) == v
  {
  }

  predicate Setter(v: Verb) {
    v.SET_NAME? || v.SET_TYPE? || v.SET_VERBOSE?
  }

  lemma VerbOfSetter(v: Verb)
    requires Setter(v)
    ensures VerbOf(Text(v)) == v
  {
  }

  lemma VerbOfOption(v: Verb)
    requires v.SET_REPORTING? || v.SET_TIMEOUT?
    ensures VerbOf(Text(v)) == v
  {
  }

  lemma VerbOfLast(v: Verb)
    requires v.TIMEOUT? || v.CAPABILITY? || v.TERM?
    ensures VerbOf(Text(v)) == v
  {
  }

  lemma ReadSwitchText(on: bool)
    ensures ReadSwitch(SwitchText(on)) == on
  {
    CStringNulFree(SwitchText(on));
  }

  lemma DecodeSwitch(c: Command, command: string)
    requires c.SetVerbose? || c.SetReporting?
    ensures DecodeVerb(VerbFor(c), command, Rest(c)) == c
  {
    ReadSwitchText(c.on);
  }

  lemma PrintNulFree(t: int)
    ensures NulFree(Decimal.Print(t))
  {
    DigitsNulFree(if t < 0 then -t else t);
  }

  lemma ReadNumber(t: int)
    ensures Decimal.Parse(CString(Decimal.Print(t))) == t
  {
    PrintNulFree(t);
    CStringNulFree(Decimal.Print(t));
    Decimal.PrintParse(t);
  }

  lemma DecodeTimeout(t: int, command: string)
    ensures DecodeVerb(SET_TIMEOUT, command, [Decimal.Print(t)]) == SetTimeout(t)
  {
    ReadNumber(t);
  }

  lemma DecodeText(c: Command, command: string)
    requires NulFree(Argument(c))
    requires !c.SetVerbose? && !c.SetReporting? && !c.SetTimeout? && !c.Unknown? && !c.Malformed?
    ensures DecodeVerb(VerbFor(c), command, Rest(c)) == c
  {
    CStringNulFree(Argument(c));
  }

  /** The actor reads back every command the controller sends. */
  lemma DecodeEncode(c: Command)
    requires !c.Malformed? && !c.Unknown? && NulFree(Argument(c))
    ensures Decode(Encode(c)) == c
  {
    var v := VerbFor(c);
    TextNulFree(v);
    CStringNulFree(Text(v));
    if Listed(v) { VerbOfFirst(v); }
    else if Setter(v) { VerbOfSetter(v); }
    else if v.SET_REPORTING? || v.SET_TIMEOUT? { VerbOfOption(v); }
    else { VerbOfLast(v); }
    match c {
      case SetVerbose(_) => DecodeSwitch(c, Text(v));
      case SetReporting(_) => DecodeSwitch(c, Text(v));
      case SetTimeout(t) => DecodeTimeout(t, Text(v));
      case _ => DecodeText(c, Text(v));
    }
    assert Encode(c)[1..] == Rest(c);
  }

  /** The frames of the commands without argument. */
  lemma PlainFrames()
    ensures Encode(Start) == ["START"] && Encode(Stop) == ["STOP"] && Encode(Instance) == ["INSTANCE"]
    ensures Encode(Filters) == ["FILTERS"] && Encode(Uuid) == ["UUID"] && Encode(Name) == ["NAME"]
  {
  }

  lemma MorePlainFrames()
    ensures Encode(Type) == ["TYPE"] && Encode(Endpoint) == ["ENDPOINT"] && Encode(Trigger) == ["TRIGGER"]
    ensures Encode(Timeout) == ["TIMEOUT"] && Encode(Capability) == ["CAPABILITY"] && Encode(Term) == ["$TERM"]
  {
  }

  /** The frames of the commands with a text. */
  lemma TextFrames(text: string)
    ensures Encode(Connect(text)) == ["CONNECT", text] && Encode(Disconnect(text)) == ["DISCONNECT", text]
    ensures Encode(FilterAdd(text)) == ["FILTER ADD", text] && Encode(FilterRemove(text)) == ["FILTER REMOVE", text]
    ensures Encode(SetName(text)) == ["SET NAME", text] && Encode(SetType(text)) == ["SET TYPE", text]
  {
  }

  /** The frames of the commands with something else. */
  lemma ValueFrames(on: bool, n: int, body: Frames)
    ensures Encode(SetVerbose(on)) == ["SET VERBOSE", if on then "TRUE" else "FALSE"]
    ensures Encode(SetReporting(on)) == ["SET REPORTING", if on then "TRUE" else "FALSE"]
    ensures Encode(SetTimeout(n)) == ["SET TIMEOUT", Decimal.Print(n)] && Encode(Send(body)) == ["SEND"] + body
  {
  }

  /** A text ends at its first NUL. */
  lemma {:induction false} CStringStops(a: string, b: string)
    requires NulFree(a)
    ensures CString(a + "\0" + b) == a
  {
    var s := a + "\0" + b;
    if a == [] {
      assert s[0] == '\0';
    } else {
      assert s[1..] == a[1..] + "\0" + b;
      CStringStops(a[1..], b);
    }
  }

  /** A command whose argument is missing: the switches have a default; the others fail an assertion or a pointer. */
  lemma MissingArgument(v: Verb)
    requires v in {CONNECT, DISCONNECT, FILTER_ADD, FILTER_REMOVE, SET_NAME, SET_TYPE, SET_TIMEOUT, SET_VERBOSE,
                   SET_REPORTING}
    ensures Decode([Text(v)]) == (if v.SET_VERBOSE? then SetVerbose(false)
                                  else if v.SET_REPORTING? then SetReporting(true) else Malformed)
  {
    hide VerbOf, Text, Decode;
    NoArgument(v);
  }

  lemma NoArgument(v: Verb)
    requires !v.OTHER?
    ensures Decode([Text(v)]) == DecodeVerb(v, Text(v), [])
  {
    hide VerbOf, DecodeVerb;
    TextNulFree(v);
    CStringNulFree(Text(v));
    VerbOfText(v);
    assert [Text(v)][1..] == [];
  }

  lemma VerbOfText(v: Verb)
    requires !v.OTHER?
    ensures VerbOf(Text(v)) == v
  {
    hide VerbOf, Text;
    if Listed(v) { VerbOfFirst(v); }
    else if Setter(v) { VerbOfSetter(v); }
    else if v.SET_REPORTING? || v.SET_TIMEOUT? { VerbOfOption(v); }
    else { VerbOfLast(v); }
  }

  /** Any text but FALSE switches on. */
  lemma SwitchExactly(frame: string)
    requires NulFree(frame)
    ensures Decode([Text(SET_REPORTING), frame]) == SetReporting(frame != "FALSE")
    ensures Decode([Text(SET_VERBOSE), frame]) == SetVerbose(frame != "FALSE")
  {
    hide VerbOf, Text, Decode;
    CStringNulFree(frame);
    SwitchVerb(SET_REPORTING, frame);
    SwitchVerb(SET_VERBOSE, frame);
  }

  lemma SwitchVerb(v: Verb, frame: string)
    requires v.SET_REPORTING? || v.SET_VERBOSE?
    ensures Decode([Text(v), frame]) == DecodeVerb(v, Text(v), [frame])
  {
    hide VerbOf, Text, DecodeVerb;
    TextNulFree(v);
    CStringNulFree(Text(v));
    VerbOfText(v);
    assert [Text(v), frame][1..] == [frame];
  }

  /** A command of the actor's own reaches its handler as it was sent, if its name holds no NUL. */
  lemma UnknownIsWhole(frames: Frames)
    requires frames != [] && NulFree(frames[0]) && Decode(frames).Unknown?
    ensures Decode(frames).frames == frames
  {
    hide VerbOf;
    CStringNulFree(frames[0]);
    assert [frames[0]] + frames[1..] == frames;
  }
}
