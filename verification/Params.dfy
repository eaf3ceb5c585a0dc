/**
 The parameters of an actor: the capability that describes them, the cache of the values the
 controller sent (values_cache), and their way through sphactor_save and sphactor_load.
 */
module Params {
  import opened Options
  import Decimal

  /** One data entry of a capability. */
  datatype Entry = Entry(
    name: string,
    kind: string,              // its "type"
    value: Option<string>,
    call: Option<string>,      // its "api_call"
    format: Option<string>     // its "api_value"
  )

  datatype Actor = Actor(capability: Option<seq<Entry>>, cache: map<string, string>, sent: seq<seq<string>>)

  function Fresh(): Actor {
    Actor(None, map[], [])
  }

  function Get(cache: map<string, string>, key: string): Option<string> {
    if key in cache then Some(cache[key]) else None
  }

  // ---------------------------------------------------------------- what the calls do

  /** The formats sphactor_ask_api returns 0 for; 'b' is reported as unsupported but still counts. */
  predicate Supported(format: string) {
    |format| != 1 || format[0] in {'b', 'i', 'f', 's'}
  }

  /** A value as it goes out: as an integer for format 'i', else as it is. */
  function Form(format: string, value: string): string {
    if format == "i" then Decimal.Print(Decimal.Parse(value)) else value
  }

  function Message(call: string, format: string, value: string): seq<seq<string>> {
    if format == "b" then [] else [[call, Form(format, value)]]
  }

  /** sphactor_ask_api. */
  function Asked(a: Actor, call: string, format: string, value: string): Actor {
    if Supported(format) then
      a.(cache := a.cache[call := value], sent := a.sent + Message(call, format, value))
    else a
  }

  function FormatOf(e: Entry): string {
    if e.format.Some? then e.format.value else ""
  }

  function SetOne(a: Actor, e: Entry): Actor {
    if e.value.None? then a
    else if e.call.Some? then Asked(a, e.call.value, FormatOf(e), e.value.value)
    else Asked(a, e.name, "", e.value.value)
  }

  function SetAll(a: Actor, entries: seq<Entry>): Actor
    decreases |entries|
  {
    if entries == [] then a else SetAll(SetOne(a, entries[0]), entries[1..])
  }

  /** sphactor_set_capability; a second capability is refused. */
  function Equipped(a: Actor, entries: seq<Entry>): Actor {
    if a.capability.Some? then a else SetAll(a.(capability := Some(entries)), entries)
  }

  /** sphactor_new_by_type, for a type registered with this capability. */
  function NewByType(entries: seq<Entry>): Actor {
    Equipped(Fresh(), entries)
  }

  /** What sphactor_set_capability returns: the result of the last call it made, -1 if it made none. */
  function LastResult(entries: seq<Entry>): int {
    if entries == [] then -1
    else
      var e, front := entries[|entries| - 1], entries[..|entries| - 1];
      if e.value.None? then LastResult(front)
      else if e.call.None? || Supported(FormatOf(e)) then 0 else -1
  }

  /** The key under which an entry's value is looked up. */
  function Key(e: Entry): string {
    if e.call.Some? then e.call.value else e.name
  }

  datatype Stored = Stored(name: string, value: string)

  function SaveEntries(cache: map<string, string>, entries: seq<Entry>): seq<Stored> {
    if entries == [] then []
    else
      var here := if Key(entries[0]) in cache then [Stored(entries[0].name, cache[Key(entries[0])])] else [];
      here + SaveEntries(cache, entries[1..])
  }

  /** The capability data written by sphactor_save. */
  function Saved(a: Actor): seq<Stored> {
    if a.capability.Some? then SaveEntries(a.cache, a.capability.value) else []
  }

  predicate Matches(e: Entry, s: Stored) {
    e.name == s.name && e.kind != "trigger"
  }

  /** sphactor_load on one stored value and entry i of the capability. */
  function LoadEntry(a: Actor, s: Stored, i: nat): Actor
    requires a.capability.Some? && i < |a.capability.value|
  {
    var e := a.capability.value[i];
    if !Matches(e, s) then a
    else
      var b := if e.value.Some?
               then a.(capability := Some(a.capability.value[i := e.(value := Some(s.value))])) else a;
      if e.call.Some? then Asked(b, e.call.value, FormatOf(e), s.value) else b
  }

  function LoadValue(a: Actor, s: Stored, i: nat): Actor
    requires a.capability.Some? && i <= |a.capability.value|
    decreases |a.capability.value| - i
  {
    if i == |a.capability.value| then a else LoadValue(LoadEntry(a, s, i), s, i + 1)
  }

  lemma LoadEntryShape(a: Actor, s: Stored, i: nat)
    requires a.capability.Some? && i < |a.capability.value|
    ensures SameShape(a, LoadEntry(a, s, i))
  {
  }

  /** Loading changes values only. */
  predicate SameShape(a: Actor, b: Actor) {
    && a.capability.Some? && b.capability.Some? && |a.capability.value| == |b.capability.value|
    && forall j :: 0 <= j < |a.capability.value| ==>
         b.capability.value[j].(value := None) == a.capability.value[j].(value := None)
  }

  lemma {:induction false} LoadValueShape(a: Actor, s: Stored, i: nat)
    requires a.capability.Some? && i <= |a.capability.value|
    ensures SameShape(a, LoadValue(a, s, i))
    decreases |a.capability.value| - i
  {
    if i < |a.capability.value| {
      LoadEntryShape(a, s, i);
      LoadValueShape(LoadEntry(a, s, i), s, i + 1);
    }
  }

  function LoadAll(a: Actor, stored: seq<Stored>): Actor
    requires a.capability.Some?
    decreases |stored|
  {
    if stored == [] then a
    else
      LoadValueShape(a, stored[0], 0);
      LoadAll(LoadValue(a, stored[0], 0), stored[1..])
  }

  /** sphactor_load: a new actor of the type, then the stored values. */
  function Load(entries: seq<Entry>, stored: seq<Stored>): Actor {
    SetAllShape(Fresh().(capability := Some(entries)), entries);
    LoadAll(NewByType(entries), stored)
  }

  /** The same for an actor whose type may have no capability: then there is nothing to load into. */
  function LoadActor(capability: Option<seq<Entry>>, stored: seq<Stored>): Actor {
    if capability.None? then Fresh() else Load(capability.value, stored)
  }

  lemma {:induction false} SetAllShape(a: Actor, entries: seq<Entry>)
    ensures SetAll(a, entries).capability == a.capability
    decreases |entries|
  {
    if entries != [] { SetAllShape(SetOne(a, entries[0]), entries[1..]); }
  }

  // ---------------------------------------------------------------- the cache holds the last value that was accepted

  datatype ApiCall = ApiCall(call: string, format: string, value: string)

  function AskAll(a: Actor, calls: seq<ApiCall>): Actor
    decreases |calls|
  {
    if calls == [] then a
    else AskAll(Asked(a, calls[0].call, calls[0].format, calls[0].value), calls[1..])
  }

  /** The value of the last accepted call of this name. */
  function LastAccepted(calls: seq<ApiCall>, call: string): Option<string> {
    if calls == [] then None
    else
      var last := calls[|calls| - 1];
      if last.call == call && Supported(last.format) then Some(last.value)
      else LastAccepted(calls[..|calls| - 1], call)
  }

  lemma {:induction false} AskAllAppend(a: Actor, calls: seq<ApiCall>, c: ApiCall)
    ensures AskAll(a, calls + [c]) == Asked(AskAll(a, calls), c.call, c.format, c.value)
    decreases |calls|
  {
    if calls == [] {
      assert (calls + [c])[1..] == [];
    } else {
      assert (calls + [c])[1..] == calls[1..] + [c];
      AskAllAppend(Asked(a, calls[0].call, calls[0].format, calls[0].value), calls[1..], c);
    }
  }

  lemma {:induction false} CacheIsLastAccepted(a: Actor, calls: seq<ApiCall>, call: string)
    ensures Get(AskAll(a, calls).cache, call)
         == (if LastAccepted(calls, call).Some? then LastAccepted(calls, call) else Get(a.cache, call))
    decreases |calls|
  {
    if calls != [] {
      var front, last := calls[..|calls| - 1], calls[|calls| - 1];
      assert calls == front + [last];
      AskAllAppend(a, front, last);
      CacheIsLastAccepted(a, front, call);
    }
  }

  // ---------------------------------------------------------------- what the actor was sent

  /** The last accepted call of this name. */
  function LastCall(calls: seq<ApiCall>, call: string): Option<ApiCall> {
    if calls == [] then None
    else
      var last := calls[|calls| - 1];
      if last.call == call && Supported(last.format) then Some(last) else LastCall(calls[..|calls| - 1], call)
  }

  /** The last accepted call of this name with a format that is sent. */
  function LastDelivered(calls: seq<ApiCall>, call: string): Option<ApiCall> {
    if calls == [] then None
    else
      var last := calls[|calls| - 1];
      if last.call == call && Supported(last.format) && last.format != "b" then Some(last)
      else LastDelivered(calls[..|calls| - 1], call)
  }

  /** The value in the last message of this name. */
  function LastSent(sent: seq<seq<string>>, call: string): Option<string> {
    if sent == [] then None
    else
      var last := sent[|sent| - 1];
      if |last| == 2 && last[0] == call then Some(last[1]) else LastSent(sent[..|sent| - 1], call)
  }

  function FormOf(c: Option<ApiCall>): Option<string> {
    if c.Some? then Some(Form(c.value.format, c.value.value)) else None
  }

  lemma {:induction false} SentAppend(sent: seq<seq<string>>, m: seq<string>, call: string)
    ensures LastSent(sent + [m], call) == (if |m| == 2 && m[0] == call then Some(m[1]) else LastSent(sent, call))
  {
    assert (sent + [m])[..|sent|] == sent;
  }

  lemma {:induction false} AskedSent(a: Actor, c: ApiCall, call: string)
    ensures LastSent(Asked(a, c.call, c.format, c.value).sent, call)
         == (if c.call == call && Supported(c.format) && c.format != "b" then FormOf(Some(c))
             else LastSent(a.sent, call))
  {
    SentAppend(a.sent, [c.call, Form(c.format, c.value)], call);
    assert a.sent + [] == a.sent;
  }

  /** The actor's last message of a name is the last accepted call of it whose format is not 'b'. */
  lemma {:induction false} SentIsLastDelivered(calls: seq<ApiCall>, call: string)
    ensures LastSent(AskAll(Fresh(), calls).sent, call) == FormOf(LastDelivered(calls, call))
  {
    if calls != [] {
      var front, last := calls[..|calls| - 1], calls[|calls| - 1];
      assert calls == front + [last];
      AskAllAppend(Fresh(), front, last);
      AskedSent(AskAll(Fresh(), front), last, call);
      SentIsLastDelivered(front, call);
    }
  }

  lemma {:induction false} LastCallAccepted(calls: seq<ApiCall>, call: string)
    ensures LastCall(calls, call).None? <==> LastAccepted(calls, call).None?
    ensures LastCall(calls, call).Some? ==> LastAccepted(calls, call) == Some(LastCall(calls, call).value.value)
  {
    if calls != [] { LastCallAccepted(calls[..|calls| - 1], call); }
  }

  lemma {:induction false} LastCallDelivered(calls: seq<ApiCall>, call: string)
    requires LastCall(calls, call).Some? && LastCall(calls, call).value.format != "b"
    ensures LastDelivered(calls, call) == LastCall(calls, call)
  {
    var last := calls[|calls| - 1];
    if !(last.call == call && Supported(last.format)) { LastCallDelivered(calls[..|calls| - 1], call); }
  }

  /** What a single call does, format by format. */
  lemma FormatsExactly(a: Actor, call: string, value: string, n: int, other: string)
    requires |other| != 1
    ensures Asked(a, call, "i", Decimal.Print(n)).sent == a.sent + [[call, Decimal.Print(n)]]
    ensures Asked(a, call, "f", value).sent == a.sent + [[call, value]]
    ensures Asked(a, call, "s", value).sent == a.sent + [[call, value]]
    ensures Asked(a, call, other, value).sent == a.sent + [[call, value]]
    ensures Asked(a, call, "b", value).sent == a.sent
    ensures forall f :: f in {"i", "f", "s", "b", other} ==> Asked(a, call, f, value).cache == a.cache[call := value]
    ensures forall f :: |f| == 1 && f !in {"i", "f", "s", "b"} ==> Asked(a, call, f, value) == a
  {
    Decimal.PrintParse(n);
    forall f | |f| == 1 && f !in {"i", "f", "s", "b"} ensures Asked(a, call, f, value) == a {
      assert f == [f[0]];
    }
    assert a.sent + [] == a.sent;
  }

  /** What the actor makes of a text it was sent is what the controller makes of the text it has cached. */
  predicate Means(format: string, sent: string, cached: string) {
    if format == "i" then Decimal.Parse(sent) == Decimal.Parse(cached) else sent == cached
  }

  /**
   Over any calls: unless the last accepted call of a name had format 'b', the actor's last message of that name
   means what is cached; a number in decimal is sent as it stands.
   */
  lemma {:induction false} SentMeansCached(calls: seq<ApiCall>, call: string)
    requires LastCall(calls, call).Some? && LastCall(calls, call).value.format != "b"
    ensures var a, format := AskAll(Fresh(), calls), LastCall(calls, call).value.format;
      && Get(a.cache, call).Some? && LastSent(a.sent, call).Some?
      && Means(format, LastSent(a.sent, call).value, Get(a.cache, call).value)
      && forall n :: Get(a.cache, call).value == Decimal.Print(n) ==> LastSent(a.sent, call) == Get(a.cache, call)
  {
    var c := LastCall(calls, call).value;
    CacheIsLastAccepted(Fresh(), calls, call);
    LastCallAccepted(calls, call);
    LastCallDelivered(calls, call);
    SentIsLastDelivered(calls, call);
    Decimal.PrintParse(Decimal.Parse(c.value));
    forall n | c.value == Decimal.Print(n) ensures Form(c.format, c.value) == c.value { Decimal.PrintParse(n); }
  }

  /**
   The cache answers for what the actor was sent exactly when the last accepted call of the name did not have
   format 'b', which is accepted and cached but never sent, or when what was sent before happens to be the same.
   */
  lemma {:induction false} CachedIsSentExactly(calls: seq<ApiCall>, call: string)
    requires LastCall(calls, call).Some?
    ensures var a, c := AskAll(Fresh(), calls), LastCall(calls, call).value;
      && Get(a.cache, call) == Some(c.value)
      && (LastSent(a.sent, call) == Some(Form(c.format, c.value))
          <==> c.format != "b" || FormOf(LastDelivered(calls, call)) == Some(c.value))
  {
    CacheIsLastAccepted(Fresh(), calls, call);
    LastCallAccepted(calls, call);
    SentIsLastDelivered(calls, call);
    if LastCall(calls, call).value.format != "b" { LastCallDelivered(calls, call); }
  }

  /** A value the controller believes in and the actor never saw. */
  lemma CachedNeverSent(call: string, value: string)
    ensures var a := AskAll(Fresh(), [ApiCall(call, "b", value)]);
      Get(a.cache, call) == Some(value) && a.sent == []
  {
    var calls := [ApiCall(call, "b", value)];
    assert calls[1..] == [];
    assert AskAll(Fresh(), calls) == Asked(Fresh(), call, "b", value);
  }

  // ---------------------------------------------------------------- round trip

  predicate Wellformed(entries: seq<Entry>) {
    forall i, j :: 0 <= i < j < |entries| ==>
      entries[i].name != entries[j].name && Key(entries[i]) != Key(entries[j])
  }

  /** The value an entry has in the cache of a new actor. */
  function Default(e: Entry): Option<string> {
    if e.value.Some? && (e.call.None? || Supported(FormatOf(e))) then e.value else None
  }

  /** sphactor_load sends the stored value of such an entry to the actor. */
  predicate Restorable(e: Entry) {
    e.kind != "trigger" && e.call.Some? && Supported(FormatOf(e))
  }

  lemma {:induction false} SetAllOther(a: Actor, entries: seq<Entry>, key: string)
    requires forall e :: e in entries ==> Key(e) != key
    ensures Get(SetAll(a, entries).cache, key) == Get(a.cache, key)
    decreases |entries|
  {
    if entries != [] {
      assert entries[0] in entries;
      SetAllOther(SetOne(a, entries[0]), entries[1..], key);
    }
  }

  lemma {:induction false} SetAllDefault(a: Actor, entries: seq<Entry>, k: nat)
    requires Wellformed(entries) && k < |entries| && Key(entries[k]) !in a.cache
    ensures Get(SetAll(a, entries).cache, Key(entries[k])) == Default(entries[k])
    decreases |entries|
  {
    var b := SetOne(a, entries[0]);
    if k == 0 {
      SetAllOther(b, entries[1..], Key(entries[0]));
    } else {
      assert entries[1..][k - 1] == entries[k];
      SetAllDefault(b, entries[1..], k - 1);
    }
  }

  /** Every entry with a default has a value in the cache. */
  predicate Primed(a: Actor, entries: seq<Entry>) {
    forall e :: e in entries && Default(e).Some? ==> Key(e) in a.cache
  }

  /** Actor a was made from this capability, which only had values changed since. */
  predicate MadeFrom(a: Actor, entries: seq<Entry>) {
    SameShape(Fresh().(capability := Some(entries)), a) && Primed(a, entries)
  }

  lemma NewMadeFrom(entries: seq<Entry>)
    requires Wellformed(entries)
    ensures MadeFrom(NewByType(entries), entries)
  {
    var a := Fresh().(capability := Some(entries));
    SetAllShape(a, entries);
    forall e | e in entries && Default(e).Some? ensures Key(e) in NewByType(entries).cache {
      var k :| 0 <= k < |entries| && entries[k] == e;
      SetAllDefault(a, entries, k);
    }
  }

  lemma {:induction false} AskMadeFrom(a: Actor, calls: seq<ApiCall>, entries: seq<Entry>)
    requires MadeFrom(a, entries)
    ensures MadeFrom(AskAll(a, calls), entries)
    decreases |calls|
  {
    if calls != [] { AskMadeFrom(Asked(a, calls[0].call, calls[0].format, calls[0].value), calls[1..], entries); }
  }

  /** What one stored value does to the cached value of entry k. */
  lemma {:induction false} LoadValueCache(a: Actor, s: Stored, i: nat, k: nat)
    requires a.capability.Some? && i <= |a.capability.value| && k < |a.capability.value|
    requires Wellformed(a.capability.value)
    ensures var e := a.capability.value[k];
      Get(LoadValue(a, s, i).cache, Key(e))
      == (if i <= k && e.name == s.name && Restorable(e) then Some(s.value) else Get(a.cache, Key(e)))
    decreases |a.capability.value| - i
  {
    if i < |a.capability.value| {
      LoadEntryShape(a, s, i);
      var b := LoadEntry(a, s, i);
      ShapeKeeps(a, b);
      LoadValueCache(b, s, i + 1, k);
      LoadEntryCache(a, s, i, k);
    }
  }

  lemma LoadEntryCache(a: Actor, s: Stored, i: nat, k: nat)
    requires a.capability.Some? && i < |a.capability.value| && k < |a.capability.value|
    requires Wellformed(a.capability.value)
    ensures var e := a.capability.value[k];
      Get(LoadEntry(a, s, i).cache, Key(e))
      == (if i == k && e.name == s.name && Restorable(e) then Some(s.value) else Get(a.cache, Key(e)))
  {
  }

  lemma ShapeKeeps(a: Actor, b: Actor)
    requires SameShape(a, b) && Wellformed(a.capability.value)
    ensures Wellformed(b.capability.value)
    ensures forall j :: 0 <= j < |a.capability.value| ==>
      && Key(b.capability.value[j]) == Key(a.capability.value[j])
      && b.capability.value[j].name == a.capability.value[j].name
      && (Restorable(b.capability.value[j]) <==> Restorable(a.capability.value[j]))
  {
    forall j | 0 <= j < |a.capability.value|
      ensures Key(b.capability.value[j]) == Key(a.capability.value[j])
      ensures b.capability.value[j].name == a.capability.value[j].name
      ensures Restorable(b.capability.value[j]) <==> Restorable(a.capability.value[j])
    {
      OneShape(a.capability.value[j], b.capability.value[j]);
    }
  }

  lemma OneShape(d: Entry, e: Entry)
    requires e.(value := None) == d.(value := None)
    ensures Key(e) == Key(d) && e.name == d.name && (Restorable(e) <==> Restorable(d))
  {
    assert e.(value := None).name == d.(value := None).name && e.(value := None).call == d.(value := None).call;
    assert e.(value := None).kind == d.(value := None).kind && e.(value := None).format == d.(value := None).format;
  }

  /** The value stored for a name, the last one if there are several. */
  function Find(stored: seq<Stored>, name: string): Option<string> {
    if stored == [] then None
    else if Find(stored[1..], name).Some? then Find(stored[1..], name)
    else if stored[0].name == name then Some(stored[0].value)
    else None
  }

  lemma {:induction false} LoadAllCache(a: Actor, stored: seq<Stored>, k: nat)
    requires a.capability.Some? && k < |a.capability.value| && Wellformed(a.capability.value)
    ensures var e := a.capability.value[k];
      Get(LoadAll(a, stored).cache, Key(e))
      == (if Restorable(e) && Find(stored, e.name).Some? then Find(stored, e.name) else Get(a.cache, Key(e)))
    decreases |stored|
  {
    if stored != [] {
      LoadValueShape(a, stored[0], 0);
      var b := LoadValue(a, stored[0], 0);
      ShapeKeeps(a, b);
      LoadValueCache(a, stored[0], 0, k);
      LoadAllCache(b, stored[1..], k);
    }
  }

  lemma {:induction false} FindOther(cache: map<string, string>, entries: seq<Entry>, name: string)
    requires forall e :: e in entries ==> e.name != name
    ensures Find(SaveEntries(cache, entries), name) == None
  {
    if entries != [] {
      assert entries[0] in entries;
      FindOther(cache, entries[1..], name);
      var rest := SaveEntries(cache, entries[1..]);
      if Key(entries[0]) in cache {
        assert SaveEntries(cache, entries)[1..] == rest;
      } else {
        assert SaveEntries(cache, entries) == rest;
      }
    }
  }

  /** What was saved for entry k is what the cache held for it. */
  lemma {:induction false} FindSaved(cache: map<string, string>, entries: seq<Entry>, k: nat)
    requires Wellformed(entries) && k < |entries|
    ensures Find(SaveEntries(cache, entries), entries[k].name) == Get(cache, Key(entries[k]))
  {
    var rest := SaveEntries(cache, entries[1..]);
    if Key(entries[0]) in cache {
      assert SaveEntries(cache, entries)[1..] == rest;
    } else {
      assert SaveEntries(cache, entries) == rest;
    }
    if k == 0 {
      FindOther(cache, entries[1..], entries[0].name);
    } else {
      assert entries[1..][k - 1] == entries[k];
      FindSaved(cache, entries[1..], k - 1);
    }
  }

  /** The cached value of entry k after loading what a saved. */
  lemma ReloadedValue(a: Actor, entries: seq<Entry>, k: nat)
    requires Wellformed(entries) && MadeFrom(a, entries) && k < |entries|
    ensures var e := entries[k];
      Get(Load(entries, Saved(a)).cache, Key(e))
      == (if Restorable(e) then Get(a.cache, Key(e)) else Default(e))
  {
    var e, made := entries[k], Fresh().(capability := Some(entries));
    ShapeKeeps(made, a);
    FindSaved(a.cache, a.capability.value, k);
    SetAllShape(made, entries);
    SetAllDefault(made, entries, k);
    LoadAllCache(NewByType(entries), Saved(a), k);
    assert e in entries;
  }

  /**
   An entry's value survives saving and loading exactly when its entry is not a trigger, has an api_call and
   a supported format, or when the value is the default anyway.
   */
  lemma ParameterSurvivesExactly(a: Actor, entries: seq<Entry>, k: nat)
    requires Wellformed(entries) && MadeFrom(a, entries) && k < |entries|
    ensures var e := entries[k];
      Get(Load(entries, Saved(a)).cache, Key(e)) == Get(a.cache, Key(e))
      <==> Restorable(e) || Get(a.cache, Key(e)) == Default(e)
  {
    ReloadedValue(a, entries, k);
  }

  lemma {:induction false} SaveEqualExactly(c: map<string, string>, d: map<string, string>, entries: seq<Entry>)
    requires Wellformed(entries)
    ensures SaveEntries(c, entries) == SaveEntries(d, entries)
       <==> forall k :: 0 <= k < |entries| ==> Get(c, Key(entries[k])) == Get(d, Key(entries[k]))
  {
    if SaveEntries(c, entries) == SaveEntries(d, entries) {
      forall k | 0 <= k < |entries| ensures Get(c, Key(entries[k])) == Get(d, Key(entries[k])) {
        FindSaved(c, entries, k);
        FindSaved(d, entries, k);
      }
    }
    if forall k :: 0 <= k < |entries| ==> Get(c, Key(entries[k])) == Get(d, Key(entries[k])) {
      SaveSame(c, d, entries);
    }
  }

  lemma {:induction false} SaveSame(c: map<string, string>, d: map<string, string>, entries: seq<Entry>)
    requires forall k :: 0 <= k < |entries| ==> Get(c, Key(entries[k])) == Get(d, Key(entries[k]))
    ensures SaveEntries(c, entries) == SaveEntries(d, entries)
  {
    if entries != [] {
      assert Get(c, Key(entries[0])) == Get(d, Key(entries[0]));
      forall k | 0 <= k < |entries[1..]| ensures Get(c, Key(entries[1..][k])) == Get(d, Key(entries[1..][k])) {
        assert entries[1..][k] == entries[k + 1];
      }
      SaveSame(c, d, entries[1..]);
    }
  }

  /** Names and keys are all that saving looks at. */
  lemma {:induction false} SaveShape(cache: map<string, string>, d: seq<Entry>, e: seq<Entry>)
    requires |d| == |e| && forall j :: 0 <= j < |d| ==> d[j].name == e[j].name && Key(d[j]) == Key(e[j])
    ensures SaveEntries(cache, d) == SaveEntries(cache, e)
  {
    if d != [] {
      forall j | 0 <= j < |d[1..]| ensures d[1..][j].name == e[1..][j].name && Key(d[1..][j]) == Key(e[1..][j]) {
        assert d[1..][j] == d[j + 1] && e[1..][j] == e[j + 1];
      }
      SaveShape(cache, d[1..], e[1..]);
    }
  }

  lemma {:induction false} SaveOf(a: Actor, entries: seq<Entry>)
    requires Wellformed(entries) && MadeFrom(a, entries)
    ensures Saved(a) == SaveEntries(a.cache, entries)
  {
    ShapeKeeps(Fresh().(capability := Some(entries)), a);
    SaveShape(a.cache, a.capability.value, entries);
  }

  lemma {:induction false} LoadAllMade(a: Actor, stored: seq<Stored>, entries: seq<Entry>)
    requires Wellformed(entries) && MadeFrom(a, entries)
    ensures MadeFrom(LoadAll(a, stored), entries)
    decreases |stored|
  {
    if stored != [] {
      LoadValueShape(a, stored[0], 0);
      LoadValueGrows(a, stored[0], 0);
      LoadAllMade(LoadValue(a, stored[0], 0), stored[1..], entries);
    }
  }

  lemma {:induction false} LoadValueGrows(a: Actor, s: Stored, i: nat)
    requires a.capability.Some? && i <= |a.capability.value|
    ensures a.cache.Keys <= LoadValue(a, s, i).cache.Keys
    decreases |a.capability.value| - i
  {
    if i < |a.capability.value| {
      LoadEntryShape(a, s, i);
      LoadValueGrows(LoadEntry(a, s, i), s, i + 1);
    }
  }

  lemma LoadMadeFrom(entries: seq<Entry>, stored: seq<Stored>)
    requires Wellformed(entries)
    ensures MadeFrom(Load(entries, stored), entries)
  {
    NewMadeFrom(entries);
    LoadAllMade(NewByType(entries), stored, entries);
  }

  /** Saving again after loading writes the same entries exactly when each of them survives. */
  lemma ResaveExactly(a: Actor, entries: seq<Entry>)
    requires Wellformed(entries) && MadeFrom(a, entries)
    ensures Saved(Load(entries, Saved(a))) == Saved(a)
       <==> forall k :: 0 <= k < |entries| ==>
              Restorable(entries[k]) || Get(a.cache, Key(entries[k])) == Default(entries[k])
  {
    var b := Load(entries, Saved(a));
    LoadMadeFrom(entries, Saved(a));
    SaveOf(a, entries);
    SaveOf(b, entries);
    SaveEqualExactly(b.cache, a.cache, entries);
    forall k | 0 <= k < |entries|
      ensures Get(b.cache, Key(entries[k])) == Get(a.cache, Key(entries[k]))
         <==> Restorable(entries[k]) || Get(a.cache, Key(entries[k])) == Default(entries[k])
    {
      ParameterSurvivesExactly(a, entries, k);
    }
  }

  /** One load, of whatever was stored, is enough to settle: from then on saving and loading change nothing saved. */
  lemma LoadSettles(entries: seq<Entry>, stored: seq<Stored>)
    requires Wellformed(entries)
    ensures var b := Load(entries, stored); Saved(Load(entries, Saved(b))) == Saved(b)
  {
    var b, made := Load(entries, stored), Fresh().(capability := Some(entries));
    LoadMadeFrom(entries, stored);
    ResaveExactly(b, entries);
    SetAllShape(made, entries);
    forall k | 0 <= k < |entries|
      ensures Restorable(entries[k]) || Get(b.cache, Key(entries[k])) == Default(entries[k])
    {
      SetAllDefault(made, entries, k);
      LoadAllCache(NewByType(entries), stored, k);
    }
  }

  /** After any calls on a new actor, every restorable entry comes back with the value last accepted for it. */
  lemma {:induction false} ParametersRoundTrip(entries: seq<Entry>, calls: seq<ApiCall>, k: nat)
    requires Wellformed(entries) && k < |entries| && Restorable(entries[k])
    ensures var a := AskAll(NewByType(entries), calls);
      var key := Key(entries[k]);
      && Get(Load(entries, Saved(a)).cache, key) == Get(a.cache, key)
      && Get(a.cache, key)
         == (if LastAccepted(calls, key).Some? then LastAccepted(calls, key) else Default(entries[k]))
  {
    NewMadeFrom(entries);
    var a := AskAll(NewByType(entries), calls);
    AskMadeFrom(NewByType(entries), calls, entries);
    ParameterSurvivesExactly(a, entries, k);
    CacheIsLastAccepted(NewByType(entries), calls, Key(entries[k]));
    SetAllDefault(Fresh().(capability := Some(entries)), entries, k);
  }

  /** An entry without an api_call: the value set through its name is lost. */
  lemma CallessValueLost(value: string)
    requires value != "1"
    ensures var entries := [Entry("rate", "int", Some("1"), None, None)];
      var a := AskAll(NewByType(entries), [ApiCall("rate", "", value)]);
      Get(a.cache, "rate") == Some(value) && Get(Load(entries, Saved(a)).cache, "rate") == Some("1")
  {
    var entries := [Entry("rate", "int", Some("1"), None, None)];
    var calls := [ApiCall("rate", "", value)];
    NewMadeFrom(entries);
    AskMadeFrom(NewByType(entries), calls, entries);
    CacheIsLastAccepted(NewByType(entries), calls, "rate");
    assert calls[|calls| - 1] == ApiCall("rate", "", value);
    ReloadedValue(AskAll(NewByType(entries), calls), entries, 0);
  }

  // ---------------------------------------------------------------- the calls that setting and loading make

  /** The call with which an entry's default is set: by its api_call, or by its name. */
  function DefaultCall(e: Entry): seq<ApiCall> {
    if e.value.None? then []
    else if e.call.None? then [ApiCall(e.name, "", e.value.value)]
    else [ApiCall(e.call.value, if e.format.Some? then e.format.value else "", e.value.value)]
  }

  function DefaultCalls(entries: seq<Entry>): seq<ApiCall> {
    if entries == [] then [] else DefaultCall(entries[0]) + DefaultCalls(entries[1..])
  }

  /** The call with which a stored value is loaded into an entry of its name. */
  function StoredCall(e: Entry, s: Stored): seq<ApiCall> {
    if e.name != s.name || e.kind == "trigger" || e.call.None? then []
    else [ApiCall(e.call.value, if e.format.Some? then e.format.value else "", s.value)]
  }

  function StoredCalls(entries: seq<Entry>, s: Stored): seq<ApiCall> {
    if entries == [] then [] else StoredCall(entries[0], s) + StoredCalls(entries[1..], s)
  }

  function LoadCalls(entries: seq<Entry>, stored: seq<Stored>): seq<ApiCall> {
    if stored == [] then [] else StoredCalls(entries, stored[0]) + LoadCalls(entries, stored[1..])
  }

  /** Cache and messages, without the capability. */
  predicate SameCalls(a: Actor, b: Actor) {
    a.cache == b.cache && a.sent == b.sent
  }

  lemma {:induction false} AskAllBoth(a: Actor, x: seq<ApiCall>, y: seq<ApiCall>)
    ensures AskAll(a, x + y) == AskAll(AskAll(a, x), y)
    decreases |x|
  {
    if x == [] {
      assert x + y == y;
    } else {
      assert (x + y)[1..] == x[1..] + y;
      AskAllBoth(Asked(a, x[0].call, x[0].format, x[0].value), x[1..], y);
    }
  }

  lemma {:induction false} AskAllSame(a: Actor, b: Actor, calls: seq<ApiCall>)
    requires SameCalls(a, b)
    ensures SameCalls(AskAll(a, calls), AskAll(b, calls))
    decreases |calls|
  {
    if calls != [] {
      var c := calls[0];
      AskAllSame(Asked(a, c.call, c.format, c.value), Asked(b, c.call, c.format, c.value), calls[1..]);
    }
  }

  lemma {:induction false} AskOne(a: Actor, c: ApiCall)
    ensures AskAll(a, [c]) == Asked(a, c.call, c.format, c.value)
  {
    assert [c][1..] == [];
  }

  lemma {:induction false} SetOneIsCall(a: Actor, e: Entry)
    ensures SetOne(a, e) == AskAll(a, DefaultCall(e))
  {
    hide Asked;
    if e.value.Some? { AskOne(a, DefaultCall(e)[0]); }
  }

  lemma {:induction false} SetAllIsCalls(a: Actor, entries: seq<Entry>)
    ensures SetAll(a, entries) == AskAll(a, DefaultCalls(entries))
    decreases |entries|
  {
    if entries != [] {
      SetOneIsCall(a, entries[0]);
      AskAllBoth(a, DefaultCall(entries[0]), DefaultCalls(entries[1..]));
      SetAllIsCalls(SetOne(a, entries[0]), entries[1..]);
    }
  }

  lemma {:induction false} LoadEntryIsCall(a: Actor, s: Stored, i: nat)
    requires a.capability.Some? && i < |a.capability.value|
    ensures SameCalls(LoadEntry(a, s, i), AskAll(a, StoredCall(a.capability.value[i], s)))
  {
    var e := a.capability.value[i];
    if StoredCall(e, s) != [] { AskOne(a, StoredCall(e, s)[0]); }
  }

  /** Entries that differ in their values only are loaded by the same calls. */
  lemma {:induction false} SameStoredCalls(d: seq<Entry>, e: seq<Entry>, s: Stored)
    requires |d| == |e| && forall j :: 0 <= j < |d| ==> e[j].(value := None) == d[j].(value := None)
    ensures StoredCalls(d, s) == StoredCalls(e, s)
  {
    if d != [] {
      SameStoredCall(d[0], e[0], s);
      SameStoredCalls(d[1..], e[1..], s);
    }
  }

  lemma SameStoredCall(d: Entry, e: Entry, s: Stored)
    requires e.(value := None) == d.(value := None)
    ensures StoredCall(d, s) == StoredCall(e, s)
  {
    OneShape(d, e);
    assert e.(value := None).kind == d.(value := None).kind && e.(value := None).call == d.(value := None).call;
    assert e.(value := None).format == d.(value := None).format;
  }

  lemma {:induction false} LoadValueIsCalls(a: Actor, s: Stored, i: nat)
    requires a.capability.Some? && i <= |a.capability.value|
    ensures SameCalls(LoadValue(a, s, i), AskAll(a, StoredCalls(a.capability.value[i..], s)))
    decreases |a.capability.value| - i
  {
    hide StoredCall, LoadEntry, Asked;
    if i < |a.capability.value| {
      var d, b := a.capability.value, LoadEntry(a, s, i);
      LoadEntryShape(a, s, i);
      LoadEntryIsCall(a, s, i);
      LoadValueIsCalls(b, s, i + 1);
      SameStoredCalls(d[i + 1..], b.capability.value[i + 1..], s);
      AskAllSame(b, AskAll(a, StoredCall(d[i], s)), StoredCalls(d[i + 1..], s));
      AskAllBoth(a, StoredCall(d[i], s), StoredCalls(d[i + 1..], s));
      assert d[i..][1..] == d[i + 1..];
    }
  }

  lemma {:induction false} LoadAllIsCalls(a: Actor, stored: seq<Stored>)
    requires a.capability.Some?
    ensures SameCalls(LoadAll(a, stored), AskAll(a, LoadCalls(a.capability.value, stored)))
    decreases |stored|
  {
    hide LoadValue, StoredCalls, Asked;
    if stored != [] {
      var d, b := a.capability.value, LoadValue(a, stored[0], 0);
      LoadValueShape(a, stored[0], 0);
      LoadValueIsCalls(a, stored[0], 0);
      assert d[0..] == d;
      LoadAllIsCalls(b, stored[1..]);
      SameLoadCalls(d, b.capability.value, stored[1..]);
      AskAllSame(b, AskAll(a, StoredCalls(d, stored[0])), LoadCalls(d, stored[1..]));
      AskAllBoth(a, StoredCalls(d, stored[0]), LoadCalls(d, stored[1..]));
    }
  }

  lemma {:induction false} SameLoadCalls(d: seq<Entry>, e: seq<Entry>, stored: seq<Stored>)
    requires |d| == |e| && forall j :: 0 <= j < |d| ==> e[j].(value := None) == d[j].(value := None)
    ensures LoadCalls(d, stored) == LoadCalls(e, stored)
  {
    if stored != [] {
      SameStoredCalls(d, e, stored[0]);
      SameLoadCalls(d, e, stored[1..]);
    }
  }

  /** Loading makes exactly these calls: first the defaults, then each stored value against each entry, in order. */
  lemma {:induction false} LoadIsCalls(entries: seq<Entry>, stored: seq<Stored>)
    ensures SameCalls(Load(entries, stored), AskAll(Fresh(), DefaultCalls(entries) + LoadCalls(entries, stored)))
  {
    hide Asked, LoadAll, LoadCalls, DefaultCalls;
    var made := Fresh().(capability := Some(entries));
    SetAllShape(made, entries);
    SetAllIsCalls(made, entries);
    LoadAllIsCalls(NewByType(entries), stored);
    AskAllSame(made, Fresh(), DefaultCalls(entries));
    AskAllSame(NewByType(entries), AskAll(Fresh(), DefaultCalls(entries)), LoadCalls(entries, stored));
    AskAllBoth(Fresh(), DefaultCalls(entries), LoadCalls(entries, stored));
  }

  /** Every call of this name has this format. */
  predicate Uniform(calls: seq<ApiCall>, call: string, format: string) {
    forall c :: c in calls && c.call == call ==> c.format == format
  }

  lemma {:induction false} DefaultsUniform(entries: seq<Entry>, call: string, format: string)
    requires forall e :: e in entries && Key(e) == call ==> FormatOfCall(e) == format
    ensures Uniform(DefaultCalls(entries), call, format)
  {
    if entries != [] {
      assert entries[0] in entries;
      DefaultsUniform(entries[1..], call, format);
    }
  }

  /** The format of the calls made for an entry; without api_call there is none. */
  function FormatOfCall(e: Entry): string {
    if e.call.Some? && e.format.Some? then e.format.value else ""
  }

  lemma {:induction false} StoredUniform(entries: seq<Entry>, s: Stored, call: string, format: string)
    requires forall e :: e in entries && Key(e) == call ==> FormatOfCall(e) == format
    ensures Uniform(StoredCalls(entries, s), call, format)
  {
    if entries != [] {
      assert entries[0] in entries;
      StoredUniform(entries[1..], s, call, format);
    }
  }

  lemma {:induction false} LoadsUniform(entries: seq<Entry>, stored: seq<Stored>, call: string, format: string)
    requires forall e :: e in entries && Key(e) == call ==> FormatOfCall(e) == format
    ensures Uniform(LoadCalls(entries, stored), call, format)
  {
    if stored != [] {
      StoredUniform(entries, stored[0], call, format);
      LoadsUniform(entries, stored[1..], call, format);
    }
  }

  lemma {:induction false} LastCallIn(calls: seq<ApiCall>, call: string)
    ensures var c := LastCall(calls, call); c.Some? ==> c.value in calls && c.value.call == call
  {
    if calls != [] { LastCallIn(calls[..|calls| - 1], call); }
  }

  /**
   So through save and load too: whatever is cached for an entry afterwards, the new actor was sent a message
   that means it, unless the entry's format is 'b'.
   */
  lemma LoadedMeansCached(entries: seq<Entry>, stored: seq<Stored>, k: nat)
    requires Wellformed(entries) && k < |entries| && FormatOfCall(entries[k]) != "b"
    ensures var b, key := Load(entries, stored), Key(entries[k]);
      Get(b.cache, key).Some? ==>
        && LastSent(b.sent, key).Some?
        && Means(FormatOfCall(entries[k]), LastSent(b.sent, key).value, Get(b.cache, key).value)
  {
    hide Load, DefaultCalls, LoadCalls, Means;
    var key, format := Key(entries[k]), FormatOfCall(entries[k]);
    var calls := DefaultCalls(entries) + LoadCalls(entries, stored);
    LoadIsCalls(entries, stored);
    OneKey(entries, k);
    DefaultsUniform(entries, key, format);
    LoadsUniform(entries, stored, key, format);
    CacheIsLastAccepted(Fresh(), calls, key);
    LastCallAccepted(calls, key);
    LastCallIn(calls, key);
    if LastCall(calls, key).Some? { SentMeansCached(calls, key); }
  }

  lemma OneKey(entries: seq<Entry>, k: nat)
    requires Wellformed(entries) && k < |entries|
    ensures forall e :: e in entries && Key(e) == Key(entries[k]) ==> e == entries[k]
  {
    forall e | e in entries && Key(e) == Key(entries[k]) ensures e == entries[k] {
      var i :| 0 <= i < |entries| && entries[i] == e;
    }
  }

  // ---------------------------------------------------------------- the values in the capability

  lemma {:induction false} LoadValueValues(a: Actor, s: Stored, i: nat, k: nat)
    requires a.capability.Some? && i <= |a.capability.value| && k < |a.capability.value|
    ensures SameShape(a, LoadValue(a, s, i))
    ensures var e := a.capability.value[k];
      LoadValue(a, s, i).capability.value[k].value
      == (if i <= k && e.name == s.name && e.kind != "trigger" && e.value.Some? then Some(s.value) else e.value)
    decreases |a.capability.value| - i
  {
    LoadValueShape(a, s, i);
    if i < |a.capability.value| {
      LoadEntryShape(a, s, i);
      LoadValueShape(LoadEntry(a, s, i), s, i + 1);
      LoadValueValues(LoadEntry(a, s, i), s, i + 1, k);
      SameEntry(a.capability.value[k], LoadEntry(a, s, i).capability.value[k]);
    }
  }

  lemma SameEntry(d: Entry, e: Entry)
    requires e.(value := None) == d.(value := None)
    ensures e.name == d.name && e.kind == d.kind && e.call == d.call && e.format == d.format
  {
    var x, y := d.(value := None), e.(value := None);
    assert x.name == d.name && x.kind == d.kind && x.call == d.call && x.format == d.format;
    assert y.name == e.name && y.kind == e.kind && y.call == e.call && y.format == e.format;
  }

  lemma {:induction false} LoadAllValues(a: Actor, stored: seq<Stored>, k: nat)
    requires a.capability.Some? && k < |a.capability.value|
    ensures LoadAll(a, stored).capability.Some? && k < |LoadAll(a, stored).capability.value|
    ensures var e, found := a.capability.value[k], Find(stored, a.capability.value[k].name);
      LoadAll(a, stored).capability.value[k].value
      == (if e.kind != "trigger" && e.value.Some? && found.Some? then found else e.value)
    decreases |stored|
  {
    hide LoadValue;
    if stored != [] {
      var b := LoadValue(a, stored[0], 0);
      LoadValueShape(a, stored[0], 0);
      LoadValueValues(a, stored[0], 0, k);
      SameEntry(a.capability.value[k], b.capability.value[k]);
      LoadAllValues(b, stored[1..], k);
    }
  }

  /** An entry with a value has afterwards the one stored for its name, unless it is a trigger; no other gets one. */
  lemma {:induction false} LoadedValues(entries: seq<Entry>, stored: seq<Stored>, k: nat)
    requires k < |entries|
    ensures var b, found := Load(entries, stored), Find(stored, entries[k].name);
      && b.capability.Some? && |b.capability.value| == |entries|
      && b.capability.value[k].value
         == (if entries[k].kind != "trigger" && entries[k].value.Some? && found.Some? then found else entries[k].value)
  {
    var made := Fresh().(capability := Some(entries));
    SetAllShape(made, entries);
    LoadAllValues(NewByType(entries), stored, k);
    LoadAllLength(NewByType(entries), stored);
  }

  lemma {:induction false} LoadAllLength(a: Actor, stored: seq<Stored>)
    requires a.capability.Some?
    ensures LoadAll(a, stored).capability.Some? && |LoadAll(a, stored).capability.value| == |a.capability.value|
    decreases |stored|
  {
    if stored != [] {
      LoadValueShape(a, stored[0], 0);
      LoadAllLength(LoadValue(a, stored[0], 0), stored[1..]);
    }
  }

  // ---------------------------------------------------------------- saving and the result, entry by entry

  /** Saving goes through the entries in order; an entry without a cached value is left out. */
  lemma {:induction false} SaveBoth(cache: map<string, string>, a: seq<Entry>, b: seq<Entry>)
    ensures SaveEntries(cache, a + b) == SaveEntries(cache, a) + SaveEntries(cache, b)
  {
    if a == [] {
      assert a + b == b;
    } else {
      assert (a + b)[1..] == a[1..] + b;
      SaveBoth(cache, a[1..], b);
    }
  }

  lemma {:induction false} SaveOne(cache: map<string, string>, e: Entry)
    ensures var key := if e.call.Some? then e.call.value else e.name;
      SaveEntries(cache, [e]) == (if key in cache then [Stored(e.name, cache[key])] else [])
  {
    assert [e][1..] == [];
  }

  /** The result of setting a capability is that of the last entry with a value. */
  lemma {:induction false} LastResultExactly(a: seq<Entry>, e: Entry, b: seq<Entry>)
    requires e.value.Some? && forall x :: x in b ==> x.value.None?
    ensures LastResult(b) == -1
    ensures LastResult(a + [e] + b) == (if e.call.None? || Supported(FormatOf(e)) then 0 else -1)
  {
    var all := a + [e] + b;
    if b == [] {
      assert all[|all| - 1] == e;
    } else {
      var front := b[..|b| - 1];
      assert b[|b| - 1] in b && all[|all| - 1] == b[|b| - 1] && all[..|all| - 1] == a + [e] + front;
      LastResultExactly(a, e, front);
    }
  }

  // ---------------------------------------------------------------- the code

  /** No entry that load makes a call for has an empty call name. */
  predicate Called(entries: seq<Entry>) {
    forall e :: e in entries && e.kind != "trigger" && e.call.Some? ==> e.call.value != ""
  }

  class SphactorParams {
    var capability: Option<seq<Entry>>
    var valuesCache: map<string, string>
    var sent: seq<seq<string>>

    ghost function State(): Actor
      reads this
    {
      Actor(capability, valuesCache, sent)
    }

    constructor ()
      ensures State() == Fresh()
    {
      capability, valuesCache, sent := None, map[], [];
    }

    /** An empty call name is asserted not to happen. */
    method AskApi(call: string, format: string, value: string) returns (rc: int)
      requires call != ""
      modifies this`valuesCache, this`sent
      ensures State() == Asked(old(State()), call, format, value)
      ensures rc == (if Supported(format) then 0 else -1)
    {
      rc := 0;
      if |format| == 1 {
        match format[0] {
          case 'b' =>
          case 'i' => sent := sent + [[call, Decimal.Print(Decimal.Parse(value))]];
          case 'f' => sent := sent + [[call, value]];
          case 's' => sent := sent + [[call, value]];
          case _ => rc := -1;
        }
      } else {
        sent := sent + [[call, value]];
      }
      if rc == 0 { valuesCache := valuesCache[call := value]; }
    }

    method SetCapability(entries: seq<Entry>) returns (rc: int)
      requires capability.None? ==> forall e :: e in entries && e.value.Some? ==> Key(e) != ""
      modifies this
      ensures State() == Equipped(old(State()), entries)
      ensures rc == (if old(capability).Some? then -1 else LastResult(entries))
      ensures old(capability).Some? ==> State() == old(State())
    {
      rc := -1;
      if capability.Some? { return; }
      capability := Some(entries);
      var i := 0;
      while i < |entries|
        invariant 0 <= i <= |entries|
        invariant SetAll(State(), entries[i..]) == Equipped(old(State()), entries)
        invariant rc == LastResult(entries[..i])
      {
        var item := entries[i];
        assert item in entries;
        assert entries[i..][1..] == entries[i + 1..];
        assert entries[..i + 1][..i] == entries[..i];
        if item.call.Some? && item.value.Some? {
          rc := AskApi(item.call.value, FormatOf(item), item.value.value);
        } else if item.value.Some? {
          rc := AskApi(item.name, "", item.value.value);
        }
        i := i + 1;
      }
      assert entries[..i] == entries;
    }

    method Save() returns (stored: seq<Stored>)
      ensures stored == Saved(State())
    {
      stored := [];
      if capability.None? { return; }
      var i := 0;
      while i < |capability.value|
        invariant 0 <= i <= |capability.value|
        invariant stored + SaveEntries(valuesCache, capability.value[i..]) == Saved(State())
      {
        var data := capability.value[i];
        assert capability.value[i..][1..] == capability.value[i + 1..];
        var key := if data.call.Some? then data.call.value else data.name;
        if key in valuesCache { stored := stored + [Stored(data.name, valuesCache[key])]; }
        i := i + 1;
      }
    }

    /** The inner loop of sphactor_load: one stored value against every entry. */
    method LoadStored(s: Stored)
      requires capability.Some? && Called(capability.value)
      modifies this
      ensures State() == LoadValue(old(State()), s, 0)
      ensures capability.Some? && Called(capability.value)
    {
      var i := 0;
      while i < |capability.value|
        invariant capability.Some? && 0 <= i <= |capability.value| && Called(capability.value)
        invariant LoadValue(State(), s, i) == LoadValue(old(State()), s, 0)
        decreases |capability.value| - i
      {
        var data := capability.value[i];
        if data.name == s.name && data.kind != "trigger" {
          if data.value.Some? {
            capability := Some(capability.value[i := data.(value := Some(s.value))]);
          }
          if data.call.Some? {
            var rc := AskApi(data.call.value, FormatOf(data), s.value);
          }
        }
        i := i + 1;
      }
    }

    /** The loop of sphactor_load over the stored values. */
    method LoadParams(stored: seq<Stored>)
      requires capability.Some? && Called(capability.value)
      modifies this
      ensures State() == LoadAll(old(State()), stored)
    {
      var i := 0;
      while i < |stored|
        invariant 0 <= i <= |stored| && capability.Some? && Called(capability.value)
        invariant LoadAll(State(), stored[i..]) == LoadAll(old(State()), stored)
      {
        assert stored[i..][1..] == stored[i + 1..];
        LoadValueShape(State(), stored[i], 0);
        LoadStored(stored[i]);
        i := i + 1;
      }
    }
  }
}
