/**
 The subscribe filters of an actor: the list the actor keeps (sub_filters), the subscriptions its
 SUB socket really has, and the reply to a FILTERS request with the controller's decoding of it.
 */
module SubFilters {
  import opened Options

  /** The socket counts its subscriptions: subscribing twice takes two unsubscribes to undo. */
  datatype Sub = Sub(filters: Option<seq<string>>, subscribed: multiset<string>)

  datatype Op = Add(filter: string) | Remove(filter: string)

  /** sphactor_actor_new: no list, and a subscription to everything. */
  function Fresh(): Sub {
    Sub(None, multiset{""})
  }

  /** zlist_remove: drops the first item equal to f, if any. */
  function Without(list: seq<string>, f: string): seq<string> {
    if list == [] then []
    else if list[0] == f then list[1..]
    else [list[0]] + Without(list[1..], f)
  }

  function Apply(s: Sub, op: Op): Sub {
    match op
    case Add(f) =>
      if s.filters.None? then Sub(Some([f]), s.subscribed - multiset{""} + multiset{f})
      else if f in s.filters.value then s
      else Sub(Some(s.filters.value + [f]), s.subscribed + multiset{f})
    case Remove(f) =>
      if s.filters.None? then s
      else
        var list := Without(s.filters.value, f);
        if list == [] then Sub(None, s.subscribed + multiset{""}) else s.(filters := Some(list))
  }

  function Run(s: Sub, ops: seq<Op>): Sub
    decreases |ops|
  {
    if ops == [] then s else Run(Apply(s, ops[0]), ops[1..])
  }

  predicate Nonempty(ops: seq<Op>) {
    forall op :: op in ops ==> op.filter != ""
  }

  /** The SUB socket lets a message through when some subscription is a prefix of it. */
  ghost predicate Accepts(s: Sub, msg: string) {
    exists f :: f in s.subscribed && f <= msg
  }

  /** What was asked for: no filters, or a listed filter that is a prefix. */
  ghost predicate Wanted(s: Sub, msg: string) {
    s.filters.None? || exists f :: f in s.filters.value && f <= msg
  }

  predicate Distinct(list: seq<string>) {
    forall i, j :: 0 <= i < j < |list| ==> list[i] != list[j]
  }

  // ---------------------------------------------------------------- the list

  lemma {:induction false} WithoutMember(list: seq<string>, f: string, g: string)
    requires Distinct(list)
    ensures g in Without(list, f) <==> g in list && g != f
  {
    if list != [] {
      assert g in list <==> g == list[0] || g in list[1..];
      if list[0] != f { WithoutMember(list[1..], f, g); }
    }
  }

  lemma {:induction false} WithoutDistinct(list: seq<string>, f: string)
    requires Distinct(list)
    ensures Distinct(Without(list, f))
  {
    if list != [] && list[0] != f {
      var rest := Without(list[1..], f);
      WithoutDistinct(list[1..], f);
      WithoutMember(list[1..], f, list[0]);
      assert list[0] !in rest;
    }
  }

  lemma {:induction false} WithoutMembers(list: seq<string>, f: string)
    requires Distinct(list)
    ensures Distinct(Without(list, f))
    ensures forall g :: g in Without(list, f) <==> g in list && g != f
  {
    WithoutDistinct(list, f);
    forall g ensures g in Without(list, f) <==> g in list && g != f { WithoutMember(list, f, g); }
  }

  lemma {:induction false} WithoutAbsent(list: seq<string>, f: string)
    requires f !in list
    ensures Without(list, f) == list
  {
    if list != [] { WithoutAbsent(list[1..], f); }
  }

  /** Taking out the first f leaves everything else in its order. */
  lemma {:induction false} WithoutKeepsOrder(a: seq<string>, f: string, b: seq<string>)
    requires f !in a
    ensures Without(a + [f] + b, f) == a + b
  {
    var list := a + [f] + b;
    if a == [] {
      assert list[0] == f && list[1..] == b && a + b == b;
    } else {
      assert a[0] in a && list[0] == a[0];
      assert list[1..] == a[1..] + [f] + b;
      WithoutKeepsOrder(a[1..], f, b);
      assert a + b == [a[0]] + (a[1..] + b);
    }
  }

  /** What the list and the subscriptions satisfy in every run of nonempty filters. */
  ghost predicate Consistent(s: Sub) {
    match s.filters
    case None => s.subscribed[""] == 1
    case Some(list) =>
      && s.subscribed[""] == 0
      && list != [] && Distinct(list)
      && (forall f :: f in list ==> f != "" && f in s.subscribed)
  }

  /** The filters that were ever added are exactly the nonempty subscriptions. */
  ghost predicate Subscribes(s: Sub, added: set<string>) {
    forall f :: f != "" ==> (f in s.subscribed <==> f in added)
  }

  function Added(ops: seq<Op>): set<string> {
    set op | op in ops && op.Add? :: op.filter
  }

  lemma StepConsistent(s: Sub, op: Op, added: set<string>)
    requires Consistent(s) && op.filter != "" && Subscribes(s, added)
    ensures Consistent(Apply(s, op))
    ensures Subscribes(Apply(s, op), if op.Add? then added + {op.filter} else added)
  {
    if s.filters.Some? && op.Remove? { WithoutMembers(s.filters.value, op.filter); }
  }

  lemma {:induction false} RunConsistent(s: Sub, ops: seq<Op>, added: set<string>)
    requires Consistent(s) && Nonempty(ops) && Subscribes(s, added)
    ensures Consistent(Run(s, ops)) && Subscribes(Run(s, ops), added + Added(ops))
    decreases |ops|
  {
    if ops == [] {
      assert added + Added(ops) == added;
    } else {
      var now := if ops[0].Add? then added + {ops[0].filter} else added;
      StepConsistent(s, ops[0], added);
      RunConsistent(Apply(s, ops[0]), ops[1..], now);
      forall f ensures f in added + Added(ops) <==> f in now + Added(ops[1..]) {
        assert forall op :: op in ops <==> op == ops[0] || op in ops[1..];
      }
    }
  }

  lemma WantedAccepted(s: Sub, msg: string)
    requires Consistent(s) && Wanted(s, msg)
    ensures Accepts(s, msg)
  {
    if s.filters.None? { assert "" in s.subscribed && "" <= msg; }
  }

  /**
   After any sequence of adds and removes: the subscription to everything is there, once, exactly
   when there is no list; a list is nonempty and free of duplicates; and every message that was
   asked for gets through.
   */
  lemma {:induction false} WantedGetsThrough(ops: seq<Op>)
    requires Nonempty(ops)
    ensures var s := Run(Fresh(), ops);
      && s.subscribed[""] == (if s.filters.None? then 1 else 0)
      && (s.filters.Some? ==> s.filters.value != [] && Distinct(s.filters.value))
      && (s.filters.Some? ==> forall f :: f in s.filters.value ==> f in s.subscribed)
      && (forall msg :: Wanted(s, msg) ==> Accepts(s, msg))
  {
    RunConsistent(Fresh(), ops, {});
    var s := Run(Fresh(), ops);
    forall msg | Wanted(s, msg) ensures Accepts(s, msg) {
      WantedAccepted(s, msg);
    }
  }

  /** The SUB socket accepts exactly what was asked for. */
  ghost predicate Exact(s: Sub) {
    forall msg :: Accepts(s, msg) <==> Wanted(s, msg)
  }

  lemma ExactCoversAdded(s: Sub, added: set<string>)
    requires Subscribes(s, added) && "" !in added && Exact(s)
    ensures forall f :: f in added ==> Wanted(s, f)
  {
    forall f | f in added ensures Wanted(s, f) {
      assert f in s.subscribed && f <= f;
      assert Accepts(s, f);
    }
  }

  lemma CoveredIsWanted(s: Sub, added: set<string>, msg: string)
    requires Consistent(s) && Subscribes(s, added) && s.filters.Some?
    requires forall f :: f in added ==> Wanted(s, f)
    requires Accepts(s, msg)
    ensures Wanted(s, msg)
  {
    var f :| f in s.subscribed && f <= msg;
    assert Wanted(s, f);
    var g :| g in s.filters.value && g <= f;
    assert g <= msg;
  }

  lemma ExactWhenCovered(s: Sub, added: set<string>)
    requires Consistent(s) && Subscribes(s, added) && "" !in added
    ensures Exact(s) <==> s.filters.None? || forall f :: f in added ==> Wanted(s, f)
  {
    if Exact(s) { ExactCoversAdded(s, added); }
    if s.filters.None? || forall f :: f in added ==> Wanted(s, f) {
      forall msg ensures Accepts(s, msg) <==> Wanted(s, msg) {
        if Wanted(s, msg) { WantedAccepted(s, msg); }
        if s.filters.Some? && Accepts(s, msg) { CoveredIsWanted(s, added, msg); }
      }
    }
  }

  /**
   filter_remove never unsubscribes, so the socket may let too much through. It does not exactly
   when there is no list, or each filter that was ever added is covered by one still listed.
   */
  lemma {:induction false} ExactExactly(ops: seq<Op>)
    requires Nonempty(ops)
    ensures var s := Run(Fresh(), ops);
      Exact(s) <==> s.filters.None? || forall f :: f in Added(ops) ==> Wanted(s, f)
  {
    RunConsistent(Fresh(), ops, {});
    assert {} + Added(ops) == Added(ops);
    NonemptyAdded(ops);
    ExactWhenCovered(Run(Fresh(), ops), Added(ops));
  }

  lemma NonemptyAdded(ops: seq<Op>)
    requires Nonempty(ops)
    ensures "" !in Added(ops)
  {
  }

  /** A removal that finds its filter in the list. */
  predicate Removes(s: Sub, op: Op) {
    op.Remove? && s.filters.Some? && op.filter in s.filters.value
  }

  predicate NothingRemoved(s: Sub, ops: seq<Op>)
    decreases |ops|
  {
    ops == [] || (!Removes(s, ops[0]) && NothingRemoved(Apply(s, ops[0]), ops[1..]))
  }

  lemma {:induction false} KeepsAdded(s: Sub, ops: seq<Op>)
    requires NothingRemoved(s, ops) && (s.filters.Some? ==> s.filters.value != [])
    ensures var t := Run(s, ops);
      && (s.filters.Some? ==> t.filters.Some? && forall f :: f in s.filters.value ==> f in t.filters.value)
      && (forall f :: f in Added(ops) ==> t.filters.Some? && f in t.filters.value)
    decreases |ops|
  {
    if ops != [] {
      if ops[0].Remove? && s.filters.Some? { WithoutAbsent(s.filters.value, ops[0].filter); }
      var next := Apply(s, ops[0]);
      KeepsAdded(next, ops[1..]);
      forall f | f in Added(ops) ensures Run(s, ops).filters.Some? && f in Run(s, ops).filters.value {
        var op :| op in ops && op.Add? && op.filter == f;
        assert op == ops[0] || op in ops[1..];
        if op == ops[0] { assert f in next.filters.value; } else { assert f in Added(ops[1..]); }
      }
    }
  }

  /** In particular it is exact as long as no removal has found its filter. */
  lemma {:induction false} ExactUntilRemoval(ops: seq<Op>)
    requires Nonempty(ops) && NothingRemoved(Fresh(), ops)
    ensures Exact(Run(Fresh(), ops))
  {
    KeepsAdded(Fresh(), ops);
    ExactExactly(ops);
    var s := Run(Fresh(), ops);
    forall f | f in Added(ops) ensures Wanted(s, f) {
      assert f in s.filters.value && f <= f;
    }
  }

  /** A removed filter still lets its messages through. */
  lemma RemovedStillAccepted()
    ensures var s := Run(Fresh(), [Add("a"), Add("b"), Remove("a")]);
      s.filters == Some(["b"]) && Accepts(s, "a") && !Wanted(s, "a")
  {
    var s1 := Sub(Some(["a"]), multiset{"a"});
    var s2 := Sub(Some(["a", "b"]), multiset{"a", "b"});
    var s3 := Sub(Some(["b"]), multiset{"a", "b"});
    var ops := [Add("a"), Add("b"), Remove("a")];
    assert ops[1..] == [Add("b"), Remove("a")] && ops[1..][1..] == [Remove("a")] && ops[1..][1..][1..] == [];
    assert Apply(Fresh(), Add("a")) == s1;
    assert ["a"] + ["b"] == ["a", "b"] && multiset{"a"} + multiset{"b"} == multiset{"a", "b"};
    assert Apply(s1, Add("b")) == s2;
    assert ["a", "b"][1..] == ["b"];
    assert Apply(s2, Remove("a")) == s3;
    assert Run(s2, ops[1..][1..]) == s3;
    assert Run(s1, ops[1..]) == s3;
    assert "a" in s3.subscribed && "a" <= "a";
    assert "b"[0] != "a"[0] && !("b" <= "a");
  }

  // ---------------------------------------------------------------- asking for the filters

  /** The filters added and not since removed, in the order in which they were last added. */
  function Reference(list: seq<string>, op: Op): seq<string> {
    match op
    case Add(f) => if f in list then list else list + [f]
    case Remove(f) => Without(list, f)
  }

  function ReferenceRun(list: seq<string>, ops: seq<Op>): seq<string>
    decreases |ops|
  {
    if ops == [] then list else ReferenceRun(Reference(list, ops[0]), ops[1..])
  }

  function ListOrNull(list: seq<string>): Option<seq<string>> {
    if list == [] then None else Some(list)
  }

  lemma StepRefines(s: Sub, list: seq<string>, op: Op)
    requires s.filters == ListOrNull(list)
    ensures Apply(s, op).filters == ListOrNull(Reference(list, op))
  {
    assert [] + [op.filter] == [op.filter];
  }

  lemma {:induction false} ListRefines(s: Sub, list: seq<string>, ops: seq<Op>)
    requires s.filters == ListOrNull(list)
    ensures Run(s, ops).filters == ListOrNull(ReferenceRun(list, ops))
    decreases |ops|
  {
    if ops != [] {
      StepRefines(s, list, ops[0]);
      ListRefines(Apply(s, ops[0]), Reference(list, ops[0]), ops[1..]);
    }
  }

  // ---------------------------------------------------------------- the order of the answer

  /** The last of the ops on f is an add. */
  predicate Present(ops: seq<Op>, f: string) {
    ops != []
    && var op, front := ops[|ops| - 1], ops[..|ops| - 1];
       if op.filter == f then op.Add? else Present(front, f)
  }

  /** The position of the add that put f where it is: the first since it was removed last, or ever. */
  function AddedAt(ops: seq<Op>, f: string): (k: nat)
    requires Present(ops, f)
    ensures k < |ops|
  {
    var front := ops[..|ops| - 1];
    if Present(front, f) then AddedAt(front, f) else |ops| - 1
  }

  /** The list holds the filters that are present, in the order of those adds. */
  ghost predicate InOrder(ops: seq<Op>, list: seq<string>) {
    && (forall f :: f in list <==> Present(ops, f))
    && (forall i, j :: 0 <= i < j < |list| ==> AddedAt(ops, list[i]) < AddedAt(ops, list[j]))
  }

  lemma {:induction false} ReferenceAppend(list: seq<string>, ops: seq<Op>, op: Op)
    ensures ReferenceRun(list, ops + [op]) == Reference(ReferenceRun(list, ops), op)
    decreases |ops|
  {
    if ops == [] {
      assert (ops + [op])[1..] == [];
    } else {
      assert (ops + [op])[1..] == ops[1..] + [op];
      ReferenceAppend(Reference(list, ops[0]), ops[1..], op);
    }
  }

  lemma InOrderDistinct(ops: seq<Op>, list: seq<string>)
    requires InOrder(ops, list)
    ensures Distinct(list)
  {
    forall i, j | 0 <= i < j < |list| ensures list[i] != list[j] {
      assert AddedAt(ops, list[i]) < AddedAt(ops, list[j]);
    }
  }

  lemma {:induction false} AddedOther(ops: seq<Op>, op: Op, f: string)
    requires op.filter != f || (op.Add? && Present(ops, f))
    ensures Present(ops + [op], f) <==> Present(ops, f)
    ensures Present(ops, f) ==> AddedAt(ops + [op], f) == AddedAt(ops, f)
  {
    assert (ops + [op])[..|ops|] == ops;
  }

  lemma AddInOrder(ops: seq<Op>, list: seq<string>, f: string)
    requires InOrder(ops, list)
    ensures InOrder(ops + [Add(f)], Reference(list, Add(f)))
  {
    var op, more := Add(f), ops + [Add(f)];
    assert more[..|ops|] == ops;
    forall g | g != f || Present(ops, f) ensures Present(more, g) <==> Present(ops, g)
      ensures Present(ops, g) ==> AddedAt(more, g) == AddedAt(ops, g)
    {
      AddedOther(ops, op, g);
    }
    var now := Reference(list, op);
    forall i, j | 0 <= i < j < |now| ensures AddedAt(more, now[i]) < AddedAt(more, now[j]) {
      assert now[i] in list;
      if j == |list| { assert now[j] == f; } else { assert now[j] in list; }
    }
  }

  lemma {:induction false} RemovePresent(ops: seq<Op>, f: string)
    ensures !Present(ops + [Remove(f)], f)
    ensures forall g :: g != f ==> (Present(ops + [Remove(f)], g) <==> Present(ops, g))
    ensures forall g :: g != f && Present(ops, g) ==> AddedAt(ops + [Remove(f)], g) == AddedAt(ops, g)
  {
    assert (ops + [Remove(f)])[..|ops|] == ops;
    forall g | g != f ensures Present(ops + [Remove(f)], g) <==> Present(ops, g)
      ensures Present(ops, g) ==> AddedAt(ops + [Remove(f)], g) == AddedAt(ops, g)
    {
      AddedOther(ops, Remove(f), g);
    }
  }

  /** Two items that stay stood in the same order before. */
  lemma {:induction false} WithoutPositions(list: seq<string>, f: string, i: nat, j: nat)
    requires Distinct(list) && i < j < |Without(list, f)|
    ensures exists p, q :: 0 <= p < q < |list| && list[p] == Without(list, f)[i] && list[q] == Without(list, f)[j]
  {
    if f in list {
      var k :| 0 <= k < |list| && list[k] == f;
      assert list == list[..k] + [f] + list[k + 1..];
      WithoutKeepsOrder(list[..k], f, list[k + 1..]);
      var p, q := if i < k then i else i + 1, if j < k then j else j + 1;
      assert list[p] == Without(list, f)[i] && list[q] == Without(list, f)[j];
    } else {
      WithoutAbsent(list, f);
      assert list[i] == Without(list, f)[i] && list[j] == Without(list, f)[j];
    }
  }

  lemma RemoveInOrder(ops: seq<Op>, list: seq<string>, f: string)
    requires InOrder(ops, list)
    ensures InOrder(ops + [Remove(f)], Reference(list, Remove(f)))
  {
    hide Present, AddedAt, Without;
    var now := Without(list, f);
    InOrderDistinct(ops, list);
    WithoutMembers(list, f);
    RemovePresent(ops, f);
    forall i | 0 <= i < |now| ensures now[i] in now && Present(ops + [Remove(f)], now[i]) {
      assert now[i] in now;
    }
    forall i, j | 0 <= i < j < |now|
      ensures AddedAt(ops + [Remove(f)], now[i]) < AddedAt(ops + [Remove(f)], now[j])
    {
      WithoutPositions(list, f, i, j);
      assert now[i] in now && now[j] in now;
    }
  }

  lemma {:induction false} ReferenceInOrder(ops: seq<Op>)
    ensures InOrder(ops, ReferenceRun([], ops))
    decreases |ops|
  {
    if ops != [] {
      var front, op := ops[..|ops| - 1], ops[|ops| - 1];
      assert ops == front + [op];
      ReferenceInOrder(front);
      ReferenceAppend([], front, op);
      if op.Add? { AddInOrder(front, ReferenceRun([], front), op.filter); }
      else { RemoveInOrder(front, ReferenceRun([], front), op.filter); }
    }
  }

  /** There is only one such list. */
  lemma {:induction false} InOrderUnique(ops: seq<Op>, a: seq<string>, b: seq<string>)
    requires InOrder(ops, a) && InOrder(ops, b)
    ensures a == b
  {
    SameLength(ops, a, b);
    FirstDifference(ops, a, b, 0);
  }

  lemma SameLength(ops: seq<Op>, a: seq<string>, b: seq<string>)
    requires InOrder(ops, a) && InOrder(ops, b)
    ensures |a| == |b|
  {
    InOrderDistinct(ops, a);
    InOrderDistinct(ops, b);
    AsMany(a);
    AsMany(b);
    assert (set f | f in a) == (set f | f in b);
  }

  lemma {:induction false} AsMany(list: seq<string>)
    requires Distinct(list)
    ensures |set f | f in list| == |list|
  {
    if list != [] {
      var rest := list[..|list| - 1];
      AsMany(rest);
      assert (set f | f in list) == (set f | f in rest) + {list[|list| - 1]};
    }
  }

  lemma {:induction false} FirstDifference(ops: seq<Op>, a: seq<string>, b: seq<string>, k: nat)
    requires InOrder(ops, a) && InOrder(ops, b) && |a| == |b| && k <= |a| && a[..k] == b[..k]
    ensures a == b
    decreases |a| - k
  {
    if k < |a| {
      Later(ops, a, b, k);
      Later(ops, b, a, k);
      FirstDifference(ops, a, b, k + 1);
    }
  }

  /** What stands first in a after the common part was not added later than what stands there in b. */
  lemma {:induction false} Later(ops: seq<Op>, a: seq<string>, b: seq<string>, k: nat)
    requires InOrder(ops, a) && InOrder(ops, b) && |a| == |b| && k < |a| && a[..k] == b[..k]
    ensures a[k] == b[k] || AddedAt(ops, a[k]) < AddedAt(ops, b[k])
  {
    InOrderDistinct(ops, b);
    forall j | 0 <= j < k ensures a[j] == b[j] {
      assert a[..k][j] == a[j] && b[..k][j] == b[j];
    }
    assert b[k] in b && b[k] in a;
    var i :| 0 <= i < |a| && a[i] == b[k];
  }

  /** The frames of the reply: an empty frame stands for no list. */
  function Reply(filters: Option<seq<string>>): seq<string> {
    match filters
    case None => [""]
    case Some(list) => list
  }

  datatype Answer = Null | List(filters: seq<string>) | AssertionFails

  /** What sphactor_ask_filters makes of the reply. */
  function Decode(frames: seq<string>): Answer {
    if frames == [] then AssertionFails
    else if frames[0] == "" then Null
    else if "" in frames then AssertionFails
    else List(frames)
  }

  method AskFilters(frames: seq<string>) returns (answer: Answer)
    ensures answer == Decode(frames)
  {
    if |frames| == 0 { return AssertionFails; }
    if frames[0] == "" { return Null; }
    var filters := [frames[0]];
    var i := 1;
    while i < |frames|
      invariant 1 <= i <= |frames|
      invariant filters == frames[..i] && "" !in filters
    {
      if frames[i] == "" { return AssertionFails; }
      filters := filters + [frames[i]];
      i := i + 1;
    }
    answer := List(filters);
  }

  /** The controller gets the actor's list back exactly when the list holds no empty filter. */
  lemma DecodeExactly(filters: Option<seq<string>>)
    requires filters.Some? ==> filters.value != []
    ensures Decode(Reply(filters)) == (if filters.None? then Null else List(filters.value))
       <==> filters.None? || "" !in filters.value
  {
  }

  /**
   The query returns exactly the filters whose last add was not followed by a remove, in the order in which they
   were put there, or NULL if there are none.
   */
  lemma {:induction false} QueryIsInsertionOrderedSet(ops: seq<Op>)
    requires Nonempty(ops)
    ensures var expected := ReferenceRun([], ops);
      && InOrder(ops, expected)
      && Decode(Reply(Run(Fresh(), ops).filters)) == (if expected == [] then Null else List(expected))
  {
    ReferenceInOrder(ops);
    RunConsistent(Fresh(), ops, {});
    ListRefines(Fresh(), [], ops);
    DecodeExactly(Run(Fresh(), ops).filters);
  }
}
