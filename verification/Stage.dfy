/** A stage (sph_stage.c): a table of actors by uuid, saved to and loaded from a configuration tree. */
module Stage {
  import opened Options
  import opened Sequences
  import ActorModel
  import Params
  import SubFilters
  import TurnEffects

  /** What a stage keeps of an actor: the controller's side of it. */
  datatype Proxy = Proxy(
    typeName: string,
    name: string,
    endpoint: string,
    connections: seq<string>,
    params: Params.Actor
  )

  /** An "actor" node; the values of the parameters are in it too. */
  datatype Node = Node(uuid: string, typeName: string, name: string, endpoint: string, stored: seq<Params.Stored>)

  /** The registered types, with the capability of those that have one. */
  type Registry = map<string, Option<seq<Params.Entry>>>

  /** The saved tree: the "actor" nodes and the values of the "con" nodes, both in order. */
  datatype Tree = Tree(actors: seq<Node>, connections: seq<string>)

  type Table = map<string, Proxy>

  /** An actor's endpoint is made from its uuid. */
  function EndpointOf(uuid: string): string {
    "inproc://" + uuid
  }

  /** A walk over the hash table, in whatever order it yields the keys. */
  predicate IsWalk(t: Table, walk: seq<string>) {
    SubFilters.Distinct(walk) && (forall u :: u in walk ==> u in t) && (forall u :: u in t ==> u in walk)
  }

  // ---------------------------------------------------------------- saving

  /** The value of a "con" node. */
  function Join(endpoint: string, dest: string): string {
    endpoint + "," + (dest + "," + "OSC")
  }

  function Lines(endpoint: string, connections: seq<string>): seq<string> {
    if connections == [] then [] else [Join(endpoint, connections[0])] + Lines(endpoint, connections[1..])
  }

  function SaveActors(t: Table, walk: seq<string>): seq<Node>
    requires forall u :: u in walk ==> u in t
  {
    if walk == [] then []
    else
      var p := t[walk[0]];
      [Node(walk[0], p.typeName, p.name, p.endpoint, Params.Saved(p.params))] + SaveActors(t, walk[1..])
  }

  function SaveConnections(t: Table, walk: seq<string>): seq<string>
    requires forall u :: u in walk ==> u in t
  {
    if walk == [] then []
    else Lines(t[walk[0]].endpoint, t[walk[0]].connections) + SaveConnections(t, walk[1..])
  }

  /** s_sph_stage_save_zconfig. */
  function Save(t: Table, walk: seq<string>): Tree
    requires IsWalk(t, walk)
  {
    Tree(SaveActors(t, walk), SaveConnections(t, walk))
  }

  // ---------------------------------------------------------------- strtok

  function SkipCommas(s: string): string {
    if s != [] && s[0] == ',' then SkipCommas(s[1..]) else s
  }

  function Word(s: string): string {
    if s == [] || s[0] == ',' then [] else [s[0]] + Word(s[1..])
  }

  /** Where the next call goes on: behind the comma that ended the word. */
  function After(s: string): string {
    if s == [] then [] else if s[0] == ',' then s[1..] else After(s[1..])
  }

  datatype Con = Con(input: string, output: string, kind: string)

  /** The three calls of strtok; None where one of them returns NULL, which is asserted not to happen. */
  function Parse(line: string): Option<Con> {
    var a := SkipCommas(line);
    if a == [] then None
    else
      var b := SkipCommas(After(a));
      if b == [] then None
      else
        var c := SkipCommas(After(b));
        if c == [] then None else Some(Con(Word(a), Word(b), Word(c)))
  }

  predicate Plain(s: string) {
    s != [] && ',' !in s
  }

  lemma {:induction false} WordBefore(a: string, rest: string)
    requires ',' !in a
    ensures Word(a + "," + rest) == a && After(a + "," + rest) == rest
  {
    var s := a + "," + rest;
    if a == [] {
      assert s[1..] == rest;
    } else {
      assert s[1..] == a[1..] + "," + rest;
      assert s[0] == a[0] && a[0] in a;
      WordBefore(a[1..], rest);
    }
  }

  lemma {:induction false} WordWhole(a: string)
    requires ',' !in a
    ensures Word(a) == a
  {
    if a != [] {
      assert a[0] in a;
      WordWhole(a[1..]);
    }
  }

  lemma {:induction false} WordPlain(s: string)
    requires s != [] && s[0] != ','
    ensures Plain(Word(s))
  {
    if |s| > 1 && s[1] != ',' { WordPlain(s[1..]); }
  }

  lemma {:induction false} SkipStops(s: string)
    ensures SkipCommas(s) == [] || SkipCommas(s)[0] != ','
  {
    if s != [] && s[0] == ',' { SkipStops(s[1..]); }
  }

  /** A line reads back as what was written exactly when both endpoints are nonempty and free of commas. */
  lemma ParseJoinExactly(endpoint: string, dest: string)
    ensures Parse(Join(endpoint, dest)) == Some(Con(endpoint, dest, "OSC")) <==> Plain(endpoint) && Plain(dest)
  {
    var line := Join(endpoint, dest);
    if Plain(endpoint) && Plain(dest) {
      WordBefore(endpoint, dest + "," + "OSC");
      WordBefore(dest, "OSC");
      WordWhole("OSC");
      assert line[0] == endpoint[0] && endpoint[0] in endpoint;
      assert (dest + "," + "OSC")[0] == dest[0] && dest[0] in dest;
    }
    if Parse(line) == Some(Con(endpoint, dest, "OSC")) {
      SkipStops(line);
      WordPlain(SkipCommas(line));
      SkipStops(After(SkipCommas(line)));
      WordPlain(SkipCommas(After(SkipCommas(line))));
    }
  }

  predicate AllCommas(s: string) {
    forall i :: 0 <= i < |s| ==> s[i] == ','
  }

  lemma {:induction false} SkipAll(commas: string, s: string)
    requires AllCommas(commas) && (s == [] || s[0] != ',')
    ensures SkipCommas(commas + s) == s
  {
    if commas == [] {
      assert commas + s == s;
    } else {
      assert (commas + s)[1..] == commas[1..] + s;
      SkipAll(commas[1..], s);
    }
  }

  /** A word ends at the first comma, and the next call goes on behind that one. */
  lemma {:induction false} WordUpTo(a: string, rest: string)
    requires ',' !in a && (rest == [] || rest[0] == ',')
    ensures Word(a + rest) == a && After(a + rest) == (if rest == [] then [] else rest[1..])
  {
    if a == [] {
      assert a + rest == rest;
    } else {
      assert a[0] in a && (a + rest)[0] == a[0] && (a + rest)[1..] == a[1..] + rest;
      WordUpTo(a[1..], rest);
    }
  }

  lemma {:induction false} SkipToWord(commas: string, a: string, rest: string)
    requires AllCommas(commas) && Plain(a)
    ensures SkipCommas(commas + (a + rest)) == a + rest && a + rest != []
  {
    assert a[0] in a && (a + rest)[0] == a[0];
    SkipAll(commas, a + rest);
  }

  /** Any line, however it was written: commas in a row count once, and what follows the third word is not read. */
  lemma ParseWords(lead: string, a: string, first: string, b: string, second: string, c: string, tail: string)
    requires AllCommas(lead) && AllCommas(first) && AllCommas(second)
    requires Plain(a) && Plain(b) && Plain(c) && (tail == [] || tail[0] == ',')
    ensures Parse(lead + (a + ("," + first + (b + ("," + second + (c + tail)))))) == Some(Con(a, b, c))
  {
    var three := c + tail;
    var two := b + ("," + second + three);
    var one := a + ("," + first + two);
    SkipToWord(lead, a, "," + first + two);
    WordUpTo(a, "," + first + two);
    assert ("," + first + two)[1..] == first + two;
    SkipToWord(first, b, "," + second + three);
    WordUpTo(b, "," + second + three);
    assert ("," + second + three)[1..] == second + three;
    SkipToWord(second, c, tail);
    WordUpTo(c, tail);
  }

  // ---------------------------------------------------------------- loading

  /** sphactor_load: the uuid decides the endpoint, the saved one is not used. */
  function LoadNode(n: Node, registry: Registry): Proxy
    requires n.typeName in registry
  {
    Proxy(n.typeName, n.name, EndpointOf(n.uuid), [], Params.LoadActor(registry[n.typeName], n.stored))
  }

  /** The assertion on zhash_insert: no node that is loaded has the uuid of another or of an actor already there. */
  predicate NewNodes(t: Table, nodes: seq<Node>, registry: Registry) {
    && (forall n :: n in nodes && n.typeName in registry ==> n.uuid !in t)
    && (forall i, j :: 0 <= i < j < |nodes| && nodes[i].typeName in registry && nodes[j].typeName in registry ==>
          nodes[i].uuid != nodes[j].uuid)
  }

  /** Nodes of a type that is not registered are skipped. */
  function LoadActors(t: Table, nodes: seq<Node>, registry: Registry): Table
    decreases |nodes|
  {
    if nodes == [] then t
    else
      LoadActors(if nodes[0].typeName in registry then t[nodes[0].uuid := LoadNode(nodes[0], registry)] else t,
                 nodes[1..], registry)
  }

  /** The first actor of the walk with this endpoint. */
  function Find(t: Table, walk: seq<string>, endpoint: string): Option<string>
    requires forall u :: u in walk ==> u in t
  {
    if walk == [] then None
    else if t[walk[0]].endpoint == endpoint then Some(walk[0])
    else Find(t, walk[1..], endpoint)
  }

  /** sphactor_ask_connect: a connection that exists is not listed twice. */
  function Connect(p: Proxy, dest: string): Proxy {
    if dest in p.connections then p else p.(connections := p.connections + [dest])
  }

  /** The assertions on a line: it has three tokens, which fit their buffers. */
  predicate LineOk(line: string) {
    && Parse(line).Some?
    && |Parse(line).value.input| < 256 && |Parse(line).value.output| < 256 && |Parse(line).value.kind| < 64
  }

  function ConnectLine(t: Table, line: string, walk: seq<string>): Table
    requires IsWalk(t, walk) && LineOk(line)
  {
    var con := Parse(line).value;
    var u := Find(t, walk, con.input);
    FindIn(t, walk, con.input);
    if u.Some? then t[u.value := Connect(t[u.value], con.output)] else t
  }

  lemma {:induction false} FindIn(t: Table, walk: seq<string>, endpoint: string)
    requires forall u :: u in walk ==> u in t
    ensures var u := Find(t, walk, endpoint);
      && (u.Some? ==> u.value in walk && t[u.value].endpoint == endpoint)
      && (u.None? ==> forall v :: v in walk ==> t[v].endpoint != endpoint)
  {
    if walk != [] { FindIn(t, walk[1..], endpoint); }
  }

  /** The line makes an actor connect to its own endpoint, which it asserts not to happen. */
  predicate Loops(t: Table, line: string)
    requires LineOk(line)
  {
    var con := Parse(line).value;
    con.output == con.input && exists u :: u in t && t[u].endpoint == con.input
  }

  predicate NoLoops(t: Table, lines: seq<string>)
    requires LinesOk(lines)
  {
    forall line :: line in lines ==> !Loops(t, line)
  }

  predicate LinesOk(lines: seq<string>) {
    forall line :: line in lines ==> LineOk(line)
  }

  /** Each line walks the table once; walks gives the orders. */
  predicate Walks(t: Table, lines: seq<string>, walks: seq<seq<string>>) {
    |walks| == |lines| && forall walk :: walk in walks ==> IsWalk(t, walk)
  }

  lemma ConnectKeeps(t: Table, line: string, walk: seq<string>)
    requires IsWalk(t, walk) && LineOk(line)
    ensures ConnectLine(t, line, walk).Keys == t.Keys
    ensures forall walk' :: IsWalk(t, walk') ==> IsWalk(ConnectLine(t, line, walk), walk')
  {
    FindIn(t, walk, Parse(line).value.input);
  }

  function ConnectLines(t: Table, lines: seq<string>, walks: seq<seq<string>>): Table
    requires LinesOk(lines) && Walks(t, lines, walks)
    decreases |lines|
  {
    if lines == [] then t
    else
      assert lines[0] in lines && walks[0] in walks;
      ConnectKeeps(t, lines[0], walks[0]);
      ConnectLines(ConnectLine(t, lines[0], walks[0]), lines[1..], walks[1..])
  }

  /** What is asserted while loading: at least one actor node, new uuids, readable lines, no actor joined to itself. */
  predicate Loadable(t: Table, tree: Tree, registry: Registry) {
    && tree.actors != [] && NewNodes(t, tree.actors, registry) && LinesOk(tree.connections)
    && NoLoops(LoadActors(t, tree.actors, registry), tree.connections)
  }

  function Load(t: Table, tree: Tree, registry: Registry, walks: seq<seq<string>>): Table
    requires Loadable(t, tree, registry)
    requires Walks(LoadActors(t, tree.actors, registry), tree.connections, walks)
  {
    ConnectLines(LoadActors(t, tree.actors, registry), tree.connections, walks)
  }

  // ---------------------------------------------------------------- round trip

  /**
   What a stage of running actors satisfies: endpoints come from uuids, connection lists have no duplicates and
   no actor is connected to itself.
   */
  predicate Sound(t: Table) {
    forall u :: u in t ==>
      && t[u].endpoint == EndpointOf(u) && SubFilters.Distinct(t[u].connections)
      && EndpointOf(u) !in t[u].connections
  }

  /** Endpoints that survive the text of a line. */
  predicate Savable(t: Table) {
    forall u :: u in t ==>
      && Plain(t[u].endpoint) && |t[u].endpoint| < 256
      && forall c :: c in t[u].connections ==> Plain(c) && |c| < 256
  }

  predicate Registered(t: Table, registry: Registry) {
    forall u :: u in t ==> t[u].typeName in registry
  }

  /** The table with the parameters as they come back from what is saved of them. */
  function Reloaded(t: Table, registry: Registry): Table
    requires Registered(t, registry)
  {
    map u | u in t :: t[u].(params := Params.LoadActor(registry[t[u].typeName], Params.Saved(t[u].params)))
  }

  lemma {:induction false} LoadSaved(t: Table, walk: seq<string>, registry: Registry, sofar: Table)
    requires forall u :: u in walk ==> u in t
    requires Sound(t) && Registered(t, registry)
    ensures var v := LoadActors(sofar, SaveActors(t, walk), registry);
      && v.Keys == sofar.Keys + (set u | u in walk)
      && (forall u :: u in walk ==> v[u] == Reloaded(t, registry)[u].(connections := []))
      && (forall u :: u in sofar && u !in walk ==> v[u] == sofar[u])
    decreases |walk|
  {
    if walk != [] {
      var nodes := SaveActors(t, walk);
      assert nodes[1..] == SaveActors(t, walk[1..]);
      assert walk[0] in walk;
      var next := sofar[walk[0] := LoadNode(nodes[0], registry)];
      LoadSaved(t, walk[1..], registry, next);
      assert forall u :: u in walk <==> u == walk[0] || u in walk[1..];
    }
  }

  /** The node of an actor: all it is saved with. */
  function NodeOf(t: Table, u: string): Node
    requires u in t
  {
    Node(u, t[u].typeName, t[u].name, t[u].endpoint, Params.Saved(t[u].params))
  }

  /** One node for each actor of the walk, in its order. */
  lemma {:induction false} SavedNodes(t: Table, walk: seq<string>)
    requires forall u :: u in walk ==> u in t
    ensures |SaveActors(t, walk)| == |walk|
    ensures forall i :: 0 <= i < |walk| ==> SaveActors(t, walk)[i] == NodeOf(t, walk[i])
  {
    if walk != [] { SavedNodes(t, walk[1..]); }
  }

  lemma {:induction false} EndpointInjective(u: string, v: string)
    requires EndpointOf(u) == EndpointOf(v)
    ensures u == v
  {
    var n := |"inproc://"|;
    assert EndpointOf(u)[n..] == u && EndpointOf(v)[n..] == v;
  }

  /** A saved line connects the actor it came from, whatever the order of the walk. */
  lemma ConnectSaved(t: Table, u: string, dest: string, walk: seq<string>)
    requires IsWalk(t, walk) && u in t && Plain(EndpointOf(u)) && Plain(dest)
    requires |EndpointOf(u)| < 256 && |dest| < 256
    requires forall v :: v in t ==> t[v].endpoint == EndpointOf(v)
    ensures LineOk(Join(EndpointOf(u), dest))
    ensures ConnectLine(t, Join(EndpointOf(u), dest), walk) == t[u := Connect(t[u], dest)]
  {
    ParseJoinExactly(EndpointOf(u), dest);
    FindIn(t, walk, EndpointOf(u));
    var found := Find(t, walk, EndpointOf(u));
    assert u in walk;
    EndpointInjective(found.value, u);
  }

  /** The line joins two endpoints that differ. */
  predicate Joins(line: string) {
    Parse(line).Some? && Parse(line).value.output != Parse(line).value.input
  }

  lemma {:induction false} LinesSafe(endpoint: string, connections: seq<string>)
    requires Plain(endpoint) && |endpoint| < 256
    requires forall c :: c in connections ==> Plain(c) && |c| < 256 && c != endpoint
    ensures LinesOk(Lines(endpoint, connections)) && |Lines(endpoint, connections)| == |connections|
    ensures forall line :: line in Lines(endpoint, connections) ==> Joins(line)
  {
    if connections != [] {
      assert connections[0] in connections;
      ParseJoinExactly(endpoint, connections[0]);
      LinesSafe(endpoint, connections[1..]);
    }
  }

  lemma {:induction false} ConnectionsSafe(t: Table, walk: seq<string>)
    requires forall u :: u in walk ==> u in t
    requires Sound(t) && Savable(t)
    ensures LinesOk(SaveConnections(t, walk))
    ensures forall line :: line in SaveConnections(t, walk) ==> Joins(line)
  {
    if walk != [] {
      assert walk[0] in walk;
      LinesSafe(t[walk[0]].endpoint, t[walk[0]].connections);
      ConnectionsSafe(t, walk[1..]);
    }
  }

  lemma {:induction false} ConnectFirst(t: Table, line: string, rest: seq<string>, walks: seq<seq<string>>)
    requires LinesOk([line] + rest) && Walks(t, [line] + rest, walks)
    ensures LineOk(line) && LinesOk(rest) && walks != [] && IsWalk(t, walks[0])
    ensures var v := ConnectLine(t, line, walks[0]);
      Walks(v, rest, walks[1..]) && ConnectLines(t, [line] + rest, walks) == ConnectLines(v, rest, walks[1..])
  {
    hide ConnectLine, LineOk, IsWalk;
    var lines := [line] + rest;
    assert lines[0] in lines && walks[0] in walks && lines[1..] == rest;
    assert forall r :: r in rest ==> r in lines;
    ConnectKeeps(t, line, walks[0]);
  }

  /** The lines of one actor, from connection i on, followed by other lines. */
  lemma {:induction false} ConnectActor(t: Table, u: string, done: seq<string>, todo: seq<string>,
                                        rest: seq<string>, walks: seq<seq<string>>)
    requires u in t && t[u].connections == done && SubFilters.Distinct(done + todo)
    requires Plain(EndpointOf(u)) && |EndpointOf(u)| < 256 && forall c :: c in todo ==> Plain(c) && |c| < 256
    requires forall v :: v in t ==> t[v].endpoint == EndpointOf(v)
    requires LinesOk(Lines(EndpointOf(u), todo) + rest) && Walks(t, Lines(EndpointOf(u), todo) + rest, walks)
    requires LinesOk(rest)
    ensures |walks| >= |todo|
    ensures var v := t[u := t[u].(connections := done + todo)];
      && Walks(v, rest, walks[|todo|..])
      && ConnectLines(t, Lines(EndpointOf(u), todo) + rest, walks) == ConnectLines(v, rest, walks[|todo|..])
    decreases |todo|
  {
    hide ConnectLine, ConnectLines, LineOk, IsWalk, Join, EndpointOf;
    if todo == [] {
      assert done + todo == done && Lines(EndpointOf(u), todo) + rest == rest && walks[0..] == walks;
      assert t[u := t[u].(connections := done + todo)] == t;
    } else {
      var c, line, more := todo[0], Join(EndpointOf(u), todo[0]), Lines(EndpointOf(u), todo[1..]) + rest;
      assert c in todo;
      assert Lines(EndpointOf(u), todo) + rest == [line] + more;
      ConnectFirst(t, line, more, walks);
      ConnectSaved(t, u, c, walks[0]);
      NotYet(done, todo);
      var next := t[u := t[u].(connections := done + [c])];
      assert (done + [c]) + todo[1..] == done + todo;
      ConnectActor(next, u, done + [c], todo[1..], rest, walks[1..]);
      assert walks[1..][|todo| - 1..] == walks[|todo|..];
      assert next[u := next[u].(connections := done + todo)] == t[u := t[u].(connections := done + todo)];
    }
  }

  lemma NotYet(done: seq<string>, todo: seq<string>)
    requires todo != [] && SubFilters.Distinct(done + todo)
    ensures todo[0] !in done
  {
    var all := done + todo;
    assert all[|done|] == todo[0];
    assert forall i :: 0 <= i < |done| ==> all[i] == done[i];
  }

  /** Half-way: the actors of the walk still to come are unconnected, all others are as saved. */
  predicate Halfway(t: Table, v: Table, walk: seq<string>) {
    v.Keys == t.Keys && forall u :: u in t ==> v[u] == (if u in walk then t[u].(connections := []) else t[u])
  }

  lemma {:induction false} NoLines(t: Table, walks: seq<seq<string>>)
    requires Walks(t, [], walks)
    ensures LinesOk([]) && ConnectLines(t, [], walks) == t
  {
  }

  lemma {:induction false} ConnectAll(t: Table, v: Table, walk: seq<string>, walks: seq<seq<string>>)
    requires Sound(t) && Savable(t) && SubFilters.Distinct(walk)
    requires (forall u :: u in walk ==> u in t) && Halfway(t, v, walk)
    requires LinesOk(SaveConnections(t, walk)) && Walks(v, SaveConnections(t, walk), walks)
    ensures ConnectLines(v, SaveConnections(t, walk), walks) == t
    decreases |walk|
  {
    hide ConnectLines, Lines, LineOk, IsWalk, Plain, EndpointOf;
    if walk == [] {
      NoLines(v, walks);
      assert v == t;
    } else {
      var u, rest := walk[0], SaveConnections(t, walk[1..]);
      assert u in walk;
      ConnectionsSafe(t, walk[1..]);
      assert [] + t[u].connections == t[u].connections;
      ConnectActor(v, u, [], t[u].connections, rest, walks);
      var next := v[u := v[u].(connections := t[u].connections)];
      assert u !in walk[1..];
      assert forall x :: x in walk <==> x == u || x in walk[1..];
      ConnectAll(t, next, walk[1..], walks[|t[u].connections|..]);
    }
  }

  /** Saving the connections looks at endpoints and connections only. */
  lemma {:induction false} SameConnections(t: Table, v: Table, walk: seq<string>)
    requires v.Keys == t.Keys && forall u :: u in walk ==> u in t
    requires forall u :: u in t ==> v[u].endpoint == t[u].endpoint && v[u].connections == t[u].connections
    ensures SaveConnections(v, walk) == SaveConnections(t, walk)
  {
    if walk != [] {
      assert walk[0] in walk;
      SameConnections(t, v, walk[1..]);
    }
  }

  lemma JoinsNoLoops(t: Table, lines: seq<string>)
    requires LinesOk(lines) && forall line :: line in lines ==> Joins(line)
    ensures NoLoops(t, lines)
  {
  }

  /**
   A stage saved by one walk of its table and loaded with any other walks comes back as the same table: the
   same actors with type, name and endpoint, and for each the same sequence of connections, and the parameters
   that load makes of those saved.
   */
  lemma {:induction false} StageRoundTrip(t: Table, walk: seq<string>, registry: Registry, walks: seq<seq<string>>)
    requires Sound(t) && Savable(t) && Registered(t, registry) && IsWalk(t, walk) && t != map[]
    requires |walks| == |SaveConnections(t, walk)| && forall w :: w in walks ==> IsWalk(t, w)
    ensures Loadable(map[], Save(t, walk), registry)
    ensures Walks(LoadActors(map[], Save(t, walk).actors, registry), Save(t, walk).connections, walks)
    ensures Load(map[], Save(t, walk), registry, walks) == Reloaded(t, registry)
  {
    hide ConnectLines, LoadActors, SaveActors, SaveConnections, Reloaded, Loadable, Sound, Savable, IsWalk;
    LoadableExactly(t, walk, registry);
    SavedActors(t, walk, registry);
    SavedConnections(t, walk, registry, walks);
  }

  /** An empty stage saves to a tree that cannot be loaded; every other stage to one that can. */
  lemma {:induction false} LoadableExactly(t: Table, walk: seq<string>, registry: Registry)
    requires Sound(t) && Savable(t) && IsWalk(t, walk)
    ensures Loadable(map[], Save(t, walk), registry) <==> t != map[]
    ensures LinesOk(SaveConnections(t, walk))
  {
    hide LineOk, Joins, Plain, NoLoops, LoadActors, SaveActors, SaveConnections, Params.Saved, Sound, Savable;
    SavedNodes(t, walk);
    NonemptyWalk(t, walk);
    ConnectionsSafe(t, walk);
    JoinsNoLoops(LoadActors(map[], SaveActors(t, walk), registry), SaveConnections(t, walk));
  }

  /** Before the connections: the reloaded table, without them. */
  lemma {:induction false} SavedActors(t: Table, walk: seq<string>, registry: Registry)
    requires Sound(t) && Registered(t, registry) && IsWalk(t, walk)
    ensures var v := LoadActors(map[], SaveActors(t, walk), registry);
      Halfway(Reloaded(t, registry), v, walk) && v.Keys == t.Keys
  {
    hide Params.LoadActor, Params.Saved, Sound, SaveActors;
    LoadSaved(t, walk, registry, map[]);
  }

  lemma DistinctWalk(t: Table, walk: seq<string>)
    requires IsWalk(t, walk)
    ensures SubFilters.Distinct(walk) && forall u :: u in walk ==> u in t
  {
  }

  /** Then the connections of each actor in turn. */
  lemma {:induction false} SavedConnections(t: Table, walk: seq<string>, registry: Registry, walks: seq<seq<string>>)
    requires Sound(t) && Savable(t) && Registered(t, registry) && IsWalk(t, walk)
    requires LinesOk(SaveConnections(t, walk))
    requires var v := LoadActors(map[], SaveActors(t, walk), registry);
      Halfway(Reloaded(t, registry), v, walk) && v.Keys == t.Keys
    requires |walks| == |SaveConnections(t, walk)| && forall w :: w in walks ==> IsWalk(t, w)
    ensures var v, lines := LoadActors(map[], SaveActors(t, walk), registry), SaveConnections(t, walk);
      Walks(v, lines, walks) && ConnectLines(v, lines, walks) == Reloaded(t, registry)
  {
    hide ConnectLines, LoadActors, SaveActors, SaveConnections, Params.LoadActor, Params.Saved, LineOk, Halfway;
    hide Sound, Savable, EndpointOf, Plain, SubFilters.Distinct;
    var end := Reloaded(t, registry);
    ReloadedSavable(t, registry);
    SameConnections(t, end, walk);
    DistinctWalk(t, walk);
    ConnectAll(end, LoadActors(map[], SaveActors(t, walk), registry), walk, walks);
  }

  lemma ReloadedSavable(t: Table, registry: Registry)
    requires Sound(t) && Savable(t) && Registered(t, registry)
    ensures Sound(Reloaded(t, registry)) && Savable(Reloaded(t, registry))
  {
    hide Plain, EndpointOf, Params.LoadActor, Params.Saved;
  }

  /** Each actor was made from the capability of its type, as sphactor_new_by_type does. */
  predicate Made(t: Table, registry: Registry) {
    forall u :: u in t ==> t[u].typeName in registry && MadeOf(t[u].params, registry[t[u].typeName])
  }

  predicate MadeOf(a: Params.Actor, capability: Option<seq<Params.Entry>>) {
    if capability.None? then a.capability.None?
    else Params.Wellformed(capability.value) && Params.MadeFrom(a, capability.value)
  }

  /** The value that entry k of an actor's capability has after the stage was saved and loaded. */
  lemma {:induction false} StageParameters(t: Table, walk: seq<string>, registry: Registry, walks: seq<seq<string>>,
                                           u: string, k: nat)
    requires Sound(t) && Savable(t) && Made(t, registry) && IsWalk(t, walk)
    requires |walks| == |SaveConnections(t, walk)| && forall w :: w in walks ==> IsWalk(t, w)
    requires u in t && registry[t[u].typeName].Some? && k < |registry[t[u].typeName].value|
    ensures Loadable(map[], Save(t, walk), registry)
    ensures Walks(LoadActors(map[], Save(t, walk).actors, registry), Save(t, walk).connections, walks)
    ensures var v, e := Load(map[], Save(t, walk), registry, walks), registry[t[u].typeName].value[k];
      && u in v
      && Params.Get(v[u].params.cache, Params.Key(e))
         == (if Params.Restorable(e) then Params.Get(t[u].params.cache, Params.Key(e)) else Params.Default(e))
  {
    hide Load, Loadable, Save, SaveConnections, LoadActors, IsWalk, Sound, Savable, Params.MadeFrom, Params.Wellformed;
    hide Params.Load, Params.Saved;
    StageRoundTrip(t, walk, registry, walks);
    Params.ReloadedValue(t[u].params, registry[t[u].typeName].value, k);
  }

  lemma {:induction false} SaveActorsEqual(t: Table, v: Table, walk: seq<string>)
    requires v.Keys == t.Keys && forall u :: u in walk ==> u in t
    requires forall u :: u in t ==>
      v[u].typeName == t[u].typeName && v[u].name == t[u].name && v[u].endpoint == t[u].endpoint
    ensures SaveActors(v, walk) == SaveActors(t, walk)
       <==> forall u :: u in walk ==> Params.Saved(v[u].params) == Params.Saved(t[u].params)
  {
    hide Params.Saved;
    if walk != [] {
      var a, b := SaveActors(v, walk), SaveActors(t, walk);
      assert walk[0] in walk;
      SaveActorsEqual(t, v, walk[1..]);
      assert a[1..] == SaveActors(v, walk[1..]) && b[1..] == SaveActors(t, walk[1..]);
      assert a == [a[0]] + a[1..] && b == [b[0]] + b[1..];
      assert forall u :: u in walk <==> u == walk[0] || u in walk[1..];
    }
  }

  /** Every value of the actor's parameters survives. */
  predicate Survives(a: Params.Actor, capability: Option<seq<Params.Entry>>) {
    capability.Some? ==> forall k :: 0 <= k < |capability.value| ==>
      var e := capability.value[k];
      Params.Restorable(e) || Params.Get(a.cache, Params.Key(e)) == Params.Default(e)
  }

  lemma ResavedOne(a: Params.Actor, capability: Option<seq<Params.Entry>>)
    requires MadeOf(a, capability)
    ensures Params.Saved(Params.LoadActor(capability, Params.Saved(a))) == Params.Saved(a) <==> Survives(a, capability)
  {
    hide Params.Load, Params.Restorable, Params.Default, Params.MadeFrom, Params.Wellformed;
    if capability.Some? { Params.ResaveExactly(a, capability.value); }
  }

  /** A stage that was saved, loaded and saved again has the same tree if and only if every parameter survives. */
  lemma {:induction false} StageResaveExactly(t: Table, walk: seq<string>, registry: Registry, walks: seq<seq<string>>)
    requires Sound(t) && Savable(t) && Made(t, registry) && IsWalk(t, walk) && t != map[]
    requires |walks| == |SaveConnections(t, walk)| && forall w :: w in walks ==> IsWalk(t, w)
    ensures Loadable(map[], Save(t, walk), registry)
    ensures Walks(LoadActors(map[], Save(t, walk).actors, registry), Save(t, walk).connections, walks)
    ensures var v := Load(map[], Save(t, walk), registry, walks);
      && IsWalk(v, walk)
      && (Save(v, walk) == Save(t, walk)
          <==> forall u :: u in t ==> Survives(t[u].params, registry[t[u].typeName]))
  {
    hide Load, Loadable, LoadActors, Sound, Savable, MadeOf, Survives, Params.Saved, Params.LoadActor;
    StageRoundTrip(t, walk, registry, walks);
    var v := Reloaded(t, registry);
    SameConnections(t, v, walk);
    SaveActorsEqual(t, v, walk);
    forall u | u in t
      ensures Params.Saved(v[u].params) == Params.Saved(t[u].params) <==> Survives(t[u].params, registry[t[u].typeName])
    {
      ResavedOne(t[u].params, registry[t[u].typeName]);
    }
  }

  lemma NonemptyWalk(t: Table, walk: seq<string>)
    requires IsWalk(t, walk)
    ensures walk == [] <==> t == map[]
  {
    if t != map[] {
      var u :| u in t;
      assert u in walk;
    }
    if walk != [] { assert walk[0] in walk; }
  }

  // ---------------------------------------------------------------- loading any tree

  /** What loading keeps: sound actors of registered types, connections that survive the text of a line. */
  predicate Wellmade(t: Table, registry: Registry) {
    && Sound(t)
    && forall u :: u in t ==>
         && t[u].typeName in registry && Settled(t[u].params, registry[t[u].typeName])
         && forall c :: c in t[u].connections ==> Plain(c) && |c| < 256
  }

  /** Saving and loading such parameters once more changes nothing that is saved. */
  predicate Settled(a: Params.Actor, capability: Option<seq<Params.Entry>>) {
    (capability.Some? ==> Params.Wellformed(capability.value)) ==>
      Params.Saved(Params.LoadActor(capability, Params.Saved(a))) == Params.Saved(a)
  }

  lemma LoadSettled(capability: Option<seq<Params.Entry>>, stored: seq<Params.Stored>)
    ensures Settled(Params.LoadActor(capability, stored), capability)
  {
    hide Params.Load, Params.Wellformed;
    if capability.Some? && Params.Wellformed(capability.value) { Params.LoadSettles(capability.value, stored); }
  }

  lemma {:induction false} LoadActorsWellmade(t: Table, nodes: seq<Node>, registry: Registry)
    requires Wellmade(t, registry)
    ensures Wellmade(LoadActors(t, nodes, registry), registry)
    decreases |nodes|
  {
    hide Settled, Params.LoadActor;
    if nodes != [] {
      var n := nodes[0];
      if n.typeName in registry { LoadSettled(registry[n.typeName], n.stored); }
      LoadActorsWellmade(if n.typeName in registry then t[n.uuid := LoadNode(n, registry)] else t,
                         nodes[1..], registry);
    }
  }

  /** Connecting leaves endpoints alone, so no other line becomes a loop. */
  lemma ConnectKeepsLoops(t: Table, line: string, walk: seq<string>, lines: seq<string>)
    requires IsWalk(t, walk) && LineOk(line) && LinesOk(lines) && NoLoops(t, lines)
    ensures NoLoops(ConnectLine(t, line, walk), lines)
  {
    hide Parse;
    FindIn(t, walk, Parse(line).value.input);
  }

  lemma OutputPlain(line: string)
    requires Parse(line).Some?
    ensures Plain(Parse(line).value.output)
  {
    var b := After(SkipCommas(line));
    SkipStops(b);
    WordPlain(SkipCommas(b));
  }

  lemma ConnectLineWellmade(t: Table, line: string, walk: seq<string>, registry: Registry)
    requires Wellmade(t, registry) && IsWalk(t, walk) && LineOk(line) && !Loops(t, line)
    ensures Wellmade(ConnectLine(t, line, walk), registry)
  {
    hide Parse, Plain, EndpointOf, Settled;
    FindIn(t, walk, Parse(line).value.input);
    OutputPlain(line);
  }

  lemma {:induction false} ConnectLinesWellmade(t: Table, lines: seq<string>, walks: seq<seq<string>>,
                                                registry: Registry)
    requires Wellmade(t, registry) && LinesOk(lines) && Walks(t, lines, walks) && NoLoops(t, lines)
    ensures Wellmade(ConnectLines(t, lines, walks), registry)
    decreases |lines|
  {
    hide ConnectLine, LineOk, IsWalk, Wellmade, Loops;
    if lines != [] {
      assert lines == [lines[0]] + lines[1..] && lines[0] in lines;
      ConnectFirst(t, lines[0], lines[1..], walks);
      ConnectKeepsLoops(t, lines[0], walks[0], lines[1..]);
      ConnectLineWellmade(t, lines[0], walks[0], registry);
      ConnectLinesWellmade(ConnectLine(t, lines[0], walks[0]), lines[1..], walks[1..], registry);
    }
  }

  /** Only one actor can have the endpoint, so the order of the walk does not matter. */
  lemma {:induction false} FindAnyWalk(t: Table, walk: seq<string>, other: seq<string>, endpoint: string)
    requires Sound(t) && IsWalk(t, walk) && IsWalk(t, other)
    ensures Find(t, walk, endpoint) == Find(t, other, endpoint)
  {
    FindIn(t, walk, endpoint);
    FindIn(t, other, endpoint);
    var u, v := Find(t, walk, endpoint), Find(t, other, endpoint);
    if u.Some? && v.Some? { EndpointInjective(u.value, v.value); }
  }

  lemma {:induction false} ConnectLinesAnyWalks(t: Table, lines: seq<string>, walks: seq<seq<string>>,
                                                others: seq<seq<string>>, registry: Registry)
    requires Wellmade(t, registry) && LinesOk(lines) && NoLoops(t, lines)
    requires Walks(t, lines, walks) && Walks(t, lines, others)
    ensures ConnectLines(t, lines, walks) == ConnectLines(t, lines, others)
    decreases |lines|
  {
    hide LineOk, IsWalk, Parse, Connect, EndpointOf, Plain, Find, Loops, Settled;
    if lines != [] {
      assert lines == [lines[0]] + lines[1..] && lines[0] in lines;
      ConnectFirst(t, lines[0], lines[1..], walks);
      ConnectFirst(t, lines[0], lines[1..], others);
      OneLineAnyWalk(t, lines[0], walks[0], others[0]);
      ConnectKeepsLoops(t, lines[0], walks[0], lines[1..]);
      ConnectLineWellmade(t, lines[0], walks[0], registry);
      ConnectLinesAnyWalks(ConnectLine(t, lines[0], walks[0]), lines[1..], walks[1..], others[1..], registry);
    }
  }

  lemma OneLineAnyWalk(t: Table, line: string, walk: seq<string>, other: seq<string>)
    requires Sound(t) && LineOk(line) && IsWalk(t, walk) && IsWalk(t, other)
    ensures ConnectLine(t, line, walk) == ConnectLine(t, line, other)
  {
    hide Parse, Connect, IsWalk, Find;
    FindAnyWalk(t, walk, other, Parse(line).value.input);
  }

  /** Loading any tree does not depend on the order in which the table is walked for its lines. */
  lemma {:induction false} LoadAnyWalks(t: Table, tree: Tree, registry: Registry, walks: seq<seq<string>>,
                                        others: seq<seq<string>>)
    requires Wellmade(t, registry) && Loadable(t, tree, registry)
    requires Walks(LoadActors(t, tree.actors, registry), tree.connections, walks)
    requires Walks(LoadActors(t, tree.actors, registry), tree.connections, others)
    ensures Load(t, tree, registry, walks) == Load(t, tree, registry, others)
    ensures Wellmade(Load(t, tree, registry, walks), registry)
  {
    hide ConnectLines, LoadActors, Wellmade;
    var v := LoadActors(t, tree.actors, registry);
    LoadActorsWellmade(t, tree.actors, registry);
    ConnectLinesAnyWalks(v, tree.connections, walks, others, registry);
    ConnectLinesWellmade(v, tree.connections, walks, registry);
  }

  /** The capabilities of the registered types have distinct names and keys. */
  predicate Orderly(registry: Registry) {
    forall name :: name in registry && registry[name].Some? ==> Params.Wellformed(registry[name].value)
  }

  /**
   Whatever tree a stage was loaded from, saving it and loading again gives the same actors and connections,
   and from then on saving gives the same tree.
   */
  lemma {:induction false} LoadedStageRoundTrip(tree: Tree, registry: Registry, first: seq<seq<string>>,
                             walk: seq<string>, walks: seq<seq<string>>)
    requires Loadable(map[], tree, registry)
    requires Walks(LoadActors(map[], tree.actors, registry), tree.connections, first)
    requires var t := Load(map[], tree, registry, first);
      && t != map[] && (forall u :: u in t ==> Plain(t[u].endpoint) && |t[u].endpoint| < 256)
      && IsWalk(t, walk) && |walks| == |SaveConnections(t, walk)| && forall w :: w in walks ==> IsWalk(t, w)
    ensures var t := Load(map[], tree, registry, first);
      && Registered(t, registry) && Loadable(map[], Save(t, walk), registry)
      && Walks(LoadActors(map[], Save(t, walk).actors, registry), Save(t, walk).connections, walks)
      && var v := Load(map[], Save(t, walk), registry, walks);
         && v == Reloaded(t, registry) && IsWalk(v, walk)
         && (Orderly(registry) ==> Save(v, walk) == Save(t, walk))
  {
    hide Load, Loadable, SaveConnections, LoadActors, Plain, EndpointOf, Params.Wellformed, Params.Saved;
    hide Params.LoadActor;
    LoadAnyWalks(map[], tree, registry, first, first);
    var t := Load(map[], tree, registry, first);
    StageRoundTrip(t, walk, registry, walks);
    SameConnections(t, Reloaded(t, registry), walk);
    SaveActorsEqual(t, Reloaded(t, registry), walk);
  }

  // ---------------------------------------------------------------- what loading any tree gives

  /** The actors that the nodes of registered types stand for. */
  function LoadedUuids(nodes: seq<Node>, registry: Registry): set<string> {
    set n | n in nodes && n.typeName in registry :: n.uuid
  }

  /** The actor made from a node. */
  predicate MadeOfNode(p: Proxy, n: Node, registry: Registry) {
    && n.typeName in registry
    && p.typeName == n.typeName && p.name == n.name && p.endpoint == "inproc://" + n.uuid
    && p.params == Params.LoadActor(registry[n.typeName], n.stored)
  }

  lemma NewNodesRest(t: Table, nodes: seq<Node>, registry: Registry)
    requires nodes != [] && NewNodes(t, nodes, registry)
    ensures var n := nodes[0];
      && NewNodes(if n.typeName in registry then t[n.uuid := LoadNode(n, registry)] else t, nodes[1..], registry)
      && (n.typeName in registry ==> n.uuid !in t && n.uuid !in LoadedUuids(nodes[1..], registry))
  {
    hide LoadNode;
    var n, rest := nodes[0], nodes[1..];
    assert n in nodes;
    forall m | m in rest && m.typeName in registry && n.typeName in registry ensures m.uuid != n.uuid {
      var j :| 0 <= j < |rest| && rest[j] == m;
      assert nodes[j + 1] == m;
    }
    forall m | m in rest ensures m in nodes {
    }
    forall i, j | 0 <= i < j < |rest| && rest[i].typeName in registry && rest[j].typeName in registry
      ensures rest[i].uuid != rest[j].uuid
    {
      assert rest[i] == nodes[i + 1] && rest[j] == nodes[j + 1];
    }
  }

  lemma UuidsRest(nodes: seq<Node>, registry: Registry)
    requires nodes != []
    ensures var n, rest := nodes[0], LoadedUuids(nodes[1..], registry);
      LoadedUuids(nodes, registry) == (if n.typeName in registry then {n.uuid} + rest else rest)
  {
    assert forall m :: m in nodes <==> m == nodes[0] || m in nodes[1..];
  }

  /** The table before the rest of the nodes. */
  function WithNode(t: Table, n: Node, registry: Registry): Table {
    if n.typeName in registry then t[n.uuid := LoadNode(n, registry)] else t
  }

  lemma {:induction false} LoadActorsKeys(t: Table, nodes: seq<Node>, registry: Registry)
    requires NewNodes(t, nodes, registry)
    ensures LoadActors(t, nodes, registry).Keys == t.Keys + LoadedUuids(nodes, registry)
    ensures t.Keys !! LoadedUuids(nodes, registry)
    decreases |nodes|
  {
    hide NewNodes, LoadNode, LoadedUuids;
    if nodes == [] {
      NoUuids(registry);
    } else {
      NewNodesRest(t, nodes, registry);
      UuidsRest(nodes, registry);
      LoadActorsKeys(WithNode(t, nodes[0], registry), nodes[1..], registry);
    }
  }

  lemma NoUuids(registry: Registry)
    ensures LoadedUuids([], registry) == {}
  {
  }

  lemma {:induction false} LoadActorsKeeps(t: Table, nodes: seq<Node>, registry: Registry, u: string)
    requires NewNodes(t, nodes, registry) && u in t
    ensures u in LoadActors(t, nodes, registry) && LoadActors(t, nodes, registry)[u] == t[u]
    decreases |nodes|
  {
    hide NewNodes, LoadNode, LoadedUuids;
    if nodes != [] {
      NewNodesRest(t, nodes, registry);
      LoadActorsKeeps(WithNode(t, nodes[0], registry), nodes[1..], registry, u);
    }
  }

  lemma {:induction false} LoadActorsMake(t: Table, nodes: seq<Node>, registry: Registry, n: Node)
    requires NewNodes(t, nodes, registry) && n in nodes && n.typeName in registry
    ensures var v := LoadActors(t, nodes, registry);
      n.uuid in v && MadeOfNode(v[n.uuid], n, registry) && v[n.uuid].connections == []
    decreases |nodes|
  {
    hide NewNodes, LoadedUuids, Params.LoadActor;
    var next := WithNode(t, nodes[0], registry);
    NewNodesRest(t, nodes, registry);
    if n == nodes[0] {
      LoadActorsKeeps(next, nodes[1..], registry, n.uuid);
    } else {
      assert n in nodes[1..];
      LoadActorsMake(next, nodes[1..], registry, n);
    }
  }

  lemma UnionSize(t: Table, v: Table, more: set<string>)
    requires v.Keys == t.Keys + more && t.Keys !! more
    ensures |v| == |t| + |more|
  {
    SizeOf(t);
    SizeOf(v);
  }

  /**
   Every node of a registered type becomes an actor, with its own type, name, endpoint and parameters and no
   connections yet; nodes of other types are skipped wherever they stand; actors already there stay as they are.
   */
  lemma {:induction false} LoadActorsExactly(t: Table, nodes: seq<Node>, registry: Registry)
    requires NewNodes(t, nodes, registry)
    ensures var v := LoadActors(t, nodes, registry);
      && v.Keys == t.Keys + LoadedUuids(nodes, registry) && t.Keys !! LoadedUuids(nodes, registry)
      && |v| == |t| + |LoadedUuids(nodes, registry)|
      && (forall u :: u in t ==> v[u] == t[u])
      && (forall n :: n in nodes && n.typeName in registry ==>
            n.uuid in v && MadeOfNode(v[n.uuid], n, registry) && v[n.uuid].connections == [])
  {
    hide NewNodes, LoadActors, LoadedUuids, MadeOfNode;
    var v := LoadActors(t, nodes, registry);
    LoadActorsKeys(t, nodes, registry);
    UnionSize(t, v, LoadedUuids(nodes, registry));
    forall u | u in t ensures v[u] == t[u] { LoadActorsKeeps(t, nodes, registry, u); }
    forall n | n in nodes && n.typeName in registry
      ensures n.uuid in v && MadeOfNode(v[n.uuid], n, registry) && v[n.uuid].connections == []
    {
      LoadActorsMake(t, nodes, registry, n);
    }
  }

  lemma SizeOf(t: Table)
    ensures |t| == |t.Keys|
  {
  }

  /** The connects that the lines make for the actor with this endpoint, in order. */
  function ConnectsOf(lines: seq<string>, endpoint: string): seq<SubFilters.Op>
    requires LinesOk(lines)
  {
    if lines == [] then []
    else
      assert lines[0] in lines && forall line :: line in lines[1..] ==> line in lines;
      var con := Parse(lines[0]).value;
      (if con.input == endpoint then [SubFilters.Add(con.output)] else []) + ConnectsOf(lines[1..], endpoint)
  }

  lemma ConnectLineExactly(t: Table, line: string, walk: seq<string>, u: string)
    requires Sound(t) && IsWalk(t, walk) && LineOk(line) && u in t
    ensures var con, v := Parse(line).value, ConnectLine(t, line, walk);
      && u in v && v[u].(connections := []) == t[u].(connections := [])
      && v[u].connections == (if con.input == t[u].endpoint && con.output !in t[u].connections
                              then t[u].connections + [con.output] else t[u].connections)
  {
    hide Parse, EndpointOf;
    var e := Parse(line).value.input;
    FindIn(t, walk, e);
    var found := Find(t, walk, e);
    assert u in walk;
    if found.Some? && t[u].endpoint == e { EndpointInjective(found.value, u); }
  }

  /** Each line connects the one actor with the input's endpoint, whatever the other lines are about. */
  lemma {:induction false} ConnectLinesExactly(t: Table, lines: seq<string>, walks: seq<seq<string>>,
                                               registry: Registry, u: string)
    requires Wellmade(t, registry) && LinesOk(lines) && NoLoops(t, lines) && Walks(t, lines, walks) && u in t
    ensures var v := ConnectLines(t, lines, walks);
      && v.Keys == t.Keys && v[u].(connections := []) == t[u].(connections := [])
      && v[u].connections == SubFilters.ReferenceRun(t[u].connections, ConnectsOf(lines, t[u].endpoint))
    decreases |lines|
  {
    hide ConnectLine, LineOk, IsWalk, Loops, Parse, EndpointOf, Settled, Plain;
    if lines != [] {
      assert lines == [lines[0]] + lines[1..] && lines[0] in lines;
      var v := ConnectLine(t, lines[0], walks[0]);
      ConnectFirst(t, lines[0], lines[1..], walks);
      ConnectKeeps(t, lines[0], walks[0]);
      ConnectKeepsLoops(t, lines[0], walks[0], lines[1..]);
      ConnectLineWellmade(t, lines[0], walks[0], registry);
      ConnectLineExactly(t, lines[0], walks[0], u);
      SameEndpoint(t[u], v[u]);
      ConnectLinesExactly(v, lines[1..], walks[1..], registry, u);
      OneConnect(t[u].connections, lines, t[u].endpoint);
    }
  }

  lemma SameEndpoint(p: Proxy, q: Proxy)
    requires q.(connections := []) == p.(connections := [])
    ensures q.endpoint == p.endpoint
  {
    assert q.(connections := []).endpoint == q.endpoint && p.(connections := []).endpoint == p.endpoint;
  }

  lemma OneConnect(list: seq<string>, lines: seq<string>, endpoint: string)
    requires lines != [] && LinesOk(lines)
    ensures LineOk(lines[0]) && LinesOk(lines[1..])
    ensures var con := Parse(lines[0]).value;
      SubFilters.ReferenceRun(list, ConnectsOf(lines, endpoint))
      == SubFilters.ReferenceRun(if con.input == endpoint && con.output !in list then list + [con.output] else list,
                                 ConnectsOf(lines[1..], endpoint))
  {
    hide Parse;
    assert lines[0] in lines;
    var ops := ConnectsOf(lines, endpoint);
    if Parse(lines[0]).value.input == endpoint { assert ops[1..] == ConnectsOf(lines[1..], endpoint); }
    else { assert ops == ConnectsOf(lines[1..], endpoint); }
  }

  /**
   Loading any tree into an empty stage: its actors are those of the nodes of registered types, each made from
   its node, and each has the outputs of the lines with its endpoint, without repetition, in order.
   */
  lemma {:induction false} LoadExactly(tree: Tree, registry: Registry, walks: seq<seq<string>>)
    requires Loadable(map[], tree, registry)
    requires Walks(LoadActors(map[], tree.actors, registry), tree.connections, walks)
    ensures var v := Load(map[], tree, registry, walks);
      && v.Keys == LoadedUuids(tree.actors, registry) && |v| == |LoadedUuids(tree.actors, registry)|
      && forall n :: n in tree.actors && n.typeName in registry ==>
           && MadeOfNode(v[n.uuid], n, registry)
           && SubFilters.InOrder(ConnectsOf(tree.connections, "inproc://" + n.uuid), v[n.uuid].connections)
  {
    hide LoadActors, ConnectLines, LinesOk, NoLoops, IsWalk, Wellmade, NewNodes, SubFilters.InOrder, ConnectsOf;
    hide Params.LoadActor;
    var t, v := LoadActors(map[], tree.actors, registry), Load(map[], tree, registry, walks);
    LoadActorsExactly(map[], tree.actors, registry);
    EmptyWellmade(registry);
    LoadActorsWellmade(map[], tree.actors, registry);
    ConnectLinesKeys(t, tree.connections, walks);
    SizeOf(t);
    SizeOf(v);
    forall n | n in tree.actors && n.typeName in registry
      ensures MadeOfNode(v[n.uuid], n, registry)
      ensures SubFilters.InOrder(ConnectsOf(tree.connections, "inproc://" + n.uuid), v[n.uuid].connections)
    {
      ConnectLinesExactly(t, tree.connections, walks, registry, n.uuid);
      SameFields(t[n.uuid], v[n.uuid]);
      SubFilters.ReferenceInOrder(ConnectsOf(tree.connections, "inproc://" + n.uuid));
    }
  }

  lemma EmptyWellmade(registry: Registry)
    ensures Wellmade(map[], registry)
  {
  }

  lemma SameFields(p: Proxy, q: Proxy)
    requires q.(connections := []) == p.(connections := [])
    ensures q.typeName == p.typeName && q.name == p.name && q.endpoint == p.endpoint && q.params == p.params
  {
    var x, y := p.(connections := []), q.(connections := []);
    assert x.typeName == p.typeName && x.name == p.name && x.endpoint == p.endpoint && x.params == p.params;
    assert y.typeName == q.typeName && y.name == q.name && y.endpoint == q.endpoint && y.params == q.params;
  }

  lemma {:induction false} ConnectLinesKeys(t: Table, lines: seq<string>, walks: seq<seq<string>>)
    requires LinesOk(lines) && Walks(t, lines, walks)
    ensures ConnectLines(t, lines, walks).Keys == t.Keys
    decreases |lines|
  {
    hide ConnectLine, LineOk, IsWalk;
    if lines != [] {
      assert lines == [lines[0]] + lines[1..];
      ConnectFirst(t, lines[0], lines[1..], walks);
      ConnectKeeps(t, lines[0], walks[0]);
      ConnectLinesKeys(ConnectLine(t, lines[0], walks[0]), lines[1..], walks[1..]);
    }
  }

  /** The endpoint a running actor has for all its life is the one the stage works out from its uuid. */
  lemma {:induction false} EndpointStays(w: ActorModel.World, ts: seq<ActorModel.Turn>)
    requires ActorModel.CanRun(w, ts)
    ensures ActorModel.Turns(w, ts).settings.endpoint == w.settings.endpoint
    ensures ActorModel.Turns(w, ts).settings.uuid == w.settings.uuid
    decreases |ts|
  {
    hide ActorModel.Once, ActorModel.TurnOk;
    if ts != [] {
      EndpointKept(w, ts[0]);
      EndpointStays(ActorModel.Once(w, ts[0]), ts[1..]);
    }
  }

  lemma EndpointKept(w: ActorModel.World, t: ActorModel.Turn)
    requires ActorModel.TurnOk(w, t)
    ensures ActorModel.Once(w, t).settings.endpoint == w.settings.endpoint
    ensures ActorModel.Once(w, t).settings.uuid == w.settings.uuid
  {
    hide ActorModel.Once, ActorModel.FiresIn, ActorModel.Filtered, TurnEffects.EventsIn, TurnEffects.DeadlineAfter;
    TurnEffects.EffectsOfTurn(w, t);
  }

  lemma {:induction false} ActorEndpoint(uuid: string, name: string, now: int, start: ActorModel.Turn,
                                         ts: seq<ActorModel.Turn>)
    requires ActorModel.CanRun(ActorModel.StartActor(ActorModel.New(uuid, name, now), start), ts)
    ensures var s := ActorModel.Turns(ActorModel.StartActor(ActorModel.New(uuid, name, now), start), ts).settings;
      s.uuid == uuid && s.endpoint == EndpointOf(uuid) && EndpointOf(uuid) == "inproc://" + uuid
  {
    hide ActorModel.CanRun, ActorModel.Turns, ActorModel.Handle;
    EndpointStays(ActorModel.StartActor(ActorModel.New(uuid, name, now), start), ts);
    StartEndpoint(uuid, name, now, start);
  }

  lemma StartEndpoint(uuid: string, name: string, now: int, start: ActorModel.Turn)
    ensures var s := ActorModel.StartActor(ActorModel.New(uuid, name, now), start).settings;
      s.uuid == uuid && s.endpoint == "inproc://" + uuid
  {
  }

  // ---------------------------------------------------------------- the code

  lemma WalkMeetsOnce(t: Table, walk: seq<string>, u: string)
    requires IsWalk(t, walk)
    ensures multiset(walk)[u] == (if u in t then 1 else 0)
  {
    DistinctOnce(walk, u);
  }

  lemma {:induction false} DistinctOnce(list: seq<string>, u: string)
    requires SubFilters.Distinct(list)
    ensures multiset(list)[u] == (if u in list then 1 else 0)
  {
    if list != [] {
      assert list == [list[0]] + list[1..];
      DistinctOnce(list[1..], u);
    }
  }

  class SphStage {
    var actors: Table
    var destroyed: seq<string>     // the uuids of the actors destroyed, in order

    constructor ()
      ensures actors == map[] && destroyed == []
    {
      actors, destroyed := map[], [];
    }

    method AddActor(uuid: string, actor: Proxy) returns (rc: int)
      modifies this`actors
      ensures rc == (if uuid in old(actors) then -1 else 0)
      ensures actors == (if uuid in old(actors) then old(actors) else old(actors)[uuid := actor])
    {
      if uuid in actors { return -1; }
      actors := actors[uuid := actor];
      rc := 0;
    }

    method RemoveActor(uuid: string) returns (rc: int)
      modifies this
      ensures rc == (if uuid in old(actors) then 0 else -1)
      ensures actors == old(actors) - {uuid}
      ensures destroyed == (if uuid in old(actors) then old(destroyed) + [uuid] else old(destroyed))
    {
      if uuid !in actors {
        assert actors - {uuid} == actors;
        return -1;
      }
      actors := actors - {uuid};
      destroyed := destroyed + [uuid];
      rc := 0;
    }

    /** The walk meets each actor of the table once (IsWalk), so each is destroyed once and no other. */
    method Clear(walk: seq<string>)
      requires IsWalk(actors, walk)
      modifies this
      ensures actors == map[] && destroyed == old(destroyed) + walk
      ensures forall u :: multiset(destroyed)[u] == multiset(old(destroyed))[u] + (if u in old(actors) then 1 else 0)
    {
      var i := 0;
      while i < |walk|
        invariant 0 <= i <= |walk| && actors == old(actors)
        invariant destroyed == old(destroyed) + walk[..i]
      {
        destroyed := destroyed + [walk[i]];
        i := i + 1;
      }
      actors := map[];
      forall u ensures multiset(walk)[u] == (if u in old(actors) then 1 else 0) { WalkMeetsOnce(old(actors), walk, u); }
    }

    /** The lines of one actor, behind those written so far. */
    method SaveLines(endpoint: string, connections: seq<string>, sofar: seq<string>) returns (lines: seq<string>)
      ensures lines == sofar + Lines(endpoint, connections)
    {
      lines := sofar;
      var i := 0;
      while i < |connections|
        invariant 0 <= i <= |connections|
        invariant lines + Lines(endpoint, connections[i..]) == sofar + Lines(endpoint, connections)
      {
        assert connections[i..][1..] == connections[i + 1..];
        lines := lines + [Join(endpoint, connections[i])];
        i := i + 1;
      }
    }

    method SaveZconfig(walk: seq<string>) returns (tree: Tree)
      requires IsWalk(actors, walk)
      ensures tree == Save(actors, walk)
    {
      var nodes: seq<Node>, lines: seq<string> := [], [];
      var i := 0;
      while i < |walk|
        invariant 0 <= i <= |walk|
        invariant nodes + SaveActors(actors, walk[i..]) == SaveActors(actors, walk)
        invariant lines + SaveConnections(actors, walk[i..]) == SaveConnections(actors, walk)
      {
        assert walk[i..][1..] == walk[i + 1..];
        var it := actors[walk[i]];
        var node := Node(walk[i], it.typeName, it.name, it.endpoint, Params.Saved(it.params));
        Associates(nodes, [node], SaveActors(actors, walk[i + 1..]));
        Associates(lines, Lines(it.endpoint, it.connections), SaveConnections(actors, walk[i + 1..]));
        nodes := nodes + [node];
        lines := SaveLines(it.endpoint, it.connections, lines);
        i := i + 1;
      }
      tree := Tree(nodes, lines);
    }

    method LoadNodes(nodes: seq<Node>, registry: Registry)
      modifies this`actors
      ensures actors == LoadActors(old(actors), nodes, registry)
    {
      var i := 0;
      while i < |nodes|
        invariant 0 <= i <= |nodes|
        invariant LoadActors(actors, nodes[i..], registry) == LoadActors(old(actors), nodes, registry)
      {
        assert nodes[i..][1..] == nodes[i + 1..];
        if nodes[i].typeName in registry {
          actors := actors[nodes[i].uuid := LoadNode(nodes[i], registry)];
        }
        i := i + 1;
      }
    }

    /** One line: the first actor with the input's endpoint connects to the output. */
    method LoadLine(line: string, walk: seq<string>)
      requires IsWalk(actors, walk) && LineOk(line) && !Loops(actors, line)
      modifies this`actors
      ensures actors == ConnectLine(old(actors), line, walk)
    {
      var con := Parse(line).value;
      var i := 0;
      while i < |walk|
        invariant 0 <= i <= |walk| && actors == old(actors)
        invariant Find(actors, walk[i..], con.input) == Find(actors, walk, con.input)
      {
        assert walk[i..][1..] == walk[i + 1..];
        if actors[walk[i]].endpoint == con.input {
          actors := actors[walk[i] := Connect(actors[walk[i]], con.output)];
          return;
        }
        i := i + 1;
      }
    }

    method LoadLines(lines: seq<string>, walks: seq<seq<string>>)
      requires LinesOk(lines) && NoLoops(actors, lines) && Walks(actors, lines, walks)
      modifies this`actors
      ensures actors == ConnectLines(old(actors), lines, walks)
    {
      var i := 0;
      while i < |lines|
        invariant 0 <= i <= |lines|
        invariant LinesOk(lines[i..]) && NoLoops(actors, lines[i..]) && Walks(actors, lines[i..], walks[i..])
        invariant ConnectLines(actors, lines[i..], walks[i..]) == ConnectLines(old(actors), lines, walks)
      {
        assert lines[i..] == [lines[i]] + lines[i + 1..] && walks[i..][1..] == walks[i + 1..];
        ConnectFirst(actors, lines[i], lines[i + 1..], walks[i..]);
        assert lines[i] in lines[i..] && walks[i..][0] == walks[i];
        ConnectKeepsLoops(actors, lines[i], walks[i], lines[i + 1..]);
        LoadLine(lines[i], walks[i]);
        i := i + 1;
      }
    }

    /** sph_stage_cnf_load. */
    method CnfLoad(tree: Tree, registry: Registry, walks: seq<seq<string>>) returns (size: nat)
      requires Loadable(actors, tree, registry)
      requires Walks(LoadActors(actors, tree.actors, registry), tree.connections, walks)
      modifies this`actors
      ensures actors == Load(old(actors), tree, registry, walks)
      ensures actors.Keys == old(actors).Keys + LoadedUuids(tree.actors, registry)
      ensures size == |old(actors)| + |LoadedUuids(tree.actors, registry)|
    {
      LoadActorsExactly(actors, tree.actors, registry);
      ConnectLinesKeys(LoadActors(actors, tree.actors, registry), tree.connections, walks);
      SizeOf(LoadActors(actors, tree.actors, registry));
      LoadNodes(tree.actors, registry);
      LoadLines(tree.connections, walks);
      size := |actors|;
      SizeOf(actors);
    }
  }
}
