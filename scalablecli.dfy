/** Two helpers of the Scalable Mininet command line: the background
    colours used to tell servers apart, and the `placement` command that
    lists, per server, the nodes placed on it. */
module ScalableCli {
  import opened PyValues

  /** The ten background colours, in order. */
  const Palette: seq<string> :=
    ["red", "lightgreen", "cyan", "yellow", "orange", "magenta", "pink", "grey", "brown", "white"]

  function Max(a: int, b: int): int {
    if a < b then b else a
  }

  function Min(a: int, b: int): int {
    if a < b then a else b
  }

  /** `colors * reps`: the palette repeated `reps` times. */
  function Repeat(reps: nat): (r: seq<string>)
    ensures |r| == 10 * reps
  {
    if reps == 0 then [] else Palette + Repeat(reps - 1)
  }

  /** Entry `i` of the repeated palette is colour `i % 10`. */
  lemma {:induction false} RepeatAt(reps: nat, i: nat)
    requires i < 10 * reps
    ensures Repeat(reps)[i] == Palette[i % 10]
  {
    if i >= 10 {
      RepeatAt(reps - 1, i - 10);
      assert (i - 10) % 10 == i % 10;
    }
  }

  /** `colorsFor(seq)`: the palette repeated `max(1, len(seq) / 10)` times
      (Python 2 integer division), cut to at most `len(seq)` entries. Only
      the length of the sequence matters. */
  function ColorsFor<T>(xs: seq<T>): (colors: seq<string>)
    ensures |colors| == Min(|xs|, 10 * Max(1, |xs| / 10))
  {
    var reps := Max(1, |xs| / 10);
    var repeated := Repeat(reps);
    repeated[..Min(|xs|, |repeated|)]
  }

  /** Element `i` gets colour `i % 10`: the palette is cycled in order. */
  lemma ColorsForAt<T>(xs: seq<T>, i: nat)
    requires i < |ColorsFor(xs)|
    ensures ColorsFor(xs)[i] == Palette[i % 10]
  {
    RepeatAt(Max(1, |xs| / 10), i);
  }

  /** There is one colour per element exactly when the sequence has at most
      ten elements or a multiple of ten; otherwise the last `len % 10`
      elements get none. An empty sequence gets no colours. */
  lemma ColorsForLength<T>(xs: seq<T>)
    ensures |ColorsFor(xs)| == |xs| <==> |xs| <= 10 || |xs| % 10 == 0
    ensures |ColorsFor(xs)| == |xs| - (if |xs| <= 10 then 0 else |xs| % 10)
    ensures xs == [] ==> ColorsFor(xs) == []
  {
  }

  // ---------------------------------------------------------------------
  // The placement command

  /** A node as the command sees it: its name and its `server` attribute,
      None when the node has none. */
  datatype NodeRef = NodeRef(name: string, server: Option<string>)

  /** `[n.name for n in nodes if hasattr(n, 'server') and n.server == server]`. */
  function NamesOn(nodes: seq<NodeRef>, server: string): (names: seq<string>)
    ensures |names| <= |nodes|
    decreases |nodes|
  {
    if nodes == [] then []
    else
      var n := nodes[|nodes| - 1];
      NamesOn(nodes[..|nodes| - 1], server) + (if n.server == Some(server) then [n.name] else [])
  }

  /** The names listed for a server are exactly those of the nodes placed on
      it, each occurrence once: a node without a server is on no list. */
  lemma {:induction false} NamesOnExactly(nodes: seq<NodeRef>, server: string)
    ensures forall i :: 0 <= i < |nodes| && nodes[i].server == Some(server) ==>
              nodes[i].name in NamesOn(nodes, server)
    ensures forall nm :: nm in NamesOn(nodes, server) ==>
              exists i :: 0 <= i < |nodes| && nodes[i].name == nm && nodes[i].server == Some(server)
    decreases |nodes|
  {
    if nodes != [] {
      var init := nodes[..|nodes| - 1];
      NamesOnExactly(init, server);
      assert forall i :: 0 <= i < |init| ==> init[i] == nodes[i];
    }
  }

  /** Listing hosts, then switches, then controllers lists each group's
      names in that order. */
  lemma {:induction false} NamesOnAppend(a: seq<NodeRef>, b: seq<NodeRef>, server: string)
    ensures NamesOn(a + b, server) == NamesOn(a, server) + NamesOn(b, server)
    decreases |b|
  {
    if b == [] {
      assert a + b == a;
    } else {
      var init := b[..|b| - 1];
      assert (a + b)[..|a + b| - 1] == a + init;
      NamesOnAppend(a, init, server);
    }
  }

  /** A node without a server changes no server's list: dropping it from
      the node list gives the same names for every server. */
  lemma NamesOnSkipsUnplaced(before: seq<NodeRef>, n: NodeRef, after: seq<NodeRef>, server: string)
    requires n.server.None?
    ensures NamesOn(before + [n] + after, server) == NamesOn(before + after, server)
  {
    NamesOnAppend(before + [n], after, server);
    NamesOnAppend(before, after, server);
    assert (before + [n])[..|before|] == before;
  }

  /** `'%s: %s\n' % (server, ' '.join(names))`. */
  function PlacementLine(server: string, names: seq<string>): string {
    server + ": " + JoinWith(names, " ") + "\n"
  }

  /** The lines of the `placement` command: one per server, in server order. */
  function PlacementLines(servers: seq<string>, hosts: seq<NodeRef>, switches: seq<NodeRef>,
                          controllers: seq<NodeRef>): (lines: seq<string>)
    ensures |lines| == |servers|
    ensures forall i :: 0 <= i < |servers| ==>
              lines[i] == PlacementLine(servers[i], NamesOn(hosts + switches + controllers, servers[i]))
    decreases |servers|
  {
    if servers == [] then []
    else
      var init := servers[..|servers| - 1];
      var server := servers[|servers| - 1];
      PlacementLines(init, hosts, switches, controllers)
        + [PlacementLine(server, NamesOn(hosts + switches + controllers, server))]
  }

  /** The names listed for a server are words when every node name is. */
  lemma NamesOnWords(nodes: seq<NodeRef>, server: string)
    requires forall n :: n in nodes ==> IsWord(n.name)
    ensures forall w :: w in NamesOn(nodes, server) ==> IsWord(w)
  {
    NamesOnExactly(nodes, server);
    forall w | w in NamesOn(nodes, server)
      ensures IsWord(w)
    {
      var i :| 0 <= i < |nodes| && nodes[i].name == w && nodes[i].server == Some(server);
      assert nodes[i] in nodes;
    }
  }

  /** A placement line is its words joined by single spaces, followed by
      whitespace only. */
  lemma PlacementLineJoin(server: string, names: seq<string>)
    ensures PlacementLine(server, names) ==
            JoinWith([server + ":"] + names, " ") + (if names == [] then " \n" else "\n")
  {
    if names != [] {
      assert ([server + ":"] + names)[1..] == names;
    }
  }

  lemma NoWordsInLineEnd()
    ensures Words(" \n") == [] && Words("\n") == []
  {
    assert " \n"[1..] == "\n";
    assert "\n"[1..] == [];
  }

  /** Splitting a line whose server and names are words gives the heading
      `server:` followed by the names. */
  lemma PlacementLineSplit(server: string, names: seq<string>)
    requires IsWord(server)
    requires forall w :: w in names ==> IsWord(w)
    ensures Words(PlacementLine(server, names)) == [server + ":"] + names
  {
    var heading := server + ":";
    assert IsWord(heading) by {
      assert forall i :: 0 <= i < |heading| ==> heading[i] == (if i < |server| then server[i] else ':');
    }
    var tail := if names == [] then " \n" else "\n";
    PlacementLineJoin(server, names);
    WordsOfJoin([heading] + names, tail);
    NoWordsInLineEnd();
  }

  /** The names on a server are listed hosts first, then switches, then
      controllers, each group in its own order. */
  lemma NamesOnGroups(hosts: seq<NodeRef>, switches: seq<NodeRef>, controllers: seq<NodeRef>,
                      server: string)
    ensures NamesOn(hosts + switches + controllers, server) ==
            NamesOn(hosts, server) + NamesOn(switches, server) + NamesOn(controllers, server)
  {
    NamesOnAppend(hosts + switches, controllers, server);
    NamesOnAppend(hosts, switches, server);
  }

  /** When the server and node names hold no whitespace, splitting the
      placement line of server `i` gives back the heading `server:`
      followed by exactly the names of the nodes on that server. */
  lemma PlacementLinesWords(servers: seq<string>, hosts: seq<NodeRef>, switches: seq<NodeRef>,
                            controllers: seq<NodeRef>, i: nat)
    requires i < |servers| && IsWord(servers[i])
    requires forall n :: n in hosts + switches + controllers ==> IsWord(n.name)
    ensures Words(PlacementLines(servers, hosts, switches, controllers)[i]) ==
            [servers[i] + ":"] + NamesOn(hosts + switches + controllers, servers[i])
  {
    NamesOnWords(hosts + switches + controllers, servers[i]);
    PlacementLineSplit(servers[i], NamesOn(hosts + switches + controllers, servers[i]));
  }
}
