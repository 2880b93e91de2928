/** The cluster object of Scalable Mininet: its server list and server
    address map, the pre-check that every remote server answers ssh and
    password-less sudo, and the placement pass that writes a server (and the
    server's address and control path) into each node's configuration. */
module ScalableMininet {
  import opened PyValues
  import opened ScalableNode

  /** The cluster's own ssh options: no password prompts, agent forwarding. */
  const ClusterSsh: seq<string> := ["ssh", "-o", "BatchMode=yes", "-o", "ForwardAgent=yes"]

  // ---------------------------------------------------------------------
  // Servers

  /** `[s if s else 'localhost' for s in servers]`. */
  function NormalizeServers(servers: seq<Option<string>>): (r: seq<string>)
    ensures |r| == |servers|
    ensures forall i :: 0 <= i < |r| ==> r[i] == ServerName(servers[i])
    ensures forall s :: s in r ==> s != ""
    decreases |servers|
  {
    if servers == [] then []
    else NormalizeServers(servers[..|servers| - 1]) + [ServerName(servers[|servers| - 1])]
  }

  /** `{server: findServerIP(server) for server in servers}`. */
  function ServerIPMap(servers: seq<string>, getent: string -> string): (m: map<string, Option<string>>)
    ensures m.Keys == set s | s in servers
    ensures forall s :: s in m ==> m[s] == FindServerIP(s, getent).ip
  {
    map s | s in servers :: FindServerIP(s, getent).ip
  }

  // ---------------------------------------------------------------------
  // Pre-check

  /** A server the pre-check contacts: neither empty nor the local system. */
  predicate IsRemoteServer(s: string) {
    s != "" && s != "localhost"
  }

  /** The servers the pre-check contacts, in list order. */
  function Checked(servers: seq<string>): (cs: seq<string>)
    ensures forall s :: s in cs ==> s in servers
    decreases |servers|
  {
    if servers == [] then []
    else
      var last := servers[|servers| - 1];
      Checked(servers[..|servers| - 1]) + (if IsRemoteServer(last) then [last] else [])
  }

  /** Every remote server is contacted once per occurrence in the list, and
      no other server is contacted. */
  lemma {:induction false} CheckedFacts(servers: seq<string>)
    ensures forall s :: s in Checked(servers) <==> s in servers && IsRemoteServer(s)
    ensures forall s :: IsRemoteServer(s) ==> multiset(Checked(servers))[s] == multiset(servers)[s]
    decreases |servers|
  {
    if servers != [] {
      var init := servers[..|servers| - 1];
      var last := servers[|servers| - 1];
      assert servers == init + [last];
      CheckedFacts(init);
    }
  }

  /** The pre-check command for one server: as the user, the cluster's ssh
      with `-n` to `user@ip`, running `sudo true` there. */
  function PrecheckCommand(user: string, ip: Option<string>): seq<string> {
    ["sudo", "-E", "-u", user] + ClusterSsh + ["-n", Dest(user, ip), "sudo true"]
  }

  /** The index of the first server the address map has no entry for, or
      the list's length when every server has one. */
  function Reach(servers: seq<string>, serverIP: map<string, Option<string>>): (m: nat)
    ensures m <= |servers|
    ensures forall i :: 0 <= i < m ==> servers[i] in serverIP
    ensures m < |servers| ==> servers[m] !in serverIP
    decreases |servers|
  {
    if servers == [] || servers[0] !in serverIP then 0
    else 1 + Reach(servers[1..], serverIP)
  }

  /** The first missing entry is the first index at which one is missing. */
  lemma {:induction false} ReachAt(servers: seq<string>, serverIP: map<string, Option<string>>, i: nat)
    requires i <= |servers| && forall j :: 0 <= j < i ==> servers[j] in serverIP
    requires i < |servers| ==> servers[i] !in serverIP
    ensures Reach(servers, serverIP) == i
    decreases i
  {
    if i > 0 {
      ReachAt(servers[1..], serverIP, i - 1);
    }
  }

  /** The commands issued for the servers `cs`, one each, in order. */
  function PrecheckCommands(user: string, serverIP: map<string, Option<string>>, cs: seq<string>): (cmds: seq<seq<string>>)
    requires forall s :: s in cs ==> s in serverIP
    ensures |cmds| == |cs|
    decreases |cs|
  {
    if cs == [] then []
    else
      var init := cs[..|cs| - 1];
      assert forall s :: s in init ==> s in cs;
      PrecheckCommands(user, serverIP, init) + [PrecheckCommand(user, serverIP[cs[|cs| - 1]])]
  }

  lemma {:induction false} PrecheckCommandsAt(user: string, serverIP: map<string, Option<string>>, cs: seq<string>)
    requires forall s :: s in cs ==> s in serverIP
    ensures var cmds := PrecheckCommands(user, serverIP, cs);
            |cmds| == |cs| && forall j :: 0 <= j < |cs| ==> cmds[j] == PrecheckCommand(user, serverIP[cs[j]])
    decreases |cs|
  {
    if cs != [] {
      var init := cs[..|cs| - 1];
      assert forall s :: s in init ==> s in cs;
      PrecheckCommandsAt(user, serverIP, init);
    }
  }

  /** Exit codes by the position of the command among those issued. */
  type ExitCodes = (nat, seq<string>) -> int

  /** The exit codes `errRun` returns for the commands `cmds`. */
  function Codes(exitCode: ExitCodes, cmds: seq<seq<string>>): (codes: seq<int>)
    ensures |codes| == |cmds|
    decreases |cmds|
  {
    if cmds == [] then []
    else Codes(exitCode, cmds[..|cmds| - 1]) + [exitCode(|cmds| - 1, cmds[|cmds| - 1])]
  }

  lemma {:induction false} CodesAt(exitCode: ExitCodes, cmds: seq<seq<string>>)
    ensures var codes := Codes(exitCode, cmds);
            |codes| == |cmds| && forall j :: 0 <= j < |cmds| ==> codes[j] == exitCode(j, cmds[j])
    decreases |cmds|
  {
    if cmds != [] {
      CodesAt(exitCode, cmds[..|cmds| - 1]);
    }
  }

  /** The servers whose check exited nonzero, in list order. */
  function Failing(cs: seq<string>, codes: seq<int>): seq<string>
    requires |cs| == |codes|
    decreases |cs|
  {
    if cs == [] then []
    else
      var n := |cs| - 1;
      Failing(cs[..n], codes[..n]) + (if codes[n] != 0 then [cs[n]] else [])
  }

  /** Nothing is reported exactly when every check succeeded. */
  lemma {:induction false} FailingEmpty(cs: seq<string>, codes: seq<int>)
    requires |cs| == |codes|
    ensures Failing(cs, codes) == [] <==> forall j :: 0 <= j < |codes| ==> codes[j] == 0
    decreases |cs|
  {
    if cs != [] {
      var n := |cs| - 1;
      FailingEmpty(cs[..n], codes[..n]);
      assert forall j :: 0 <= j < n ==> codes[..n][j] == codes[j];
    }
  }

  /** Every server whose check failed is reported. */
  lemma {:induction false} FailingComplete(cs: seq<string>, codes: seq<int>, j: nat)
    requires |cs| == |codes| && j < |cs| && codes[j] != 0
    ensures cs[j] in Failing(cs, codes)
    decreases |cs|
  {
    var n := |cs| - 1;
    if j < n {
      FailingComplete(cs[..n], codes[..n], j);
      assert cs[..n][j] == cs[j];
    }
  }

  /** Only servers whose check failed are reported. */
  lemma {:induction false} FailingSound(cs: seq<string>, codes: seq<int>, s: string)
    requires |cs| == |codes| && s in Failing(cs, codes)
    ensures exists j :: 0 <= j < |cs| && cs[j] == s && codes[j] != 0
    decreases |cs|
  {
    var n := |cs| - 1;
    if s in Failing(cs[..n], codes[..n]) {
      FailingSound(cs[..n], codes[..n], s);
      var j :| 0 <= j < n && cs[..n][j] == s && codes[..n][j] != 0;
      assert cs[j] == s && codes[j] != 0;
    } else {
      assert cs[n] == s && codes[n] != 0;
    }
  }

  lemma CheckedSnoc(servers: seq<string>, i: nat)
    requires i < |servers|
    ensures Checked(servers[..i + 1]) ==
            Checked(servers[..i]) + (if IsRemoteServer(servers[i]) then [servers[i]] else [])
  {
    assert servers[..i + 1][..i] == servers[..i];
  }

  lemma PrecheckCommandsSnoc(user: string, serverIP: map<string, Option<string>>, cs: seq<string>, s: string)
    requires forall x :: x in cs ==> x in serverIP
    requires s in serverIP
    ensures forall x :: x in cs + [s] ==> x in serverIP
    ensures PrecheckCommands(user, serverIP, cs + [s]) ==
            PrecheckCommands(user, serverIP, cs) + [PrecheckCommand(user, serverIP[s])]
  {
    assert (cs + [s])[..|cs|] == cs;
  }

  lemma CodesSnoc(exitCode: ExitCodes, cmds: seq<seq<string>>, cmd: seq<string>)
    ensures Codes(exitCode, cmds + [cmd]) == Codes(exitCode, cmds) + [exitCode(|cmds|, cmd)]
  {
    assert (cmds + [cmd])[..|cmds|] == cmds;
  }

  lemma FailingSnoc(cs: seq<string>, codes: seq<int>, s: string, code: int)
    requires |cs| == |codes|
    ensures Failing(cs + [s], codes + [code]) == Failing(cs, codes) + (if code != 0 then [s] else [])
  {
    assert (cs + [s])[..|cs|] == cs;
    assert (codes + [code])[..|codes|] == codes;
  }

  lemma OrAllSnoc(codes: seq<int>, code: int)
    ensures OrAll(codes + [code]) == PyOr(OrAll(codes), code)
  {
    assert (codes + [code])[..|codes|] == codes;
  }

  datatype PrecheckResult =
    | Passed
    | Failed(failing: seq<string>)     // the error message per server, then exit(1)
    | NoServerIP(server: string)       // `self.serverIP[server]` raises KeyError

  datatype PrecheckRun = PrecheckRun(issued: seq<seq<string>>, codes: seq<int>, result: PrecheckResult)

  /** What the pre-check does, as a function of the cluster's fields and of
      the exit codes its commands return. */
  function PrecheckSpec(servers: seq<string>, serverIP: map<string, Option<string>>, user: string,
                        exitCode: ExitCodes): PrecheckRun
  {
    var m := Reach(servers, serverIP);
    var cs := Checked(servers[..m]);
    var cmds := PrecheckCommands(user, serverIP, cs);
    var codes := Codes(exitCode, cmds);
    PrecheckRun(cmds, codes,
                if m < |servers| then NoServerIP(servers[m])
                else if OrAll(codes) != 0 then Failed(Failing(cs, codes))
                else Passed)
  }

  /** The pre-check stops with a KeyError exactly when some server has no
      address entry, even 'localhost', which it would otherwise skip. */
  lemma PrecheckMissing(servers: seq<string>, serverIP: map<string, Option<string>>, user: string,
                        exitCode: ExitCodes)
    ensures PrecheckSpec(servers, serverIP, user, exitCode).result.NoServerIP? <==>
            exists s :: s in servers && s !in serverIP
  {
    var m := Reach(servers, serverIP);
    if m < |servers| {
      assert servers[m] in servers;
    }
  }

  /** The servers checked in a prefix all have an address entry when the
      prefix does. */
  lemma {:induction false} CheckedKnown(servers: seq<string>, serverIP: map<string, Option<string>>, i: nat)
    requires i <= |servers| && forall j :: 0 <= j < i ==> servers[j] in serverIP
    ensures forall s :: s in Checked(servers[..i]) ==> s in serverIP
    decreases i
  {
    if i > 0 {
      CheckedKnown(servers, serverIP, i - 1);
      CheckedSnoc(servers, i - 1);
    }
  }

  /** The loop's variables after the servers `servers[..i]`. */
  datatype PrecheckState = PrecheckState(issued: seq<seq<string>>, codes: seq<int>, failing: seq<string>,
                                         result: int)

  /** The pre-check loop over `servers[..i]`, one server at a time. */
  function PrecheckLoop(servers: seq<string>, serverIP: map<string, Option<string>>, user: string,
                        exitCode: ExitCodes, i: nat): PrecheckState
    requires i <= |servers| && forall j :: 0 <= j < i ==> servers[j] in serverIP
    decreases i
  {
    if i == 0 then PrecheckState([], [], [], 0)
    else
      var st := PrecheckLoop(servers, serverIP, user, exitCode, i - 1);
      var server := servers[i - 1];
      if IsRemoteServer(server) then
        var cmd := PrecheckCommand(user, serverIP[server]);
        var code := exitCode(|st.issued|, cmd);
        PrecheckState(st.issued + [cmd], st.codes + [code],
                      st.failing + (if code != 0 then [server] else []), PyOr(st.result, code))
      else st
  }

  /** The loop issues one command per remote server of the prefix, in
      order, and records the exit code of each. */
  lemma {:induction false} PrecheckLoopIssued(servers: seq<string>, serverIP: map<string, Option<string>>,
                                              user: string, exitCode: ExitCodes, i: nat)
    requires i <= |servers| && forall j :: 0 <= j < i ==> servers[j] in serverIP
    requires forall s :: s in Checked(servers[..i]) ==> s in serverIP
    ensures var st := PrecheckLoop(servers, serverIP, user, exitCode, i);
            st.issued == PrecheckCommands(user, serverIP, Checked(servers[..i])) &&
            st.codes == Codes(exitCode, st.issued)
    decreases i
  {
    if i > 0 {
      CheckedKnown(servers, serverIP, i - 1);
      PrecheckLoopIssued(servers, serverIP, user, exitCode, i - 1);
      var st := PrecheckLoop(servers, serverIP, user, exitCode, i - 1);
      var cs := Checked(servers[..i - 1]);
      var server := servers[i - 1];
      CheckedSnoc(servers, i - 1);
      if IsRemoteServer(server) {
        var cmd := PrecheckCommand(user, serverIP[server]);
        PrecheckCommandsSnoc(user, serverIP, cs, server);
        CodesSnoc(exitCode, st.issued, cmd);
      } else {
        assert Checked(servers[..i]) == cs;
      }
    }
  }

  /** The loop's `failing` list and `result` are the failing servers and
      the `|` of the exit codes so far. */
  lemma {:induction false} PrecheckLoopFailing(servers: seq<string>, serverIP: map<string, Option<string>>,
                                               user: string, exitCode: ExitCodes, i: nat)
    requires i <= |servers| && forall j :: 0 <= j < i ==> servers[j] in serverIP
    requires forall s :: s in Checked(servers[..i]) ==> s in serverIP
    ensures var st := PrecheckLoop(servers, serverIP, user, exitCode, i);
            |st.codes| == |Checked(servers[..i])| &&
            st.failing == Failing(Checked(servers[..i]), st.codes) &&
            st.result == OrAll(st.codes)
    decreases i
  {
    if i > 0 {
      CheckedKnown(servers, serverIP, i - 1);
      PrecheckLoopFailing(servers, serverIP, user, exitCode, i - 1);
      var st := PrecheckLoop(servers, serverIP, user, exitCode, i - 1);
      var cs := Checked(servers[..i - 1]);
      var server := servers[i - 1];
      CheckedSnoc(servers, i - 1);
      if IsRemoteServer(server) {
        var cmd := PrecheckCommand(user, serverIP[server]);
        var code := exitCode(|st.issued|, cmd);
        FailingSnoc(cs, st.codes, server, code);
        OrAllSnoc(st.codes, code);
      } else {
        assert Checked(servers[..i]) == cs;
      }
    }
  }

  /** Where the loop stops: at the first server without an address entry,
      whose lookup raises KeyError, or after the last server. */
  lemma PrecheckStops(servers: seq<string>, serverIP: map<string, Option<string>>, user: string,
                      exitCode: ExitCodes, i: nat)
    requires i <= |servers| && forall j :: 0 <= j < i ==> servers[j] in serverIP
    requires i < |servers| ==> servers[i] !in serverIP
    ensures var st := PrecheckLoop(servers, serverIP, user, exitCode, i);
            PrecheckSpec(servers, serverIP, user, exitCode) ==
              PrecheckRun(st.issued, st.codes,
                          if i < |servers| then NoServerIP(servers[i])
                          else if st.result != 0 then Failed(st.failing) else Passed)
  {
    ReachAt(servers, serverIP, i);
    CheckedKnown(servers, serverIP, i);
    PrecheckLoopIssued(servers, serverIP, user, exitCode, i);
    PrecheckLoopFailing(servers, serverIP, user, exitCode, i);
  }

  /** With an address for every server, the pre-check contacts each remote
      server once, in list order; it passes exactly when every exit code is
      zero, and otherwise reports every failing server, not only the first. */
  lemma PrecheckOutcome(servers: seq<string>, serverIP: map<string, Option<string>>, user: string,
                        exitCode: ExitCodes)
    requires forall s :: s in servers ==> s in serverIP
    ensures var r := PrecheckSpec(servers, serverIP, user, exitCode);
            var cs := Checked(servers);
            |r.issued| == |cs| &&
            (forall j :: 0 <= j < |cs| ==> r.issued[j] == PrecheckCommand(user, serverIP[cs[j]])) &&
            (r.result.Passed? <==> forall j :: 0 <= j < |r.codes| ==> r.codes[j] == 0) &&
            (r.result.Failed? ==>
               r.result.failing != [] &&
               (forall j :: 0 <= j < |cs| && r.codes[j] != 0 ==> cs[j] in r.result.failing) &&
               (forall s :: s in r.result.failing ==>
                  exists j :: 0 <= j < |cs| && cs[j] == s && r.codes[j] != 0))
  {
    var r := PrecheckSpec(servers, serverIP, user, exitCode);
    var m := Reach(servers, serverIP);
    assert m == |servers|;
    assert servers[..m] == servers;
    CheckedFacts(servers);
    PrecheckCommandsAt(user, serverIP, Checked(servers));
    CodesAt(exitCode, r.issued);
    OrAllZero(r.codes);
    var cs := Checked(servers);
    FailingEmpty(cs, r.codes);
    forall j | 0 <= j < |cs| && r.codes[j] != 0
      ensures cs[j] in Failing(cs, r.codes)
    {
      FailingComplete(cs, r.codes, j);
    }
    forall s | s in Failing(cs, r.codes)
      ensures exists j :: 0 <= j < |cs| && cs[j] == s && r.codes[j] != 0
    {
      FailingSound(cs, r.codes, s);
    }
  }

  // ---------------------------------------------------------------------
  // Placement

  /** A value stored in a node's configuration dictionary: None, a string,
      or any other (truthy) object. */
  datatype Value = NoneV | Str(s: string) | Opaque(id: nat)

  predicate TruthyValue(v: Value) {
    (v.Str? && v.s != "") || v.Opaque?
  }

  function OptValue(o: Option<string>): Value {
    if o.Some? then Str(o.value) else NoneV
  }

  /** A key of a node's configuration dictionary: the three that placement
      writes, or any other parameter name. */
  datatype Key = ServerKey | ServerIPKey | ControlPathKey | Other(name: string)

  type Config = map<Key, Value>

  /** An entry of `connections`, stored under the key `(None, server)`; the
      connection process itself is not part of this model. */
  datatype Connection = Connection(dest: Option<string>, cfile: Option<string>)

  /** What the placer is constructed with. */
  datatype PlacerInput = PlacerInput(servers: seq<string>, nodes: seq<string>, hosts: seq<string>,
                                     switches: seq<string>, links: seq<(string, string)>)

  /** The placement class, constructed once and then asked `place(node)` once
      per node: the answer may depend on what it was built from, on how many
      questions came before and on the node. Its algorithm is not part of
      this model. */
  type Placer = (PlacerInput, nat, string) -> Value

  datatype Step = Step(config: Config, server: Value, missing: bool)

  /** One node's configuration after the body of the placement loop, given
      the placer's answer for it (computed whether or not it is used).
      `missing` is the KeyError of `self.serverIP[server]`. */
  function PlaceConfig(cfg: Config, answer: Value, serverIP: map<string, Option<string>>,
                       conns: map<Value, Connection>): Step
  {
    var c1 := if ServerKey in cfg && cfg[ServerKey] == NoneV then cfg[ServerKey := Str("localhost")] else cfg;
    var server := if ServerKey in c1 then c1[ServerKey] else answer;
    var c2 := c1[ServerKey := server];
    if TruthyValue(server) && !(server.Str? && server.s in serverIP) then Step(c2, server, true)
    else
      var c3 := if TruthyValue(server) && ServerIPKey !in c2 then c2[ServerIPKey := OptValue(serverIP[server.s])] else c2;
      var cfile := if server in conns then conns[server].cfile else None;
      var c4 := if Truthy(cfile) && ControlPathKey !in c3 then c3[ControlPathKey := Str(cfile.value)] else c3;
      Step(c4, server, false)
  }

  /** The server a node ends up with: a None server becomes 'localhost', any
      other existing server is kept, and only a node without one takes the
      placer's answer. The address lookup fails exactly for a truthy server
      with no entry in the address map. */
  lemma PlaceConfigServer(cfg: Config, answer: Value, serverIP: map<string, Option<string>>,
                          conns: map<Value, Connection>)
    ensures var r := PlaceConfig(cfg, answer, serverIP, conns);
            ServerKey in r.config && r.config[ServerKey] == r.server &&
            (ServerKey in cfg && cfg[ServerKey] == NoneV ==> r.server == Str("localhost")) &&
            (ServerKey in cfg && cfg[ServerKey] != NoneV ==> r.server == cfg[ServerKey]) &&
            (ServerKey !in cfg ==> r.server == answer) &&
            (r.missing <==> TruthyValue(r.server) && !(r.server.Str? && r.server.s in serverIP))
  {
  }

  /** Only the keys `server`, `serverIP` and `controlPath` are touched, and
      the last two only with `setdefault`: an existing value is never
      replaced. `serverIP` is added exactly for a truthy server, from the
      address map; `controlPath` exactly when the connection for the server
      has a control file. */
  lemma PlaceConfigKeys(cfg: Config, answer: Value, serverIP: map<string, Option<string>>,
                        conns: map<Value, Connection>)
    ensures var r := PlaceConfig(cfg, answer, serverIP, conns);
            forall name :: (Other(name) in r.config <==> Other(name) in cfg) &&
              (Other(name) in cfg ==> r.config[Other(name)] == cfg[Other(name)])
    ensures var r := PlaceConfig(cfg, answer, serverIP, conns);
            (ServerIPKey in cfg ==> ServerIPKey in r.config && r.config[ServerIPKey] == cfg[ServerIPKey]) &&
            (ServerIPKey !in cfg ==> (ServerIPKey in r.config <==> TruthyValue(r.server) && !r.missing)) &&
            (ServerIPKey !in cfg && ServerIPKey in r.config ==>
               r.server.Str? && r.server.s in serverIP && r.config[ServerIPKey] == OptValue(serverIP[r.server.s]))
    ensures var r := PlaceConfig(cfg, answer, serverIP, conns);
            (ControlPathKey in cfg ==> ControlPathKey in r.config && r.config[ControlPathKey] == cfg[ControlPathKey]) &&
            (ControlPathKey !in cfg ==>
               (ControlPathKey in r.config <==> !r.missing && r.server in conns && Truthy(conns[r.server].cfile))) &&
            (ControlPathKey !in cfg && ControlPathKey in r.config ==>
               r.server in conns && conns[r.server].cfile.Some? &&
               r.config[ControlPathKey] == Str(conns[r.server].cfile.value))
  {
  }

  /** The body of the placement loop for one node: its configuration, the
      number of the placer question asked for it, and its name. */
  type NodeStep = (Config, nat, string) -> Step

  /** The loop body of `placeNodes`: node `k` gets the answer to the placer's
      k-th question, asked whether or not the node already has a server. */
  function PlacementStep(placement: Placer, input: PlacerInput, serverIP: map<string, Option<string>>,
                         conns: map<Value, Connection>): NodeStep
  {
    (cfg: Config, k: nat, node: string) => PlaceConfig(cfg, placement(input, k, node), serverIP, conns)
  }

  /** Every listed node has a configuration dictionary. */
  predicate Described(nodes: seq<string>, info: map<string, Config>) {
    forall i :: 0 <= i < |nodes| ==> nodes[i] in info
  }

  datatype PlaceRun = PlaceRun(info: map<string, Config>, failed: Option<nat>)

  /** The configurations after the loop has handled `nodes[..n]`, stopping at
      the first node whose server has no address entry. */
  function PlaceFold(info: map<string, Config>, nodes: seq<string>, n: nat, step: NodeStep): (r: PlaceRun)
    requires n <= |nodes|
    ensures r.failed.Some? ==> r.failed.value < n
    decreases n
  {
    if n == 0 then PlaceRun(info, None)
    else
      var prev := PlaceFold(info, nodes, n - 1, step);
      if prev.failed.Some? then prev
      else
        var node := nodes[n - 1];
        var cfg := if node in prev.info then prev.info[node] else map[];  // every listed node has one
        var st := step(cfg, n - 1, node);
        PlaceRun(prev.info[node := st.config], if st.missing then Some(n - 1) else None)
  }

  /** Once a node has failed, the later nodes are not handled. */
  lemma {:induction false} PlaceFoldStops(info: map<string, Config>, nodes: seq<string>, i: nat, n: nat,
                                          step: NodeStep)
    requires i < n <= |nodes|
    requires PlaceFold(info, nodes, i + 1, step).failed == Some(i)
    ensures PlaceFold(info, nodes, n, step)
            == PlaceFold(info, nodes, i + 1, step)
    decreases n
  {
    if n > i + 1 {
      PlaceFoldStops(info, nodes, i, n - 1, step);
      assert PlaceFold(info, nodes, n - 1, step).failed.Some?;
    }
  }

  /** The placement loop keeps the set of configured nodes. */
  lemma {:induction false} PlaceFoldKeys(info: map<string, Config>, nodes: seq<string>, n: nat,
                                         step: NodeStep,
                                         x: string)
    requires n <= |nodes| && Described(nodes, info)
    ensures x in PlaceFold(info, nodes, n, step).info <==> x in info
    decreases n
  {
    if n > 0 {
      PlaceFoldKeys(info, nodes, n - 1, step, x);
      PlaceFoldKeys(info, nodes, n - 1, step, nodes[n - 1]);
    }
  }

  /** A node the loop has not reached, or that is not listed, keeps its
      configuration. */
  lemma {:induction false} PlaceFoldUntouched(info: map<string, Config>, nodes: seq<string>, n: nat,
                                              step: NodeStep,
                                              x: string)
    requires n <= |nodes| && x in info
    requires forall k :: 0 <= k < n ==> nodes[k] != x
    ensures var r := PlaceFold(info, nodes, n, step);
            x in r.info && r.info[x] == info[x]
    decreases n
  {
    if n > 0 {
      PlaceFoldUntouched(info, nodes, n - 1, step, x);
    }
  }

  /** When the node names are distinct and no node fails, node `k` ends with
      its own configuration updated by the step for question `k` (see
      PlacementStep: the placer is asked even when the node already has a
      server). */
  lemma {:induction false} PlaceFoldNode(info: map<string, Config>, nodes: seq<string>, n: nat,
                                         step: NodeStep,
                                         k: nat)
    requires k < n <= |nodes| && Described(nodes, info)
    requires forall i, j :: 0 <= i < j < |nodes| ==> nodes[i] != nodes[j]
    requires PlaceFold(info, nodes, n, step).failed.None?
    ensures var r := PlaceFold(info, nodes, n, step);
            nodes[k] in r.info &&
            r.info[nodes[k]] == step(info[nodes[k]], k, nodes[k]).config
    decreases n
  {
    var prev := PlaceFold(info, nodes, n - 1, step);
    assert prev.failed.None?;
    if k < n - 1 {
      PlaceFoldNode(info, nodes, n - 1, step, k);
      assert nodes[k] != nodes[n - 1];
    } else {
      PlaceFoldUntouched(info, nodes, n - 1, step, nodes[k]);
    }
  }

  /** The topology: node names in `nodes()` order, the hosts, switches and
      links, and each node's configuration dictionary (`nodeInfo(node)`),
      which the placement pass changes in place. */
  class Topo {
    var nodes: seq<string>
    var hosts: seq<string>
    var switches: seq<string>
    var links: seq<(string, string)>
    var info: map<string, Config>

    constructor (nodes: seq<string>, hosts: seq<string>, switches: seq<string>,
                 links: seq<(string, string)>, info: map<string, Config>)
      ensures this.nodes == nodes && this.hosts == hosts && this.switches == switches
      ensures this.links == links && this.info == info
    {
      this.nodes := nodes;
      this.hosts := hosts;
      this.switches := switches;
      this.links := links;
      this.info := info;
    }
  }

  datatype Placement =
    | Skipped                                        // no servers or no topology
    | Placed(asked: seq<string>)                     // the nodes the placer was asked about
    | ServerIPMissing(asked: seq<string>, node: string)

  class MininetCluster {
    var servers: seq<string>
    var serverIP: map<string, Option<string>>
    var user: string
    var precheckRequested: bool
    var connections: map<Value, Connection>
    var placement: Placer
    var cdir: string
    var topo: Topo?

    /** The fields `__init__` sets. Arguments left out by the caller are None;
        `loggedInUser` stands for `findUser()`, `getent` for the address
        lookups, `defaultPlacer` for the default placement class and `home`
        for `$HOME`. */
    constructor (servers: Option<seq<Option<string>>>, serverIP: Option<map<string, Option<string>>>,
                 user: Option<string>, precheck: Option<bool>, placement: Option<Placer>,
                 loggedInUser: string, getent: string -> string, defaultPlacer: Placer,
                 home: string, topo: Topo?)
      ensures this.servers == NormalizeServers(if servers.Some? then servers.value else [Some("localhost")])
      ensures serverIP.Some? && serverIP.value != map[] ==> this.serverIP == serverIP.value
      ensures !(serverIP.Some? && serverIP.value != map[]) ==> this.serverIP == ServerIPMap(this.servers, getent)
      ensures this.user == (if user.Some? then user.value else loggedInUser)
      ensures precheckRequested == (precheck.None? || precheck.value)
      ensures connections == map[]
      ensures this.placement == (if placement.Some? then placement.value else defaultPlacer)
      ensures cdir == home + "/.ssh/mn"
      ensures this.topo == topo
    {
      var list := NormalizeServers(if servers.Some? then servers.value else [Some("localhost")]);
      this.servers := list;
      this.serverIP := if serverIP.Some? && serverIP.value != map[] then serverIP.value
                       else ServerIPMap(list, getent);
      this.user := if user.Some? then user.value else loggedInUser;
      precheckRequested := precheck.None? || precheck.value;
      connections := map[];
      if placement.Some? {
        this.placement := placement.value;
      } else {
        this.placement := defaultPlacer;
      }
      cdir := home + "/.ssh/mn";
      this.topo := topo;
    }

    /** Contacts every remote server once with `sudo true` over ssh and
        combines the exit codes with `|`; changes nothing. */
    method Precheck(exitCode: ExitCodes) returns (r: PrecheckRun)
      ensures r == PrecheckSpec(servers, serverIP, user, exitCode)
    {
      var issued: seq<seq<string>> := [];
      var codes: seq<int> := [];
      var failing: seq<string> := [];
      var result := 0;
      var i := 0;
      while i < |servers|
        invariant i <= |servers| && forall j :: 0 <= j < i ==> servers[j] in serverIP
        invariant PrecheckState(issued, codes, failing, result) == PrecheckLoop(servers, serverIP, user, exitCode, i)
      {
        var server := servers[i];
        if server !in serverIP {
          PrecheckStops(servers, serverIP, user, exitCode, i);
          return PrecheckRun(issued, codes, NoServerIP(server));
        }
        var ip := serverIP[server];
        if IsRemoteServer(server) {
          var cmd := PrecheckCommand(user, ip);
          var code := exitCode(|issued|, cmd);
          issued := issued + [cmd];
          codes := codes + [code];
          if code != 0 {
            failing := failing + [server];
          }
          result := PyOr(result, code);
        }
        i := i + 1;
      }
      PrecheckStops(servers, serverIP, user, exitCode, i);
      if result != 0 {
        r := PrecheckRun(issued, codes, Failed(failing));
      } else {
        r := PrecheckRun(issued, codes, Passed);
      }
    }

    function Input(): PlacerInput
      reads this, topo
      requires topo != null
    {
      PlacerInput(servers, topo.nodes, topo.hosts, topo.switches, topo.links)
    }

    /** Writes a server into each node's configuration, in topology order,
        as PlaceAll describes; nothing happens without servers or without a
        topology. Only the topology's configurations change. */
    method PlaceNodes() returns (r: Placement)
      requires topo != null ==> Described(topo.nodes, topo.info)
      modifies if topo != null then {topo} else {}
      ensures topo == null || servers == [] ==> r == Skipped
      ensures topo != null ==> topo.nodes == old(topo.nodes) && topo.hosts == old(topo.hosts)
                               && topo.switches == old(topo.switches) && topo.links == old(topo.links)
      ensures topo != null && servers == [] ==> topo.info == old(topo.info)
      ensures topo != null && servers != [] ==>
                var run := PlaceFold(old(topo.info), topo.nodes, |topo.nodes|,
                                     PlacementStep(placement, old(Input()), serverIP, connections));
                topo.info == run.info && r == Outcome(topo.nodes, run.failed)
    {
      if servers == [] || topo == null {
        return Skipped;
      }
      var info;
      info, r := PlaceAll(topo.info, topo.nodes, PlacementStep(placement, Input(), serverIP, connections));
      topo.info := info;
    }
  }

  /** What the placement pass reports after handling `nodes`, given where it
      stopped. */
  function Outcome(nodes: seq<string>, failed: Option<nat>): Placement
    requires failed.Some? ==> failed.value < |nodes|
  {
    if failed.Some? then ServerIPMissing(nodes[..failed.value + 1], nodes[failed.value])
    else Placed(nodes)
  }

  /** The placement loop: for each node in order, runs the loop body (in
      `placeNodes`, PlacementStep) on its configuration, and stops at the
      first node whose body raises KeyError. */
  method PlaceAll(info0: map<string, Config>, nodes: seq<string>, step: NodeStep)
    returns (info: map<string, Config>, r: Placement)
    requires Described(nodes, info0)
    ensures var run := PlaceFold(info0, nodes, |nodes|, step);
            info == run.info && r == Outcome(nodes, run.failed)
  {
    info := info0;
    var asked: seq<string> := [];
    var k := 0;
    while k < |nodes|
      invariant k <= |nodes| && asked == nodes[..k]
      invariant var run := PlaceFold(info0, nodes, k, step);
                info == run.info && run.failed.None?
    {
      var node := nodes[k];
      PlaceFoldKeys(info0, nodes, k, step, node);
      var st := step(info[node], k, node);
      info := info[node := st.config];
      if st.missing {
        PlaceFoldStops(info0, nodes, k, |nodes|, step);
        assert asked + [node] == nodes[..k + 1];
        return info, ServerIPMissing(asked + [node], node);
      }
      asked := asked + [node];
      k := k + 1;
    }
    assert asked == nodes;
    r := Placed(asked);
  }

  /** Building the cluster: the fields, then the pre-check when it was asked
      for (on failure the program exits before the network is built). */
  method NewCluster(servers: Option<seq<Option<string>>>, serverIP: Option<map<string, Option<string>>>,
                    user: Option<string>, precheck: Option<bool>, placement: Option<Placer>,
                    loggedInUser: string, getent: string -> string, defaultPlacer: Placer,
                    home: string, topo: Topo?, exitCode: ExitCodes)
    returns (c: MininetCluster, check: Option<PrecheckRun>)
    ensures fresh(c)
    ensures c.servers == NormalizeServers(if servers.Some? then servers.value else [Some("localhost")])
    ensures serverIP.Some? && serverIP.value != map[] ==> c.serverIP == serverIP.value
    ensures !(serverIP.Some? && serverIP.value != map[]) ==> c.serverIP == ServerIPMap(c.servers, getent)
    ensures c.user == (if user.Some? then user.value else loggedInUser) && c.topo == topo
    ensures c.connections == map[] && c.cdir == home + "/.ssh/mn"
    ensures c.placement == (if placement.Some? then placement.value else defaultPlacer)
    ensures check == (if precheck.None? || precheck.value
                      then Some(PrecheckSpec(c.servers, c.serverIP, c.user, exitCode)) else None)
  {
    c := new MininetCluster(servers, serverIP, user, precheck, placement, loggedInUser, getent,
                            defaultPlacer, home, topo);
    if c.precheckRequested {
      var run := c.Precheck(exitCode);
      check := Some(run);
    } else {
      check := None;
    }
  }
}
