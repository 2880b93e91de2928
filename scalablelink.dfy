/** Links between nodes that may sit on different servers
    (examples/scalablelink.py): the choice between a local pair, a pair on
    one remote server and an ssh Ethernet tunnel, and the tunnel's setup
    sequence. Commands run through a shell oracle that records every call
    and answers it with a caller-chosen reply. */
module ScalableLink {
  import opened PyValues
  import opened ScalableNode

  // ---------------------------------------------------------------------
  // The shell oracle

  /** One thing the link code asks of the outside world. */
  datatype Call =
    | RootRun(node: string, cmd: Command)  // `node.rcmd(cmd)`: run in the server's root namespace, read all output
    | RootStart(node: string, cmd: Command, sudo: bool) // `node.rpopen(cmd, sudo=...)`: start a process and keep it
    | ReadByte(proc: nat)                 // `proc.stdout.read(1)`
    | Terminate(proc: nat)                // `proc.terminate()`
    | InNode(node: string, line: string)  // `node.cmd(...)`: a line for the node's own shell
    | MakePair(runner: Option<string>, intf1: string, intf2: string, addr1: Option<string>, addr2: Option<string>)
                                          // `makeIntfPair(...)`, run locally or through a node's rcmd

  /** Records every call in order. The reply to a call is chosen by the caller
      of the model through `replies`, from the call and its position in the
      trace; a process is named by the position of the call that started it. */
  class Shell {
    var trace: seq<Call>
    const replies: (nat, Call) -> string

    constructor (replies: (nat, Call) -> string)
      ensures trace == [] && this.replies == replies
    {
      trace := [];
      this.replies := replies;
    }

    method Issue(c: Call) returns (out: string)
      modifies this
      ensures trace == old(trace) + [c]
      ensures out == replies(|old(trace)|, c)
    {
      out := replies(|trace|, c);
      trace := trace + [c];
    }
  }

  type Replies = (nat, Call) -> string

  // ---------------------------------------------------------------------
  // Endpoints and the kind of link

  /** A link endpoint: a plain node without a `server` attribute, or a remote-capable node. */
  datatype LinkEnd = Plain(name: string) | Remote(node: RemoteNode)

  /** `getattr(node, 'server', 'localhost')`. */
  function ServerOf(e: LinkEnd): string {
    if e.Plain? then "localhost" else e.node.server
  }

  datatype LinkKind = LocalPair | SameServerPair | TunnelLink

  /** `makeIntfPair`'s decision: both on this machine, both on one other server, or apart. */
  function KindOf(server1: string, server2: string): (k: LinkKind)
    ensures k == LocalPair <==> server1 == "localhost" && server2 == "localhost"
    ensures k == TunnelLink <==> server1 != server2
  {
    if server1 == "localhost" && server2 == "localhost" then LocalPair
    else if server1 == server2 then SameServerPair
    else TunnelLink
  }

  // ---------------------------------------------------------------------
  // The steps of a tunnel's setup

  /** `node.rcmd(line)`; the process it starts is `n.RPopen(Line(line), None, None)`. */
  function RcmdCall(n: RemoteNode, line: string): Call {
    RootRun(n.name, Line(line))
  }

  /** `node.cmd(line)`. */
  function CmdCall(n: RemoteNode, line: string): Call {
    InNode(n.name, line)
  }

  /** `moveIntf`'s test: the interface is listed as ` <intf>:`. */
  predicate MovedIn(listing: string, intf: string) {
    Contains(listing, " " + intf + ":")
  }

  /** The shell line renaming tap9: `node.cmd('ip link set tap9 name', intf[, 'address', addr])`,
      whose arguments the node joins with single spaces. */
  function RenameLine(intf: string, addr: Option<string>): string {
    if !Truthy(addr) then "ip link set tap9 name " + intf
    else "ip link set tap9 name " + intf + " address " + addr.value
  }

  /** The tunnel command: an ssh Ethernet tunnel between the tap9 devices of
      both servers, logged in as node2's user at node2's address, that
      prints `@` once it is up. */
  function TunnelCommand(n2: RemoteNode): seq<string> {
    ["ssh", "-n", "-o", "Tunnel=Ethernet", "-w", "9:9", Dest(n2.user, n2.serverIP), "echo @"]
  }

  /** `stdout.read(1)`: at most the first character of what the process prints. */
  function FirstChar(s: string): (c: string)
    ensures |c| <= 1 && c <= s
  {
    if s == [] then "" else s[..1]
  }

  /** One step of `makeTunnel` done for one node. */
  datatype Job =
    | MakeTap(n: RemoteNode)                                   // step 1: recreate tap9
    | Move(n: RemoteNode)                                      // step 3: move tap9 into the namespace
    | Rename(n: RemoteNode, intf: string, addr: Option<string>) // step 4: rename tap9
    | Check(n: RemoteNode, intf: string)                       // step 4: verify the new name


  /** The trace after a job and whether the job succeeded. */
  datatype Stage = Stage(trace: seq<Call>, ok: bool)

  /** `RemoteLink.moveIntf(intf, node)` after trace t: move, then list the
      node's interfaces; moved when ` <intf>:` is listed. makeTunnel moves
      `tap9`; Mininet's `addIntf` moves any interface of a namespaced node. */
  function MoveAttemptSpec(r: Replies, t: seq<Call>, n: RemoteNode, intf: string): Stage {
    var list := CmdCall(n, "ip link show");
    Stage(t + [RcmdCall(n, "ip link set " + intf + " netns " + ShowNat(n.pid))] + [list], MovedIn(r(|t| + 1, list), intf))
  }

  /** The number of retries `makeTunnel` asks of `retry`. */
  const Retries: nat := 3

  /** `retry(3, .01, moveIntf, intf, node)` from the state after an attempt:
      try again while the last attempt failed and fewer than 3 retries were
      made; succeed only if the loop ended before the retries ran out. */
  function RetryLoop(r: Replies, t: seq<Call>, n: RemoteNode, intf: string, tries: nat, moved: bool): Stage
    requires tries <= Retries
    decreases Retries - tries
  {
    if !moved && tries < Retries then
      var a := MoveAttemptSpec(r, t, n, intf);
      RetryLoop(r, a.trace, n, intf, tries + 1, a.ok)
    else Stage(t, tries < Retries)
  }

  /** `retry(3, .01, moveIntf, intf, node)` after trace t. */
  function RetrySpec(r: Replies, t: seq<Call>, n: RemoteNode, intf: string): Stage {
    var a := MoveAttemptSpec(r, t, n, intf);
    RetryLoop(r, a.trace, n, intf, 0, a.ok)
  }

  /** One job after trace t, and whether `makeTunnel` may go on. */
  function JobSpec(r: Replies, t: seq<Call>, j: Job): Stage {
    match j
    case MakeTap(n) =>
      var list := RcmdCall(n, "ip link show");
      Stage(t + [RcmdCall(n, "ip link delete tap9")] + [RcmdCall(n, "ip tuntap add dev tap9 mode tap user " + n.user)] + [list],
            Contains(r(|t| + 2, list), "tap9"))
    case Move(n) =>
      if n.inNamespace then RetrySpec(r, t, n, "tap9") else Stage(t, true)
    case Rename(n, intf, addr) =>
      Stage(t + [CmdCall(n, RenameLine(intf, addr))], true)
    case Check(n, intf) =>
      var list := CmdCall(n, "ip link show");
      Stage(t + [list], Contains(r(|t|, list), intf))
  }

  /** The trace after a list of jobs and the index of the job that failed, if one did. */
  datatype JobsRun = JobsRun(trace: seq<Call>, failed: Option<nat>)

  /** The jobs done in order after trace t, stopping at the first that fails. */
  function JobsSpec(r: Replies, t: seq<Call>, js: seq<Job>): (run: JobsRun)
    ensures run.failed.Some? ==> run.failed.value < |js|
    decreases |js|
  {
    if js == [] then JobsRun(t, None)
    else
      var prev := JobsSpec(r, t, js[..|js| - 1]);
      if prev.failed.Some? then prev
      else
        var s := JobSpec(r, prev.trace, js[|js| - 1]);
        JobsRun(s.trace, if s.ok then None else Some(|js| - 1))
  }

  /** Why a tunnel's setup stopped (a Python exception or `exit(1)`). */
  datatype Halt =
    | NoServerAttribute              // an endpoint without `server`: AttributeError
    | BothLocal                      // the assertion that one endpoint is remote
    | TapMissing(node: string)       // tap9 not listed after it was created
    | HandshakeFailed                // the tunnel did not print `@`
    | MoveFailed(node: string)       // `retry` gave up moving tap9
    | RenameUnverified(node: string) // the new name is not listed

  function HaltOf(j: Job): Halt {
    match j
    case MakeTap(n) => TapMissing(n.name)
    case Move(n) => MoveFailed(n.name)
    case Rename(n, _, _) => RenameUnverified(n.name)
    case Check(n, _) => RenameUnverified(n.name)
  }

  /** The trace after steps 3 and 4 and the reason they stopped, if they did. */
  datatype Finish = Finish(trace: seq<Call>, halt: Option<Halt>)

  /** Steps 3 and 4 of `makeTunnel`, after a good handshake: tap9 moved into
      the namespace of each node that has one, renamed on both nodes, and
      each new name looked for in its node's listing. */
  function ConfigureSpec(r: Replies, t: seq<Call>, n1: RemoteNode, n2: RemoteNode,
                         intf1: string, intf2: string, addr1: Option<string>, addr2: Option<string>): Finish
  {
    var moveJobs := [Move(n1), Move(n2)];
    var moves := JobsSpec(r, t, moveJobs);
    if moves.failed.Some? then Finish(moves.trace, Some(HaltOf(moveJobs[moves.failed.value])))
    else
      var renameJobs := [Rename(n1, intf1, addr1), Rename(n2, intf2, addr2)];
      var renames := JobsSpec(r, moves.trace, renameJobs);
      if renames.failed.Some? then Finish(renames.trace, Some(HaltOf(renameJobs[renames.failed.value])))
      else
        var checkJobs := [Check(n1, intf1), Check(n2, intf2)];
        var checks := JobsSpec(r, renames.trace, checkJobs);
        Finish(checks.trace, if checks.failed.Some? then Some(HaltOf(checkJobs[checks.failed.value])) else None)
  }

  /** The trace after a tunnel's setup, its outcome, and the tunnel command if it was reached. */
  datatype Run = Run(trace: seq<Call>, outcome: Outcome, sshCmd: Option<seq<string>>)

  datatype Outcome = Built(proc: nat) | Halted(why: Halt)

  /** Step 2 of `makeTunnel` and what follows it: the tunnel started from
      node1 without sudo, then one byte read from it; anything but `@`
      terminates it and stops the setup. */
  function HandshakeSpec(r: Replies, t: seq<Call>, n1: RemoteNode, n2: RemoteNode,
                         intf1: string, intf2: string, addr1: Option<string>, addr2: Option<string>): Run
  {
    var cmd := TunnelCommand(n2);
    var p := |t|;
    var shaken := t + [RootStart(n1.name, Argv(cmd), false)] + [ReadByte(p)];
    if FirstChar(r(p + 1, ReadByte(p))) != "@" then Run(shaken + [Terminate(p)], Halted(HandshakeFailed), Some(cmd))
    else
      var rest := ConfigureSpec(r, shaken, n1, n2, intf1, intf2, addr1, addr2);
      Run(rest.trace, if rest.halt.Some? then Halted(rest.halt.value) else Built(p), Some(cmd))
  }

  /** `makeTunnel` for endpoints already in order (node2 not on localhost):
      step 1 creates tap9 on both servers, then the handshake follows. */
  function SetupSpec(r: Replies, t: seq<Call>, n1: RemoteNode, n2: RemoteNode,
                     intf1: string, intf2: string, addr1: Option<string>, addr2: Option<string>): Run
  {
    var tapJobs := [MakeTap(n1), MakeTap(n2)];
    var taps := JobsSpec(r, t, tapJobs);
    if taps.failed.Some? then Run(taps.trace, Halted(HaltOf(tapJobs[taps.failed.value])), None)
    else HandshakeSpec(r, taps.trace, n1, n2, intf1, intf2, addr1, addr2)
  }

  /** `makeTunnel(node1, node2, ...)`: an endpoint without a server halts, two
      local endpoints halt, and a local node2 trades places with node1
      together with its interface name and address. */
  function TunnelSpec(r: Replies, t: seq<Call>, e1: LinkEnd, e2: LinkEnd,
                      intf1: string, intf2: string, addr1: Option<string>, addr2: Option<string>): Run
  {
    if e1.Plain? || e2.Plain? then Run(t, Halted(NoServerAttribute), None)
    else if e1.node.server == "localhost" && e2.node.server == "localhost" then Run(t, Halted(BothLocal), None)
    else if e2.node.server == "localhost" then SetupSpec(r, t, e2.node, e1.node, intf2, intf1, addr2, addr1)
    else SetupSpec(r, t, e1.node, e2.node, intf1, intf2, addr1, addr2)
  }

  // ---------------------------------------------------------------------
  // The link

  datatype LinkResult = PairMade | TunnelMade(proc: nat) | SetupHalted(why: Halt)

  /** `'%s' % list` for a list of strings without quotes or backslashes in them. */
  function ReprList(ws: seq<string>): string {
    "[" + JoinWith(Quoted(ws), ", ") + "]"
  }

  function Quoted(ws: seq<string>): (qs: seq<string>)
    ensures |qs| == |ws|
  {
    if ws == [] then [] else ["'" + ws[0] + "'"] + Quoted(ws[1..])
  }

  class RemoteLink {
    const node1: LinkEnd
    const node2: LinkEnd
    /** The tunnel process, named by the trace position of its start. */
    var tunnel: Option<nat>
    /** `self.cmd`: the last tunnel command started. */
    var tunnelCmd: seq<string>

    /** `RemoteLink.__init__` before `Link.__init__` builds the interfaces. */
    constructor (node1: LinkEnd, node2: LinkEnd)
      ensures this.node1 == node1 && this.node2 == node2
      ensures tunnel == None && tunnelCmd == []
    {
      this.node1 := node1;
      this.node2 := node2;
      tunnel := None;
      tunnelCmd := [];
    }

    /** `stop`: terminate the tunnel if there is one; afterwards there is none. */
    method Stop(shell: Shell)
      modifies this, shell
      ensures tunnel == None && tunnelCmd == old(tunnelCmd)
      ensures old(tunnel).None? ==> shell.trace == old(shell.trace)
      ensures old(tunnel).Some? ==> shell.trace == old(shell.trace) + [Terminate(old(tunnel).value)]
    {
      if tunnel.Some? {
        var ignored := shell.Issue(Terminate(tunnel.value));
      }
      tunnel := None;
    }

    /** `makeIntfPair`: a local pair, a pair made through node1's rcmd, or a tunnel. */
    method MakeIntfPair(shell: Shell, intf1: string, intf2: string, addr1: Option<string>, addr2: Option<string>)
      returns (result: LinkResult)
      modifies this, shell
      ensures var kind := KindOf(ServerOf(node1), ServerOf(node2));
        && (kind == LocalPair ==>
              shell.trace == old(shell.trace) + [MakePair(None, intf1, intf2, addr1, addr2)]
              && result == PairMade && tunnel == old(tunnel) && tunnelCmd == old(tunnelCmd))
        && (kind == SameServerPair ==>
              node1.Remote?
              && shell.trace == old(shell.trace) + [MakePair(Some(node1.node.name), intf1, intf2, addr1, addr2)]
              && result == PairMade && tunnel == old(tunnel) && tunnelCmd == old(tunnelCmd))
      ensures var run := TunnelSpec(shell.replies, old(shell.trace), node1, node2, intf1, intf2, addr1, addr2);
        KindOf(ServerOf(node1), ServerOf(node2)) == TunnelLink ==>
          && shell.trace == run.trace
          && (run.outcome.Built? ==> result == TunnelMade(run.outcome.proc) && tunnel == Some(run.outcome.proc))
          && (run.outcome.Halted? ==> result == SetupHalted(run.outcome.why) && tunnel == old(tunnel))
          && tunnelCmd == (if run.sshCmd.Some? then run.sshCmd.value else old(tunnelCmd))
    {
      var server1, server2 := ServerOf(node1), ServerOf(node2);
      if server1 == "localhost" && server2 == "localhost" {
        var ignored := shell.Issue(MakePair(None, intf1, intf2, addr1, addr2));
        return PairMade;
      } else if server1 == server2 {
        var ignored := shell.Issue(MakePair(Some(node1.node.name), intf1, intf2, addr1, addr2));
        return PairMade;
      }
      var outcome := MakeTunnel(shell, node1, node2, intf1, intf2, addr1, addr2);
      match outcome {
        case Built(p) =>
          tunnel := Some(p);
          result := TunnelMade(p);
        case Halted(why) =>
          result := SetupHalted(why);
      }
    }

    /** `makeTunnel`. */
    method MakeTunnel(shell: Shell, e1: LinkEnd, e2: LinkEnd,
                      intf1: string, intf2: string, addr1: Option<string>, addr2: Option<string>)
      returns (outcome: Outcome)
      modifies this`tunnelCmd, shell
      ensures var run := TunnelSpec(shell.replies, old(shell.trace), e1, e2, intf1, intf2, addr1, addr2);
        && shell.trace == run.trace
        && outcome == run.outcome
        && tunnelCmd == (if run.sshCmd.Some? then run.sshCmd.value else old(tunnelCmd))
      decreases if e2.Remote? && e2.node.server == "localhost" then 1 else 0
    {
      if e1.Plain? || e2.Plain? {
        return Halted(NoServerAttribute);
      }
      var n1, n2 := e1.node, e2.node;
      if n1.server == "localhost" && n2.server == "localhost" {
        return Halted(BothLocal);
      }
      if n2.server == "localhost" {
        outcome := MakeTunnel(shell, e2, e1, intf2, intf1, addr2, addr1);
        return;
      }
      var tapJobs := [MakeTap(n1), MakeTap(n2)];
      var failed := Perform(shell, tapJobs);
      if failed.Some? {
        return Halted(HaltOf(tapJobs[failed.value]));
      }
      outcome := Handshake(shell, n1, n2, intf1, intf2, addr1, addr2);
    }

    /** Step 2 of `makeTunnel`: start the tunnel and wait for its `@`. */
    method Handshake(shell: Shell, n1: RemoteNode, n2: RemoteNode,
                     intf1: string, intf2: string, addr1: Option<string>, addr2: Option<string>)
      returns (outcome: Outcome)
      modifies this`tunnelCmd, shell
      ensures var run := HandshakeSpec(shell.replies, old(shell.trace), n1, n2, intf1, intf2, addr1, addr2);
        && shell.trace == run.trace
        && outcome == run.outcome
        && tunnelCmd == (if run.sshCmd.Some? then run.sshCmd.value else old(tunnelCmd))
    {
      var cmd := TunnelCommand(n2);
      tunnelCmd := cmd;
      var p := |shell.trace|;
      var ignored := shell.Issue(RootStart(n1.name, Argv(cmd), false));
      var ch := shell.Issue(ReadByte(p));
      if FirstChar(ch) != "@" {
        ignored := shell.Issue(Terminate(p));
        return Halted(HandshakeFailed);
      }
      var halt := Configure(shell, n1, n2, intf1, intf2, addr1, addr2);
      outcome := if halt.Some? then Halted(halt.value) else Built(p);
    }

    /** `status`: Link.status (given as linkStatus), then "OK" without a
        tunnel, the exit code once `poll()` reports one, or the tunnel's pid
        and command while it runs. */
    function Status(linkStatus: string, poll: Option<int>, pid: nat): string
      reads this
    {
      var status :=
        if tunnel.None? then "OK"
        else if poll.Some? then "Tunnel EXITED " + ShowInt(poll.value)
        else "Tunnel Running (" + ShowNat(pid) + ": " + ReprList(tunnelCmd) + ")";
      linkStatus + " " + status
    }
  }

  // ---------------------------------------------------------------------
  // Doing the jobs

  /** Steps 3 and 4 of `makeTunnel`: the loops that move, rename and verify. */
  method Configure(shell: Shell, n1: RemoteNode, n2: RemoteNode,
                   intf1: string, intf2: string, addr1: Option<string>, addr2: Option<string>)
    returns (halt: Option<Halt>)
    modifies shell
    ensures var f := ConfigureSpec(shell.replies, old(shell.trace), n1, n2, intf1, intf2, addr1, addr2);
      shell.trace == f.trace && halt == f.halt
  {
    var moveJobs := [Move(n1), Move(n2)];
    var failed := Perform(shell, moveJobs);
    if failed.Some? {
      return Some(HaltOf(moveJobs[failed.value]));
    }
    var renameJobs := [Rename(n1, intf1, addr1), Rename(n2, intf2, addr2)];
    failed := Perform(shell, renameJobs);
    if failed.Some? {
      return Some(HaltOf(renameJobs[failed.value]));
    }
    var checkJobs := [Check(n1, intf1), Check(n2, intf2)];
    failed := Perform(shell, checkJobs);
    halt := if failed.Some? then Some(HaltOf(checkJobs[failed.value])) else None;
  }

  /** `RemoteLink.moveIntf(intf, node)`. */
  method MoveIntf(shell: Shell, n: RemoteNode, intf: string) returns (moved: bool)
    modifies shell
    ensures var s := MoveAttemptSpec(shell.replies, old(shell.trace), n, intf);
      shell.trace == s.trace && moved == s.ok
  {
    var ignored := shell.Issue(RcmdCall(n, "ip link set " + intf + " netns " + ShowNat(n.pid)));
    var links := shell.Issue(CmdCall(n, "ip link show"));
    moved := MovedIn(links, intf);
  }

  /** `retry(3, .01, RemoteLink.moveIntf, intf, node)`. */
  method MoveWithRetry(shell: Shell, n: RemoteNode, intf: string) returns (ok: bool)
    modifies shell
    ensures var s := RetrySpec(shell.replies, old(shell.trace), n, intf);
      shell.trace == s.trace && ok == s.ok
  {
    ghost var whole := RetrySpec(shell.replies, shell.trace, n, intf);
    var tries := 0;
    var moved := MoveIntf(shell, n, intf);
    while !moved && tries < Retries
      invariant tries <= Retries
      invariant RetryLoop(shell.replies, shell.trace, n, intf, tries, moved) == whole
      decreases Retries - tries
    {
      moved := MoveIntf(shell, n, intf);
      tries := tries + 1;
    }
    ok := tries < Retries;
  }

  /** One job of `makeTunnel`. */
  method RunJob(shell: Shell, j: Job) returns (ok: bool)
    modifies shell
    ensures var s := JobSpec(shell.replies, old(shell.trace), j);
      shell.trace == s.trace && ok == s.ok
  {
    match j
    case MakeTap(n) =>
      var ignored := shell.Issue(RcmdCall(n, "ip link delete tap9"));
      ignored := shell.Issue(RcmdCall(n, "ip tuntap add dev tap9 mode tap user " + n.user));
      var links := shell.Issue(RcmdCall(n, "ip link show"));
      ok := Contains(links, "tap9");
    case Move(n) =>
      if n.inNamespace {
        ok := MoveWithRetry(shell, n, "tap9");
      } else {
        ok := true;
      }
    case Rename(n, intf, addr) =>
      var ignored := shell.Issue(CmdCall(n, RenameLine(intf, addr)));
      ok := true;
    case Check(n, intf) =>
      var links := shell.Issue(CmdCall(n, "ip link show"));
      ok := Contains(links, intf);
  }

  /** One of `makeTunnel`'s loops over the nodes: the jobs in order, stopping at the first failure. */
  method Perform(shell: Shell, js: seq<Job>) returns (failed: Option<nat>)
    modifies shell
    ensures var run := JobsSpec(shell.replies, old(shell.trace), js);
      shell.trace == run.trace && failed == run.failed
  {
    ghost var t0 := shell.trace;
    ghost var r := shell.replies;
    var k := 0;
    while k < |js|
      invariant k <= |js|
      invariant shell.trace == JobsSpec(r, t0, js[..k]).trace
      invariant JobsSpec(r, t0, js[..k]).failed == None
    {
      var ok := RunJob(shell, js[k]);
      JobsStep(r, t0, js, k);
      if !ok {
        JobsStop(r, t0, js, k + 1);
        return Some(k);
      }
      k := k + 1;
    }
    assert js[..|js|] == js;
    failed := None;
  }

  /** Doing one more job continues from the trace of the jobs before it. */
  lemma JobsStep(r: Replies, t: seq<Call>, js: seq<Job>, k: nat)
    requires k < |js|
    requires JobsSpec(r, t, js[..k]).failed == None
    ensures var s := JobSpec(r, JobsSpec(r, t, js[..k]).trace, js[k]);
      JobsSpec(r, t, js[..k + 1]) == JobsRun(s.trace, if s.ok then None else Some(k))
  {
    assert js[..k + 1][..k] == js[..k];
  }

  /** Once a job has failed, later jobs change nothing. */
  lemma {:induction false} JobsStop(r: Replies, t: seq<Call>, js: seq<Job>, k: nat)
    requires k <= |js|
    requires JobsSpec(r, t, js[..k]).failed.Some?
    ensures JobsSpec(r, t, js) == JobsSpec(r, t, js[..k])
    decreases |js| - k
  {
    if k < |js| {
      assert js[..k + 1][..k] == js[..k];
      JobsStop(r, t, js, k + 1);
    } else {
      assert js[..k] == js;
    }
  }

  // ---------------------------------------------------------------------
  // Properties of the setup sequence

  /** The k-th call of a move attempt: first the move, then the listing. */
  function AttemptCall(n: RemoteNode, intf: string, k: nat): Call {
    if k % 2 == 0 then RcmdCall(n, "ip link set " + intf + " netns " + ShowNat(n.pid)) else CmdCall(n, "ip link show")
  }

  lemma {:induction false} RetryLoopBounds(r: Replies, t: seq<Call>, n: RemoteNode, intf: string, tries: nat, moved: bool)
    requires tries <= Retries
    ensures var s := RetryLoop(r, t, n, intf, tries, moved);
      && t <= s.trace
      && (forall i :: |t| <= i < |s.trace| ==> s.trace[i] == AttemptCall(n, intf, i - |t|))
      && (s.ok ==> |s.trace| - |t| < 2 * (Retries - tries))
      && (!s.ok ==> |s.trace| - |t| == 2 * (Retries - tries))
      && (s.ok && s.trace == t ==> moved)
      && (s.ok && s.trace != t ==> MovedIn(r(|s.trace| - 1, CmdCall(n, "ip link show")), intf))
    decreases Retries - tries
  {
    if !moved && tries < Retries {
      var a := MoveAttemptSpec(r, t, n, intf);
      RetryLoopBounds(r, a.trace, n, intf, tries + 1, a.ok);
      var s := RetryLoop(r, a.trace, n, intf, tries + 1, a.ok);
      assert s == RetryLoop(r, t, n, intf, tries, moved);
      forall i | |t| <= i < |s.trace|
        ensures s.trace[i] == AttemptCall(n, intf, i - |t|)
      {
        if i >= |t| + 2 {
          assert AttemptCall(n, intf, i - |a.trace|) == AttemptCall(n, intf, i - |t|);
        }
      }
    }
  }

  /** Within the retry loop, every listing but the last lacks ` <intf>:`: the
      loop stops at the first listing that shows it. */
  lemma {:induction false} RetryLoopListings(r: Replies, t: seq<Call>, n: RemoteNode, intf: string, tries: nat, moved: bool)
    requires tries <= Retries
    ensures var s := RetryLoop(r, t, n, intf, tries, moved);
      && |t| <= |s.trace| && (|s.trace| - |t|) % 2 == 0
      && (forall k :: |t| <= k < |s.trace| - 1 && (k - |t|) % 2 == 1 ==>
            !MovedIn(r(k, CmdCall(n, "ip link show")), intf))
    decreases Retries - tries
  {
    if !moved && tries < Retries {
      var a := MoveAttemptSpec(r, t, n, intf);
      RetryLoopListings(r, a.trace, n, intf, tries + 1, a.ok);
      var s := RetryLoop(r, a.trace, n, intf, tries + 1, a.ok);
      assert s == RetryLoop(r, t, n, intf, tries, moved);
      forall k | |t| <= k < |s.trace| - 1 && (k - |t|) % 2 == 1
        ensures !MovedIn(r(k, CmdCall(n, "ip link show")), intf)
      {
        if k >= |t| + 2 {
          assert (k - |a.trace|) % 2 == 1;
        } else {
          assert k == |t| + 1 && s.trace != a.trace;
        }
      }
    }
  }

  /** `retry(3, ...)` around moveIntf: every call it makes is a move of intf
      into n's namespace or a listing of n's interfaces, alternately. It
      succeeds only within its first three attempts, the last listing then
      showing ` <intf>:`, and gives up only after a fourth attempt. */
  lemma RetryBounds(r: Replies, t: seq<Call>, n: RemoteNode, intf: string)
    ensures var s := RetrySpec(r, t, n, intf);
      && t <= s.trace
      && (forall i :: |t| <= i < |s.trace| ==> s.trace[i] == AttemptCall(n, intf, i - |t|))
      && (s.ok ==> 2 <= |s.trace| - |t| <= 2 * Retries
                   && MovedIn(r(|s.trace| - 1, CmdCall(n, "ip link show")), intf))
      && (!s.ok <==> |s.trace| - |t| == 2 * (Retries + 1))
  {
    var a := MoveAttemptSpec(r, t, n, intf);
    RetryLoopBounds(r, a.trace, n, intf, 0, a.ok);
    var s := RetrySpec(r, t, n, intf);
    forall i | |t| <= i < |s.trace|
      ensures s.trace[i] == AttemptCall(n, intf, i - |t|)
    {
      if i >= |t| + 2 {
        assert AttemptCall(n, intf, i - |a.trace|) == AttemptCall(n, intf, i - |t|);
      }
    }
  }

  /** `retry(3, ...)` around moveIntf stops at the first listing that shows
      ` <intf>:`, and succeeds exactly when one of the first three listings
      shows it; giving up means none of them did. */
  lemma RetryFirstSuccess(r: Replies, t: seq<Call>, n: RemoteNode, intf: string)
    ensures var s := RetrySpec(r, t, n, intf);
      && (forall k :: |t| < k < |s.trace| - 1 && (k - |t|) % 2 == 1 ==>
            !MovedIn(r(k, CmdCall(n, "ip link show")), intf))
      && (s.ok <==> exists k :: |t| < k < |t| + 2 * Retries && (k - |t|) % 2 == 1 &&
                                MovedIn(r(k, CmdCall(n, "ip link show")), intf))
  {
    var a := MoveAttemptSpec(r, t, n, intf);
    RetryBounds(r, t, n, intf);
    RetryLoopListings(r, a.trace, n, intf, 0, a.ok);
    var s := RetrySpec(r, t, n, intf);
    forall k | |t| < k < |s.trace| - 1 && (k - |t|) % 2 == 1
      ensures !MovedIn(r(k, CmdCall(n, "ip link show")), intf)
    {
      if k >= |t| + 2 {
        assert (k - |a.trace|) % 2 == 1;
      } else {
        assert k == |t| + 1 && s.trace != a.trace;
      }
    }
    if s.ok {
      var k := |s.trace| - 1;
      assert (k - |t|) % 2 == 1 && k < |t| + 2 * Retries;
    }
  }

  /** Step 1 for one node: delete tap9, add it for the node's user, list the links. */
  function TapCalls(n: RemoteNode): seq<Call> {
    [RcmdCall(n, "ip link delete tap9"), RcmdCall(n, "ip tuntap add dev tap9 mode tap user " + n.user), RcmdCall(n, "ip link show")]
  }

  /** Step 1 for both nodes: node1's three calls, then node2's; the setup
      goes on only if each listing shows tap9, and stops at node1 if its
      listing does not. */
  lemma TapsSpec(r: Replies, t: seq<Call>, n1: RemoteNode, n2: RemoteNode)
    ensures var taps := JobsSpec(r, t, [MakeTap(n1), MakeTap(n2)]);
      var ok1 := Contains(r(|t| + 2, RcmdCall(n1, "ip link show")), "tap9");
      var ok2 := Contains(r(|t| + 5, RcmdCall(n2, "ip link show")), "tap9");
      && taps.failed == (if !ok1 then Some(0) else if !ok2 then Some(1) else None)
      && taps.trace == (if !ok1 then t + TapCalls(n1) else t + TapCalls(n1) + TapCalls(n2))
  {
    TapsOrder(r, t, n1, n2);
    TapJob(r, t, n1);
    TapJob(r, t + TapCalls(n1), n2);
  }

  lemma TapsOrder(r: Replies, t: seq<Call>, n1: RemoteNode, n2: RemoteNode)
    ensures var taps := JobsSpec(r, t, [MakeTap(n1), MakeTap(n2)]);
      var s1 := JobSpec(r, t, MakeTap(n1));
      var s2 := JobSpec(r, s1.trace, MakeTap(n2));
      && taps.failed == (if !s1.ok then Some(0) else if !s2.ok then Some(1) else None)
      && taps.trace == (if !s1.ok then t + TapCalls(n1) else t + TapCalls(n1) + TapCalls(n2))
  {
    JobsPair(r, t, MakeTap(n1), MakeTap(n2));
    assert JobSpec(r, t, MakeTap(n1)).trace == t + TapCalls(n1);
  }

  /** Step 1 for one node adds its three calls and succeeds when the listing shows tap9. */
  lemma TapJob(r: Replies, t: seq<Call>, n: RemoteNode)
    ensures JobSpec(r, t, MakeTap(n)).trace == t + TapCalls(n)
    ensures JobSpec(r, t, MakeTap(n)).ok == Contains(r(|t| + 2, RcmdCall(n, "ip link show")), "tap9")
  {
  }

  /** Two jobs: the second runs only if the first succeeded. */
  lemma JobsPair(r: Replies, t: seq<Call>, j1: Job, j2: Job)
    ensures var s1 := JobSpec(r, t, j1);
      var s2 := JobSpec(r, s1.trace, j2);
      JobsSpec(r, t, [j1, j2])
        == if !s1.ok then JobsRun(s1.trace, Some(0)) else JobsRun(s2.trace, if s2.ok then None else Some(1))
  {
    var js := [j1, j2];
    assert js[..0] == [];
    JobsStep(r, t, js, 0);
    assert js[..1] == [j1];
    if JobSpec(r, t, j1).ok {
      JobsStep(r, t, js, 1);
    } else {
      JobsStop(r, t, js, 1);
    }
    assert js[..2] == js;
  }

  lemma JobExtends(r: Replies, t: seq<Call>, j: Job)
    ensures t <= JobSpec(r, t, j).trace
  {
    if j.Move? && j.n.inNamespace {
      RetryBounds(r, t, j.n, "tap9");
    }
  }

  lemma {:induction false} JobsExtends(r: Replies, t: seq<Call>, js: seq<Job>)
    ensures t <= JobsSpec(r, t, js).trace
    decreases |js|
  {
    if js != [] {
      JobsExtends(r, t, js[..|js| - 1]);
      var prev := JobsSpec(r, t, js[..|js| - 1]);
      if prev.failed.None? {
        JobExtends(r, prev.trace, js[|js| - 1]);
      }
    }
  }

  /** Step 4's renames: one line for each node, node1 first, each with its own name and address. */
  lemma RenamesSpec(r: Replies, t: seq<Call>, n1: RemoteNode, n2: RemoteNode,
                    intf1: string, intf2: string, addr1: Option<string>, addr2: Option<string>)
    ensures JobsSpec(r, t, [Rename(n1, intf1, addr1), Rename(n2, intf2, addr2)])
         == JobsRun(t + [CmdCall(n1, RenameLine(intf1, addr1))] + [CmdCall(n2, RenameLine(intf2, addr2))], None)
  {
    JobsPair(r, t, Rename(n1, intf1, addr1), Rename(n2, intf2, addr2));
  }

  /** Steps 3 and 4 only add calls, never halt with a handshake failure, and,
      when they finish, have renamed tap9 on each node to that node's own name. */
  lemma ConfigureFacts(r: Replies, t: seq<Call>, n1: RemoteNode, n2: RemoteNode,
                       intf1: string, intf2: string, addr1: Option<string>, addr2: Option<string>)
    ensures var f := ConfigureSpec(r, t, n1, n2, intf1, intf2, addr1, addr2);
      && t <= f.trace
      && f.halt != Some(HandshakeFailed)
      && (f.halt.None? ==> CmdCall(n1, RenameLine(intf1, addr1)) in f.trace[|t|..]
                           && CmdCall(n2, RenameLine(intf2, addr2)) in f.trace[|t|..])
  {
    var moveJobs := [Move(n1), Move(n2)];
    var moves := JobsSpec(r, t, moveJobs);
    JobsExtends(r, t, moveJobs);
    if moves.failed.None? {
      RenamesSpec(r, moves.trace, n1, n2, intf1, intf2, addr1, addr2);
      var renamed := moves.trace + [CmdCall(n1, RenameLine(intf1, addr1))] + [CmdCall(n2, RenameLine(intf2, addr2))];
      var checkJobs := [Check(n1, intf1), Check(n2, intf2)];
      JobsExtends(r, renamed, checkJobs);
      var f := JobsSpec(r, renamed, checkJobs).trace;
      assert f[|moves.trace|] == CmdCall(n1, RenameLine(intf1, addr1));
      assert f[|moves.trace| + 1] == CmdCall(n2, RenameLine(intf2, addr2));
      assert f[|t|..][|moves.trace| - |t|] == f[|moves.trace|];
      assert f[|t|..][|moves.trace| - |t| + 1] == f[|moves.trace| + 1];
    }
  }

  /** Step 4's checks: node1's listing, then node2's; the setup goes on only
      if each listing holds that node's new name. */
  lemma ChecksSpec(r: Replies, t: seq<Call>, n1: RemoteNode, n2: RemoteNode, intf1: string, intf2: string)
    ensures var l1 := CmdCall(n1, "ip link show");
      var l2 := CmdCall(n2, "ip link show");
      var ok1 := Contains(r(|t|, l1), intf1);
      var ok2 := Contains(r(|t| + 1, l2), intf2);
      JobsSpec(r, t, [Check(n1, intf1), Check(n2, intf2)])
        == if !ok1 then JobsRun(t + [l1], Some(0)) else JobsRun(t + [l1] + [l2], if ok2 then None else Some(1))
  {
    JobsPair(r, t, Check(n1, intf1), Check(n2, intf2));
  }

  /** Steps 3 and 4 finish only after the new names were verified: the last
      two calls list node1's and then node2's interfaces, and each listing
      holds that node's new name. */
  lemma ConfigureVerified(r: Replies, t: seq<Call>, n1: RemoteNode, n2: RemoteNode,
                          intf1: string, intf2: string, addr1: Option<string>, addr2: Option<string>)
    ensures var f := ConfigureSpec(r, t, n1, n2, intf1, intf2, addr1, addr2);
      var k := |f.trace|;
      f.halt.None? ==>
        && k >= |t| + 2
        && f.trace[k - 2] == CmdCall(n1, "ip link show") && Contains(r(k - 2, CmdCall(n1, "ip link show")), intf1)
        && f.trace[k - 1] == CmdCall(n2, "ip link show") && Contains(r(k - 1, CmdCall(n2, "ip link show")), intf2)
  {
    var moves := JobsSpec(r, t, [Move(n1), Move(n2)]);
    JobsExtends(r, t, [Move(n1), Move(n2)]);
    if moves.failed.None? {
      RenamesSpec(r, moves.trace, n1, n2, intf1, intf2, addr1, addr2);
      var renamed := moves.trace + [CmdCall(n1, RenameLine(intf1, addr1))] + [CmdCall(n2, RenameLine(intf2, addr2))];
      ChecksSpec(r, renamed, n1, n2, intf1, intf2);
    }
  }

  /** A node outside a namespace needs no move: step 3 issues nothing for it. */
  lemma MoveSkipsRootNode(r: Replies, t: seq<Call>, n: RemoteNode)
    requires !n.inNamespace
    ensures JobSpec(r, t, Move(n)) == Stage(t, true)
  {
  }

  /** The handshake gates everything after it: once both taps exist, the
      tunnel is started from node1 and read from, and the setup halts with
      a handshake failure exactly when the first byte is not `@`; it then
      terminates the tunnel and issues nothing more (no move, no rename). A
      tunnel that is built is the process started at that point. */
  lemma HandshakeGate(r: Replies, t: seq<Call>, n1: RemoteNode, n2: RemoteNode,
                      intf1: string, intf2: string, addr1: Option<string>, addr2: Option<string>)
    ensures var run := SetupSpec(r, t, n1, n2, intf1, intf2, addr1, addr2);
      var taps := JobsSpec(r, t, [MakeTap(n1), MakeTap(n2)]);
      var p := |t| + 6;
      var begun := t + TapCalls(n1) + TapCalls(n2) + [RootStart(n1.name, Argv(TunnelCommand(n2)), false)] + [ReadByte(p)];
      taps.failed.None? ==>
        && run.sshCmd == Some(TunnelCommand(n2))
        && begun <= run.trace
        && (run.outcome == Halted(HandshakeFailed) <==> FirstChar(r(p + 1, ReadByte(p))) != "@")
        && (run.outcome == Halted(HandshakeFailed) ==> run.trace == begun + [Terminate(p)])
        && (run.outcome.Built? ==> run.outcome.proc == p)
  {
    TapsSpec(r, t, n1, n2);
    var taps := JobsSpec(r, t, [MakeTap(n1), MakeTap(n2)]);
    if taps.failed.None? {
      var p := |t| + 6;
      var begun := taps.trace + [RootStart(n1.name, Argv(TunnelCommand(n2)), false)] + [ReadByte(p)];
      ConfigureFacts(r, begun, n1, n2, intf1, intf2, addr1, addr2);
    }
  }

  /** Each interface name and address stays with its own endpoint, whichever
      endpoint initiates: a tunnel that is built has renamed tap9 on each
      endpoint to the name given for that endpoint, and found that name in
      the endpoint's own interface listing. */
  lemma TunnelKeepsNames(r: Replies, t: seq<Call>, e1: LinkEnd, e2: LinkEnd,
                         intf1: string, intf2: string, addr1: Option<string>, addr2: Option<string>)
    ensures var run := TunnelSpec(r, t, e1, e2, intf1, intf2, addr1, addr2);
      run.outcome.Built? ==>
        && e1.Remote? && e2.Remote?
        && CmdCall(e1.node, RenameLine(intf1, addr1)) in run.trace
        && CmdCall(e2.node, RenameLine(intf2, addr2)) in run.trace
        && VerifiedIn(r, run.trace, e1.node, intf1) && VerifiedIn(r, run.trace, e2.node, intf2)
  {
    if e1.Remote? && e2.Remote? && !(e1.node.server == "localhost" && e2.node.server == "localhost") {
      if e2.node.server == "localhost" {
        SetupKeepsNames(r, t, e2.node, e1.node, intf2, intf1, addr2, addr1);
        SetupVerifiesNames(r, t, e2.node, e1.node, intf2, intf1, addr2, addr1);
      } else {
        SetupKeepsNames(r, t, e1.node, e2.node, intf1, intf2, addr1, addr2);
        SetupVerifiesNames(r, t, e1.node, e2.node, intf1, intf2, addr1, addr2);
      }
    }
  }

  lemma SetupKeepsNames(r: Replies, t: seq<Call>, n1: RemoteNode, n2: RemoteNode,
                        intf1: string, intf2: string, addr1: Option<string>, addr2: Option<string>)
    ensures var run := SetupSpec(r, t, n1, n2, intf1, intf2, addr1, addr2);
      run.outcome.Built? ==>
        && CmdCall(n1, RenameLine(intf1, addr1)) in run.trace
        && CmdCall(n2, RenameLine(intf2, addr2)) in run.trace
  {
    var taps := JobsSpec(r, t, [MakeTap(n1), MakeTap(n2)]);
    if taps.failed.None? {
      var p := |taps.trace|;
      var begun := taps.trace + [RootStart(n1.name, Argv(TunnelCommand(n2)), false)] + [ReadByte(p)];
      ConfigureFacts(r, begun, n1, n2, intf1, intf2, addr1, addr2);
      var f := ConfigureSpec(r, begun, n1, n2, intf1, intf2, addr1, addr2).trace;
      assert forall c :: c in f[|begun|..] ==> c in f;
    }
  }

  /** A built setup found each node's new name in that node's own listing. */
  lemma SetupVerifiesNames(r: Replies, t: seq<Call>, n1: RemoteNode, n2: RemoteNode,
                           intf1: string, intf2: string, addr1: Option<string>, addr2: Option<string>)
    ensures var run := SetupSpec(r, t, n1, n2, intf1, intf2, addr1, addr2);
      run.outcome.Built? ==> VerifiedIn(r, run.trace, n1, intf1) && VerifiedIn(r, run.trace, n2, intf2)
  {
    var f := SetupSpec(r, t, n1, n2, intf1, intf2, addr1, addr2).trace;
    if SetupSpec(r, t, n1, n2, intf1, intf2, addr1, addr2).outcome.Built? {
      SetupBuilt(r, t, n1, n2, intf1, intf2, addr1, addr2);
      ListedAt(r, f, |f| - 2, n1, intf1);
      ListedAt(r, f, |f| - 1, n2, intf2);
    }
  }

  /** Some call of the trace listed n's interfaces, and the listing held intf. */
  ghost predicate VerifiedIn(r: Replies, trace: seq<Call>, n: RemoteNode, intf: string) {
    exists k :: 0 <= k < |trace| && trace[k] == CmdCall(n, "ip link show")
                && Contains(r(k, CmdCall(n, "ip link show")), intf)
  }

  lemma ListedAt(r: Replies, trace: seq<Call>, k: nat, n: RemoteNode, intf: string)
    requires k < |trace| && trace[k] == CmdCall(n, "ip link show")
    requires Contains(r(k, CmdCall(n, "ip link show")), intf)
    ensures VerifiedIn(r, trace, n, intf)
  {
  }

  /** A built setup ends with the two checks of steps 3 and 4: node1's
      listing holding its new name, then node2's. */
  lemma SetupBuilt(r: Replies, t: seq<Call>, n1: RemoteNode, n2: RemoteNode,
                   intf1: string, intf2: string, addr1: Option<string>, addr2: Option<string>)
    requires SetupSpec(r, t, n1, n2, intf1, intf2, addr1, addr2).outcome.Built?
    ensures var f := SetupSpec(r, t, n1, n2, intf1, intf2, addr1, addr2).trace;
      var k := |f|;
      && k >= 2
      && f[k - 2] == CmdCall(n1, "ip link show") && Contains(r(k - 2, CmdCall(n1, "ip link show")), intf1)
      && f[k - 1] == CmdCall(n2, "ip link show") && Contains(r(k - 1, CmdCall(n2, "ip link show")), intf2)
  {
    var taps := JobsSpec(r, t, [MakeTap(n1), MakeTap(n2)]);
    var p := |taps.trace|;
    var begun := taps.trace + [RootStart(n1.name, Argv(TunnelCommand(n2)), false)] + [ReadByte(p)];
    ConfigureVerified(r, begun, n1, n2, intf1, intf2, addr1, addr2);
  }

  /** When exactly one endpoint is on this machine, that endpoint starts the
      tunnel, and the tunnel logs in to the other endpoint's server. */
  lemma LocalEndInitiates(r: Replies, t: seq<Call>, e1: LinkEnd, e2: LinkEnd,
                          intf1: string, intf2: string, addr1: Option<string>, addr2: Option<string>)
    requires e1.Remote? && e2.Remote?
    requires (e1.node.server == "localhost") != (e2.node.server == "localhost")
    ensures var run := TunnelSpec(r, t, e1, e2, intf1, intf2, addr1, addr2);
      var local := if e1.node.server == "localhost" then e1.node else e2.node;
      var remote := if e1.node.server == "localhost" then e2.node else e1.node;
      run.sshCmd.Some? ==>
        && run.sshCmd.value == TunnelCommand(remote)
        && RootStart(local.name, Argv(TunnelCommand(remote)), false) in run.trace
  {
    if e2.node.server == "localhost" {
      SetupStarts(r, t, e2.node, e1.node, intf2, intf1, addr2, addr1);
    } else {
      SetupStarts(r, t, e1.node, e2.node, intf1, intf2, addr1, addr2);
    }
  }

  /** A setup that reaches step 2 starts the tunnel to node2 from node1. */
  lemma SetupStarts(r: Replies, t: seq<Call>, n1: RemoteNode, n2: RemoteNode,
                    intf1: string, intf2: string, addr1: Option<string>, addr2: Option<string>)
    ensures var run := SetupSpec(r, t, n1, n2, intf1, intf2, addr1, addr2);
      run.sshCmd.Some? ==>
        && run.sshCmd.value == TunnelCommand(n2)
        && RootStart(n1.name, Argv(TunnelCommand(n2)), false) in run.trace
  {
    HandshakeGate(r, t, n1, n2, intf1, intf2, addr1, addr2);
    var run := SetupSpec(r, t, n1, n2, intf1, intf2, addr1, addr2);
    var p := |t| + 6;
    var begun := t + TapCalls(n1) + TapCalls(n2) + [RootStart(n1.name, Argv(TunnelCommand(n2)), false)] + [ReadByte(p)];
    if run.sshCmd.Some? {
      assert run.trace[p] == begun[p];
    }
  }

  /** The tunnel process started on node1 without sudo: on a remote node1 it
      is ssh'd there with a terminal, on a local node1 it runs as the login user. */
  lemma TunnelProcess(n1: RemoteNode, n2: RemoteNode)
    requires n1.Valid()
    ensures n1.RPopen(Argv(TunnelCommand(n2)), Some(false), None)
         == (if n1.isRemote then n1.sshcmd
             else if n1.user != "" then ["sudo", "-E", "-u", n1.user]
             else []) + TunnelCommand(n2)
  {
  }

  /** `status` reports "OK" exactly when there is no tunnel, the exit code
      of a tunnel that `poll()` found exited, and otherwise the running
      tunnel's pid and command. */
  lemma StatusCases(link: RemoteLink, linkStatus: string, poll: Option<int>, pid: nat)
    ensures var s := link.Status(linkStatus, poll, pid);
      && linkStatus + " " <= s
      && (s == linkStatus + " OK" <==> link.tunnel.None?)
      && (link.tunnel.Some? && poll.Some? ==> s == linkStatus + " Tunnel EXITED " + ShowInt(poll.value))
      && (link.tunnel.Some? && poll.None? ==>
            s == linkStatus + " Tunnel Running (" + ShowNat(pid) + ": " + ReprList(link.tunnelCmd) + ")")
  {
    var s := link.Status(linkStatus, poll, pid);
    if link.tunnel.None? {
      StatusPick(linkStatus, false, None, "", s);
    } else if poll.Some? {
      StatusPick(linkStatus, true, Some(ShowInt(poll.value)), "", s);
    } else {
      var running := ShowNat(pid) + ": " + ReprList(link.tunnelCmd);
      assert s == linkStatus + " " + ("Tunnel Running (" + running + ")");
      StatusPick(linkStatus, true, None, running, s);
    }
  }

  /** Which of the three tunnel states a status line reports. */
  lemma StatusPick(linkStatus: string, hasTunnel: bool, exited: Option<string>, running: string, s: string)
    requires s == linkStatus + " " + (if !hasTunnel then "OK"
                                      else if exited.Some? then "Tunnel EXITED " + exited.value
                                      else "Tunnel Running (" + running + ")")
    ensures linkStatus + " " <= s
    ensures s == linkStatus + " OK" <==> !hasTunnel
    ensures hasTunnel && exited.Some? ==> s == linkStatus + " Tunnel EXITED " + exited.value
    ensures hasTunnel && exited.None? ==> s == linkStatus + " Tunnel Running (" + running + ")"
  {
    var status := s[|linkStatus| + 1..];
    assert s == linkStatus + " " + status;
    if s == linkStatus + " OK" {
      assert status == "OK";
    }
  }
}
