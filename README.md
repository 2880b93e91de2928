# Scalable Mininet in Dafny

Scalable Mininet runs a Mininet network across several servers. Each host
and switch is placed on a server. A node on another server is reached over
ssh. A link between nodes on different servers is an ssh Ethernet tunnel
between two `tap9` devices. This project models the bookkeeping at the core
of that design and proves what it promises:

- `pyvalues.dfy` (module `PyValues`): the pieces of Python the code relies on:
  - truthiness and `'%s'` of None and of integers;
  - `str.split()`, `' '.join`, and `in` on strings;
  - `|` on integers.
- `patterns.dfy` (module `Patterns`): the two greedy regular expressions the
  code uses, `\d+\.\d+\.\d+\.\d+` (a dotted-quad address) and `\d+\.\d+`
  (a `major.minor` version, compared like `StrictVersion`), as
  `findall(...)[0]` reads them: runs of digits joined by a fixed number of dots.
- `scalablenode.dfy` (module `ScalableNode`), for `RemoteMixin`:
  - how a node derives its server, address, user, control path, ssh
    destination and ssh command;
  - how `_popen`, `rpopen` and `popen` build a command line;
  - the per-server cache of Open vSwitch versions behind `isOldOVS`.
- `scalablelink.dfy` (module `ScalableLink`), for `RemoteLink`:
  - the choice between a local pair, a pair on one remote server and a
    tunnel;
  - the tunnel's setup sequence: tap creation, the `@` handshake, the
    namespace move with `retry`, and the rename and check;
  - `stop` and `status`.

  Every command goes through a `Shell` object. It records the calls in
  order and answers each with a reply that the caller of the model
  chooses, from the call and its position.
- `scalablemininet.dfy` (module `ScalableMininet`), for `MininetCluster`:
  - the constructor's server list, address map and defaults;
  - `precheck`, which contacts every remote server and reports each failing
    one;
  - `placeNodes`, which writes `server`, `serverIP` and `controlPath` into
    each node's configuration with `setdefault`, asking an abstract placer.
- `scalablecli.dfy` (module `ScalableCli`): `colorsFor`, and the lines of the
  `placement` command.

State that the source changes in place is modelled as classes:
`RemoteLink.tunnel`, the version cache, the cluster's fields, and the
topology's per-node configurations. Loops are methods proved against
specification functions: the pre-check, the placement pass, `retry` and the
tunnel's per-node loops. What those functions promise is proved as lemmas.

Points where the code is followed over its documentation:
- `moveIntf` checks the interface listing of the node's own shell, not of
  the server's root namespace.
- The handshake read has no timeout.
- `retry(3, ...)` makes up to four attempts. It is modelled after the
  definition of `mininet.util.retry`: retry while the last attempt failed
  and fewer than three retries were made, then give up if three were
  made. So a success on the fourth attempt still counts as a failure.
- `precheck` looks up `serverIP[server]` before it skips `localhost`.
  `placeNodes` evaluates `serverIP[server]` even when the node already has
  a `serverIP`, because `setdefault`'s argument is evaluated first. A
  server missing from the map therefore stops both, with `KeyError`.
- In `placeNodes` (scalablemininet/scalablemininet.py:118-119), the two
  docstrings are indented differently. Python rejects that indentation.
  The model follows the evident intent: the statements of the body.
- Names the modules use without importing them (`RemoteLink` in
  scalablenode.py; `RemoteHost`, `RemoteOVSSwitch`, `RemoteLink`,
  `RemoteMixin` and `SwitchBinPlacer` in scalablemininet.py) are taken as the
  classes they evidently mean.

## Model

| member | source | states |
|---|---|---|
| ScalableNode.ServerName | scalablemininet/scalablenode.py:46 | a falsy server becomes `localhost`; a truthy one is kept; the result is never empty |
| ScalableNode.NormalizeControlPath | scalablemininet/scalablenode.py:50-53 | `True` becomes the default control path `/tmp/mn-%r@%h:%p` and every other value is kept |
| ScalableNode.SshCommandShape | scalablemininet/scalablenode.py:37-63 | the ssh command runs as the user; it is `sshbase` followed by the destination; the options `-o ControlPath=<path> -o ControlMaster=auto` follow `sshbase` exactly when a control path is used; `-tt` sits at index 10 only |
| ScalableNode.RemoteNode.constructor | scalablemininet/scalablenode.py:43-68 | the fields `__init__` derives: server, address (given, or looked up), user, control path; `isRemote` iff user is truthy and server is not `localhost`; then `dest` and `sshcmd`, otherwise None and `[]` |
| ScalableNode.FindServerIPLiteral | scalablemininet/scalablenode.py:89-99 | a server name holding a dotted quad gives its leftmost dotted quad, with the last number read whole, and no lookup; otherwise exactly one `getent ahostsv4` lookup, whose output decides |
| Patterns.FirstDottedQuadSpec | scalablemininet/scalablenode.py:86-94 | `findall(...)[0]` of the dotted-quad pattern finds a match iff the text holds one; the match is the leftmost and is not cut inside its last number |
| ScalableNode.RemoveFirst | scalablemininet/scalablenode.py:150-151 | `list.remove` on a copy drops the first occurrence and keeps the order of the rest |
| ScalableNode.PopenKeepsCommand | scalablemininet/scalablenode.py:142-156 | every command line ends with the command's words. On a remote node, it starts with `sshcmd` (less its first `-tt` when tt is false), and `sudo -E` stands before the words when sudo is set. On a local node, the `sudo -E -u user` prefix is there iff a user is set and sudo is not |
| ScalableNode.PopenWithoutTty | scalablemininet/scalablenode.py:147-152 | on a remote node, the line started with `tt=False` is the `tt=True` line without the `-tt` at index 10, and its ssh part holds no `-tt` |
| ScalableNode.RemoteNode.RPopen | scalablemininet/scalablenode.py:115-122 | `rpopen` defaults sudo and tt to true; the caller's options override them |
| ScalableNode.RemoteNode.Popen | scalablemininet/scalablenode.py:162-164 | `popen` always starts without a terminal: on a remote node the line is `_popen`'s `tt=True` line less its `-tt`; on a local node it is `_popen`'s line, which tt does not affect |
| ScalableNode.OVSVersionCache.IsOldOVS | scalablemininet/scalablenode.py:185-192 | the version is queried only for a server not yet cached, and an entry is never overwritten; the answer is `major.minor < 1.10`, compared numerically; output without a version raises (None) and caches nothing |
| ScalableNode.OldOVSOfOutput | scalablemininet/scalablenode.py:189-192 | for version output `<no digits>M.m<no digit>`, the switch is old exactly when (M, m) is below (1, 10) |
| Patterns.FirstVersionOfOutput | scalablemininet/scalablenode.py:190 | reading `\d+\.\d+` from a command's output gives back exactly the printed version |
| ScalableLink.KindOf | examples/scalablelink.py:47-58 | a local pair iff both servers are `localhost`; a tunnel iff the servers differ; otherwise a pair on the shared server |
| ScalableLink.RemoteLink.constructor | examples/scalablelink.py:24-30 | `RemoteLink`'s own part of `__init__`: the link has its two endpoints and no tunnel |
| ScalableLink.RemoteLink.Stop | examples/scalablelink.py:35-39 | a tunnel that exists is terminated; afterwards there is none, so a second stop issues nothing |
| ScalableLink.RemoteLink.MakeIntfPair | examples/scalablelink.py:41-59 | an endpoint without a server counts as `localhost`; local and same-server pairs are made directly (through node1's rcmd for a remote server) and leave the tunnel alone; otherwise the setup runs and a built tunnel is both stored and returned |
| ScalableLink.RemoteLink.MakeTunnel | examples/scalablelink.py:79-133 | the trace, outcome and tunnel command are those of the setup sequence TunnelSpec |
| ScalableLink.RemoteLink.Handshake | examples/scalablelink.py:100-119 | starts the tunnel command from node1 without sudo and reads one byte; anything but `@` terminates the tunnel and halts |
| ScalableLink.Configure | examples/scalablelink.py:120-132 | steps 3 and 4 do exactly the move, rename and check jobs in order, stopping at the first failure |
| ScalableLink.MoveIntf | examples/scalablelink.py:68-77 | for any interface name: moves the interface into the node's namespace by pid, lists the node's links, and reports success iff ` <intf>:` is listed |
| ScalableLink.MoveWithRetry | examples/scalablelink.py:123 | `retry(3, ...)` around moveIntf follows the retry loop RetryLoop |
| ScalableLink.RunJob | examples/scalablelink.py:90-132 | each per-node job issues its calls and reports success as the spec JobSpec says |
| ScalableLink.Perform | examples/scalablelink.py:90-132 | the per-node loops do their jobs in order and stop at the first failure, as JobsSpec says |
| ScalableLink.JobsStop | examples/scalablelink.py:97-132 | once a job fails, later jobs are not done |
| ScalableLink.RetryBounds | examples/scalablelink.py:121-123 | the retry makes only alternating move and list calls; it succeeds within three attempts with ` <intf>:` (makeTunnel retries with `tap9`) in the last listing, and gives up exactly after four attempts |
| ScalableLink.RetryFirstSuccess | examples/scalablelink.py:121-123 | the retry stops at the first listing showing ` <intf>:` (makeTunnel retries with `tap9`); it succeeds iff one of the first three listings shows it, so giving up means none of them did |
| ScalableLink.TapsSpec | examples/scalablelink.py:89-97 | node1's three tap commands come first, then node2's; the setup goes on only if each listing shows `tap9` |
| ScalableLink.RenamesSpec | examples/scalablelink.py:124-130 | one rename line per node, node1 first, each with its own name, and `address` only when an address is given |
| ScalableLink.ConfigureFacts | examples/scalablelink.py:120-132 | steps 3 and 4 only add calls and never fail the handshake; when they finish, each node's tap9 was renamed to that node's own name |
| ScalableLink.HandshakeGate | examples/scalablelink.py:98-119 | after both taps exist the tunnel is started and read from; the setup halts with a handshake failure iff the first byte is not `@`, and then terminates the tunnel and issues nothing more; a built tunnel is the process started there |
| ScalableLink.TunnelKeepsNames | examples/scalablelink.py:83-132 | whichever endpoint initiates, a built tunnel has renamed tap9 on each endpoint to the name and address given for that endpoint, and found that name in the endpoint's own interface listing |
| ScalableLink.ConfigureVerified | examples/scalablelink.py:131-132 | steps 3 and 4 finish only after the checks: the last two calls list node1's and then node2's interfaces, and each listing holds that node's new name |
| ScalableLink.MoveSkipsRootNode | examples/scalablelink.py:121-123 | a node outside a namespace gets no move call, and step 3 goes on |
| ScalableLink.LocalEndInitiates | examples/scalablelink.py:84-104 | when exactly one endpoint is local, it starts the tunnel, which logs in to the other endpoint's server |
| ScalableLink.TunnelProcess | examples/scalablelink.py:104 | the tunnel is started on node1 without sudo: through node1's ssh command with a terminal, or as the login user on a local node |
| ScalableLink.StatusCases | examples/scalablelink.py:135-146 | the status starts with Link's status; it is "OK" iff there is no tunnel; an exited tunnel reports its exit code; a running one reports its pid and command |
| ScalableMininet.NormalizeServers | scalablemininet/scalablemininet.py:54-55 | every falsy server becomes `localhost`, position by position; no entry is empty |
| ScalableMininet.ServerIPMap | scalablemininet/scalablemininet.py:58-60 | the computed address map has an entry for exactly the listed servers, each from findServerIP |
| ScalableMininet.MininetCluster.constructor | scalablemininet/scalablemininet.py:43-68 | `servers` defaults to `['localhost']` and is normalised; an empty or absent `serverIP` is computed; user, precheck and placement take their defaults; there are no connections yet; the control directory is `$HOME/.ssh/mn` |
| ScalableMininet.NewCluster | scalablemininet/scalablemininet.py:62-63 | the cluster's fields are set as the constructor sets them, including the address map, and the pre-check runs on them exactly when requested (the default) |
| ScalableMininet.CheckedFacts | scalablemininet/scalablemininet.py:88-91 | the servers contacted are exactly the non-empty, non-`localhost` ones, each once per occurrence, in list order |
| ScalableMininet.PrecheckMissing | scalablemininet/scalablemininet.py:88-89 | the pre-check stops with KeyError iff some listed server has no address entry, `localhost` included |
| ScalableMininet.FailingEmpty | scalablemininet/scalablemininet.py:97-103 | no server is reported iff every exit code is zero |
| ScalableMininet.FailingComplete | scalablemininet/scalablemininet.py:97-102 | every server whose check failed is reported, not only the first |
| ScalableMininet.FailingSound | scalablemininet/scalablemininet.py:97-102 | only servers whose check failed are reported |
| PyValues.OrAllZero | scalablemininet/scalablemininet.py:102-103 | the `|` of all exit codes is zero iff every code is zero |
| ScalableMininet.PrecheckOutcome | scalablemininet/scalablemininet.py:86-108 | with all addresses known, each remote server gets one command (the cluster's ssh with `-n` to `user@ip`, running `sudo true`), in order; the check passes iff all codes are zero; otherwise it fails and reports exactly the failing servers |
| ScalableMininet.MininetCluster.Precheck | scalablemininet/scalablemininet.py:83-109 | the loop's commands, exit codes and outcome are those of PrecheckSpec; it changes nothing |
| ScalableMininet.PlaceConfigServer | scalablemininet/scalablemininet.py:133-137 | a None server becomes `localhost`, an existing one is kept, and only a node without one takes the placer's answer; the address lookup fails iff a truthy server has no entry |
| ScalableMininet.PlaceConfigKeys | scalablemininet/scalablemininet.py:136-143 | only `server`, `serverIP` and `controlPath` are touched, and the last two only by setdefault. `serverIP` is added iff the server is truthy; `controlPath` is added iff the connection for `(None, server)` has a control file |
| ScalableMininet.PlaceFoldStops | scalablemininet/scalablemininet.py:130-137 | after the KeyError, no later node is handled |
| ScalableMininet.PlaceFoldKeys | scalablemininet/scalablemininet.py:130-131 | the placement pass keeps the set of configured nodes |
| ScalableMininet.PlaceFoldUntouched | scalablemininet/scalablemininet.py:130-143 | a node the pass has not reached keeps its configuration |
| ScalableMininet.PlaceFoldNode | scalablemininet/scalablemininet.py:125-143 | with distinct node names and no failure, node k ends with its own configuration updated by one loop body, which uses the answer to the placer's k-th question (asked even when the node already has a server) |
| ScalableMininet.PlaceAll | scalablemininet/scalablemininet.py:130-143 | the loop over the nodes in topology order gives the configurations and stopping point of PlaceFold |
| ScalableMininet.MininetCluster.PlaceNodes | scalablemininet/scalablemininet.py:117-143 | nothing happens without servers or a topology; otherwise the placer is built from the topology and each node's configuration is updated as PlaceFold says; the node, host, switch and link lists are unchanged |
| ScalableCli.ColorsFor | scalablemininet/scalablecli.py:17-26 | element i is `palette[i % 10]`; the length is `min(len, 10 * max(1, len / 10))` with integer division |
| ScalableCli.ColorsForAt | scalablemininet/scalablecli.py:19-25 | the palette is cycled in order |
| ScalableCli.ColorsForLength | scalablemininet/scalablecli.py:22-25 | every element gets a colour iff there are at most ten elements or a multiple of ten; otherwise the last `len % 10` get none; an empty sequence gets none |
| ScalableCli.NamesOnExactly | scalablemininet/scalablecli.py:88-89 | a server's list holds the name of every node placed on it, and only names of such nodes |
| ScalableCli.NamesOnSkipsUnplaced | scalablemininet/scalablecli.py:88-89 | a node without a server changes no server's list |
| ScalableCli.NamesOnGroups | scalablemininet/scalablecli.py:86 | the names are listed hosts first, then switches, then controllers |
| ScalableCli.PlacementLines | scalablemininet/scalablecli.py:87-90 | one line per server, in server order |
| ScalableCli.PlacementLinesWords | scalablemininet/scalablecli.py:88-90 | when names hold no whitespace, splitting server i's line gives `server:` followed by exactly the names of the nodes on that server |
| PyValues.WordsOfJoin | scalablemininet/scalablecli.py:90 | splitting words joined by single spaces gives the words back |

## Left out

- The placement algorithms (SwitchBinPlacer and the others) are not part of this model. The placer is an abstract function of what it was built from, the question's index, and the node.
- Process execution is replaced by the `Shell` record and its caller-chosen replies. This covers `Popen`, rcmd's polling read loop, `startShell`, `finishInit`, and MininetCluster's `popen`.
- How `findUser` probes the environment and the terminal is left out. Its answer is a parameter.
- The `getent` command's output is a parameter. `$HOME` is a parameter.
- `errRun(['mkdir', ...])` in the cluster constructor is left out, as is everything `Mininet.__init__` does afterwards.
- Signal handling and process groups (`_ignoreSignal`, the SIGINT masking in `popen`) concern the OS and are left out.
- The `.01` second delay of `retry` and all waiting are left out: time is not modelled, and the handshake read has no timeout.
- ScalableLink.RemoteLink.constructor: stops before `Link.__init__`, which builds the interface pair (and so, for endpoints on different servers, the tunnel) at construction; here `MakeIntfPair` is a separate call, and the interfaces and parameters `Link.__init__` creates are not modelled.
- `mininet.util.retry` and `makeIntfPair` are not part of this model. `retry` is modelled after its definition. `makeIntfPair` is one recorded call.
- The `mnexec -da <pid>` prefix that Mininet's `Node.popen` puts in front of the command before handing it to `_popen` (so on a remote node it ends up inside the ssh command line), and `node.cmd`'s joining of arguments beyond single spaces, are left out.
- Logging (`info`, `debug`, `error`) is left out. A failing pre-check's messages are its list of failing servers, and the `exit(1)` is the `Failed` outcome.
- The tunnel failure path's reads of the rest of stdout and stderr, and its `wait()`, are left out. Only the terminate call is recorded.
- `addController`, `do_plot`, `do_status`, examples/s-util.py, scalablemininet/scalableutil.py and scalablemininet/scalabledemo.py are not part of this model. They are live interface state, UI, and test or demo scripts.
- `Link.status` is a parameter of `Status`, and `repr` of the tunnel command is modelled only for strings without quotes or backslashes.
- The cluster's `user` argument is either absent or a string. An explicit `user=None` is not distinguished.
- `topo.nodeInfo(node)` is the stored configuration of a listed node. PlaceNodes requires that every listed node has one; Mininet's fallback for unlisted names is not modelled.
- A placer answer or server that is neither None nor a string is an opaque truthy value.
- ScalableNode.RemoteNode.Popen: its `-tt` statement is proved for remote nodes whose user is not itself named `-tt`. For such a user, `list.remove` would drop the user name instead.
- ScalableNode.RemoteNode.RPopen: the contract states the defaults only. With explicit options it is `_popen` with those options.
