/** Remote nodes (scalablemininet/scalablenode.py): how a node placed on a
    server derives its ssh destination and ssh command line, how commands
    are wrapped in `sudo` and `ssh` before they are started, and the per-server
    cache of Open vSwitch versions. */
module ScalableNode {
  import opened PyValues
  import opened Patterns

  /** `RemoteMixin.sshbase`. */
  const SshBase: seq<string> := ["ssh", "-q", "-o", "BatchMode=yes", "-o", "ForwardAgent=yes", "-tt"]

  /** The shared-connection path used when `controlPath=True`. */
  const DefaultControlPath: string := "/tmp/mn-%r@%h:%p"

  /** The `controlPath` argument: False or None, True, or a path string. */
  datatype ControlPath = Off | On | Path(path: string)

  /** `s if s else 'localhost'`: the name the node (and the cluster) uses for a server. */
  function ServerName(s: Option<string>): (r: string)
    ensures r != ""
    ensures Truthy(s) ==> r == s.value
    ensures !Truthy(s) ==> r == "localhost"
  {
    if Truthy(s) then s.value else "localhost"
  }

  /** `True` becomes the default path; any other value is kept. */
  function NormalizeControlPath(c: ControlPath): (r: ControlPath)
    ensures !r.On?
    ensures c.On? ==> r == Path(DefaultControlPath)
    ensures !c.On? ==> r == c
  {
    if c.On? then Path(DefaultControlPath) else c
  }

  /** `if self.controlPath:` on a normalized value. */
  predicate UsesControlPath(c: ControlPath) {
    c.Path? && c.path != ""
  }

  /** `'%s@%s' % (user, serverIP)`. */
  function Dest(user: string, serverIP: Option<string>): string {
    user + "@" + ShowOpt(serverIP)
  }

  /** The ssh command a remote node prefixes to every command: run ssh as the
      login user, with the shared-connection options when a control path is set. */
  function SshCommand(user: string, dest: string, cp: ControlPath): seq<string>
    requires !cp.On?
  {
    ["sudo", "-E", "-u", user] + SshBase
    + (if UsesControlPath(cp) then ["-o", "ControlPath=" + cp.path, "-o", "ControlMaster=auto"] else [])
    + [dest]
  }

  /** The ssh command runs ssh as the given user, ends with the destination,
      carries the options `-o ControlPath=<path> -o ControlMaster=auto` exactly
      when a control path is in use, and holds `-tt` once, at index 10 (unless the user is itself named `-tt`). */
  lemma SshCommandShape(user: string, dest: string, cp: ControlPath)
    requires !cp.On?
    ensures var c := SshCommand(user, dest, cp);
      && c[..4] == ["sudo", "-E", "-u", user] && c[4..11] == SshBase && c[|c| - 1] == dest
      && |c| == (if UsesControlPath(cp) then 16 else 12)
      && ("ControlMaster=auto" in c <==> UsesControlPath(cp) || dest == "ControlMaster=auto" || user == "ControlMaster=auto")
      && (UsesControlPath(cp) ==> c[11..15] == ["-o", "ControlPath=" + cp.path, "-o", "ControlMaster=auto"])
      && c[10] == "-tt"
      && (user != "-tt" ==> "-tt" !in c[..10])
      && (dest != "-tt" ==> "-tt" !in c[11..])
  {
    var c := SshCommand(user, dest, cp);
    if UsesControlPath(cp) {
      assert c[11..] == ["-o", "ControlPath=" + cp.path, "-o", "ControlMaster=auto", dest];
      assert "ControlPath=" + cp.path != "-tt" by {
        assert ("ControlPath=" + cp.path)[0] == 'C';
      }
    } else {
      assert c[11..] == [dest];
    }
  }

  // ---------------------------------------------------------------------
  // Looking up the server's address

  /** The address found for a server, and the lookups (getent commands) issued to find it. */
  datatype Lookup = Lookup(ip: Option<string>, queries: seq<string>)

  /** `RemoteMixin.findServerIP`: the first IPv4 literal inside the server name;
      otherwise the first one in the output of `getent ahostsv4 <server>`, which
      the caller supplies as a function of the command. */
  function FindServerIP(server: string, getent: string -> string): (r: Lookup)
  {
    match FirstDottedQuad(server)
    case Some(ip) => Lookup(Some(ip), [])
    case None =>
      var query := "getent ahostsv4 " + server;
      Lookup(FirstDottedQuad(getent(query)), [query])
  }

  /** A server name holding a dotted quad is its own address: no lookup is
      made, and the address is the leftmost dotted quad of the name, with its
      last number read whole (the regular expression is greedy). Otherwise
      exactly one getent lookup is made and its output decides. */
  lemma FindServerIPLiteral(server: string, getent: string -> string)
    ensures var r := FindServerIP(server, getent);
      && (r.queries == [] <==> HasDottedQuad(server))
      && (r.queries == [] ==>
            exists i, e :: 0 <= i < e <= |server| && r.ip == Some(server[i..e]) && IsDottedQuad(server[i..e])
              && (e == |server| || !IsDigit(server[e]))
              && forall i', j' :: 0 <= i' <= j' <= |server| && IsDottedQuad(server[i'..j']) ==> i <= i')
      && (r.queries != [] ==>
            r.queries == ["getent ahostsv4 " + server]
            && r.ip == FirstDottedQuad(getent("getent ahostsv4 " + server)))
  {
    FirstDottedQuadSpec(server);
  }

  // ---------------------------------------------------------------------
  // Building the command line of a process

  /** A command as `_popen` receives it: a string (split into words) or a list. */
  datatype Command = Line(text: string) | Argv(words: seq<string>)

  function CommandWords(cmd: Command): seq<string> {
    match cmd
    case Line(text) => Words(text)
    case Argv(words) => words
  }

  /** Index of the first occurrence of x. */
  function IndexOf(xs: seq<string>, x: string): (i: nat)
    requires x in xs
    ensures i < |xs| && xs[i] == x && x !in xs[..i]
  {
    if xs[0] == x then 0 else assert x in xs[1..]; 1 + IndexOf(xs[1..], x)
  }

  /** `l.remove(x)` on a copy of l: the first x is dropped. */
  function RemoveFirst(xs: seq<string>, x: string): (r: seq<string>)
    requires x in xs
    ensures |r| == |xs| - 1
    ensures multiset(r) == multiset(xs) - multiset{x}
    ensures exists i :: 0 <= i < |xs| && xs[i] == x && x !in xs[..i] && r == xs[..i] + xs[i + 1..]
  {
    var i := IndexOf(xs, x);
    assert xs == xs[..i] + [x] + xs[i + 1..];
    xs[..i] + xs[i + 1..]
  }

  /** `RemoteMixin._popen`'s command line: on a remote node, `sudo -E` in front
      of the command when sudo is set, then the ssh command in front of that
      (without its `-tt` when tt is false); on a local node, the command run
      as the login user when sudo is false and a user is known. */
  function PopenArgv(isRemote: bool, user: string, sshcmd: seq<string>, cmd: Command, sudo: bool, tt: bool): seq<string>
    requires isRemote && !tt ==> "-tt" in sshcmd
  {
    var words := CommandWords(cmd);
    if isRemote then
      (if tt then sshcmd else RemoveFirst(sshcmd, "-tt")) + (if sudo then ["sudo", "-E"] else []) + words
    else if user != "" && !sudo then ["sudo", "-E", "-u", user] + words
    else words
  }

  /** Every command line ends with the command's own words. On a remote node
      the ssh command (less its `-tt` when tt is false) comes first, then
      `sudo -E` when sudo is asked for; on a local node the `sudo -E -u user`
      prefix stands there exactly when a user is known and sudo is not asked for. */
  lemma PopenKeepsCommand(isRemote: bool, user: string, sshcmd: seq<string>, cmd: Command, sudo: bool, tt: bool)
    requires isRemote && !tt ==> "-tt" in sshcmd
    ensures var argv := PopenArgv(isRemote, user, sshcmd, cmd, sudo, tt);
      var n := |CommandWords(cmd)|;
      && |argv| >= n && argv[|argv| - n..] == CommandWords(cmd)
      && (isRemote ==> |argv| == |sshcmd| - (if tt then 0 else 1) + (if sudo then 2 else 0) + n)
      && (isRemote && sudo ==> argv[|argv| - n - 2..|argv| - n] == ["sudo", "-E"])
      && (isRemote ==> argv[..|argv| - n - (if sudo then 2 else 0)] ==
                       (if tt then sshcmd else RemoveFirst(sshcmd, "-tt")))
      && (!isRemote ==> argv == (if user != "" && !sudo then ["sudo", "-E", "-u", user] else []) + CommandWords(cmd))
  {
    if isRemote {
      var ssh := if tt then sshcmd else RemoveFirst(sshcmd, "-tt");
      var pre: seq<string> := if sudo then ["sudo", "-E"] else [];
      assert PopenArgv(isRemote, user, sshcmd, cmd, sudo, tt) == ssh + pre + CommandWords(cmd);
      ThreeParts(ssh, pre, CommandWords(cmd));
    }
  }

  /** Cutting a sequence made of three parts back into those parts. */
  lemma ThreeParts(a: seq<string>, b: seq<string>, c: seq<string>)
    ensures var x := a + b + c;
      && x[|x| - |c|..] == c && x[|x| - |c| - |b|..|x| - |c|] == b && x[..|x| - |c| - |b|] == a
  {
  }

  /** For a remote node's own ssh command, the command line started with tt
      false is the one started with tt true less its `-tt` at index 10, and
      the ssh part then holds no `-tt` at all. */
  lemma PopenWithoutTty(user: string, dest: string, cp: ControlPath, cmd: Command, sudo: bool)
    requires !cp.On? && user != "-tt" && dest != "-tt"
    ensures "-tt" in SshCommand(user, dest, cp)
    ensures var ssh := SshCommand(user, dest, cp);
      var withTty := PopenArgv(true, user, ssh, cmd, sudo, true);
      var noTty := PopenArgv(true, user, ssh, cmd, sudo, false);
      && |noTty| >= |ssh| - 1
      && withTty == noTty[..10] + ["-tt"] + noTty[10..]
      && "-tt" !in noTty[..|ssh| - 1]
  {
    SshCommandShape(user, dest, cp);
    PopenDropsTty(SshCommand(user, dest, cp), user, cmd, sudo);
  }

  /** PopenWithoutTty for any ssh command whose only `-tt` is at index 10. */
  lemma PopenDropsTty(ssh: seq<string>, user: string, cmd: Command, sudo: bool)
    requires |ssh| > 10 && ssh[10] == "-tt" && "-tt" !in ssh[..10] && "-tt" !in ssh[11..]
    ensures "-tt" in ssh
    ensures var withTty := PopenArgv(true, user, ssh, cmd, sudo, true);
      var noTty := PopenArgv(true, user, ssh, cmd, sudo, false);
      && |noTty| >= |ssh| - 1
      && withTty == noTty[..10] + ["-tt"] + noTty[10..]
      && "-tt" !in noTty[..|ssh| - 1]
  {
    RemoveFirstAt(ssh, "-tt", 10);
    var rest := (if sudo then ["sudo", "-E"] else []) + CommandWords(cmd);
    PopenArgvRemote(ssh, user, cmd, sudo);
    TtyGap(ssh, rest);
  }

  /** A remote command line: the ssh part, then `sudo -E` when asked for,
      then the command's words. */
  lemma PopenArgvRemote(ssh: seq<string>, user: string, cmd: Command, sudo: bool)
    requires "-tt" in ssh
    ensures var rest := (if sudo then ["sudo", "-E"] else []) + CommandWords(cmd);
      && PopenArgv(true, user, ssh, cmd, sudo, true) == ssh + rest
      && PopenArgv(true, user, ssh, cmd, sudo, false) == RemoveFirst(ssh, "-tt") + rest
  {
  }

  /** Dropping the only `-tt` of `ssh`, at index 10, in front of `rest`. */
  lemma TtyGap(ssh: seq<string>, rest: seq<string>)
    requires |ssh| > 10 && ssh[10] == "-tt" && "-tt" !in ssh[..10] && "-tt" !in ssh[11..]
    ensures var noTty := ssh[..10] + ssh[11..] + rest;
      && |noTty| >= |ssh| - 1
      && ssh + rest == noTty[..10] + ["-tt"] + noTty[10..]
      && "-tt" !in noTty[..|ssh| - 1]
  {
    SplitAround(ssh, 10, rest);
    NotInEither(ssh[..10], ssh[11..], "-tt");
  }

  lemma NotInEither(a: seq<string>, b: seq<string>, x: string)
    requires x !in a && x !in b
    ensures x !in a + b
  {
  }

  /** Removing the first x from a sequence whose first x is at index i. */
  lemma RemoveFirstAt(xs: seq<string>, x: string, i: nat)
    requires i < |xs| && xs[i] == x && x !in xs[..i]
    ensures x in xs && RemoveFirst(xs, x) == xs[..i] + xs[i + 1..]
  {
    assert IndexOf(xs, x) == i;
  }

  /** The sequence arithmetic behind PopenWithoutTty: dropping the element at i
      from xs, then appending rest, and putting it back. */
  lemma SplitAround(xs: seq<string>, i: nat, rest: seq<string>)
    requires i < |xs|
    ensures var dropped := xs[..i] + xs[i + 1..] + rest;
      && xs + rest == dropped[..i] + [xs[i]] + dropped[i..]
      && dropped[..|xs| - 1] == xs[..i] + xs[i + 1..]
  {
    var dropped := xs[..i] + xs[i + 1..] + rest;
    assert dropped[..i] == xs[..i];
    assert dropped[i..] == xs[i + 1..] + rest;
    assert xs == xs[..i] + [xs[i]] + xs[i + 1..];
  }

  // ---------------------------------------------------------------------
  // The node

  /** A node (host or switch) that may live on another server. Its fields are
      derived once, at construction, and never reassigned. */
  class RemoteNode {
    const name: string
    const server: string
    const serverIP: Option<string>
    /** The getent lookups the constructor issued to find serverIP. */
    const lookups: seq<string>
    const user: string
    const controlPath: ControlPath
    const dest: Option<string>
    const sshcmd: seq<string>
    const isRemote: bool
    const inNamespace: bool
    /** The pid of the node's shell, as reported by `echo $$` when its shell started. */
    const pid: nat

    /** What `RemoteMixin.__init__` establishes between the fields. */
    ghost predicate Valid() {
      && server != ""
      && !controlPath.On?
      && isRemote == (user != "" && server != "localhost")
      && (isRemote ==> dest == Some(Dest(user, serverIP)) && sshcmd == SshCommand(user, dest.value, controlPath))
      && (!isRemote ==> dest == None && sshcmd == [])
    }

    /** `RemoteMixin.__init__`. loggedInUser stands for what `findUser()` reports
        and getent for the output of the lookup command. */
    constructor (name: string, serverArg: Option<string>, userArg: Option<string>, serverIPArg: Option<string>,
                 controlPathArg: ControlPath, inNamespace: bool, pid: nat,
                 loggedInUser: string, getent: string -> string)
      ensures Valid()
      ensures this.name == name && this.inNamespace == inNamespace && this.pid == pid
      ensures server == ServerName(serverArg)
      ensures Truthy(serverIPArg) ==> serverIP == serverIPArg && lookups == []
      ensures !Truthy(serverIPArg) ==> serverIP == FindServerIP(server, getent).ip
                                       && lookups == FindServerIP(server, getent).queries
      ensures user == (if Truthy(userArg) then userArg.value else loggedInUser)
      ensures controlPath == NormalizeControlPath(controlPathArg)
      ensures isRemote <==> user != "" && server != "localhost"
    {
      this.name := name;
      this.inNamespace := inNamespace;
      this.pid := pid;
      var srv := ServerName(serverArg);
      server := srv;
      var ip;
      if Truthy(serverIPArg) {
        ip, lookups := serverIPArg, [];
      } else {
        var found := FindServerIP(srv, getent);
        ip, lookups := found.ip, found.queries;
      }
      serverIP := ip;
      var u := if Truthy(userArg) then userArg.value else loggedInUser;
      user := u;
      var cp := NormalizeControlPath(controlPathArg);
      controlPath := cp;
      if u != "" && srv != "localhost" {
        var d := Dest(u, ip);
        dest := Some(d);
        sshcmd := SshCommand(u, d, cp);
        isRemote := true;
      } else {
        dest := None;
        sshcmd := [];
        isRemote := false;
      }
    }

    /** `_popen(cmd, sudo, tt)`: the command line of the process started for cmd. */
    function PopenFor(cmd: Command, sudo: bool, tt: bool): (argv: seq<string>)
      requires Valid()
      ensures argv == PopenArgv(isRemote, user, sshcmd, cmd, sudo, tt)
    {
      if isRemote then
        SshCommandShape(user, dest.value, controlPath);
        PopenArgv(isRemote, user, sshcmd, cmd, sudo, tt)
      else
        PopenArgv(isRemote, user, sshcmd, cmd, sudo, tt)
    }

    /** `rpopen(cmd, **opts)`: a process in the server's root namespace; sudo
        and tt default to true and the caller's options override them. */
    function RPopen(cmd: Command, sudo: Option<bool>, tt: Option<bool>): (argv: seq<string>)
      requires Valid()
      ensures sudo.None? && tt.None? ==> argv == PopenFor(cmd, true, true)
    {
      PopenFor(cmd, if sudo.Some? then sudo.value else true, if tt.Some? then tt.value else true)
    }

    /** `popen(...)`: like `_popen` but always without a terminal (`tt=False`);
        on a local node tt plays no part, so the line is `_popen`'s. */
    function Popen(cmd: Command, sudo: Option<bool>): (argv: seq<string>)
      requires Valid()
      ensures isRemote && user != "-tt" ==>
        && |argv| >= |sshcmd| - 1
        && PopenFor(cmd, if sudo.Some? then sudo.value else true, true) == argv[..10] + ["-tt"] + argv[10..]
        && "-tt" !in argv[..|sshcmd| - 1]
      ensures !isRemote ==> argv == PopenFor(cmd, if sudo.Some? then sudo.value else true, true)
    {
      var s := if sudo.Some? then sudo.value else true;
      if isRemote && user != "-tt" then
        assert Dest(user, serverIP)[|user|] == '@';
        PopenWithoutTty(user, dest.value, controlPath, cmd, s);
        PopenFor(cmd, s, false)
      else
        PopenFor(cmd, if sudo.Some? then sudo.value else true, false)
    }
  }

  // ---------------------------------------------------------------------
  // Open vSwitch versions

  /** `RemoteOVSSwitch.OVSVersions`: the version of Open vSwitch found on each
      server, shared by all switches; queries lists, in order, the servers on
      which a switch ran `ovs-vsctl --version`. */
  class OVSVersionCache {
    var versions: map<string, Version>
    var queries: seq<string>

    constructor ()
      ensures versions == map[] && queries == []
    {
      versions := map[];
      queries := [];
    }

    /** `isOldOVS` for a switch on server; versionOutput is what `ovs-vsctl
        --version` prints there if it is asked. The answer is None where
        Python raises IndexError: the output held no version, and nothing is cached. */
    method IsOldOVS(server: string, versionOutput: string) returns (isOld: Option<bool>)
      modifies this
      ensures server in old(versions) ==>
        versions == old(versions) && queries == old(queries) && isOld == Some(VersionBelow(versions[server], Version(1, 10)))
      ensures server !in old(versions) ==> queries == old(queries) + [server]
      ensures server !in old(versions) && FirstVersion(versionOutput).None? ==>
        versions == old(versions) && isOld == None
      ensures server !in old(versions) && FirstVersion(versionOutput).Some? ==>
        versions == old(versions)[server := FirstVersion(versionOutput).value]
        && isOld == Some(VersionBelow(FirstVersion(versionOutput).value, Version(1, 10)))
    {
      if server !in versions {
        queries := queries + [server];
        var found := FirstVersion(versionOutput);
        if found.None? {
          return None;
        }
        versions := versions[server := found.value];
      }
      isOld := Some(VersionBelow(versions[server], Version(1, 10)));
    }
  }

  /** A switch whose `ovs-vsctl --version` prints `<prefix><major>.<minor><suffix>`
      (the prefix without digits, the suffix not continuing the number) is old
      exactly when its version is numerically below 1.10; so 1.9 is old and 1.10 is not. */
  lemma OldOVSOfOutput(prefix: string, v: Version, suffix: string)
    requires forall m :: 0 <= m < |prefix| ==> !IsDigit(prefix[m])
    requires suffix == [] || !IsDigit(suffix[0])
    ensures FirstVersion(prefix + ShowVersion(v) + suffix) == Some(v)
    ensures VersionBelow(v, Version(1, 10)) <==> v.major == 0 || (v.major == 1 && v.minor < 10)
  {
    FirstVersionOfOutput(prefix, v, suffix);
  }
}
