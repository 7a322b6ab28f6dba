/** The deployment driver: choose the target hosts, select the archive
    entries, then deploy to each host in turn. A host is connected to, its
    key checked against the known hosts under its two aliases, the user
    authenticated through the agent, and four commands run: make a temporary
    directory, unpack the archive into it, rebuild from it, remove it. An
    unknown key skips the host; every error ends the whole run. */
module Deploy {
  import opened Base
  import opened Cli
  import opened Hosts
  import opened KnownHosts
  import opened Runner
  import opened Archive

  /** The session set-up step that fails: the TCP connection, the session
      object, loading the known-hosts lines into it, or the handshake. */
  datatype SetupStage = TcpConnect | NewSession | LoadKnownHosts | Handshake

  /** What agent authentication as a user comes to: the agent call fails,
      or it returns and the session is not authenticated, or it is. */
  datatype AuthOutcome = AgentError | Rejected | Authenticated

  /** How one host behaves, keyed by nothing the program controls: which
      set-up step fails (if any), what the known-hosts store answers for
      the key the host presents under each alias, how authentication as a
      user ends, how the host answers its n-th command channel (counting
      from 0), and whether the disconnect message goes through. */
  datatype HostScript = HostScript(
    setupFails: Option<SetupStage>,
    trust: string -> Verdict,
    auth: string -> AuthOutcome,
    reply: nat -> Reply,
    disconnects: bool)

  /** Every error that ends a run. */
  datatype Failure =
    | UnknownHost(name: string)
    | KnownHostsUnreadable
    | SetupFailed(stage: SetupStage)
    | KnownHostsMismatch
    | KnownHostsCheckFailed
    | AgentFailed
    | AuthenticationFailed
    | CommandFailed(error: RunError)
    | DisconnectFailed

  /** What the run does, in order. A command step carries the calls made on
      its channel, so its input and whether its output was captured or
      copied to stdout are part of the record. */
  datatype Step =
    | Archived(entries: seq<Path>)
    | Connect(host: string, endpoint: string)
    | CheckTrust(host: string, aliases: seq<string>)
    | Authenticate(host: string, user: string)
    | Command(host: string, cmd: string, events: seq<Event>)
    | Disconnect(host: string)

  datatype HostOutcome = Deployed | Skipped | Failed(failure: Failure)

  /** The steps taken for one host and how it ended. */
  datatype Attempt = Attempt(steps: seq<Step>, outcome: HostOutcome)

  /** The steps of a whole run and its result. */
  datatype Report = Report(steps: seq<Step>, result: Result<(), Failure>)

  /** The `return_output` arguments of two of the four runs. As written,
      `mktemp -d` is run without capture and the rebuild captures its output
      exactly when `quiet` is off; `Intended` is the wiring the rest of the
      program evidently expects. */
  datatype Wiring = Wiring(tmpdirReturnsOutput: bool, rebuildReturnsOutputWhenQuiet: bool)

  const AsWritten: Wiring := Wiring(false, false)
  const Intended: Wiring := Wiring(true, true)

  function RebuildReturnsOutput(w: Wiring, quiet: bool): bool
  {
    quiet == w.rebuildReturnsOutputWhenQuiet
  }

  const Mktemp: string := "mktemp -d"

  /** The remote commands; `dir` is the temporary directory as rendered by
      the path's debug formatting. */
  function TarCommand(dir: string): string
  {
    "tar -C " + dir + " -xf -"
  }

  function RebuildCommand(action: RebuildAction, dir: string): string
  {
    "sudo nixos-rebuild " + ActionName(action) + " --flake " + dir + " -L"
  }

  function RemoveCommand(dir: string): string
  {
    "rm -r " + dir
  }

  predicate Distinct(names: seq<string>)
  {
    forall i, j :: 0 <= i < j < |names| ==> names[i] != names[j]
  }

  /** The first requested name the inventory does not have. */
  function FirstUnknown(names: seq<string>, inventory: map<string, Host>): (r: Option<string>)
    ensures r.None? <==> forall i :: 0 <= i < |names| ==> names[i] in inventory
    ensures r.Some? ==> r.value in names && r.value !in inventory
  {
    if names == [] then None
    else if names[0] !in inventory then Some(names[0])
    else FirstUnknown(names[1..], inventory)
  }

  lemma {:induction false} FirstUnknownAt(names: seq<string>, inventory: map<string, Host>, i: nat)
    requires i < |names| && names[i] !in inventory
    requires forall j :: 0 <= j < i ==> names[j] in inventory
    ensures FirstUnknown(names, inventory) == Some(names[i])
  {
    if i > 0 {
      FirstUnknownAt(names[1..], inventory, i - 1);
    }
  }

  /** Collecting the inventory's keys: every host exactly once, in the map's
      own (unspecified) order. */
  method CollectKeys(inventory: map<string, Host>) returns (keys: seq<string>)
    ensures Distinct(keys)
    ensures forall n :: n in keys <==> n in inventory
  {
    keys := [];
    var rest := inventory.Keys;
    while rest != {}
      invariant forall n :: n in inventory <==> n in rest || n in keys
      invariant forall n :: n in keys ==> n !in rest
      invariant Distinct(keys)
      decreases rest
    {
      var n :| n in rest;
      keys := keys + [n];
      rest := rest - {n};
    }
  }

  /** Host selection: every inventory host with `all`, otherwise the
      requested names, the first one missing from the inventory being an
      error. */
  method SelectTargets(args: Args, inventory: map<string, Host>) returns (r: Result<seq<string>, Failure>)
    ensures args.all ==> r.Ok? && Distinct(r.value) && forall n :: n in r.value <==> n in inventory
    ensures !args.all ==> r == match FirstUnknown(args.hosts, inventory)
                               case None => Ok(args.hosts)
                               case Some(n) => Err(UnknownHost(n))
  {
    if args.all {
      var keys := CollectKeys(inventory);
      return Ok(keys);
    }
    for i := 0 to |args.hosts|
      invariant forall j :: 0 <= j < i ==> args.hosts[j] in inventory
    {
      if args.hosts[i] !in inventory {
        FirstUnknownAt(args.hosts, inventory, i);
        return Err(UnknownHost(args.hosts[i]));
      }
    }
    r := Ok(args.hosts);
  }

  /** One host, from connecting to disconnecting. */
  function HostRun(name: string, h: Host, args: Args, archive: seq<byte>, s: HostScript,
                   quote: string -> string, w: Wiring): Attempt
  {
    var connect := [Connect(name, Endpoint(h))];
    if s.setupFails.Some? then Attempt(connect, Failed(SetupFailed(s.setupFails.value)))
    else
      var checked := connect + [CheckTrust(name, Aliases(h))];
      match CheckHosts(s.trust, Aliases(h))
      case Mismatch => Attempt(checked, Failed(KnownHostsMismatch))
      case NotFound => Attempt(checked, Skipped)
      case CheckFailed => Attempt(checked, Failed(KnownHostsCheckFailed))
      case Match =>
        var authed := checked + [Authenticate(name, h.user)];
        match s.auth(h.user)
        case AgentError => Attempt(authed, Failed(AgentFailed))
        case Rejected => Attempt(authed, Failed(AuthenticationFailed))
        case Authenticated =>
          var u := Upload(name, args, archive, s, quote, w);
          Attempt(authed + u.steps, u.outcome)
  }

  /** The four commands of an authenticated host and the disconnect: first
      `mktemp -d`, whose result names the directory the others work in. */
  function Upload(name: string, args: Args, archive: seq<byte>, s: HostScript,
                  quote: string -> string, w: Wiring): Attempt
  {
    var made := RunResult(Mktemp, [], w.tmpdirReturnsOutput, s.reply(0));
    var mk := Command(name, Mktemp, RunTrace(Mktemp, [], w.tmpdirReturnsOutput, s.reply(0)));
    if made.Err? then Attempt([mk], Failed(CommandFailed(made.error)))
    else
      var rest := Unpack(name, args, archive, s, quote(made.value), w);
      Attempt([mk] + rest.steps, rest.outcome)
  }

  /** Unpacking the archive into the directory `dir`, and on success the
      rebuild. */
  function Unpack(name: string, args: Args, archive: seq<byte>, s: HostScript, dir: string, w: Wiring): Attempt
  {
    var extracted := RunResult(TarCommand(dir), archive, false, s.reply(1));
    var tar := Command(name, TarCommand(dir), RunTrace(TarCommand(dir), archive, false, s.reply(1)));
    if extracted.Err? then Attempt([tar], Failed(CommandFailed(extracted.error)))
    else
      var rest := Rebuild(name, args, s, dir, w);
      Attempt([tar] + rest.steps, rest.outcome)
  }

  /** The rebuild, then the removal of `dir` whether or not the rebuild
      failed; the removal's error is looked at first. */
  function Rebuild(name: string, args: Args, s: HostScript, dir: string, w: Wiring): Attempt
  {
    var ro := RebuildReturnsOutput(w, args.quiet);
    var rebuild := RebuildCommand(args.action, dir);
    var rebuilt := RunResult(rebuild, [], ro, s.reply(2));
    var removed := RunResult(RemoveCommand(dir), [], false, s.reply(3));
    var both := [Command(name, rebuild, RunTrace(rebuild, [], ro, s.reply(2))),
                 Command(name, RemoveCommand(dir), RunTrace(RemoveCommand(dir), [], false, s.reply(3)))];
    if removed.Err? then Attempt(both, Failed(CommandFailed(removed.error)))
    else if rebuilt.Err? then Attempt(both, Failed(CommandFailed(rebuilt.error)))
    else Attempt(both + [Disconnect(name)], if s.disconnects then Deployed else Failed(DisconnectFailed))
  }

  /** Runs one command on a new channel of the host's session. */
  method RunCommand(name: string, cmd: string, stdin: seq<byte>, returnOutput: bool, reply: Reply)
    returns (step: Step, r: Result<string, RunError>)
    ensures step == Command(name, cmd, RunTrace(cmd, stdin, returnOutput, reply))
    ensures r == RunResult(cmd, stdin, returnOutput, reply)
  {
    var ch := new Channel(reply);
    r := Run(ch, cmd, stdin, returnOutput);
    step := Command(name, cmd, ch.events);
  }

  /** The body of the host loop. */
  method DeployHost(name: string, h: Host, args: Args, archive: seq<byte>, s: HostScript,
                    quote: string -> string, w: Wiring) returns (a: Attempt)
    ensures a == HostRun(name, h, args, archive, s, quote, w)
  {
    var steps := [Connect(name, Endpoint(h))];
    if s.setupFails.Some? {
      return Attempt(steps, Failed(SetupFailed(s.setupFails.value)));
    }
    var aliases := Aliases(h);
    steps := steps + [CheckTrust(name, aliases)];
    match CheckHosts(s.trust, aliases) {
      case Match =>
      case Mismatch => return Attempt(steps, Failed(KnownHostsMismatch));
      case NotFound => return Attempt(steps, Skipped);
      case CheckFailed => return Attempt(steps, Failed(KnownHostsCheckFailed));
    }
    steps := steps + [Authenticate(name, h.user)];
    match s.auth(h.user) {
      case AgentError => return Attempt(steps, Failed(AgentFailed));
      case Rejected => return Attempt(steps, Failed(AuthenticationFailed));
      case Authenticated =>
    }
    var u := UploadHost(name, args, archive, s, quote, w);
    a := Attempt(steps + u.steps, u.outcome);
  }

  /** The four commands and the disconnect, once the host is authenticated. */
  method UploadHost(name: string, args: Args, archive: seq<byte>, s: HostScript,
                    quote: string -> string, w: Wiring) returns (a: Attempt)
    ensures a == Upload(name, args, archive, s, quote, w)
  {
    var mk, made := RunCommand(name, Mktemp, [], w.tmpdirReturnsOutput, s.reply(0));
    if made.Err? {
      return Attempt([mk], Failed(CommandFailed(made.error)));
    }
    var rest := UnpackHost(name, args, archive, s, quote(made.value), w);
    a := Attempt([mk] + rest.steps, rest.outcome);
  }

  method UnpackHost(name: string, args: Args, archive: seq<byte>, s: HostScript, dir: string, w: Wiring)
    returns (a: Attempt)
    ensures a == Unpack(name, args, archive, s, dir, w)
  {
    var tar, extracted := RunCommand(name, TarCommand(dir), archive, false, s.reply(1));
    if extracted.Err? {
      return Attempt([tar], Failed(CommandFailed(extracted.error)));
    }
    var rest := RebuildHost(name, args, s, dir, w);
    a := Attempt([tar] + rest.steps, rest.outcome);
  }

  method RebuildHost(name: string, args: Args, s: HostScript, dir: string, w: Wiring) returns (a: Attempt)
    ensures a == Rebuild(name, args, s, dir, w)
  {
    var rebuild, rebuilt := RunCommand(name, RebuildCommand(args.action, dir), [],
                                       RebuildReturnsOutput(w, args.quiet), s.reply(2));
    var rm, removed := RunCommand(name, RemoveCommand(dir), [], false, s.reply(3));
    var steps := [rebuild, rm];
    if removed.Err? {
      return Attempt(steps, Failed(CommandFailed(removed.error)));
    }
    if rebuilt.Err? {
      return Attempt(steps, Failed(CommandFailed(rebuilt.error)));
    }
    steps := steps + [Disconnect(name)];
    if !s.disconnects {
      return Attempt(steps, Failed(DisconnectFailed));
    }
    a := Attempt(steps, Deployed);
  }

  /** The host loop: hosts one after another, a skipped host moving on to
      the next, the first failure ending the run. */
  function Batch(targets: seq<string>, inventory: map<string, Host>, args: Args, archive: seq<byte>,
                 world: string -> HostScript, quote: string -> string, w: Wiring): Report
    requires forall i :: 0 <= i < |targets| ==> targets[i] in inventory
  {
    if targets == [] then Report([], Ok(()))
    else
      var a := HostRun(targets[0], inventory[targets[0]], args, archive, world(targets[0]), quote, w);
      if a.outcome.Failed? then Report(a.steps, Err(a.outcome.failure))
      else
        var rest := Batch(targets[1..], inventory, args, archive, world, quote, w);
        Report(a.steps + rest.steps, rest.result)
  }

  /** `main` from the decoded inventory on. `tree` is the configuration
      directory, `knownHostsReadable` whether the known-hosts file could be
      read, `world` how each host behaves, `tarball` the archive encoding and
      `quote` the debug formatting of a path. */
  method Deploy(args: Args, inventory: map<string, Host>, tree: Node, knownHostsReadable: bool,
                world: string -> HostScript, tarball: seq<Path> -> seq<byte>,
                quote: string -> string, w: Wiring)
    returns (targets: seq<string>, log: seq<Step>, result: Result<(), Failure>)
    ensures args.all ==> Distinct(targets) && forall n :: n in targets <==> n in inventory
    ensures !args.all ==> targets == args.hosts
    ensures !args.all && FirstUnknown(args.hosts, inventory).Some? ==>
      log == [] && result == Err(UnknownHost(FirstUnknown(args.hosts, inventory).value))
    ensures args.all || FirstUnknown(args.hosts, inventory).None? ==>
      && (forall i :: 0 <= i < |targets| ==> targets[i] in inventory)
      && var entries := FilePaths(Walk(tree));
         if !knownHostsReadable then
           log == [Archived(entries)] && result == Err(KnownHostsUnreadable)
         else
           var b := Batch(targets, inventory, args, tarball(entries), world, quote, w);
           log == [Archived(entries)] + b.steps && result == b.result
  {
    var selected := SelectTargets(args, inventory);
    if selected.Err? {
      return args.hosts, [], Err(selected.error);
    }
    targets := selected.value;
    var entries := SelectEntries(tree, args.path);
    log := [Archived(entries)];
    if !knownHostsReadable {
      return targets, log, Err(KnownHostsUnreadable);
    }
    var b := DeployAll(targets, inventory, args, tarball(entries), world, quote, w);
    log := log + b.steps;
    result := b.result;
  }

  /** The host loop, run. */
  method DeployAll(targets: seq<string>, inventory: map<string, Host>, args: Args, archive: seq<byte>,
                   world: string -> HostScript, quote: string -> string, w: Wiring) returns (b: Report)
    requires forall i :: 0 <= i < |targets| ==> targets[i] in inventory
    ensures b == Batch(targets, inventory, args, archive, world, quote, w)
  {
    var done: seq<Step> := [];
    var i := 0;
    while i < |targets|
      invariant i <= |targets|
      invariant var rest := Batch(targets[i..], inventory, args, archive, world, quote, w);
        Batch(targets, inventory, args, archive, world, quote, w) == Report(done + rest.steps, rest.result)
    {
      var name := targets[i];
      var a := DeployHost(name, inventory[name], args, archive, world(name), quote, w);
      assert targets[i..][1..] == targets[i + 1..];
      if a.outcome.Failed? {
        return Report(done + a.steps, Err(a.outcome.failure));
      }
      done := done + a.steps;
      i := i + 1;
    }
    b := Report(done, Ok(()));
  }

  /** The remote commands among some steps, in order. */
  function Commands(steps: seq<Step>): seq<string>
  {
    if steps == [] then [] else (if steps[0].Command? then [steps[0].cmd] else []) + Commands(steps[1..])
  }

  lemma {:induction false} CommandsAppend(a: seq<Step>, b: seq<Step>)
    ensures Commands(a + b) == Commands(a) + Commands(b)
  {
    if a == [] {
      assert a + b == b;
    } else {
      var head := if a[0].Command? then [a[0].cmd] else [];
      assert (a + b)[0] == a[0] && (a + b)[1..] == a[1..] + b;
      assert Commands(a + b) == head + Commands(a[1..] + b);
      CommandsAppend(a[1..], b);
      assert Commands(a) == head + Commands(a[1..]);
    }
  }

  /** A host whose key is not in the known hosts under either alias is
      skipped right after the check: no authentication, no command, and the
      run goes on. */
  lemma UnknownKeySkipsHost(name: string, h: Host, args: Args, archive: seq<byte>, s: HostScript,
                            quote: string -> string, w: Wiring)
    requires s.setupFails.None?
    requires forall i :: 0 <= i < 2 ==> s.trust(Aliases(h)[i]) == NotFound
    ensures var a := HostRun(name, h, args, archive, s, quote, w);
      && a == Attempt([Connect(name, Endpoint(h)), CheckTrust(name, Aliases(h))], Skipped)
      && Commands(a.steps) == []
      && forall i :: 0 <= i < |a.steps| ==> !a.steps[i].Authenticate?
  {
    var steps := [Connect(name, Endpoint(h)), CheckTrust(name, Aliases(h))];
    assert steps[1..][1..] == [];
    assert Commands(steps[1..]) == [];
  }

  /** A key that contradicts the known hosts, or a check that fails, ends
      the host right after the check, with the matching error: no
      authentication and no command. */
  lemma BadKeyStopsHost(name: string, h: Host, args: Args, archive: seq<byte>, s: HostScript,
                        quote: string -> string, w: Wiring)
    requires s.setupFails.None?
    requires CheckHosts(s.trust, Aliases(h)) == Mismatch || CheckHosts(s.trust, Aliases(h)) == CheckFailed
    ensures var a := HostRun(name, h, args, archive, s, quote, w);
      && a.steps == [Connect(name, Endpoint(h)), CheckTrust(name, Aliases(h))]
      && a.outcome == Failed(if CheckHosts(s.trust, Aliases(h)) == Mismatch then KnownHostsMismatch
                             else KnownHostsCheckFailed)
      && Commands(a.steps) == []
      && forall i :: 0 <= i < |a.steps| ==> !a.steps[i].Authenticate?
  {
    var steps := [Connect(name, Endpoint(h)), CheckTrust(name, Aliases(h))];
    assert steps[1..][1..] == [];
    assert Commands(steps[1..]) == [];
  }

  /** Two command steps, possibly followed by a disconnect, carry exactly
      their two commands. */
  lemma CommandsOfPair(a: Step, b: Step, tail: seq<Step>)
    requires a.Command? && b.Command? && (tail == [] || (|tail| == 1 && tail[0].Disconnect?))
    ensures Commands([a, b] + tail) == [a.cmd, b.cmd]
  {
    var steps := [a, b] + tail;
    assert steps[1..] == [b] + tail && steps[1..][1..] == tail;
    assert Commands(tail) == [] by {
      if tail != [] {
        assert tail[1..] == [];
      }
    }
    assert Commands(steps[1..]) == [b.cmd] + Commands(tail);
    assert Commands(steps) == [a.cmd] + Commands(steps[1..]);
  }

  /** Once the archive is unpacked, the rebuild and the removal are both
      issued, in that order, and no other command. */
  lemma RebuildCommands(name: string, args: Args, s: HostScript, dir: string, w: Wiring)
    ensures Commands(Rebuild(name, args, s, dir, w).steps) == [RebuildCommand(args.action, dir), RemoveCommand(dir)]
  {
    var r := Rebuild(name, args, s, dir, w);
    var tail := r.steps[2..];
    assert r.steps == [r.steps[0], r.steps[1]] + tail;
    CommandsOfPair(r.steps[0], r.steps[1], tail);
  }

  /** A failed `tar` ends the host after it; otherwise the rebuild and the
      removal follow it. */
  lemma {:induction false} UnpackCommands(name: string, args: Args, archive: seq<byte>, s: HostScript, dir: string, w: Wiring)
    ensures var t := Unpack(name, args, archive, s, dir, w);
      var extracted := RunResult(TarCommand(dir), archive, false, s.reply(1));
      && (extracted.Err? ==> Commands(t.steps) == [TarCommand(dir)] && t.outcome == Failed(CommandFailed(extracted.error)))
      && (extracted.Ok? ==> Commands(t.steps) == [TarCommand(dir), RebuildCommand(args.action, dir), RemoveCommand(dir)])
  {
    var t := Unpack(name, args, archive, s, dir, w);
    var tar := t.steps[0];
    assert Commands([tar]) == [TarCommand(dir)];
    if RunResult(TarCommand(dir), archive, false, s.reply(1)).Ok? {
      var r := Rebuild(name, args, s, dir, w);
      assert t.steps == [tar] + r.steps;
      CommandsAppend([tar], r.steps);
      RebuildCommands(name, args, s, dir, w);
    }
  }

  /** The commands of an authenticated host come in the order `mktemp`,
      `tar`, rebuild, `rm`, all working in the directory `mktemp`'s result
      names; a failed `mktemp` or `tar` ends the host there, and once `tar`
      succeeded both the rebuild and the removal are issued. */
  lemma {:induction false} CommandOrder(name: string, args: Args, archive: seq<byte>, s: HostScript,
                                        quote: string -> string, w: Wiring)
    ensures var u := Upload(name, args, archive, s, quote, w);
      var made := RunResult(Mktemp, [], w.tmpdirReturnsOutput, s.reply(0));
      if made.Err? then Commands(u.steps) == [Mktemp] && u.outcome == Failed(CommandFailed(made.error))
      else
        var dir := quote(made.value);
        var extracted := RunResult(TarCommand(dir), archive, false, s.reply(1));
        if extracted.Err? then
          Commands(u.steps) == [Mktemp, TarCommand(dir)] && u.outcome == Failed(CommandFailed(extracted.error))
        else
          Commands(u.steps) == [Mktemp, TarCommand(dir), RebuildCommand(args.action, dir), RemoveCommand(dir)]
  {
    var u := Upload(name, args, archive, s, quote, w);
    var made := RunResult(Mktemp, [], w.tmpdirReturnsOutput, s.reply(0));
    var mk := Command(name, Mktemp, RunTrace(Mktemp, [], w.tmpdirReturnsOutput, s.reply(0)));
    assert Commands([mk]) == [Mktemp];
    if made.Err? {
      assert u == Attempt([mk], Failed(CommandFailed(made.error)));
    } else {
      var dir := quote(made.value);
      var t := Unpack(name, args, archive, s, dir, w);
      assert u == Attempt([mk] + t.steps, t.outcome);
      CommandsAppend([mk], t.steps);
      UnpackCommands(name, args, archive, s, dir, w);
    }
  }

  /** The step is not a command that was given input. */
  predicate NoInput(st: Step)
  {
    st.Command? ==> forall e :: e in st.events ==> !e.Write?
  }

  /** The rebuild and the removal are given no input. */
  lemma RebuildTakesNoInput(name: string, args: Args, s: HostScript, dir: string, w: Wiring)
    ensures var r := Rebuild(name, args, s, dir, w);
      forall i :: 0 <= i < |r.steps| ==> NoInput(r.steps[i])
  {
    WritesOnlyInput(RebuildCommand(args.action, dir), [], RebuildReturnsOutput(w, args.quiet), s.reply(2));
    WritesOnlyInput(RemoveCommand(dir), [], false, s.reply(3));
  }

  /** The archive goes to `tar` and nowhere else: the second step is `tar`
      in the directory `mktemp` named, the only data written on its channel
      is the archive, written whole when it is not empty and the transport
      holds, and no other command is given any input. */
  lemma ArchiveGoesToTarOnly(name: string, args: Args, archive: seq<byte>, s: HostScript,
                             quote: string -> string, w: Wiring)
    ensures var u := Upload(name, args, archive, s, quote, w);
      forall i :: 0 <= i < |u.steps| && i != 1 ==> NoInput(u.steps[i])
    ensures var u := Upload(name, args, archive, s, quote, w);
      var made := RunResult(Mktemp, [], w.tmpdirReturnsOutput, s.reply(0));
      made.Ok? ==>
        var dir := quote(made.value);
        && |u.steps| >= 2
        && u.steps[1] == Command(name, TarCommand(dir), RunTrace(TarCommand(dir), archive, false, s.reply(1)))
        && (forall e :: e in u.steps[1].events && e.Write? ==> e == Write(archive))
        && (|archive| > 0 && s.reply(1).failAt.None? ==> Write(archive) in u.steps[1].events)
  {
    var u := Upload(name, args, archive, s, quote, w);
    var made := RunResult(Mktemp, [], w.tmpdirReturnsOutput, s.reply(0));
    WritesOnlyInput(Mktemp, [], w.tmpdirReturnsOutput, s.reply(0));
    assert NoInput(u.steps[0]);
    if made.Ok? {
      var dir := quote(made.value);
      var t := Unpack(name, args, archive, s, dir, w);
      assert u.steps == [u.steps[0]] + t.steps;
      WritesOnlyInput(TarCommand(dir), archive, false, s.reply(1));
      if RunResult(TarCommand(dir), archive, false, s.reply(1)).Ok? {
        var r := Rebuild(name, args, s, dir, w);
        assert t.steps == [t.steps[0]] + r.steps;
        RebuildTakesNoInput(name, args, s, dir, w);
        assert forall i :: 2 <= i < |u.steps| ==> u.steps[i] == r.steps[i - 2];
      }
    }
  }

  /** After the rebuild the directory is always removed. A failed removal is
      the error reported even when the rebuild failed too; otherwise a
      failed rebuild is. The session is disconnected only when both
      succeeded, and the host counts as deployed only if that went through
      as well. */
  lemma CleanupAlwaysRuns(name: string, args: Args, s: HostScript, dir: string, w: Wiring)
    ensures var r := Rebuild(name, args, s, dir, w);
      var rebuilt := RunResult(RebuildCommand(args.action, dir), [], RebuildReturnsOutput(w, args.quiet), s.reply(2));
      var removed := RunResult(RemoveCommand(dir), [], false, s.reply(3));
      && |r.steps| >= 2
      && r.steps[0].Command? && r.steps[0].cmd == RebuildCommand(args.action, dir)
      && r.steps[1].Command? && r.steps[1].cmd == RemoveCommand(dir)
      && (removed.Err? ==> r.outcome == Failed(CommandFailed(removed.error)))
      && (removed.Ok? && rebuilt.Err? ==> r.outcome == Failed(CommandFailed(rebuilt.error)))
      && (Disconnect(name) in r.steps <==> removed.Ok? && rebuilt.Ok?)
      && (r.outcome == Deployed <==> removed.Ok? && rebuilt.Ok? && s.disconnects)
  {
  }

  /** As written, `mktemp -d` is run without capture, so its result is the
      empty string whatever directory it made, and `tar` is told to unpack
      into the path rendered from "". */
  lemma TmpdirLostAsWritten(name: string, args: Args, archive: seq<byte>, s: HostScript, quote: string -> string)
    requires RunResult(Mktemp, [], false, s.reply(0)).Ok?
    ensures var u := Upload(name, args, archive, s, quote, AsWritten);
      |u.steps| >= 2 && u.steps[1].Command? && u.steps[1].cmd == TarCommand(quote(""))
  {
    PassthroughReturnsEmpty(Mktemp, [], s.reply(0));
  }

  /** With `mktemp -d`'s output captured, `tar`, the rebuild and `rm` all work
      in the directory it printed, trimmed of the trailing newline. */
  lemma TmpdirKeptWhenIntended(name: string, args: Args, archive: seq<byte>, s: HostScript, quote: string -> string)
    requires RunResult(Mktemp, [], true, s.reply(0)).Ok?
    ensures var u := Upload(name, args, archive, s, quote, Intended);
      var dir := quote(Trim(s.reply(0).output));
      Commands(u.steps)[1..] == [TarCommand(dir)] ||
      Commands(u.steps)[1..] == [TarCommand(dir), RebuildCommand(args.action, dir), RemoveCommand(dir)]
  {
    CaptureReturnsTrimmedOutput(Mktemp, [], s.reply(0));
    CommandOrder(name, args, archive, s, quote, Intended);
  }

  /** As written, the rebuild's log is copied to stdout exactly when `quiet`
      is set, and captured (shown only if the rebuild fails) when it is not. */
  lemma QuietShowsLogAsWritten(name: string, args: Args, s: HostScript, dir: string)
    requires s.reply(2).failAt.None?
    ensures var events := Rebuild(name, args, s, dir, AsWritten).steps[0].events;
      Copy(s.reply(2).output) in events <==> args.quiet
  {
    CopiedIffNotCaptured(RebuildCommand(args.action, dir), [], RebuildReturnsOutput(AsWritten, args.quiet), s.reply(2));
  }

  /** With the evident wiring, `quiet` captures the rebuild's log and
      otherwise it is copied to stdout as it arrives. */
  lemma QuietHidesLogWhenIntended(name: string, args: Args, s: HostScript, dir: string)
    requires s.reply(2).failAt.None?
    ensures var events := Rebuild(name, args, s, dir, Intended).steps[0].events;
      Copy(s.reply(2).output) in events <==> !args.quiet
  {
    CopiedIffNotCaptured(RebuildCommand(args.action, dir), [], RebuildReturnsOutput(Intended, args.quiet), s.reply(2));
  }

  /** The run stops at the first host that fails: the hosts after it are
      never attempted, whatever they are. */
  lemma {:induction false} BatchStopsAtFirstFailure(targets: seq<string>, inventory: map<string, Host>, args: Args,
                                                    archive: seq<byte>, world: string -> HostScript,
                                                    quote: string -> string, w: Wiring, k: nat)
    requires forall i :: 0 <= i < |targets| ==> targets[i] in inventory
    requires k < |targets|
    requires forall i :: 0 <= i < k ==>
      !HostRun(targets[i], inventory[targets[i]], args, archive, world(targets[i]), quote, w).outcome.Failed?
    requires HostRun(targets[k], inventory[targets[k]], args, archive, world(targets[k]), quote, w).outcome.Failed?
    ensures Batch(targets, inventory, args, archive, world, quote, w)
         == Batch(targets[..k + 1], inventory, args, archive, world, quote, w)
    ensures Batch(targets, inventory, args, archive, world, quote, w).result
         == Err(HostRun(targets[k], inventory[targets[k]], args, archive, world(targets[k]), quote, w).outcome.failure)
  {
    if k > 0 {
      assert targets[..k + 1][1..] == targets[1..][..k];
      BatchStopsAtFirstFailure(targets[1..], inventory, args, archive, world, quote, w, k - 1);
    }
  }

  /** A run succeeds exactly when no host fails; skipped hosts do not stop
      it. */
  lemma {:induction false} BatchSucceedsIffNoHostFails(targets: seq<string>, inventory: map<string, Host>, args: Args,
                                                       archive: seq<byte>, world: string -> HostScript,
                                                       quote: string -> string, w: Wiring)
    requires forall i :: 0 <= i < |targets| ==> targets[i] in inventory
    ensures Batch(targets, inventory, args, archive, world, quote, w).result.Ok? <==>
      forall i :: 0 <= i < |targets| ==>
        !HostRun(targets[i], inventory[targets[i]], args, archive, world(targets[i]), quote, w).outcome.Failed?
  {
    if targets != [] {
      BatchSucceedsIffNoHostFails(targets[1..], inventory, args, archive, world, quote, w);
      assert forall i :: 1 <= i < |targets| ==> targets[i] == targets[1..][i - 1];
    }
  }

  /** A key mismatch at any host ends the whole run with the mismatch error,
      and no later host is attempted. */
  lemma MismatchEndsRun(targets: seq<string>, inventory: map<string, Host>, args: Args,
                        archive: seq<byte>, world: string -> HostScript,
                        quote: string -> string, w: Wiring, k: nat)
    requires forall i :: 0 <= i < |targets| ==> targets[i] in inventory
    requires k < |targets|
    requires forall i :: 0 <= i < k ==>
      !HostRun(targets[i], inventory[targets[i]], args, archive, world(targets[i]), quote, w).outcome.Failed?
    requires world(targets[k]).setupFails.None?
    requires CheckHosts(world(targets[k]).trust, Aliases(inventory[targets[k]])) == Mismatch
    ensures Batch(targets, inventory, args, archive, world, quote, w).result == Err(KnownHostsMismatch)
    ensures Batch(targets, inventory, args, archive, world, quote, w)
         == Batch(targets[..k + 1], inventory, args, archive, world, quote, w)
  {
    BatchStopsAtFirstFailure(targets, inventory, args, archive, world, quote, w, k);
  }
}
