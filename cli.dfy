/** The command line of the deployment tool: the `nixos-rebuild` action, the
    configuration directory, the `quiet` and `all` flags and the host names,
    with their defaults and the rule that host names are required unless
    `all` is given. */
module Cli {
  import opened Base

  /** Which `nixos-rebuild` subcommand the remote hosts run. */
  datatype RebuildAction = Switch | Boot | Test

  /** The word the action is rendered as inside the rebuild command. */
  function ActionName(a: RebuildAction): (s: string)
    ensures s == "switch" || s == "boot" || s == "test"
  {
    match a
    case Switch => "switch"
    case Boot => "boot"
    case Test => "test"
  }

  /** The value parser the command-line library derives for the action
      enumeration: the lower-case variant names, matched exactly. */
  function ParseAction(s: string): (r: Option<RebuildAction>)
    ensures r.Some? ==> ActionName(r.value) == s
  {
    if s == "switch" then Some(Switch)
    else if s == "boot" then Some(Boot)
    else if s == "test" then Some(Test)
    else None
  }

  /** Rendering an action and parsing the word back gives the action. */
  lemma ParseActionName(a: RebuildAction)
    ensures ParseAction(ActionName(a)) == Some(a)
  {
  }

  /** Distinct actions render to distinct words. */
  lemma ActionNameInjective(a: RebuildAction, b: RebuildAction)
    requires ActionName(a) == ActionName(b)
    ensures a == b
  {
    ParseActionName(a);
    ParseActionName(b);
  }

  /** What the user typed: each option that may be omitted is `None` when it
      was, each flag is whether it was present. */
  datatype Invocation = Invocation(
    action: Option<string>,
    path: Option<string>,
    quiet: bool,
    all: bool,
    hosts: seq<string>)

  /** The parsed arguments the rest of the program reads. */
  datatype Args = Args(
    action: RebuildAction,
    path: string,
    quiet: bool,
    all: bool,
    hosts: seq<string>)

  datatype UsageError = InvalidAction(word: string) | MissingHosts

  const DefaultAction: string := "switch"
  const DefaultPath: string := "."

  /** Applies the declared defaults and the required-unless rule. When the
      action word is invalid and the host names are missing as well, which
      of the two errors is reported is left open. */
  function Parse(inv: Invocation): (r: Result<Args, UsageError>)
    ensures r.Ok? <==>
      (inv.action.None? || ParseAction(inv.action.value).Some?) && (inv.all || |inv.hosts| > 0)
    ensures r.Ok? ==>
      && ActionName(r.value.action) == (if inv.action.Some? then inv.action.value else DefaultAction)
      && r.value.path == (if inv.path.Some? then inv.path.value else DefaultPath)
      && r.value.quiet == inv.quiet
      && r.value.all == inv.all
      && r.value.hosts == inv.hosts
    ensures inv.action.Some? && ParseAction(inv.action.value).None? && (inv.all || |inv.hosts| > 0) ==>
      r == Err(InvalidAction(inv.action.value))
    ensures (inv.action.None? || ParseAction(inv.action.value).Some?) && !inv.all && |inv.hosts| == 0 ==>
      r == Err(MissingHosts)
  {
    var word := if inv.action.Some? then inv.action.value else DefaultAction;
    if !inv.all && |inv.hosts| == 0 then Err(MissingHosts)
    else
      match ParseAction(word)
      case None => Err(InvalidAction(word))
      case Some(action) =>
        Ok(Args(action, if inv.path.Some? then inv.path.value else DefaultPath, inv.quiet, inv.all, inv.hosts))
  }

  /** With nothing but `--all` given, the action is `Switch`, the directory is
      the current one and neither flag but `all` is set. */
  lemma DefaultsWhenOmitted(inv: Invocation)
    requires inv.action.None? && inv.path.None? && !inv.quiet && inv.all
    ensures Parse(inv).Ok?
    ensures Parse(inv).value.action == Switch && Parse(inv).value.path == "."
    ensures !Parse(inv).value.quiet
  {
    ParseActionName(Switch);
  }
}
