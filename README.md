# deploy — a Dafny model of a NixOS flake deployer

`deploy` pushes a NixOS flake configuration to remote machines over SSH and
activates it there. It works in four stages:

- It reads the command line: the `nixos-rebuild` action (`switch` by
  default), the configuration directory (`.` by default), `--quiet`,
  `--all`, and the host names.
- It picks the target hosts from the flake's host inventory.
- It packs the visible regular files of the configuration directory into
  an archive.
- It deploys to each host in turn. It connects, checks the host key
  against `~/.ssh/known_hosts` under the host's two aliases, and
  authenticates through the SSH agent. It then runs four remote commands:
  `mktemp -d`, `tar -C <dir> -xf -` fed with the archive,
  `sudo nixos-rebuild <action> --flake <dir> -L`, and `rm -r <dir>`.
  Finally it disconnects.

A host whose key is unknown is skipped. Every other error ends the whole run.

The model is split into these modules:

| module | file | what it holds |
|---|---|---|
| `Base` | `base.dfy` | `Option`/`Result`, Rust's `str::trim`, decimal rendering of numbers |
| `Cli` | `cli.dfy` | command-line defaults, the required-unless rule, the action words |
| `Hosts` | `hosts.dfy` | inventory records with their defaults, endpoint rendering, the two aliases |
| `KnownHosts` | `known_hosts.dfy` | `check_hosts`: the first decisive alias wins |
| `Runner` | `runner.dfy` | `SessionExt::run`, as a `Channel` class whose calls are recorded |
| `Archive` | `archive.dfy` | the directory walk and the selection of archive entries |
| `Deploy` | `deploy.dfy` | host selection, the per-host protocol, the host loop, `main` |

Things outside the program are parameters of the model:

- the remote hosts, as a `HostScript` per host name: which set-up step
  fails, what the known-hosts store answers for each alias, how agent
  authentication ends, how each command channel replies, and whether the
  disconnect goes through;
- the configuration directory, as a `Node` tree;
- the tar encoding, as `tarball`;
- the `{:?}` rendering of a path, as `quote`;
- the local user name, as `localUser`.

The run is recorded as a sequence of `Step`s. Each command step carries the
exact calls made on its channel. That makes visible which command received
the archive and whether an output was captured or copied to stdout.

Two `return_output` arguments in `src/main.rs` look wrong; see
"## Findings". The model is parametrised by a `Wiring`:

- `AsWritten` is the code as it is;
- `Intended` is the evident intent.

Lemmas about both are proved.

The error of `rm -r` is checked at `src/main.rs:156`, before the rebuild's
error at `src/main.rs:158`. A failed removal therefore masks a failed
rebuild; see `Deploy.CleanupAlwaysRuns`.

## Model

| member | source | states |
|---|---|---|
| Base.Trim | src/utils.rs:77 | the result is the input with its leading and trailing Unicode whitespace removed: a contiguous slice, whitespace-only outside it, starting and ending with a non-whitespace character |
| Base.TrimIdempotent | src/utils.rs:77 | trimming an already trimmed output changes nothing |
| Base.ParseNatToString | src/main.rs:34-35 | the decimal rendering of a port reads back as the same number |
| Base.NatToStringInjective | src/main.rs:34-35 | distinct ports render as distinct digit strings |
| Base.IntToString | src/utils.rs:67-74 | the rendered exit status starts with a minus sign exactly when it is negative |
| Cli.ActionName | src/cli.rs:32-44 | each action renders as one of the words `switch`, `boot`, `test` |
| Cli.ParseAction | src/cli.rs:7-14 | a parsed action word renders back to the word that was typed |
| Cli.ParseActionName | src/cli.rs:25-44 | rendering an action and parsing the word back gives the action |
| Cli.ActionNameInjective | src/cli.rs:37-41 | distinct actions give distinct words in the rebuild command |
| Cli.Parse | src/cli.rs:6-23 | parsing succeeds exactly when the action word is valid and either `--all` or at least one host is given; omitted options take `switch` and `.`; an invalid action word with hosts present is reported as that word, and missing hosts with a valid action as missing hosts |
| Cli.DefaultsWhenOmitted | src/cli.rs:7-16 | with only `--all`, the action is `Switch` and the directory is `.` |
| Hosts.Resolve | src/main.rs:23-47 | the port defaults to 22 and the user to the local user; given values are kept |
| Hosts.Endpoint | src/main.rs:33-37 | the socket address renders as `addr:port`, and a version 6 address as `[addr]:port` |
| Hosts.Aliases | src/main.rs:124 | the host is checked under exactly two aliases, the address first and then the endpoint |
| Hosts.AliasesDistinct | src/main.rs:124 | the two aliases are different strings |
| Hosts.EndpointDeterminesPort | src/main.rs:106 | at one address, the endpoint alias determines the port |
| Hosts.DefaultEndpoint | src/main.rs:39-41 | a record without a port is reached and checked as `addr:22` |
| KnownHosts.CheckHosts | src/utils.rs:9-19 | the result is `NotFound` exactly when every alias answers `NotFound`; otherwise it is the answer of some alias |
| KnownHosts.FirstAnswerDecides | src/utils.rs:10-15 | the first alias whose answer is not `NotFound` decides the result, whatever follows |
| KnownHosts.LaterAliasesNotConsulted | src/utils.rs:10-15 | answers for aliases after the deciding one cannot change the result |
| KnownHosts.OrderDecides | src/utils.rs:9-19 | between a `Match` and a `Mismatch`, whichever alias comes first wins |
| Runner.Channel.Call | src/utils.rs:43-61 | each channel call is recorded, and it fails exactly at the position the reply names |
| Runner.Channel.ReadToString | src/utils.rs:55 | capturing records a read and yields the command's merged output |
| Runner.Channel.CopyToStdout | src/utils.rs:57 | pass-through records a copy of the output to stdout |
| Runner.Channel.Drain | src/utils.rs:52-58 | the output step is a read when the output is returned and a copy to stdout otherwise; the string stays empty unless it was read |
| Runner.Channel.GetExitStatus | src/utils.rs:63 | asking for the exit status records the call and yields the reply's status |
| Runner.ProtocolShape | src/utils.rs:43-63 | call by call, a run opens, merges stderr, executes, writes the input if there is any, sends EOF, reads or copies, waits, closes and asks for the status |
| Runner.CutAt | src/utils.rs:43-63 | a transport failure at one call ends the run right after that call, with that call as the error |
| Runner.Start | src/utils.rs:43-50 | the calls up to EOF are a prefix of the protocol; on failure the last of them is the one that failed, otherwise none did |
| Runner.Run | src/utils.rs:41-78 | the calls made on the channel are the protocol cut at the failing call; the result is the transport error, an exit-status error, or the trimmed output |
| Runner.WritesOnlyNonEmptyInput | src/utils.rs:47-49 | the input is written exactly when it is non-empty, and then in full |
| Runner.TraceOrder | src/utils.rs:46-63 | EOF comes before the output is read or copied; the exit status is asked for last, right after wait-close and close |
| Runner.PassthroughReturnsEmpty | src/utils.rs:52-58 | without capture, the output goes to stdout and a successful run returns the empty string |
| Runner.CaptureReturnsTrimmedOutput | src/utils.rs:52-58 | with capture, nothing is copied to stdout and a successful run returns the trimmed output |
| Runner.CopiedIffNotCaptured | src/utils.rs:54-58 | when the transport holds, the output is copied to stdout exactly when it is not captured |
| Runner.WritesOnlyInput | src/utils.rs:46-50 | the only data written on a channel is the command's input: nothing for empty input, and the whole input once the transport holds |
| Runner.ExitStatusDecides | src/utils.rs:63-77 | a run succeeds exactly when the transport holds and the status is 0; a non-zero status names the command and carries the output exactly when it was captured |
| Runner.ExitMessageShape | src/utils.rs:64-75 | the error text names the command and the status, followed by the output only when it was captured |
| Archive.StripPrefix | src/main.rs:87 | stripping succeeds exactly when the base is a prefix, and the base followed by the rest is the path |
| Archive.WalkNodeExact | src/main.rs:81-85 | the walk of an entry keeps exactly the regular files at or below it whose path has no hidden component |
| Archive.WalkAllExact | src/main.rs:81-85 | the same holds for a list of entries |
| Archive.SelectEntries | src/main.rs:79-88 | the entries are the walk's regular files in walk order, relative to the root; a path is an entry exactly when it is a regular file below the root with no hidden component |
| Archive.EntriesBelowRootAndVisible | src/main.rs:82-84 | the root is never an entry, and no entry passes through a hidden name |
| Archive.ExampleTree | src/main.rs:81-88 | `a.txt`, `.hidden/x.txt` and `sub/b.txt` give the entries `a.txt` and `sub/b.txt` |
| Deploy.FirstUnknown | src/main.rs:72-76 | no name is reported exactly when every requested name is in the inventory; a reported name was requested and is missing |
| Deploy.FirstUnknownAt | src/main.rs:72-76 | the name reported is the first missing one in request order |
| Deploy.CollectKeys | src/main.rs:70 | with `--all`, every inventory host is a target exactly once |
| Deploy.SelectTargets | src/main.rs:69-77 | `--all` selects every inventory host; otherwise the requested names are kept in order, unless one is missing, in which case the first missing name is the error |
| Deploy.RunCommand | src/main.rs:145-156 | each remote command runs on a new channel, and its step records exactly that channel's calls |
| Deploy.DeployHost | src/main.rs:106-164 | one host's steps and outcome are those of the per-host protocol `HostRun` |
| Deploy.UploadHost | src/main.rs:145-160 | the commands of an authenticated host follow `Upload` |
| Deploy.UnpackHost | src/main.rs:147-160 | unpacking and what follows it follow `Unpack` |
| Deploy.RebuildHost | src/main.rs:149-160 | the rebuild, removal and disconnect follow `Rebuild` |
| Deploy.DeployAll | src/main.rs:98-165 | the host loop produces the report `Batch` specifies |
| Deploy.Deploy | src/main.rs:69-167 | an unknown host ends the run before anything else is done; otherwise the archive entries are selected first, an unreadable known-hosts file ends the run, and then the host loop runs over the targets |
| Deploy.UnknownKeySkipsHost | src/main.rs:127-135 | a key unknown under both aliases skips the host right after the check: no authentication step and no remote command |
| Deploy.BadKeyStopsHost | src/main.rs:127-137 | a mismatch fails the host with the mismatch error, and a failed check with the check error, right after the check: no authentication step and no remote command |
| Deploy.CommandsAppend | src/main.rs:145-156 | the commands of concatenated steps are the concatenation of their commands |
| Deploy.RebuildCommands | src/main.rs:149-156 | once unpacked, exactly the rebuild and then the removal are issued |
| Deploy.UnpackCommands | src/main.rs:147-156 | a failed `tar` ends the host after it; otherwise the rebuild and the removal follow |
| Deploy.CommandOrder | src/main.rs:145-156 | an authenticated host issues `mktemp`, `tar`, rebuild and `rm`, in that order and all in the directory `mktemp` names; a failed `mktemp` or `tar` stops there with its error |
| Deploy.RebuildTakesNoInput | src/main.rs:149-156 | the rebuild and the removal are given no input |
| Deploy.ArchiveGoesToTarOnly | src/main.rs:145-156 | `tar` in the directory `mktemp` named is the second step, its channel receives only the archive, written whole when it is not empty and the transport holds, and no other command receives input |
| Deploy.CleanupAlwaysRuns | src/main.rs:149-160 | the removal always follows the rebuild; a removal error wins over a rebuild error; the disconnect happens only when both succeeded; the host is deployed exactly when both succeeded and the disconnect went through |
| Deploy.TmpdirLostAsWritten | src/main.rs:145-147 | as written, `tar` unpacks into the rendering of the empty path, whatever directory `mktemp` made |
| Deploy.TmpdirKeptWhenIntended | src/main.rs:145-156 | with capture, `tar`, the rebuild and `rm` work in the trimmed directory `mktemp` printed |
| Deploy.QuietShowsLogAsWritten | src/main.rs:149-153 | as written, the rebuild log is copied to stdout exactly when `--quiet` is set |
| Deploy.QuietHidesLogWhenIntended | src/cli.rs:17 | with the evident wiring, the rebuild log is copied to stdout exactly when `--quiet` is not set |
| Deploy.BatchStopsAtFirstFailure | src/main.rs:98-165 | the run ends at the first failing host with its error, and no later host is attempted |
| Deploy.BatchSucceedsIffNoHostFails | src/main.rs:98-167 | the run succeeds exactly when no host fails; skipped hosts do not stop it |
| Deploy.MismatchEndsRun | src/main.rs:128 | a key mismatch at any host ends the whole run with the mismatch error, and no later host is attempted |

## Left out

- `utils.rs` `get_identities` (lines 21-35) is not called by `main`, so it is not modelled. `build.rs` is build-time shell-completion generation and is not part of this model.
- The check for `flake.nix` and the `nix eval --json` call with its JSON decoding (`src/main.rs:52-67`) are not modelled. The decoded inventory is a parameter, given as a `map`. `Hosts.Resolve` models the serde defaults.
- The file system walk is modelled on an immutable `Node` tree. Read errors during the walk, non-UTF-8 names (the `unwrap` panics), and the tar encoding (`tarball`) are left out. The same goes for `append_path` opening the stripped relative path from the current working directory, which differs from the configuration directory unless the path is `.`.
- Reading `~/.ssh/known_hosts` is reduced to whether it succeeds. Parsing its lines and `KnownHosts::check` are abstracted as the `trust` answer per alias. A missing `HOME` panics, and that is not modelled.
- `ssh.host_key().unwrap()` (`src/main.rs:120`) panics when the session has no host key; the model assumes a key is present after a successful handshake.
- TCP, the SSH handshake, agent authentication and the disconnect are outcomes in `HostScript`. Their failure modes are collapsed into one `Failure` per stage.
- Console output (the "deploying" and "done!" lines and the not-found notice) is not modelled. The model records what goes to stdout only through the rebuild/command channels (`Copy` events).
- The `OnceCell` cache of the local user name is a parameter `localUser` of `Hosts.Resolve`.
- The textual form of a version 6 address is taken as given (`V6(text)`); its zero-run compression is not modelled.
- `Runner.Channel.ReadToString`: a `read_to_string` failure on non-UTF-8 output is folded into a transport failure at the read.
- `Cli.Parse`: clap's help and version flags, and its full error reporting, are not modelled. Only the action value and the required-unless rule are.
- Cli.Parse: when the action word is invalid and the host names are missing too, which of the two errors clap reports depends on its validator's order, which the source does not fix; the contract leaves that case open.
- `Deploy.Deploy`: with `--all`, the HashMap's key order is arbitrary. `Deploy.CollectKeys` picks keys in an unspecified order and promises only that every key appears exactly once.
- `Runner.ExitMessage` renders the error text. It is not attached to `RunError` values, which keep the command, status and output instead.

## Findings

| source | as written | input that shows it | evidently intended | confidence | as-written member | corrected member |
|---|---|---|---|---|---|---|
| src/main.rs:145 | `mktemp -d` is run with `return_output = false`, so `run` copies the directory name to stdout and returns `""`; `tmpdir` is the empty path, and `tar`, the rebuild and `rm -r` all receive the rendering of `""` | any authenticated host whose `mktemp -d` prints `/tmp/tmp.abc\n` and exits 0: the next command is `tar -C "" -xf -` | capture the output (`true`), so the directory `mktemp` made is used | high; not executed | Deploy.TmpdirLostAsWritten | Deploy.TmpdirKeptWhenIntended |
| src/main.rs:152 | the rebuild is given `return_output = !args.quiet`, so build logs stream to stdout exactly when `--quiet` ("suppress build logs", `src/cli.rs:17`) is set | `--quiet` with a successful rebuild: its whole log is copied to stdout; without `--quiet` it is captured and never shown | `return_output = args.quiet` | medium; not executed | Deploy.QuietShowsLogAsWritten | Deploy.QuietHidesLogWhenIntended |
