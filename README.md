# git-smash, modelled in Dafny

git-smash makes fixup commits interactively. It lists the commits that
touched the staged files and streams them into a fuzzy picker (skim or
fzf). It then makes a `--fixup` commit for the commit the user picks and,
optionally, runs an autosquash rebase. This project models four parts of
that program and proves properties about them:

- the run configuration (`Config::load`): flag, then stored `smash.*`
  value, then default, for every setting;
- the git helpers: the `git config --get` builder and how it maps exit
  status to "unset", the range to search, the rebase target and
  environment, and how captured output is shaped (trimming, lines, the
  version token);
- the run itself (`run`): the staged-file and range checks, the choice of
  picker, the history query's argument vector, the streaming loop with its
  early stops, and what happens after the pick;
- `IdentityHasher`: an eight-byte buffer with a write cursor, updated in
  place.

Every subprocess is an input: `Process.Output` holds its exit code, its
standard output and its standard error. The stored configuration is a
`Lookup` from a `GitConfigBuilder` to the outcome of
`git config --get`. A whole run is driven by a `Smash.World` record. It
gives the outcome of running git, or the shell, with any argument vector,
and the run looks each of those outcomes up by the arguments it passes;
the stored configuration is `git config --get` with each lookup's
arguments (`Smash.ConfigLookup`). Four inputs are not looked up by
arguments: the lines the history query prints, how many lines the reading
side accepts before a write fails, what the user picked, and the outcomes
of the fixup commit and the rebase. `Smash.Trace` records what the run did:
- the picker it started;
- the history query's arguments;
- how streaming ended and the lines emitted;
- whether the query was killed;
- what was printed, committed and rebased.

Rust's string operations are written out in module `Text`:
- `trim_end`, `trim_start` and `trim` use Unicode White_Space;
- `str::lines`;
- `split_whitespace().next()` and `splitn(2, ' ').next()`;
- `u32` and `bool` parsing, with Rust's error messages.

Errors are `anyhow` chains, with the outermost context first.

Modules: `Wrappers` (Option, Result), `Text`, `Process`, `GitQueries` (the
builder, `git_version`, `git_check_version`), `Config`, `Git` (the other
git helpers), `Hash`, `Smash` (main.rs).

## Model

| member | source | states |
|---|---|---|
| GitQueries.NewBuilder | src/git.rs:16-22 | a new lookup has the key and neither a default nor a type |
| GitQueries.GitConfigBuilder.WithDefault | src/git.rs:24-27 | sets the default only; key and type are kept |
| GitQueries.GitConfigBuilder.WithType | src/git.rs:29-32 | sets the type only; key and default are kept |
| GitQueries.BuilderOrderIrrelevant | src/git.rs:24-32 | setting the type then the default gives the same lookup as the other order |
| GitQueries.ConfigGetArgs | src/git.rs:35-44 | arguments are "config --get", then "--default d" only with a default, then "--type t" only with a type, then the key last; the length counts exactly these |
| GitQueries.GetArgs | src/git.rs:35-44 | pushing the parts one by one builds exactly `ConfigGetArgs`, the vector every stored-configuration lookup of a run hands to git |
| GitQueries.Get | src/git.rs:51-63 | exit status 1 is exactly "unset"; success is exactly a value, the output with trailing whitespace removed; any other failure is an error carrying the trimmed error output |
| GitQueries.GetAsBool | src/git.rs:66-76 | unset passes through, lookup errors propagate, a value is parsed as "true"/"false" or fails with "Failed to parse key '…' as bool" over Rust's parse error |
| GitQueries.GetAsInt | src/git.rs:78-88 | unset passes through, lookup errors propagate, a value is parsed as u32 or fails with "Failed to parse key '…' as u32" over the kind of parse error |
| GitQueries.StoredIntReadBack | src/git.rs:78-88 | any u32 git prints in decimal, with any trailing whitespace, reads back as itself |
| GitQueries.VersionCapture | src/git.rs:254-262 | the leftmost match of `[^ ]+ [^ ]+ (?P<version>[^ ]+)` captures a non-empty token without spaces |
| GitQueries.VersionIsThirdToken | src/git.rs:254-262 | in "x y v…" the captured version is the third space-separated token v |
| GitQueries.GitVersion | src/git.rs:244-267 | failure carries git's error output; no match fails with "Failed to match git version from '…'"; a captured token is the result exactly when it parses as a version, otherwise the error is "failed to parse version from '…'" |
| GitQueries.GitVersionOfPrinted | src/git.rs:244-267 | "git version V", with or without a space and more after V, gives V when V parses as a version, and the parse error otherwise |
| GitQueries.CheckVersion | src/git.rs:269-282 | succeeds exactly when the requirement matches; otherwise "git version V does not match R required for F" |
| Text.ParseBool | src/git.rs:71-73 | only "true" and "false" parse, to true and false |
| Text.ParseU32OfNatToString | src/git.rs:83-85 | parsing the decimal text of any u32 gives it back |
| Text.ListedLinesRoundTrip | src/git.rs:181-187 | lines printed one per line, without line breaks or trailing whitespace, are split back into the same list |
| Text.FirstTokenOf | src/main.rs:70-74 | the first whitespace-delimited token of "w…rest" is w when w has no whitespace and rest starts with whitespace or is empty |
| Config.ParseDisplayMode | src/config.rs:16-22 | exactly "smash", "list" and "select" parse, each to the mode with that snake-case name |
| Config.ToCliOption | src/config.rs:37-43 | "--fixup=" + t for Fixup, "--fixup=amend:" + t for Amend, "--fixup=reword:" + t for Reword |
| Config.CliOptionRoundTrip | src/config.rs:37-43 | the option determines its mode and target (for a plain fixup, unless the target itself starts with "amend:" or "reword:") |
| Config.ResolveMode | src/config.rs:72-81 | --list gives List, else --select gives Select, else the stored smash.mode, which must name a mode or the load fails with "failed to parse smash.mode '…'"; unset gives Smash |
| Config.RangeFromStored | src/config.rs:89-93 | "local" is exactly Local, "all" is exactly All, any other text is a Range of that text verbatim |
| Config.ResolveRange | src/config.rs:82-96 | --local > --all > --range > stored smash.range > All |
| Config.StoredOr | src/config.rs:164-175 | a lookup error propagates, unset gives the default, a stored value is used without trailing whitespace |
| Config.ResolveFormat | src/config.rs:97-103 | --format, else the stored smash.format, else the default list format |
| Config.ResolveCount | src/config.rs:104-112 | max_count and recent: the explicit argument, else the stored u32, else 0; parse errors propagate |
| Config.ResolveSwitch | src/config.rs:113-154 | auto_rebase, blame, files: positive flag gives true, else negative flag gives false, else the stored boolean, else true |
| Config.ResolveInteractive | src/config.rs:124-132 | the flag gives true; otherwise the stored boolean, default false; true only through the flag or a stored "true" |
| Config.ResolveFixupMode | src/config.rs:177-185 | --amend gives Amend, else --reword gives Reword, else Fixup; Amend and Reword need git ">=2.33" and fail with the version-check error otherwise |
| Config.GpgSignOption | src/config.rs:186-198 | empty key id gives "--gpg-sign", a key id k gives "--gpg-sign=k", no --gpg-sign with --no-gpg-sign gives "--no-gpg-sign", otherwise nothing |
| Config.PairedOption | src/config.rs:199-212 | verify and ext_diff: the positive flag's option wins over the negative flag's; nothing exactly when neither is set |
| Config.Load | src/config.rs:68-216 | a failed version read is an error "failed to get git version"; every field of a loaded configuration is its resolver's value and commit is copied (which resolver's error a failing load returns is `LoadFirstError`) |
| Config.LoadFirstError | src/config.rs:69-185 | after the version is read, a failing load fails with the error of the first setting, in the order the configuration lists them, that does not resolve; with none failing the load succeeds |
| Config.LoadOfResolved | src/config.rs:68-216 | the load succeeds whenever the version was read and every setting resolves |
| Config.FlagsOverrideStore | src/config.rs:72-163 | when a flag decides mode, range, format, max count, auto-rebase, interactive, blame, files or recent, the stored configuration (even a failing lookup) does not affect it |
| Config.StoredModeUsed | src/config.rs:76-78 | with no mode flag, a mode stored under smash.mode is the mode used |
| Config.StoredRangeVerbatim | src/config.rs:88-93 | with no range flag, a stored range other than "local"/"all" is searched verbatim |
| Config.StoredSwitchUsed | src/config.rs:113-154 | with neither flag of a switch, the boolean git prints is the value used |
| Config.StoredCountUsed | src/config.rs:104-112 | with no explicit count, the count git prints is the value used |
| Config.UnsetSettingsDefault | src/config.rs:72-185 | with no flag and no key stored (the lookups without a default exit 1, those with one print it and succeed), each setting's resolver gives its hard default |
| Config.UnsetLabelsDefault | src/config.rs:164-175 | with no key stored, git prints each label's default back and the three source labels take their default formats |
| Config.UnsetStoreGivesDefaults | src/config.rs:68-216 | with no flag and no key stored, as git answers such lookups, the whole loaded configuration is the default one |
| Git.CapturedText | src/git.rs:155-169 | success is exactly a value, the output without trailing whitespace; failure carries the error output without trailing whitespace |
| Git.RevParseArgs | src/git.rs:155-156 | the arguments are "rev-parse" and the revision |
| Git.RevParse | src/git.rs:155-169 | success is exactly a value, the output without trailing whitespace; failure carries the error output without trailing whitespace |
| Git.RevRoot | src/git.rs:120-133 | success is exactly the listed root without trailing whitespace; failure carries the error output without trailing whitespace |
| Git.IsValidGitRevArgs | src/git.rs:194-195 | the arguments are "rev-parse --verify" and the revision |
| Git.RevParseOfPrinted | src/git.rs:162-168 | a hash printed with its line ending resolves to the bare hash |
| Git.RevRange | src/git.rs:135-153 | All gives "HEAD"; Range(r) gives r; Local: missing upstream gives "HEAD", a failing HEAD is "failed to rev parse HEAD", a different upstream gives "@{upstream}..HEAD", and nothing exactly when upstream equals HEAD |
| Git.LocalUpToDate | src/git.rs:140-146 | upstream and HEAD printing the same hash give nothing to search, whatever trailing whitespace either output carries |
| Git.RebaseOnto | src/git.rs:93-96 | "--root" exactly when the root hash starts with the target, otherwise target + "^" |
| Git.RebaseOntoRoot | src/git.rs:93-96 | the root itself is rebased with "--root"; a target differing from the root in its first character is rebased onto its parent |
| Git.RebaseInvocation | src/git.rs:98-110 | arguments "rebase --interactive --autosquash --autostash <onto>"; non-interactive sets GIT_EDITOR and GIT_SEQUENCE_EDITOR to "true", interactive sets neither |
| Git.GitRebase | src/git.rs:91-118 | a failing root lookup is "failed to get git rev root"; otherwise success exactly when the rebase exits successfully, else its error output |
| Git.RevListArgs | src/git.rs:171-173 | "rev-list -n N --no-abbrev-commit rev", where the count reads back as N |
| Git.RevList | src/git.rs:171-188 | success is exactly a list, the lines of the output without trailing whitespace; failure carries the error output |
| Git.RevListOfPrinted | src/git.rs:181-187 | hashes printed one per line come back in the same order |
| Git.StagedFiles | src/git.rs:221-242 | success is exactly a list, the lines of the output trimmed at both ends; failure carries the error output |
| Git.StagedFilesOfPrinted | src/git.rs:237-241 | staged paths printed one per line come back in order (first not starting, last not ending with whitespace) |
| Git.CommitFixupArgs | src/git.rs:204-209 | "commit --verbose <fixup option>", with "--no-edit" appended exactly for a plain fixup |
| Git.CommitFixup | src/git.rs:210-218 | success exactly when the commit exits successfully; failure carries its error output |
| Hash.IdentityHasher.constructor | src/hash.rs:4-8 | cursor 0 and all eight buffer bytes zero |
| Hash.IdentityHasher.Write | src/hash.rs:15-19 | copies the first min(len, 8 - off) bytes to buf[off..], advances off by exactly that count, keeps off <= 8, leaves every other byte unchanged; with a full buffer nothing changes |
| Hash.IdentityHasher.Finish | src/hash.rs:11-13 | reads the state without changing it; the result is below 2^64 and its i-th byte is buf[i] |
| Hash.ShortInputKept | src/hash.rs:15-19 | while at most eight bytes have been written, the buffer is their concatenation followed by zeros |
| Hash.ByteOfLittleEndian | src/hash.rs:11-13 | decoding eight bytes into a number and taking its i-th byte gives the i-th byte back |
| Smash.ResolveCommandArgs | src/main.rs:173-175 | the shell is run with "-c" and "command -v <program>" |
| Smash.ResolveCommand | src/main.rs:172-183 | a program resolves exactly when `sh -c "command -v <program>"` succeeds, to its trimmed output |
| Smash.MenuChoice | src/main.rs:185-197 | sk if it resolves, else fzf, both with "--ansi --preview …"; the "Can't find any supported fuzzy matcher…" error exactly when neither resolves |
| Smash.ResolveMenuCommand | src/main.rs:185-197 | the first-match loop over sk, fzf settles on `MenuChoice` |
| Smash.SelectTarget | src/main.rs:163-170 | the result is a prefix of the picker's output without a space, followed by a space or the end |
| Smash.SelectTargetIgnoresRest | src/main.rs:163-170 | "hash rest" gives hash whatever rest is (so "deadbeef extra text" gives "deadbeef") |
| Smash.FileRevsArgs | src/main.rs:128-147 | the fixed prefix with "--invert-grep --extended-regexp --grep ^(fixup\|squash)! .*$ --format=%H %s", the range, "-N" only when N > 0, "--", then the staged files in order |
| Smash.SpawnFileRevs | src/main.rs:128-152 | builds exactly `FileRevsArgs` of the staged files and leaves the staged-file vector empty |
| Smash.Stream | src/main.rs:69-94 | the lines written are the rendered first tokens of a prefix of the input, in order, at most as many as the reader accepts; it drains exactly when every line is usable and the reader accepts them all; a failed write leaves exactly `accepts` written; an unread line or one without a token is the error |
| Smash.FormatTargetArgs | src/main.rs:199-201 | "--no-pager log -1", then "--format=" + the format, then the commit |
| Smash.FormatTarget | src/main.rs:199-207 | the rendered commit is what git prints for exactly those arguments, whatever its exit status |
| Smash.RebaseOutcome | src/main.rs:120-122 | the run ends as `git_rebase` does |
| Smash.ExitStatus | src/main.rs:209-218 | status 0 on success, 1 after an error, the given status on exit |
| Smash.Prepare | src/main.rs:37-58 | errors of the top-level and staged-file reads propagate; no staged file exits 1 before the picker; the picker is started outside list mode only; an empty local range exits 1; otherwise the staged files and the range are handed on |
| Smash.Act | src/main.rs:98-123 | empty pick: done, nothing else; unknown target: error before any commit; select: print the target, no commit; smash: commit a fixup for the target, then rebase onto it only with auto-rebase |
| Smash.Deliver | src/main.rs:60-123 | starts the query on the staged files and range; streaming ends as the lines and the reader decide (`StreamMatchesLines`); a bad line is the run's error; list mode stops at a failed write without killing the query; the picker modes kill it and act on the pick |
| Smash.Proceed | src/main.rs:37-126 | everything the run does once configured, as the predicates StopsEarly, FailsEarly (a failing top-level, staged-files, picker or range step is the run's error, with nothing or only the picker started), StartsPicker, SearchesStaged, StreamsInOrder, StreamMatchesLines, EndsStream and ActsOnPick state |
| Smash.Run | src/main.rs:34-126 | a configuration error ends the run with nothing started; otherwise the run proceeds with the loaded configuration as `Proceed` states |

## Left out

- Spawning, pipes, waiting, `kill`, `env::set_current_dir`, `exit` and
  writing to standard error are not modelled. Each subprocess outcome is
  an input. A write failure is "the reader accepts N lines". `kill` and
  `exit` are recorded in `Smash.Trace` and `Smash.Outcome`.
- I/O errors from starting or waiting for a subprocess (the `?` after
  `output()`, `spawn()` and `wait()`) are not modelled. The failed
  `as_mut()` on the query's standard output cannot happen, because
  standard output is always piped.
- `src/args.rs` (structopt parsing, completions) is not part of this model.
  `Config.Args` is a plain record of the flags `Config::load` reads.
- `semver` and the regex engine are not modelled. `GitVersion` takes a
  predicate saying whether a token parses as a version. `CheckVersion` and
  `Load` take `satisfies(requirement, version)`. The version is kept as its
  text, which is what the version-check message prints.
- The regex is implemented only for this one pattern, as a leftmost
  search. Errors for a pattern or requirement that fails to compile, and a
  missing capture group, cannot happen with the constants used.
- The generic `hash()` helper and std `Hash` encoding are not modelled
  (src/hash.rs:22-26). `Finish` uses little-endian order in place of the
  platform's native order.
- `String::from_utf8_lossy` is not modelled. Captured output is already
  text.
- Blame, diff-hunk parsing, the recent-history source and deduplication
  across sources are not implemented in the source. The settings that
  would drive them (blame, files, recent, the source labels) are resolved
  and never used.
- `Smash.Act`: main.rs:118 calls `git_commit_fixup(&target)` with one
  argument, while git.rs:204 takes the target and a fixup mode. The model
  keeps both as written:
  - `Smash.Act` records a commit for the target, with an outcome that is
    an input;
  - `Git.CommitFixupArgs` builds the two-argument form.

  As a result, the configured fixup mode and the gpg, verify and ext-diff
  options are computed but never reach `git commit`.
- `Smash.Prepare`: main.rs:37 applies `.context("failed to get git
  toplevel path")` to the path, after `?` has already propagated any
  error. The model propagates `git_toplevel`'s error without that message.
- `Smash.Deliver`: in list mode a failed write returns at once, as
  main.rs:80-82 does. The history query is then not killed.
- `Git.GitRebase`: the rebase is spawned with standard error inherited
  (git.rs:110-111), so in practice its captured error output, and with it
  the error message, is empty. The model takes the `stderr` of its
  `Output` as given.
- `GitQueries.GitVersion`: the failed-parse error carries only its context,
  "failed to parse version from '…'"; the semver parser's own message
  beneath it is not modelled.
- The fixup commit and the rebase run on the terminal, so their outcomes
  are inputs of their own in `Smash.World`. Every other subprocess outcome,
  the stored configuration included, is looked up by the arguments the
  run passes (`World.git`, `World.sh`). The query's printed lines, the
  reader's capacity and the pick are inputs of `Smash.World` as well.
- `git_rev_list` (`Git.RevList`, `Git.RevListArgs`) is not called by
  `run`. It is modelled as a helper of the git module.
