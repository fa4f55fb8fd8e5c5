/** One run of git-smash: load the configuration, read the staged files,
    start the picker, resolve the range, stream the history of the staged
    files to the picker (or to standard output in list mode), and act on the
    commit the user picks. Every subprocess outcome, and how many lines the
    reading side accepts before it goes away, is an input. */
module Smash {
  import opened Wrappers
  import opened Text
  import opened Process
  import opened Config
  import Git
  import GitQueries

  // ----- choosing the picker -------------------------------------------------------

  /** A picker program and the arguments it is started with. */
  datatype MenuCommand = MenuCommand(command: string, args: seq<string>)

  const FuzzyArgs: seq<string> := ["--ansi", "--preview", "git show --stat --patch --color {+1}"]

  /** The pickers tried, in order of preference. */
  const MenuCandidates: seq<string> := ["sk", "fzf"]

  const NoMenuMessage: string :=
    "Can't find any supported fuzzy matcher or menu command\nPlease install skim, fzf or configure one with smash.menu"

  /** The shell arguments `resolve_command` uses to look a program up: a
      `command -v` of it, run by `sh -c`. */
  function ResolveCommandArgs(command: string): (r: seq<string>)
    ensures |r| == 2 && r[0] == "-c" && r[1] == "command -v " + command
  {
    ["-c", "command -v " + command]
  }

  /** `resolve_command`: the path `command -v` prints, when it finds the
      program. `sh` gives the outcome of running the shell with some arguments. */
  function ResolveCommand(command: string, sh: seq<string> -> Output): (r: Option<string>)
    ensures r.Some? <==> sh(ResolveCommandArgs(command)).Success()
    ensures r.Some? ==> r.value == Trim(sh(ResolveCommandArgs(command)).stdout)
  {
    var out := sh(ResolveCommandArgs(command));
    if !out.Success() then None else Some(Trim(out.stdout))
  }

  /** The picker `resolve_menu_command` settles on: the first of sk and
      fzf that resolves, with the shared preview arguments; an error when
      neither does. */
  function MenuChoice(sh: seq<string> -> Output): (r: Result<MenuCommand, Error>)
    ensures ResolveCommand("sk", sh).Some? ==>
      r == Ok(MenuCommand(ResolveCommand("sk", sh).value, FuzzyArgs))
    ensures ResolveCommand("sk", sh).None? && ResolveCommand("fzf", sh).Some? ==>
      r == Ok(MenuCommand(ResolveCommand("fzf", sh).value, FuzzyArgs))
    ensures r.Err? <==> ResolveCommand("sk", sh).None? && ResolveCommand("fzf", sh).None?
    ensures r.Err? ==> r.error == [NoMenuMessage]
  {
    match ResolveCommand("sk", sh)
    case Some(sk) => Ok(MenuCommand(sk, FuzzyArgs))
    case None =>
      match ResolveCommand("fzf", sh)
      case Some(fzf) => Ok(MenuCommand(fzf, FuzzyArgs))
      case None => Err([NoMenuMessage])
  }

  /** `resolve_menu_command`: tries the candidates in order and stops at the
      first that resolves. */
  method ResolveMenuCommand(sh: seq<string> -> Output) returns (r: Result<MenuCommand, Error>)
    ensures r == MenuChoice(sh)
  {
    var i := 0;
    while i < |MenuCandidates|
      invariant 0 <= i <= |MenuCandidates|
      invariant forall j :: 0 <= j < i ==> ResolveCommand(MenuCandidates[j], sh).None?
    {
      var bin := ResolveCommand(MenuCandidates[i], sh);
      if bin.Some? {
        assert i == 0 || MenuCandidates[0] == "sk";
        return Ok(MenuCommand(bin.value, FuzzyArgs));
      }
      i := i + 1;
    }
    assert MenuCandidates[0] == "sk" && MenuCandidates[1] == "fzf";
    return Err([NoMenuMessage]);
  }

  // ----- the picked target ---------------------------------------------------------------

  /** `select_target`: the picker's output up to its first space, or all of
      it when there is no space. */
  function SelectTarget(picked: string): (r: string)
    ensures |r| <= |picked| && r == picked[..|r|]
    ensures ' ' !in r
    ensures |r| == |picked| || picked[|r|] == ' '
  {
    TextBefore(picked, ' ')
  }

  /** Whatever follows the first space does not affect the target. */
  lemma SelectTargetIgnoresRest(hash: string, rest: string)
    requires ' ' !in hash
    ensures SelectTarget(hash + " " + rest) == hash
  {
    var s := hash + " " + rest;
    assert s[|hash|] == ' ';
    assert s[..|hash|] == hash;
    assert IndexOf(s, ' ') == |hash|;
  }

  // ----- spawning the history query ---------------------------------------------------

  /** A growable vector of strings. */
  class Vec {
    var items: seq<string>

    constructor (items: seq<string>)
      ensures this.items == items
    {
      this.items := items;
    }

    method Push(x: string)
      modifies this
      ensures items == old(items) + [x]
    {
      items := items + [x];
    }

    /** `Vec::append`: moves every element of `other` to the end of this
        vector, leaving `other` empty. */
    method Append(other: Vec)
      requires other != this
      modifies this, other
      ensures items == old(items) + old(other.items)
      ensures other.items == []
    {
      items := items + other.items;
      other.items := [];
    }
  }

  /** The pattern of the subjects fixup and squash commits carry. */
  const FixupSubjectPattern: string := "^(fixup|squash)! .*$"

  /** The arguments of the history query over the staged files: commits in
      `range` whose subject does not match the fixup/squash pattern
      (extended regular expressions), printed as "hash subject", at most
      `maxCount` of them unless it is 0, restricted to `files`, which come
      after "--" in their original order. */
  function FileRevsArgs(range: string, maxCount: u32, files: seq<string>): (r: seq<string>)
    ensures |r| == 9 + (if maxCount > 0 then 1 else 0) + |files|
    ensures r[..7] == ["--no-pager", "log", "--invert-grep", "--extended-regexp", "--grep", FixupSubjectPattern, "--format=%H %s"]
    ensures r[7] == range
    ensures maxCount > 0 ==> r[8] == "-" + NatToString(maxCount)
    ensures r[|r| - |files| - 1] == "--"
    ensures r[|r| - |files|..] == files
  {
    ["--no-pager", "log", "--invert-grep", "--extended-regexp", "--grep", FixupSubjectPattern, "--format=%H %s", range]
      + (if maxCount > 0 then ["-" + NatToString(maxCount)] else [])
      + ["--"] + files
  }

  /** `spawn_file_revs`: builds the history query's arguments, moving the
      staged files into them, so that `staged` is empty afterwards. */
  method SpawnFileRevs(staged: Vec, range: string, maxCount: u32) returns (args: seq<string>)
    modifies staged
    ensures args == FileRevsArgs(range, maxCount, old(staged.items))
    ensures staged.items == []
  {
    var argv := new Vec(["--no-pager", "log", "--invert-grep", "--extended-regexp", "--grep",
                         FixupSubjectPattern, "--format=%H %s", range]);
    if maxCount > 0 {
      argv.Push("-" + NatToString(maxCount));
    }
    argv.Push("--");
    argv.Append(staged);
    args := argv.items;
  }

  // ----- streaming the candidates ---------------------------------------------------------

  /** The arguments `format_target` uses to render one commit: a log of
      that commit alone, in the given format. */
  function FormatTargetArgs(commit: string, format: string): (r: seq<string>)
    ensures |r| == 5 && r[..3] == ["--no-pager", "log", "-1"]
    ensures r[3] == "--format=" + format && r[4] == commit
  {
    ["--no-pager", "log", "-1", "--format=" + format, commit]
  }

  /** `format_target`: whatever git printed for the commit in that format;
      its exit status is not looked at. `git` gives the outcome of running
      git with some arguments. */
  function FormatTarget(commit: string, format: string, git: seq<string> -> Output): (r: string)
    ensures r == git(FormatTargetArgs(commit, format)).stdout
  {
    git(FormatTargetArgs(commit, format)).stdout
  }

  /** A line read from the history query, or the error reading it. */
  type LogLine = Result<string, Error>

  const NoHashMessage: string := "failed to split commit hash from input line"

  /** A line that was read and has a first token. */
  predicate Usable(line: LogLine) {
    line.Ok? && FirstToken(line.value).Some?
  }

  predicate AllUsable(lines: seq<LogLine>) {
    forall k :: 0 <= k < |lines| ==> Usable(lines[k])
  }

  /** The commit a line names: its first whitespace-delimited token. */
  function CommitOf(line: LogLine): string
    requires Usable(line)
  {
    FirstToken(line.value).value
  }

  /** The error a line that is not usable stops the run with. */
  function LineError(line: LogLine): Error {
    if line.Err? then line.error else [NoHashMessage]
  }

  /** Each line's commit, rendered, in the order of the lines. */
  function Rendered(lines: seq<LogLine>, render: string -> string): (r: seq<string>)
    requires AllUsable(lines)
    ensures |r| == |lines|
    ensures forall k :: 0 <= k < |lines| ==> r[k] == render(CommitOf(lines[k]))
  {
    seq(|lines|, k requires 0 <= k < |lines| => render(CommitOf(lines[k])))
  }

  /** How streaming ended: every line forwarded, the reading side went away
      (a write failed), or a line could not be used. */
  datatype StreamEnd = Drained | SinkClosed | Broken(error: Error)

  /** The loop over the history query's lines: each line is reduced to its
      first token, rendered, and written out. The reading side accepts
      `accepts` writes and fails every write after that; a failed write
      stops the loop, and so does a line that was not read or has no token,
      which is an error. `written` is what reached the reader. */
  method Stream(lines: seq<LogLine>, render: string -> string, accepts: nat)
    returns (end: StreamEnd, written: seq<string>)
    ensures |written| <= |lines| && |written| <= accepts
    ensures AllUsable(lines[..|written|]) && written == Rendered(lines[..|written|], render)
    ensures end.Drained? <==> AllUsable(lines) && |lines| <= accepts
    ensures end.Drained? ==> |written| == |lines|
    ensures end.SinkClosed? ==> |written| == accepts < |lines| && Usable(lines[accepts])
    ensures end.Broken? ==>
      |written| < |lines| && !Usable(lines[|written|]) && end.error == LineError(lines[|written|])
  {
    written := [];
    var i := 0;
    while i < |lines|
      invariant i <= |lines| && i <= accepts
      invariant AllUsable(lines[..i]) && written == Rendered(lines[..i], render)
    {
      var line := lines[i];
      if line.Err? {
        return Broken(line.error), written;
      }
      var commit := FirstToken(line.value);
      if commit.None? {
        return Broken([NoHashMessage]), written;
      }
      var text := render(commit.value);
      if i == accepts {
        assert Usable(lines[accepts]);
        return SinkClosed, written;
      }
      assert lines[..i + 1] == lines[..i] + [line];
      written := written + [text];
      i := i + 1;
    }
    assert lines[..i] == lines;
    end := Drained;
  }

  // ----- the run ----------------------------------------------------------------------------

  /** What the run learns from outside: the outcome of every subprocess it
      starts, and how many lines the reading side (standard output in list
      mode, the picker otherwise) accepts. */
  datatype World = World(
    git: seq<string> -> Output,      // git with these arguments, for each command whose output is read
    sh: seq<string> -> Output,       // sh with these arguments
    isSemver: string -> bool,        // the version token parses as a semantic version
    satisfies: (string, string) -> bool, // a version requirement matches a version
    logLines: seq<LogLine>,          // the lines of the history query
    accepts: nat,                    // writes the reading side accepts
    picked: string,                  // the picker's standard output
    commit: Result<(), Error>,       // the fixup commit, which runs on the terminal
    rebase: Output)                  // git rebase …, which runs on the terminal

  /** The stored configuration a run reads: `git config --get` with each
      lookup's arguments. */
  function ConfigLookup(w: World): Lookup {
    b => w.git(GitQueries.ConfigGetArgs(b))
  }

  /** `git_toplevel`. */
  function Toplevel(w: World): Result<string, Error> {
    Git.RevParse(w.git(Git.ToplevelArgs))
  }

  /** `git_staged_files`. */
  function Staged(w: World): Result<seq<string>, Error> {
    Git.StagedFiles(w.git(Git.StagedFilesArgs))
  }

  /** `git_rev_root`. */
  function Root(w: World): Result<string, Error> {
    Git.RevRoot(w.git(Git.RevRootArgs))
  }

  /** `is_valid_git_rev`: whether `git rev-parse --verify` exits successfully. */
  predicate RevValid(w: World, rev: string) {
    w.git(Git.IsValidGitRevArgs(rev)).Success()
  }

  /** How a run renders a commit for the reader: `format_target` with the
      configured format. */
  function Render(c: Config, w: World): string -> string {
    commit => FormatTarget(commit, c.format, w.git)
  }

  /** What the run did, in the order it does it. */
  datatype Trace = Trace(
    menu: Option<MenuCommand>,          // the picker started
    logArgs: Option<seq<string>>,       // the history query started with these arguments
    stream: Option<StreamEnd>,          // how streaming ended
    emitted: seq<string>,               // the lines the reading side received
    killed: bool,                       // the history query was killed
    printed: Option<string>,            // the target printed in select mode
    committed: Option<string>,          // the fixup commit made for this target
    rebase: Option<Git.Invocation>)     // the rebase started

  const Nothing := Trace(None, None, None, [], false, None, None, None)

  /** How the run ends: normally, by `exit` with a status and a message on
      standard error, or with an error. */
  datatype Outcome = Done | Exit(status: int, message: string) | Failed(error: Error)

  const NotStagedMessage: string := "Changes not staged for commit\nUse git add -p to stage changed files"
  const NoLocalCommitsMessage: string :=
    "No local commits found\nTry --all or set smash.range=all to list published commits"

  function UnknownTargetMessage(target: string): string {
    "Selected commit '" + target + "' not found\nPossibly --format or smash.format doesn't return a hash"
  }

  /** The configuration a run loads. */
  function Configure(args: Args, w: World): Result<Config, Error> {
    Load(args, GitQueries.GitVersion(w.git(GitQueries.VersionArgs), w.isSemver), w.satisfies, ConfigLookup(w))
  }

  /** The range a run searches. */
  function SearchRange(c: Config, w: World): Result<Option<string>, Error> {
    Git.RevRange(c.range, Git.RevParse(w.git(Git.RevParseArgs(Git.UPSTREAM))),
                 Git.RevParse(w.git(Git.RevParseArgs(Git.HEAD))))
  }

  /** The result the process exits with: 0 on success, the status given to
      `exit`, and 1 after printing an error. */
  function ExitStatus(outcome: Outcome): (status: int)
    ensures outcome.Done? ==> status == 0
    ensures outcome.Failed? ==> status == 1
    ensures outcome.Exit? ==> status == outcome.status
  {
    match outcome
    case Done => 0
    case Exit(s, _) => s
    case Failed(_) => 1
  }

  /** The steps of `run` between loading the configuration and starting the
      history query: the top-level directory, the staged files, the picker
      (outside list mode) and the range. `early` is how the run ends when one
      of them stops it. */
  method Prepare(c: Config, w: World)
    returns (early: Option<Outcome>, menu: Option<MenuCommand>, staged: seq<string>, range: string)
    ensures Toplevel(w).Err? ==> early == Some(Failed(Toplevel(w).error)) && menu.None?
    ensures Toplevel(w).Ok? && Staged(w).Err? ==>
      early == Some(Failed(Staged(w).error)) && menu.None?
    ensures Toplevel(w).Ok? && Staged(w) == Ok([]) ==>
      early == Some(Exit(1, NotStagedMessage)) && menu.None?
    ensures menu.Some? <==> StagedOk(w) && !c.mode.List? && MenuChoice(w.sh).Ok?
    ensures menu.Some? ==> Ok(menu.value) == MenuChoice(w.sh)
    ensures StagedOk(w) && !c.mode.List? && MenuChoice(w.sh).Err? ==>
      early == Some(Failed(["failed to spawn menu command"] + MenuChoice(w.sh).error))
    ensures StagedOk(w) && (c.mode.List? || MenuChoice(w.sh).Ok?) ==>
      && (SearchRange(c, w).Err? ==> early == Some(Failed(SearchRange(c, w).error)))
      && (SearchRange(c, w) == Ok(None) ==> early == Some(Exit(1, NoLocalCommitsMessage)))
    ensures early.None? <==>
      StagedOk(w) && (c.mode.List? || MenuChoice(w.sh).Ok?) && SearchRange(c, w).Ok? && SearchRange(c, w).value.Some?
    ensures early.None? ==> staged == Staged(w).value && range == SearchRange(c, w).value.value
  {
    menu, staged, range := None, [], "";
    var toplevel := Toplevel(w);
    if toplevel.Err? {
      return Some(Failed(toplevel.error)), menu, staged, range;
    }
    var files := Staged(w);
    if files.Err? {
      return Some(Failed(files.error)), menu, staged, range;
    }
    if files.value == [] {
      return Some(Exit(1, NotStagedMessage)), menu, staged, range;
    }
    if !c.mode.List? {
      var picker := ResolveMenuCommand(w.sh);
      if picker.Err? {
        return Some(Failed(["failed to spawn menu command"] + picker.error)), menu, staged, range;
      }
      menu := Some(picker.value);
    }
    var searched := SearchRange(c, w);
    if searched.Err? {
      return Some(Failed(searched.error)), menu, staged, range;
    }
    if searched.value.None? {
      return Some(Exit(1, NoLocalCommitsMessage)), menu, staged, range;
    }
    early, staged, range := None, files.value, searched.value.value;
  }

  /** The top-level directory was found and at least one file is staged. */
  predicate StagedOk(w: World) {
    Toplevel(w).Ok? && Staged(w).Ok? && Staged(w).value != []
  }

  /** How the run ends once the fixup commit is made and auto-rebase is
      on: as `git_rebase` does. */
  function RebaseOutcome(w: World): (outcome: Outcome)
    ensures outcome.Done? <==> Git.GitRebase(Root(w), w.rebase).Ok?
    ensures outcome.Failed? ==> outcome.error == Git.GitRebase(Root(w), w.rebase).error
  {
    match Git.GitRebase(Root(w), w.rebase)
    case Ok(_) => Done
    case Err(e) => Failed(e)
  }

  /** The steps of `run` after the picker has exited: read the target,
      check it, then print it (select mode) or make the fixup commit and,
      with auto-rebase on, the rebase (smash mode). */
  method Act(c: Config, w: World)
    returns (outcome: Outcome, printed: Option<string>, committed: Option<string>, rebase: Option<Git.Invocation>)
    requires !c.mode.List?
    ensures SelectTarget(w.picked) == [] ==> outcome == Done && printed.None? && committed.None? && rebase.None?
    ensures SelectTarget(w.picked) != [] && !RevValid(w, SelectTarget(w.picked)) ==>
      outcome == Failed([UnknownTargetMessage(SelectTarget(w.picked))]) && printed.None? && committed.None? && rebase.None?
    ensures printed.Some? <==> c.mode.Select? && SelectTarget(w.picked) != [] && RevValid(w, SelectTarget(w.picked))
    ensures printed.Some? ==> printed.value == SelectTarget(w.picked) && outcome == Done && committed.None? && rebase.None?
    ensures committed.Some? <==> c.mode.Smash? && SelectTarget(w.picked) != [] && RevValid(w, SelectTarget(w.picked))
    ensures committed.Some? ==> committed.value == SelectTarget(w.picked)
    ensures committed.Some? && w.commit.Err? ==> outcome == Failed(w.commit.error) && rebase.None?
    ensures committed.Some? && w.commit.Ok? && !c.autoRebase ==> outcome == Done && rebase.None?
    ensures committed.Some? && w.commit.Ok? && c.autoRebase ==>
      && outcome == RebaseOutcome(w)
      && (rebase.Some? <==> Root(w).Ok?)
    ensures rebase.Some? ==>
      && committed.Some? && w.commit.Ok? && c.autoRebase && Root(w).Ok?
      && rebase.value == Git.RebaseInvocation(Root(w).value, committed.value, c.interactive)
  {
    printed, committed, rebase := None, None, None;
    var target := SelectTarget(w.picked);
    if target == [] {
      return Done, printed, committed, rebase;
    }
    if !RevValid(w, target) {
      return Failed([UnknownTargetMessage(target)]), printed, committed, rebase;
    }
    if c.mode.Select? {
      printed := Some(target);
      return Done, printed, committed, rebase;
    }
    committed := Some(target);
    if w.commit.Err? {
      return Failed(w.commit.error), printed, committed, rebase;
    }
    outcome := Done;
    if c.autoRebase {
      var root := Root(w);
      if root.Ok? {
        rebase := Some(Git.RebaseInvocation(root.value, target, c.interactive));
      }
      var rebased := Git.GitRebase(root, w.rebase);
      if rebased.Err? {
        outcome := Failed(rebased.error);
      }
    }
  }

  // ----- what a run promises, once the configuration is loaded ----------------------

  /** Without staged changes, or without a local commit to look at, the run
      exits with status 1 and an explanation, before searching anything. */
  predicate StopsEarly(c: Config, w: World, outcome: Outcome, t: Trace) {
    && (Toplevel(w).Ok? && Staged(w) == Ok([]) ==>
          outcome == Exit(1, NotStagedMessage) && t == Nothing)
    && (StagedOk(w) && (c.mode.List? || MenuChoice(w.sh).Ok?) && SearchRange(c, w) == Ok(None) ==>
          outcome == Exit(1, NoLocalCommitsMessage) && t.logArgs.None?)
  }

  /** A failing step before the history query ends the run with that
      step's error: reading the top-level directory or the staged files
      before anything is started, finding a picker, or resolving the range
      before the query is started. */
  predicate FailsEarly(c: Config, w: World, outcome: Outcome, t: Trace) {
    && (Toplevel(w).Err? ==> outcome == Failed(Toplevel(w).error) && t == Nothing)
    && (Toplevel(w).Ok? && Staged(w).Err? ==> outcome == Failed(Staged(w).error) && t == Nothing)
    && (StagedOk(w) && !c.mode.List? && MenuChoice(w.sh).Err? ==>
          outcome == Failed(["failed to spawn menu command"] + MenuChoice(w.sh).error) && t == Nothing)
    && (StagedOk(w) && (c.mode.List? || MenuChoice(w.sh).Ok?) && SearchRange(c, w).Err? ==>
          outcome == Failed(SearchRange(c, w).error) && t == Nothing.(menu := t.menu))
  }

  /** The picker is started outside list mode only, once files are staged,
      and it is the one `MenuChoice` settles on. */
  predicate StartsPicker(c: Config, w: World, t: Trace) {
    && (t.menu.Some? <==> StagedOk(w) && !c.mode.List? && MenuChoice(w.sh).Ok?)
    && (t.menu.Some? ==> Ok(t.menu.value) == MenuChoice(w.sh))
  }

  /** The history query is started exactly when everything before it
      succeeded; it covers the resolved range and the staged files. */
  predicate SearchesStaged(c: Config, w: World, t: Trace) {
    && (t.logArgs.Some? <==>
          StagedOk(w) && (c.mode.List? || MenuChoice(w.sh).Ok?) && SearchRange(c, w).Ok? && SearchRange(c, w).value.Some?)
    && (t.logArgs.Some? ==>
          t.logArgs.value == FileRevsArgs(SearchRange(c, w).value.value, c.maxCount, Staged(w).value))
    && (t.stream.Some? <==> t.logArgs.Some?)
  }

  /** The candidates reach the reader in the order git lists them, each
      rendered with the configured format, no more than it accepts. */
  predicate StreamsInOrder(c: Config, w: World, t: Trace) {
    && |t.emitted| <= |w.logLines| && |t.emitted| <= w.accepts
    && AllUsable(w.logLines[..|t.emitted|])
    && t.emitted == Rendered(w.logLines[..|t.emitted|], Render(c, w))
    && (t.emitted != [] ==> t.logArgs.Some?)
  }

  /** Streaming ends as the lines and the reader decide: every line is
      forwarded exactly when all of them are usable and the reader accepts
      them all; the reader went away once it had taken all it accepts, with
      a usable line left; otherwise the first line that was not read or has
      no commit hash is the run's error. */
  predicate StreamMatchesLines(w: World, t: Trace) {
    t.stream.Some? ==>
      && (t.stream.value.Drained? <==> AllUsable(w.logLines) && |w.logLines| <= w.accepts)
      && (t.stream.value.Drained? ==> |t.emitted| == |w.logLines|)
      && (t.stream.value.SinkClosed? ==>
            |t.emitted| == w.accepts < |w.logLines| && Usable(w.logLines[w.accepts]))
      && (t.stream.value.Broken? ==>
            && |t.emitted| < |w.logLines| && !Usable(w.logLines[|t.emitted|])
            && t.stream.value.error == LineError(w.logLines[|t.emitted|]))
  }

  /** How streaming ends decides what follows: a bad line is an error; in
      list mode a reader that went away ends the run at once, without
      killing the query; otherwise the query is killed and list mode is done. */
  predicate EndsStream(c: Config, w: World, outcome: Outcome, t: Trace) {
    && (t.stream.Some? && t.stream.value.Broken? ==> outcome == Failed(t.stream.value.error) && !t.killed)
    && (t.stream == Some(SinkClosed) && c.mode.List? ==> outcome == Done && !t.killed)
    && (t.killed <==> t.stream.Some? && !t.stream.value.Broken? && !(t.stream.value.SinkClosed? && c.mode.List?))
    && (t.killed && c.mode.List? ==> outcome == Done)
    && (c.mode.List? ==> t.printed.None? && t.committed.None? && t.rebase.None?)
  }

  /** After the picker: an empty pick does nothing, an unknown target is an
      error, select mode prints the target, smash mode commits a fixup for
      it and, with auto-rebase on, rebases. */
  predicate ActsOnPick(c: Config, w: World, outcome: Outcome, t: Trace) {
    var target := SelectTarget(w.picked);
    && (t.killed && !c.mode.List? && target == [] ==>
          outcome == Done && t.printed.None? && t.committed.None?)
    && (t.killed && !c.mode.List? && target != [] && !RevValid(w, target) ==>
          outcome == Failed([UnknownTargetMessage(target)]) && t.printed.None? && t.committed.None?)
    && (t.printed.Some? <==> t.killed && c.mode.Select? && target != [] && RevValid(w, target))
    && (t.printed.Some? ==> t.printed.value == target && outcome == Done && t.committed.None?)
    && (t.committed.Some? <==> t.killed && c.mode.Smash? && target != [] && RevValid(w, target))
    && (t.committed.Some? ==> t.committed.value == target)
    && (t.committed.Some? && w.commit.Err? ==> outcome == Failed(w.commit.error) && t.rebase.None?)
    && (t.committed.Some? && w.commit.Ok? && !c.autoRebase ==> outcome == Done && t.rebase.None?)
    && (t.committed.Some? && w.commit.Ok? && c.autoRebase ==>
          outcome == RebaseOutcome(w) && (Root(w).Ok? ==> t.rebase.Some?))
    && (t.rebase.Some? ==>
          && t.committed.Some? && w.commit.Ok? && c.autoRebase && Root(w).Ok?
          && t.rebase.value == Git.RebaseInvocation(Root(w).value, t.committed.value, c.interactive))
  }

  /** Everything `run` promises once the configuration `c` is loaded. */
  predicate Proceeds(c: Config, w: World, outcome: Outcome, t: Trace) {
    && StopsEarly(c, w, outcome, t)
    && FailsEarly(c, w, outcome, t)
    && StartsPicker(c, w, t)
    && SearchesStaged(c, w, t)
    && StreamsInOrder(c, w, t)
    && StreamMatchesLines(w, t)
    && EndsStream(c, w, outcome, t)
    && ActsOnPick(c, w, outcome, t)
  }

  /** `run` from starting the history query on: stream the candidates to
      the reader, kill the query, and hand the pick to `Act`. `menu` is the
      picker started before. */
  method Deliver(c: Config, w: World, menu: Option<MenuCommand>, staged: seq<string>, range: string)
    returns (outcome: Outcome, t: Trace)
    requires StagedOk(w) && staged == Staged(w).value
    requires SearchRange(c, w) == Ok(Some(range))
    requires menu.Some? <==> !c.mode.List?
    requires menu.Some? ==> Ok(menu.value) == MenuChoice(w.sh)
    ensures t.menu == menu
    ensures t.logArgs == Some(FileRevsArgs(range, c.maxCount, staged)) && t.stream.Some?
    ensures StopsEarly(c, w, outcome, t)
    ensures FailsEarly(c, w, outcome, t)
    ensures StartsPicker(c, w, t)
    ensures SearchesStaged(c, w, t)
    ensures StreamsInOrder(c, w, t)
    ensures StreamMatchesLines(w, t)
    ensures EndsStream(c, w, outcome, t)
    ensures ActsOnPick(c, w, outcome, t)
  {
    t := Nothing.(menu := menu);
    var files := new Vec(staged);
    var logArgs := SpawnFileRevs(files, range, c.maxCount);
    t := t.(logArgs := Some(logArgs));
    var end, written := Stream(w.logLines, Render(c, w), w.accepts);
    t := t.(stream := Some(end), emitted := written);
    if end.Broken? {
      return Failed(end.error), t;
    }
    if end.SinkClosed? && c.mode.List? {
      return Done, t;
    }
    t := t.(killed := true);
    if c.mode.List? {
      return Done, t;
    }
    var printed, committed, rebase;
    outcome, printed, committed, rebase := Act(c, w);
    t := t.(printed := printed, committed := committed, rebase := rebase);
  }

  /** `run` after `Config::load`: `Prepare`, then `Deliver`. */
  method Proceed(c: Config, w: World) returns (outcome: Outcome, t: Trace)
    ensures StopsEarly(c, w, outcome, t)
    ensures FailsEarly(c, w, outcome, t)
    ensures StartsPicker(c, w, t)
    ensures SearchesStaged(c, w, t)
    ensures StreamsInOrder(c, w, t)
    ensures StreamMatchesLines(w, t)
    ensures EndsStream(c, w, outcome, t)
    ensures ActsOnPick(c, w, outcome, t)
  {
    var early, menu, staged, range := Prepare(c, w);
    if early.Some? {
      return early.value, Nothing.(menu := menu);
    }
    outcome, t := Deliver(c, w, menu, staged, range);
  }

  /** `run`: load the configuration, then `Proceed`. Without a
      configuration nothing is started. */
  method Run(args: Args, w: World) returns (outcome: Outcome, t: Trace)
    ensures Configure(args, w).Err? ==> outcome == Failed(Configure(args, w).error) && t == Nothing
    ensures Configure(args, w).Ok? ==> Proceeds(Configure(args, w).value, w, outcome, t)
  {
    var loaded := Configure(args, w);
    if loaded.Err? {
      return Failed(loaded.error), Nothing;
    }
    outcome, t := Proceed(loaded.value, w);
  }
}
