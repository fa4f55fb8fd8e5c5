/** The git operations a run performs: resolving the range to search,
    validating and listing revisions, reading the staged files, making the
    fixup commit and the autosquash rebase. Each subprocess's outcome is an
    input; what is modelled is the argument vector handed to git and how
    its output and exit status are turned into a result. */
module Git {
  import opened Wrappers
  import opened Text
  import opened Process
  import Config

  /** A git invocation: its arguments and the environment variables set for it. */
  datatype Invocation = Invocation(args: seq<string>, env: seq<(string, string)>)

  /** The shape most helpers give a finished git command: on success its
      standard output without trailing whitespace, otherwise an error
      carrying its standard error without trailing whitespace. */
  function CapturedText(out: Output): (r: Result<string, Error>)
    ensures r.Ok? <==> out.Success()
    ensures r.Ok? ==> r.value == TrimEnd(out.stdout)
    ensures r.Err? ==> r.error == [TrimEnd(out.stderr)]
  {
    if !out.Success() then Err([TrimEnd(out.stderr)]) else Ok(TrimEnd(out.stdout))
  }

  // ----- git_rev_parse, git_toplevel, git_rev_root, is_valid_git_rev -------------

  /** The arguments of `git_rev_parse`: the revision follows the subcommand. */
  function RevParseArgs(rev: string): (r: seq<string>)
    ensures |r| == 2 && r[0] == "rev-parse" && r[1] == rev
  {
    ["rev-parse", rev]
  }

  /** `git_rev_parse`, given the outcome of `git rev-parse <rev>`. */
  function RevParse(out: Output): (r: Result<string, Error>)
    ensures r.Ok? <==> out.Success()
    ensures r.Ok? ==> r.value == TrimEnd(out.stdout)
    ensures r.Err? ==> r.error == [TrimEnd(out.stderr)]
  {
    CapturedText(out)
  }

  /** A hash that git prints with its line ending comes back as the bare hash. */
  lemma RevParseOfPrinted(hash: string, stderr: string)
    requires hash != [] && !IsWhitespace(hash[|hash| - 1])
    ensures RevParse(Output(Some(0), hash + "\n", stderr)) == Ok(hash)
  {
    TrimEndOfTrailing(hash, "\n");
  }

  const ToplevelArgs: seq<string> := RevParseArgs("--show-toplevel")

  const RevRootArgs: seq<string> := ["rev-list", "--max-parents=0", "--no-abbrev-commit", "HEAD"]

  /** `git_rev_root`, given the outcome of listing the parentless commits. */
  function RevRoot(out: Output): (r: Result<string, Error>)
    ensures r.Ok? <==> out.Success()
    ensures r.Ok? ==> r.value == TrimEnd(out.stdout)
    ensures r.Err? ==> r.error == [TrimEnd(out.stderr)]
  {
    CapturedText(out)
  }

  /** The arguments of `is_valid_git_rev`: `rev-parse --verify` of the revision. */
  function IsValidGitRevArgs(rev: string): (r: seq<string>)
    ensures |r| == 3 && r[..2] == ["rev-parse", "--verify"] && r[2] == rev
  {
    ["rev-parse", "--verify", rev]
  }

  // ----- git_rev_range ---------------------------------------------------------------

  const HEAD := "HEAD"
  const UPSTREAM := "@{upstream}"
  const LOCAL_RANGE := "@{upstream}..HEAD"

  /** `git_rev_range`: the revision expression to search. All history is
      searched from HEAD and an explicit range is used verbatim. Local
      searches the commits not yet upstream, or nothing when the upstream is
      HEAD itself, and all of HEAD when there is no upstream. `upstream` and
      `head` are the outcomes of `git rev-parse` on "@{upstream}" and "HEAD";
      HEAD is only consulted when the upstream resolved. */
  function RevRange(range: Config.CommitRange, upstream: Result<string, Error>,
                    head: Result<string, Error>): (r: Result<Option<string>, Error>)
    ensures range.All? ==> r == Ok(Some(HEAD))
    ensures range.Range? ==> r == Ok(Some(range.range))
    ensures range.Local? && upstream.Err? ==> r == Ok(Some(HEAD))
    ensures range.Local? && upstream.Ok? && head.Err? ==> r == Err(["failed to rev parse HEAD"] + head.error)
    ensures range.Local? && upstream.Ok? && head.Ok? && upstream.value != head.value ==> r == Ok(Some(LOCAL_RANGE))
    ensures r == Ok(None) <==> range.Local? && upstream.Ok? && head.Ok? && upstream.value == head.value
  {
    match range
    case All => Ok(Some(HEAD))
    case Local =>
      if upstream.Ok? then
        var h :- Context(head, "failed to rev parse HEAD");
        if upstream.value == h then Ok(None) else Ok(Some(LOCAL_RANGE))
      else Ok(Some(HEAD))
    case Range(x) => Ok(Some(x))
  }

  /** When the upstream and HEAD print the same hash, a local search has
      nothing to look at, whatever trailing whitespace either output carries. */
  lemma LocalUpToDate(hash: string, t1: string, t2: string, e1: string, e2: string)
    requires hash != [] && !IsWhitespace(hash[|hash| - 1])
    requires forall i :: 0 <= i < |t1| ==> IsWhitespace(t1[i])
    requires forall i :: 0 <= i < |t2| ==> IsWhitespace(t2[i])
    ensures RevRange(Config.Local, RevParse(Output(Some(0), hash + t1, e1)),
                     RevParse(Output(Some(0), hash + t2, e2))) == Ok(None)
  {
    TrimEndOfTrailing(hash, t1);
    TrimEndOfTrailing(hash, t2);
  }

  // ----- git_rebase ---------------------------------------------------------------------

  /** The revision `git_rebase` rebases onto: the root sentinel when the
      target is (a prefix of) the root commit's hash, the target's parent
      otherwise. */
  function RebaseOnto(root: string, rev: string): (r: string)
    ensures StartsWith(root, rev) ==> r == "--root"
    ensures !StartsWith(root, rev) ==> r == rev + "^"
  {
    if StartsWith(root, rev) then "--root" else rev + "^"
  }

  /** The environment that keeps a non-interactive rebase from opening an editor. */
  const UnattendedEnv: seq<(string, string)> := [("GIT_EDITOR", "true"), ("GIT_SEQUENCE_EDITOR", "true")]

  /** The rebase `git_rebase` runs: an interactive autosquash, autostash
      rebase onto `RebaseOnto(root, rev)`; when not interactive both editors
      are set to `true`, when interactive neither is set. */
  function RebaseInvocation(root: string, rev: string, interactive: bool): (inv: Invocation)
    ensures inv.args == ["rebase", "--interactive", "--autosquash", "--autostash", RebaseOnto(root, rev)]
    ensures !interactive ==> inv.env == UnattendedEnv
    ensures interactive ==> inv.env == []
  {
    Invocation(["rebase", "--interactive", "--autosquash", "--autostash", RebaseOnto(root, rev)],
               if interactive then [] else UnattendedEnv)
  }

  /** The target chosen for a rebase is the root commit exactly when the
      root sentinel is used; any other target is rebased onto its parent. */
  lemma RebaseOntoRoot(root: string, rev: string)
    requires root != []
    ensures RebaseOnto(root, root) == "--root"
    ensures rev != [] && rev[0] != root[0] ==> RebaseOnto(root, rev) == rev + "^"
  {
    assert root[..|root|] == root;
  }

  /** `git_rebase`: fails if the root commit cannot be read, otherwise runs
      `RebaseInvocation` and fails when it exits unsuccessfully. `root` is
      the outcome of `git_rev_root`, `out` the rebase's. */
  function GitRebase(root: Result<string, Error>, out: Output): (r: Result<(), Error>)
    ensures root.Err? ==> r == Err(["failed to get git rev root"] + root.error)
    ensures root.Ok? ==> (r.Ok? <==> out.Success())
    ensures root.Ok? && !out.Success() ==> r == Err([TrimEnd(out.stderr)])
  {
    var _ :- Context(root, "failed to get git rev root");
    if !out.Success() then Err([TrimEnd(out.stderr)]) else Ok(())
  }

  // ----- git_rev_list ------------------------------------------------------------------

  /** The arguments of `git_rev_list`: at most `maxCount` full hashes
      reachable from `rev`, the count in decimal. */
  function RevListArgs(rev: string, maxCount: u32): (r: seq<string>)
    ensures |r| == 5 && r[..2] == ["rev-list", "-n"] && r[3] == "--no-abbrev-commit"
    ensures ParseU32(r[2]) == Ok(maxCount)
    ensures r[4] == rev
  {
    ParseU32OfNatToString(maxCount);
    ["rev-list", "-n", NatToString(maxCount), "--no-abbrev-commit", rev]
  }

  /** `git_rev_list`: the lines of the output without trailing whitespace. */
  function RevList(out: Output): (r: Result<seq<string>, Error>)
    ensures r.Ok? <==> out.Success()
    ensures r.Ok? ==> r.value == Lines(TrimEnd(out.stdout))
    ensures !out.Success() ==> r == Err([TrimEnd(out.stderr)])
  {
    if !out.Success() then Err([TrimEnd(out.stderr)]) else Ok(Lines(TrimEnd(out.stdout)))
  }

  /** The hashes git prints, one per line, are listed in the same order. */
  lemma RevListOfPrinted(hashes: seq<string>, stderr: string)
    requires forall k :: 0 <= k < |hashes| ==> hashes[k] != [] && !HasWhitespace(hashes[k])
    ensures RevList(Output(Some(0), Terminated(hashes), stderr)) == Ok(hashes)
  {
    if hashes != [] {
      forall k | 0 <= k < |hashes| ensures PlainLine(hashes[k]) {
        var h := hashes[k];
        assert !IsWhitespace(h[|h| - 1]);
      }
      var last := hashes[|hashes| - 1];
      assert !IsWhitespace(last[|last| - 1]);
      ListedLinesRoundTrip(hashes);
    }
  }

  // ----- git_staged_files ----------------------------------------------------------------

  const StagedFilesArgs: seq<string> := ["--no-pager", "diff", "--color=never", "--name-only", "--cached", "--no-ext-diff"]

  /** `git_staged_files`: the lines of the output trimmed at both ends. */
  function StagedFiles(out: Output): (r: Result<seq<string>, Error>)
    ensures r.Ok? <==> out.Success()
    ensures r.Ok? ==> r.value == Lines(Trim(out.stdout))
    ensures !out.Success() ==> r == Err([TrimEnd(out.stderr)])
  {
    if !out.Success() then Err([TrimEnd(out.stderr)]) else Ok(Lines(Trim(out.stdout)))
  }

  /** The staged paths git lists, one per line, come back in order, provided
      the first does not start and the last does not end with whitespace. */
  lemma StagedFilesOfPrinted(paths: seq<string>, stderr: string)
    requires |paths| > 0
    requires forall k :: 0 <= k < |paths| ==> PlainLine(paths[k])
    requires paths[0] != [] && !IsWhitespace(paths[0][0])
    requires var last := paths[|paths| - 1]; last != [] && !IsWhitespace(last[|last| - 1])
    ensures StagedFiles(Output(Some(0), Terminated(paths), stderr)) == Ok(paths)
  {
    TerminatedIsJoined(paths);
    TrimEndOfNewline(JoinLines(paths));
    LastOfJoined(paths);
    var j := JoinLines(paths);
    assert TrimEnd(j) == j;
    assert j[0] == paths[0][0] by {
      if |paths| > 1 { assert j == paths[0] + "\n" + JoinLines(paths[1..]); }
    }
    assert TrimStart(j) == j;
    LinesOfJoined(paths);
  }

  // ----- git_commit_fixup ------------------------------------------------------------------

  /** The arguments of `git_commit_fixup`: a verbose commit with the fixup
      option for `mode` and `target`; only a plain fixup skips the message
      editor. */
  method CommitFixupArgs(target: string, mode: Config.FixupMode) returns (args: seq<string>)
    ensures |args| >= 3 && args[..3] == ["commit", "--verbose", Config.ToCliOption(mode, target)]
    ensures mode.Fixup? ==> args == ["commit", "--verbose", Config.ToCliOption(mode, target), "--no-edit"]
    ensures !mode.Fixup? ==> |args| == 3
  {
    args := ["commit", "--verbose", Config.ToCliOption(mode, target)];
    if mode.Fixup? {
      args := args + ["--no-edit"];
    }
  }

  /** `git_commit_fixup`'s result, given how the commit exited. */
  function CommitFixup(out: Output): (r: Result<(), Error>)
    ensures r.Ok? <==> out.Success()
    ensures r.Err? ==> r.error == [TrimEnd(out.stderr)]
  {
    if !out.Success() then Err([TrimEnd(out.stderr)]) else Ok(())
  }
}
