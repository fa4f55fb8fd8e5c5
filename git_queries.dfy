/** The git queries the configuration loader depends on: looking up one
    `git config` key (`GitConfigBuilder`), reading the git version and
    checking it against a requirement. */
module GitQueries {
  import opened Wrappers
  import opened Text
  import opened Process

  // ----- GitConfigBuilder ---------------------------------------------------

  /** One `git config --get` lookup: the key, and optionally the value git
      should report when the key is unset and the type git should coerce to. */
  datatype GitConfigBuilder = GitConfigBuilder(key: string, default: Option<string>, valueType: Option<string>) {

    /** `with_default`: sets the default and keeps everything else. */
    function WithDefault(d: string): (b: GitConfigBuilder)
      ensures b.key == key && b.valueType == valueType && b.default == Some(d)
    {
      this.(default := Some(d))
    }

    /** `with_type`: sets the type and keeps everything else. */
    function WithType(t: string): (b: GitConfigBuilder)
      ensures b.key == key && b.default == default && b.valueType == Some(t)
    {
      this.(valueType := Some(t))
    }
  }

  /** `GitConfigBuilder::new`: a lookup of `key` with neither a default nor a type. */
  function NewBuilder(key: string): (b: GitConfigBuilder)
    ensures b.key == key && b.default.None? && b.valueType.None?
  {
    GitConfigBuilder(key, None, None)
  }

  /** The argument vector `get` hands to git: "config", "--get", then
      "--default d" when a default is set, then "--type t" when a type is
      set, and the key last. */
  function ConfigGetArgs(b: GitConfigBuilder): (args: seq<string>)
    ensures |args| == 3 + (if b.default.Some? then 2 else 0) + (if b.valueType.Some? then 2 else 0)
    ensures args[..2] == ["config", "--get"]
    ensures b.default.Some? ==> args[2..4] == ["--default", b.default.value]
    ensures b.valueType.Some? ==> args[|args| - 3..|args| - 1] == ["--type", b.valueType.value]
    ensures args[|args| - 1] == b.key
  {
    ["config", "--get"]
      + (if b.default.Some? then ["--default", b.default.value] else [])
      + (if b.valueType.Some? then ["--type", b.valueType.value] else [])
      + [b.key]
  }

  /** `get`'s construction of its arguments, pushing each part in turn. */
  method GetArgs(b: GitConfigBuilder) returns (args: seq<string>)
    ensures args == ConfigGetArgs(b)
  {
    args := ["config", "--get"];
    if b.default.Some? {
      args := args + ["--default", b.default.value];
    }
    if b.valueType.Some? {
      args := args + ["--type", b.valueType.value];
    }
    args := args + [b.key];
  }

  /** The order in which a lookup is configured does not show in its arguments. */
  lemma BuilderOrderIrrelevant(key: string, d: string, t: string)
    ensures NewBuilder(key).WithType(t).WithDefault(d) == NewBuilder(key).WithDefault(d).WithType(t)
    ensures NewBuilder(key).WithType(t).WithDefault(d) == GitConfigBuilder(key, Some(d), Some(t))
  {
  }

  /** `get`, given what `git config --get …` printed and how it exited:
      success is the value with trailing whitespace removed, exit status 1
      means the key is unset, and any other failure is an error carrying
      git's trimmed error output. */
  function Get(out: Output): (r: Result<Option<string>, Error>)
    ensures r == Ok(None) <==> out.code == Some(1)
    ensures (r.Ok? && r.value.Some?) <==> out.Success()
    ensures out.Success() ==> r.value.value == TrimEnd(out.stdout)
    ensures r.Err? ==> r.error == [Trim(out.stderr)]
  {
    if !out.Success() then
      if out.code == Some(1) then Ok(None) else Err([Trim(out.stderr)])
    else
      Ok(Some(TrimEnd(out.stdout)))
  }

  /** `get_as_bool`: an unset key passes through as `None`; a set one must
      read "true" or "false". */
  function GetAsBool(b: GitConfigBuilder, out: Output): (r: Result<Option<bool>, Error>)
    ensures Get(out).Err? ==> r == Err(Get(out).error)
    ensures Get(out) == Ok(None) ==> r == Ok(None)
    ensures Get(out).Ok? && Get(out).value.Some? ==>
      match ParseBool(Get(out).value.value)
      case Some(v) => r == Ok(Some(v))
      case None => r == Err(["Failed to parse key '" + b.key + "' as bool", BoolErrorMessage])
  {
    var value :- Get(out);
    match value
    case None => Ok(None)
    case Some(v) =>
      match ParseBool(v)
      case Some(x) => Ok(Some(x))
      case None => Err(["Failed to parse key '" + b.key + "' as bool", BoolErrorMessage])
  }

  /** `get_as_int`: an unset key passes through as `None`; a set one must
      parse as a `u32`. */
  function GetAsInt(b: GitConfigBuilder, out: Output): (r: Result<Option<u32>, Error>)
    ensures Get(out).Err? ==> r == Err(Get(out).error)
    ensures Get(out) == Ok(None) ==> r == Ok(None)
    ensures Get(out).Ok? && Get(out).value.Some? ==>
      match ParseU32(Get(out).value.value)
      case Ok(n) => r == Ok(Some(n))
      case Err(k) => r == Err(["Failed to parse key '" + b.key + "' as u32", IntErrorMessage(k)])
  {
    var value :- Get(out);
    match value
    case None => Ok(None)
    case Some(v) =>
      match ParseU32(v)
      case Ok(n) => Ok(Some(n))
      case Err(k) => Err(["Failed to parse key '" + b.key + "' as u32", IntErrorMessage(k)])
  }

  /** A stored integer that git prints in decimal is read back unchanged. */
  lemma StoredIntReadBack(b: GitConfigBuilder, n: u32, trailing: string, stderr: string)
    requires forall i :: 0 <= i < |trailing| ==> IsWhitespace(trailing[i])
    ensures GetAsInt(b, Output(Some(0), NatToString(n) + trailing, stderr)) == Ok(Some(n))
  {
    TrimEndOfTrailing(NatToString(n), trailing);
    ParseU32OfNatToString(n);
  }

  // ----- git version ----------------------------------------------------------

  /** End of the run of characters other than ' ' that starts at `i`
      (the regex class `[^ ]+`, taken greedily). */
  function NonSpaceEnd(s: string, i: nat): (j: nat)
    requires i <= |s|
    ensures i <= j <= |s|
    ensures forall k :: i <= k < j ==> s[k] != ' '
    ensures j == |s| || s[j] == ' '
    decreases |s| - i
  {
    if i == |s| || s[i] == ' ' then i else NonSpaceEnd(s, i + 1)
  }

  /** The capture of `[^ ]+ [^ ]+ (?P<version>[^ ]+)` when the match starts
      at `i`: three non-empty runs of non-spaces separated by single spaces. */
  function VersionMatchAt(s: string, i: nat): Option<string>
    requires i <= |s|
  {
    var a := NonSpaceEnd(s, i);
    if a == i || a == |s| then None
    else
      var b := NonSpaceEnd(s, a + 1);
      if b == a + 1 || b == |s| then None
      else
        var c := NonSpaceEnd(s, b + 1);
        if c == b + 1 then None else Some(s[b + 1..c])
  }

  /** The leftmost match of the version regex at or after `i`, as the regex
      engine finds it. */
  function VersionCapture(s: string, i: nat): (r: Option<string>)
    requires i <= |s|
    ensures r.Some? ==> r.value != [] && ' ' !in r.value
    decreases |s| - i
  {
    if i == |s| then None
    else
      match VersionMatchAt(s, i)
      case Some(v) =>
        assert ' ' !in v by {
          var a := NonSpaceEnd(s, i);
          var b := NonSpaceEnd(s, a + 1);
          var c := NonSpaceEnd(s, b + 1);
          assert v == s[b + 1..c];
        }
        Some(v)
      case None => VersionCapture(s, i + 1)
  }

  lemma {:induction false} NonSpaceEndAt(s: string, i: nat, j: nat)
    requires i <= j <= |s|
    requires forall k :: i <= k < j ==> s[k] != ' '
    requires j == |s| || s[j] == ' '
    ensures NonSpaceEnd(s, i) == j
    decreases j - i
  {
    if i < j {
      NonSpaceEndAt(s, i + 1, j);
    }
  }

  /** A token without spaces at the start, followed by a space or the end,
      is the first run. */
  lemma TokenRun(w: string, t: string)
    requires ' ' !in w
    requires t == [] || t[0] == ' '
    ensures NonSpaceEnd(w + t, 0) == |w|
  {
    var s := w + t;
    forall k | 0 <= k < |w| ensures s[k] != ' ' {
      assert s[k] == w[k];
    }
    assert |w| == |s| || s[|w|] == t[0];
    NonSpaceEndAt(s, 0, |w|);
  }

  /** Runs are measured the same way after a prefix. */
  lemma {:induction false} NonSpaceEndShift(p: string, t: string, i: nat)
    requires i <= |t|
    ensures NonSpaceEnd(p + t, |p| + i) == |p| + NonSpaceEnd(t, i)
    decreases |t| - i
  {
    if i < |t| {
      assert (p + t)[|p| + i] == t[i];
      if t[i] != ' ' {
        NonSpaceEndShift(p, t, i + 1);
      }
    }
  }

  /** A match at the start is the leftmost match. */
  lemma CaptureAtStart(s: string)
    requires s != [] && VersionMatchAt(s, 0).Some?
    ensures VersionCapture(s, 0) == VersionMatchAt(s, 0)
  {
  }

  /** Three runs separated by single spaces make a match at the start. */
  lemma MatchFromRuns(s: string, a: nat, b: nat, c: nat)
    requires 0 < a && a + 1 < b && b + 1 < c <= |s|
    requires NonSpaceEnd(s, 0) == a && NonSpaceEnd(s, a + 1) == b && NonSpaceEnd(s, b + 1) == c
    ensures VersionMatchAt(s, 0) == Some(s[b + 1..c])
  {
  }

  /** A token without spaces after a prefix, followed by a space or the
      end, is the run that starts where the prefix ends. */
  lemma RunAfterPrefix(s: string, p: string, w: string, t: string)
    requires s == p + (w + t)
    requires ' ' !in w
    requires t == [] || t[0] == ' '
    ensures NonSpaceEnd(s, |p|) == |p| + |w|
  {
    TokenRun(w, t);
    NonSpaceEndShift(p, w + t, 0);
  }

  /** The first run of "x y v…" ends after x. */
  lemma FirstRunOfTokens(x: string, y: string, v: string, rest: string)
    requires ' ' !in x
    ensures NonSpaceEnd(x + " " + y + " " + v + rest, 0) == |x|
  {
    var s := x + " " + y + " " + v + rest;
    assert s == [] + (x + (" " + y + " " + v + rest));
    RunAfterPrefix(s, [], x, " " + y + " " + v + rest);
  }

  /** A later run of "… w t" starts after the prefix `p` and ends after
      the token `w`. */
  lemma LaterRunOfTokens(p: string, w: string, t: string)
    requires ' ' !in w
    requires t == [] || t[0] == ' '
    ensures NonSpaceEnd(p + w + t, |p|) == |p| + |w|
  {
    RunAfterPrefix(p + w + t, p, w, t);
  }

  /** "x y v…" matches at its start, capturing `v`. */
  lemma VersionMatchOfTokens(x: string, y: string, v: string, rest: string)
    requires x != [] && y != [] && v != []
    requires ' ' !in x && ' ' !in y && ' ' !in v
    requires rest == [] || rest[0] == ' '
    ensures VersionMatchAt(x + " " + y + " " + v + rest, 0) == Some(v)
  {
    var s := x + " " + y + " " + v + rest;
    var b := |x| + 1 + |y|;
    FirstRunOfTokens(x, y, v, rest);
    LaterRunOfTokens(x + " ", y, " " + v + rest);
    assert x + " " + y + (" " + v + rest) == s;
    LaterRunOfTokens(x + " " + y + " ", v, rest);
    assert s[b + 1..b + 1 + |v|] == v;
    MatchFromRuns(s, |x|, b, b + 1 + |v|);
  }

  /** In "a b c…" the version is the third space-separated token `c`. */
  lemma VersionIsThirdToken(x: string, y: string, v: string, rest: string)
    requires x != [] && y != [] && v != []
    requires ' ' !in x && ' ' !in y && ' ' !in v
    requires rest == [] || rest[0] == ' '
    ensures VersionCapture(x + " " + y + " " + v + rest, 0) == Some(v)
  {
    VersionMatchOfTokens(x, y, v, rest);
    CaptureAtStart(x + " " + y + " " + v + rest);
  }

  /** The argument vector of `git_version`. */
  const VersionArgs: seq<string> := ["version"]

  /** `git_version`: the third space-separated token of `git version`'s
      trimmed output, accepted if `isSemver` (semantic-version parsing,
      which is not modelled) accepts it. */
  function GitVersion(out: Output, isSemver: string -> bool): (r: Result<string, Error>)
    ensures !out.Success() ==> r == Err([TrimEnd(out.stderr)])
    ensures out.Success() && VersionCapture(Trim(out.stdout), 0).None? ==>
      r == Err(["Failed to match git version from '" + Trim(out.stdout) + "'"])
    ensures out.Success() && VersionCapture(Trim(out.stdout), 0).Some? ==>
      var v := VersionCapture(Trim(out.stdout), 0).value;
      r == if isSemver(v) then Ok(v) else Err(["failed to parse version from '" + v + "'"])
    ensures r.Ok? ==> out.Success() && Some(r.value) == VersionCapture(Trim(out.stdout), 0) && isSemver(r.value)
  {
    if !out.Success() then Err([TrimEnd(out.stderr)])
    else
      var text := Trim(out.stdout);
      match VersionCapture(text, 0)
      case None => Err(["Failed to match git version from '" + text + "'"])
      case Some(v) =>
        if isSemver(v) then Ok(v) else Err(["failed to parse version from '" + v + "'"])
  }

  /** Text that neither starts nor ends with whitespace loses only the line
      ending git prints after it. */
  lemma TrimOfPrinted(s: string)
    requires s != [] && !IsWhitespace(s[0]) && !IsWhitespace(s[|s| - 1])
    ensures Trim(s + "\n") == s
  {
    TrimEndOfTrailing(s, "\n");
  }

  /** What `git version` prints, "git version V" possibly followed by a
      space and more, gives V, when it parses as a version. */
  lemma GitVersionOfPrinted(v: string, rest: string, stderr: string, isSemver: string -> bool)
    requires v != [] && !HasWhitespace(v)
    requires rest == [] || (rest[0] == ' ' && !IsWhitespace(rest[|rest| - 1]))
    ensures GitVersion(Output(Some(0), "git version " + v + rest + "\n", stderr), isSemver) ==
      if isSemver(v) then Ok(v) else Err(["failed to parse version from '" + v + "'"])
  {
    assert "git version " == "git" + " " + "version" + " ";
    var s := "git version " + v + rest;
    assert s == "git" + " " + "version" + " " + v + rest;
    assert s[|s| - 1] == if rest == [] then v[|v| - 1] else rest[|rest| - 1];
    TrimOfPrinted(s);
    assert ' ' !in v by {
      forall i | 0 <= i < |v| ensures v[i] != ' ' {
        assert !IsWhitespace(v[i]);
      }
    }
    VersionIsThirdToken("git", "version", v, rest);
  }

  /** `git_check_version`: an error naming the feature unless the version
      satisfies the requirement (`satisfies(requirement, version)` stands for
      `VersionReq::parse(requirement).matches(version)`). */
  function CheckVersion(version: string, requirement: string, feature: string,
                        satisfies: (string, string) -> bool): (r: Result<(), Error>)
    ensures r.Ok? <==> satisfies(requirement, version)
    ensures r.Err? ==> r.error == ["git version " + version + " does not match " + requirement + " required for " + feature]
  {
    if satisfies(requirement, version) then Ok(())
    else Err(["git version " + version + " does not match " + requirement + " required for " + feature])
  }
}
