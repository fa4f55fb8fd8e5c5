/** Run configuration: every setting is resolved by precedence, an explicit
    command-line flag first, then the stored `smash.*` git-config value,
    then a hard default. A stored value is supplied as the outcome of the
    `git config --get` lookup for it (`lookup`); the git version as the
    outcome of reading it. */
module Config {
  import opened Wrappers
  import opened Text
  import opened Process
  import opened GitQueries

  const DEFAULT_LIST_FORMAT: string :=
    "%C(yellow)%h%C(reset) [%(smash:source)] %s %C(cyan)<%an>%C(reset) %C(green)(%cr)%C(reset)%C(auto)%d%C(reset)"
  const DEFAULT_FORMAT_SOURCE_FILES: string := "%C(green)F%C(reset)"
  const DEFAULT_FORMAT_SOURCE_BLAME: string := "%C(red)B%C(reset)"
  const DEFAULT_FORMAT_SOURCE_RECENT: string := "%C(magenta)R%C(reset)\U{FE0F}\U{FE0F}"

  /** The version of git that `--fixup=amend:` and `--fixup=reword:` need. */
  const AMEND_REWORD_REQUIREMENT: string := ">=2.33"

  datatype DisplayMode = Smash | List | Select

  /** The snake-case name of a mode, as it is displayed and stored. */
  function DisplayModeName(m: DisplayMode): string {
    match m
    case Smash => "smash"
    case List => "list"
    case Select => "select"
  }

  /** Parsing a mode from its snake-case name; anything else is refused. */
  function ParseDisplayMode(s: string): (r: Option<DisplayMode>)
    ensures r.Some? <==> s in {"smash", "list", "select"}
    ensures r.Some? ==> DisplayModeName(r.value) == s
  {
    if s == "smash" then Some(Smash)
    else if s == "list" then Some(List)
    else if s == "select" then Some(Select)
    else None
  }

  datatype CommitRange = Local | All | Range(range: string)

  datatype FixupMode = Fixup | Amend | Reword

  /** The option part that follows "--fixup=" for each mode. */
  function FixupPrefix(mode: FixupMode): string {
    match mode
    case Fixup => ""
    case Amend => "amend:"
    case Reword => "reword:"
  }

  /** `FixupMode::to_cli_option`: the `git commit` option that makes a
      commit of the given kind aimed at `target`. */
  function ToCliOption(mode: FixupMode, target: string): (r: string)
    ensures StartsWith(r, "--fixup=")
    ensures mode.Fixup? ==> r == "--fixup=" + target
    ensures mode.Amend? ==> r == "--fixup=amend:" + target
    ensures mode.Reword? ==> r == "--fixup=reword:" + target
  {
    "--fixup=" + FixupPrefix(mode) + target
  }

  /** Reading a "--fixup=" option back into its mode and target. */
  function ParseCliOption(opt: string): Option<(FixupMode, string)> {
    if !StartsWith(opt, "--fixup=") then None
    else
      var rest := opt[|"--fixup="|..];
      if StartsWith(rest, "amend:") then Some((Amend, rest[|"amend:"|..]))
      else if StartsWith(rest, "reword:") then Some((Reword, rest[|"reword:"|..]))
      else Some((Fixup, rest))
  }

  /** The option names its mode and target unambiguously, as long as a plain
      fixup's target does not itself begin with "amend:" or "reword:". */
  lemma {:induction false} CliOptionRoundTrip(mode: FixupMode, target: string)
    requires mode.Fixup? ==> !StartsWith(target, "amend:") && !StartsWith(target, "reword:")
    ensures ParseCliOption(ToCliOption(mode, target)) == Some((mode, target))
  {
    var opt := ToCliOption(mode, target);
    var rest := FixupPrefix(mode) + target;
    assert opt == "--fixup=" + rest;
    assert opt[|"--fixup="|..] == rest;
    match mode
    case Fixup =>
      assert rest == target;
    case Amend =>
      assert rest[..6] == "amend:";
      assert rest[6..] == target;
    case Reword =>
      assert rest[..6] != "amend:" by { assert rest[0] == 'r'; }
      assert rest[..7] == "reword:";
      assert rest[7..] == target;
  }

  /** The command-line flags that `Config::load` reads. */
  datatype Args = Args(
    list: bool, select: bool,
    local: bool, all: bool, range: Option<string>,
    format: Option<string>,
    maxCount: Option<u32>,
    rebase: bool, noRebase: bool,
    interactive: bool,
    blame: bool, noBlame: bool,
    files: bool, noFiles: bool,
    recent: Option<u32>,
    commit: Option<string>,
    amend: bool, reword: bool,
    gpgSign: Option<string>, noGpgSign: bool,
    verify: bool, noVerify: bool,
    extDiff: bool, noExtDiff: bool)

  /** The resolved parameters of one run. */
  datatype Config = Config(
    mode: DisplayMode,
    range: CommitRange,
    format: string,
    maxCount: u32,
    autoRebase: bool,
    interactive: bool,
    blame: bool,
    files: bool,
    recent: u32,
    commit: Option<string>,
    sourceLabelFiles: string,
    sourceLabelBlame: string,
    sourceLabelRecent: string,
    fixupMode: FixupMode,
    gpgSignOption: Option<string>,
    verifyOption: Option<string>,
    extDiff: Option<string>)

  /** The outcome of `git config --get` for each lookup. */
  type Lookup = GitConfigBuilder -> Output

  // ----- the lookups, as `Config::load` configures them -----------------------

  const ModeLookup := NewBuilder("smash.mode")
  const RangeLookup := NewBuilder("smash.range")
  const FormatLookup := NewBuilder("smash.format")
  const MaxCountLookup := NewBuilder("smash.maxCommitCount").WithType("int").WithDefault("0")
  const AutoRebaseLookup := NewBuilder("smash.autorebase").WithType("bool").WithDefault("true")
  const InteractiveLookup := NewBuilder("smash.interactive").WithType("bool").WithDefault("false")
  const BlameLookup := NewBuilder("smash.blame").WithType("bool").WithDefault("true")
  const FilesLookup := NewBuilder("smash.files").WithType("bool").WithDefault("true")
  const RecentLookup := NewBuilder("smash.recent").WithType("int").WithDefault("0")
  const FilesLabelLookup := NewBuilder("smash.filesSourceFormat").WithDefault(DEFAULT_FORMAT_SOURCE_FILES)
  const BlameLabelLookup := NewBuilder("smash.blameSourceFormat").WithDefault(DEFAULT_FORMAT_SOURCE_BLAME)
  const RecentLabelLookup := NewBuilder("smash.recentSourceFormat").WithDefault(DEFAULT_FORMAT_SOURCE_RECENT)

  // ----- one resolver per setting -----------------------------------------------

  /** `mode`: --list, else --select, else the stored smash.mode (which must
      name a mode), else Smash. */
  function ResolveMode(args: Args, lookup: Lookup): (r: Result<DisplayMode, Error>)
    ensures args.list ==> r == Ok(List)
    ensures !args.list && args.select ==> r == Ok(Select)
    ensures !args.list && !args.select ==>
      match Get(lookup(ModeLookup))
      case Err(e) => r == Err(e)
      case Ok(None) => r == Ok(Smash)
      case Ok(Some(v)) =>
        r == if ParseDisplayMode(v).Some? then Ok(ParseDisplayMode(v).value)
             else Err(["failed to parse smash.mode '" + v + "'", "Matching variant not found"])
  {
    if args.list then Ok(List)
    else if args.select then Ok(Select)
    else
      var stored :- Get(lookup(ModeLookup));
      match stored
      case None => Ok(Smash)
      case Some(v) =>
        match ParseDisplayMode(v)
        case Some(m) => Ok(m)
        case None => Err(["failed to parse smash.mode '" + v + "'", "Matching variant not found"])
  }

  /** How a stored smash.range reads: "local" and "all" name their policy,
      any other text is a range taken verbatim. */
  function RangeFromStored(s: string): (r: CommitRange)
    ensures r == Local <==> s == "local"
    ensures r == All <==> s == "all"
    ensures r.Range? ==> r.range == s
  {
    match s
    case "local" => Local
    case "all" => All
    case _ => Range(s)
  }

  /** `range`: --local, else --all, else --range, else the stored
      smash.range, else All. */
  function ResolveRange(args: Args, lookup: Lookup): (r: Result<CommitRange, Error>)
    ensures args.local ==> r == Ok(Local)
    ensures !args.local && args.all ==> r == Ok(All)
    ensures !args.local && !args.all && args.range.Some? ==> r == Ok(Range(args.range.value))
    ensures !args.local && !args.all && args.range.None? ==>
      match Get(lookup(RangeLookup))
      case Err(e) => r == Err(e)
      case Ok(None) => r == Ok(All)
      case Ok(Some(v)) => r == Ok(RangeFromStored(v))
  {
    if args.local then Ok(Local)
    else if args.all then Ok(All)
    else if args.range.Some? then Ok(Range(args.range.value))
    else
      var stored :- Get(lookup(RangeLookup));
      match stored
      case None => Ok(All)
      case Some(v) => Ok(RangeFromStored(v))
  }

  /** A stored value, or `dflt` when the key is unset. */
  function StoredOr(b: GitConfigBuilder, dflt: string, lookup: Lookup): (r: Result<string, Error>)
    ensures Get(lookup(b)).Err? ==> r == Err(Get(lookup(b)).error)
    ensures Get(lookup(b)) == Ok(None) ==> r == Ok(dflt)
    ensures lookup(b).Success() ==> r == Ok(TrimEnd(lookup(b).stdout))
  {
    var stored :- Get(lookup(b));
    Ok(if stored.Some? then stored.value else dflt)
  }

  /** `format`: --format, else the stored smash.format, else the default list format. */
  function ResolveFormat(args: Args, lookup: Lookup): (r: Result<string, Error>)
    ensures args.format.Some? ==> r == Ok(args.format.value)
    ensures args.format.None? ==> r == StoredOr(FormatLookup, DEFAULT_LIST_FORMAT, lookup)
  {
    if args.format.Some? then Ok(args.format.value)
    else StoredOr(FormatLookup, DEFAULT_LIST_FORMAT, lookup)
  }

  /** A count: the explicit argument, else the stored integer, else 0. */
  function ResolveCount(explicit: Option<u32>, b: GitConfigBuilder, lookup: Lookup): (r: Result<u32, Error>)
    ensures explicit.Some? ==> r == Ok(explicit.value)
    ensures explicit.None? ==>
      match GetAsInt(b, lookup(b))
      case Err(e) => r == Err(e)
      case Ok(None) => r == Ok(0)
      case Ok(Some(n)) => r == Ok(n)
  {
    if explicit.Some? then Ok(explicit.value)
    else
      var stored :- GetAsInt(b, lookup(b));
      Ok(if stored.Some? then stored.value else 0)
  }

  /** A switch with a positive and a negative flag: the positive flag gives
      true, else the negative flag gives false, else the stored boolean,
      else `dflt`. */
  function ResolveSwitch(on: bool, off: bool, b: GitConfigBuilder, dflt: bool, lookup: Lookup): (r: Result<bool, Error>)
    ensures on ==> r == Ok(true)
    ensures !on && off ==> r == Ok(false)
    ensures !on && !off ==>
      match GetAsBool(b, lookup(b))
      case Err(e) => r == Err(e)
      case Ok(None) => r == Ok(dflt)
      case Ok(Some(v)) => r == Ok(v)
  {
    if on then Ok(true)
    else if off then Ok(false)
    else
      var stored :- GetAsBool(b, lookup(b));
      Ok(if stored.Some? then stored.value else dflt)
  }

  /** `interactive` has no negative flag: the flag forces true, otherwise
      the stored boolean decides, defaulting to false. */
  function ResolveInteractive(args: Args, lookup: Lookup): (r: Result<bool, Error>)
    ensures r.Ok? && r.value ==> args.interactive || GetAsBool(InteractiveLookup, lookup(InteractiveLookup)) == Ok(Some(true))
    ensures args.interactive ==> r == Ok(true)
    ensures !args.interactive ==>
      match GetAsBool(InteractiveLookup, lookup(InteractiveLookup))
      case Err(e) => r == Err(e)
      case Ok(None) => r == Ok(false)
      case Ok(Some(v)) => r == Ok(v)
  {
    ResolveSwitch(args.interactive, false, InteractiveLookup, false, lookup)
  }

  /** `fixup_mode`: --amend, else --reword, else Fixup; amend and reword
      need git 2.33 or later and fail otherwise. */
  function ResolveFixupMode(args: Args, version: string, satisfies: (string, string) -> bool): (r: Result<FixupMode, Error>)
    ensures args.amend ==> r == (if satisfies(AMEND_REWORD_REQUIREMENT, version) then Ok(Amend)
                                 else Err(CheckVersion(version, AMEND_REWORD_REQUIREMENT, "--amend", satisfies).error))
    ensures !args.amend && args.reword ==> r == (if satisfies(AMEND_REWORD_REQUIREMENT, version) then Ok(Reword)
                                 else Err(CheckVersion(version, AMEND_REWORD_REQUIREMENT, "--reword", satisfies).error))
    ensures !args.amend && !args.reword ==> r == Ok(Fixup)
  {
    if args.amend then
      var _ :- CheckVersion(version, AMEND_REWORD_REQUIREMENT, "--amend", satisfies);
      Ok(Amend)
    else if args.reword then
      var _ :- CheckVersion(version, AMEND_REWORD_REQUIREMENT, "--reword", satisfies);
      Ok(Reword)
    else Ok(Fixup)
  }

  /** `gpg_sign_option`: --gpg-sign with an empty key id signs with the
      default key, with a key id signs with that key, and --no-gpg-sign
      (when --gpg-sign is absent) turns signing off. */
  function GpgSignOption(args: Args): (r: Option<string>)
    ensures args.gpgSign == Some("") ==> r == Some("--gpg-sign")
    ensures args.gpgSign.Some? && args.gpgSign.value != "" ==> r == Some("--gpg-sign=" + args.gpgSign.value)
    ensures args.gpgSign.None? && args.noGpgSign ==> r == Some("--no-gpg-sign")
    ensures args.gpgSign.None? && !args.noGpgSign ==> r.None?
  {
    match args.gpgSign
    case None => if args.noGpgSign then Some("--no-gpg-sign") else None
    case Some(k) => if k == "" then Some("--gpg-sign") else Some("--gpg-sign=" + k)
  }

  /** A pass-through option from a pair of flags: the positive flag's
      option wins over the negative flag's, and neither gives nothing. */
  function PairedOption(on: bool, off: bool, onOption: string, offOption: string): (r: Option<string>)
    ensures on ==> r == Some(onOption)
    ensures !on && off ==> r == Some(offOption)
    ensures r.None? <==> !on && !off
  {
    if on then Some(onOption) else if off then Some(offOption) else None
  }

  function VerifyOption(args: Args): Option<string> {
    PairedOption(args.verify, args.noVerify, "--verify", "--no-verify")
  }

  function ExtDiffOption(args: Args): Option<string> {
    PairedOption(args.extDiff, args.noExtDiff, "--ext-diff", "--no-ext-diff")
  }

  // ----- Config::load -------------------------------------------------------------

  /** `Config::load`: the git version is read first; the settings are then
      resolved in the order the struct lists them, and the first failure is
      the result. `version` is the outcome of reading the git version. */
  function Load(args: Args, version: Result<string, Error>, satisfies: (string, string) -> bool,
                lookup: Lookup): (r: Result<Config, Error>)
    ensures version.Err? ==> r == Err(["failed to get git version"] + version.error)
    ensures r.Ok? ==>
      && version.Ok?
      && Ok(r.value.mode) == ResolveMode(args, lookup)
      && Ok(r.value.range) == ResolveRange(args, lookup)
      && Ok(r.value.format) == ResolveFormat(args, lookup)
      && Ok(r.value.maxCount) == ResolveCount(args.maxCount, MaxCountLookup, lookup)
      && Ok(r.value.autoRebase) == ResolveSwitch(args.rebase, args.noRebase, AutoRebaseLookup, true, lookup)
      && Ok(r.value.interactive) == ResolveInteractive(args, lookup)
      && Ok(r.value.blame) == ResolveSwitch(args.blame, args.noBlame, BlameLookup, true, lookup)
      && Ok(r.value.files) == ResolveSwitch(args.files, args.noFiles, FilesLookup, true, lookup)
      && Ok(r.value.recent) == ResolveCount(args.recent, RecentLookup, lookup)
      && Ok(r.value.sourceLabelFiles) == StoredOr(FilesLabelLookup, DEFAULT_FORMAT_SOURCE_FILES, lookup)
      && Ok(r.value.sourceLabelBlame) == StoredOr(BlameLabelLookup, DEFAULT_FORMAT_SOURCE_BLAME, lookup)
      && Ok(r.value.sourceLabelRecent) == StoredOr(RecentLabelLookup, DEFAULT_FORMAT_SOURCE_RECENT, lookup)
      && r.value.commit == args.commit
      && Ok(r.value.fixupMode) == ResolveFixupMode(args, version.value, satisfies)
      && r.value.gpgSignOption == GpgSignOption(args)
      && r.value.verifyOption == VerifyOption(args)
      && r.value.extDiff == ExtDiffOption(args)
  {
    var v :- Context(version, "failed to get git version");
    var mode :- ResolveMode(args, lookup);
    var range :- ResolveRange(args, lookup);
    var format :- ResolveFormat(args, lookup);
    var maxCount :- ResolveCount(args.maxCount, MaxCountLookup, lookup);
    var autoRebase :- ResolveSwitch(args.rebase, args.noRebase, AutoRebaseLookup, true, lookup);
    var interactive :- ResolveInteractive(args, lookup);
    var blame :- ResolveSwitch(args.blame, args.noBlame, BlameLookup, true, lookup);
    var files :- ResolveSwitch(args.files, args.noFiles, FilesLookup, true, lookup);
    var recent :- ResolveCount(args.recent, RecentLookup, lookup);
    var labelFiles :- StoredOr(FilesLabelLookup, DEFAULT_FORMAT_SOURCE_FILES, lookup);
    var labelBlame :- StoredOr(BlameLabelLookup, DEFAULT_FORMAT_SOURCE_BLAME, lookup);
    var labelRecent :- StoredOr(RecentLabelLookup, DEFAULT_FORMAT_SOURCE_RECENT, lookup);
    var fixupMode :- ResolveFixupMode(args, v, satisfies);
    Ok(Config(mode, range, format, maxCount, autoRebase, interactive, blame, files, recent,
              args.commit, labelFiles, labelBlame, labelRecent, fixupMode,
              GpgSignOption(args), VerifyOption(args), ExtDiffOption(args)))
  }

  /** A load that fails with the version read fails with the first
      setting, in the order the configuration lists them, that does not
      resolve, and with that setting's own error; when every setting
      resolves the load succeeds. */
  lemma LoadFirstError(args: Args, version: Result<string, Error>, satisfies: (string, string) -> bool,
                       lookup: Lookup)
    ensures version.Ok? ==>
      if ResolveMode(args, lookup).Err? then Load(args, version, satisfies, lookup) == Err(ResolveMode(args, lookup).error)
      else if ResolveRange(args, lookup).Err? then Load(args, version, satisfies, lookup) == Err(ResolveRange(args, lookup).error)
      else if ResolveFormat(args, lookup).Err? then Load(args, version, satisfies, lookup) == Err(ResolveFormat(args, lookup).error)
      else if ResolveCount(args.maxCount, MaxCountLookup, lookup).Err? then
        Load(args, version, satisfies, lookup) == Err(ResolveCount(args.maxCount, MaxCountLookup, lookup).error)
      else if ResolveSwitch(args.rebase, args.noRebase, AutoRebaseLookup, true, lookup).Err? then
        Load(args, version, satisfies, lookup) == Err(ResolveSwitch(args.rebase, args.noRebase, AutoRebaseLookup, true, lookup).error)
      else if ResolveInteractive(args, lookup).Err? then Load(args, version, satisfies, lookup) == Err(ResolveInteractive(args, lookup).error)
      else if ResolveSwitch(args.blame, args.noBlame, BlameLookup, true, lookup).Err? then
        Load(args, version, satisfies, lookup) == Err(ResolveSwitch(args.blame, args.noBlame, BlameLookup, true, lookup).error)
      else if ResolveSwitch(args.files, args.noFiles, FilesLookup, true, lookup).Err? then
        Load(args, version, satisfies, lookup) == Err(ResolveSwitch(args.files, args.noFiles, FilesLookup, true, lookup).error)
      else if ResolveCount(args.recent, RecentLookup, lookup).Err? then
        Load(args, version, satisfies, lookup) == Err(ResolveCount(args.recent, RecentLookup, lookup).error)
      else if StoredOr(FilesLabelLookup, DEFAULT_FORMAT_SOURCE_FILES, lookup).Err? then
        Load(args, version, satisfies, lookup) == Err(StoredOr(FilesLabelLookup, DEFAULT_FORMAT_SOURCE_FILES, lookup).error)
      else if StoredOr(BlameLabelLookup, DEFAULT_FORMAT_SOURCE_BLAME, lookup).Err? then
        Load(args, version, satisfies, lookup) == Err(StoredOr(BlameLabelLookup, DEFAULT_FORMAT_SOURCE_BLAME, lookup).error)
      else if StoredOr(RecentLabelLookup, DEFAULT_FORMAT_SOURCE_RECENT, lookup).Err? then
        Load(args, version, satisfies, lookup) == Err(StoredOr(RecentLabelLookup, DEFAULT_FORMAT_SOURCE_RECENT, lookup).error)
      else if ResolveFixupMode(args, version.value, satisfies).Err? then
        Load(args, version, satisfies, lookup) == Err(ResolveFixupMode(args, version.value, satisfies).error)
      else Load(args, version, satisfies, lookup).Ok?
  {
  }

  /** Once a flag decides a setting, the stored value is not consulted: not
      its content, nor whether looking it up fails. */
  lemma FlagsOverrideStore(args: Args, l1: Lookup, l2: Lookup)
    ensures args.list || args.select ==> ResolveMode(args, l1) == ResolveMode(args, l2)
    ensures args.local || args.all || args.range.Some? ==> ResolveRange(args, l1) == ResolveRange(args, l2)
    ensures args.format.Some? ==> ResolveFormat(args, l1) == ResolveFormat(args, l2)
    ensures args.maxCount.Some? ==> ResolveCount(args.maxCount, MaxCountLookup, l1) == ResolveCount(args.maxCount, MaxCountLookup, l2)
    ensures args.rebase || args.noRebase ==>
      ResolveSwitch(args.rebase, args.noRebase, AutoRebaseLookup, true, l1) == ResolveSwitch(args.rebase, args.noRebase, AutoRebaseLookup, true, l2)
    ensures args.interactive ==> ResolveInteractive(args, l1) == ResolveInteractive(args, l2)
    ensures args.blame || args.noBlame ==>
      ResolveSwitch(args.blame, args.noBlame, BlameLookup, true, l1) == ResolveSwitch(args.blame, args.noBlame, BlameLookup, true, l2)
    ensures args.files || args.noFiles ==>
      ResolveSwitch(args.files, args.noFiles, FilesLookup, true, l1) == ResolveSwitch(args.files, args.noFiles, FilesLookup, true, l2)
    ensures args.recent.Some? ==> ResolveCount(args.recent, RecentLookup, l1) == ResolveCount(args.recent, RecentLookup, l2)
  {
  }

  /** A mode stored under smash.mode, printed by git with its line ending,
      is the mode the run uses when no mode flag is given. */
  lemma StoredModeUsed(args: Args, lookup: Lookup, m: DisplayMode, stderr: string)
    requires !args.list && !args.select
    requires lookup(ModeLookup) == Output(Some(0), DisplayModeName(m) + "\n", stderr)
    ensures ResolveMode(args, lookup) == Ok(m)
  {
    TrimEndOfTrailing(DisplayModeName(m), "\n");
  }

  /** A stored range other than "local" or "all" is searched verbatim. */
  lemma StoredRangeVerbatim(args: Args, lookup: Lookup, range: string, stderr: string)
    requires !args.local && !args.all && args.range.None?
    requires range != "local" && range != "all" && range != [] && !IsWhitespace(range[|range| - 1])
    requires lookup(RangeLookup) == Output(Some(0), range + "\n", stderr)
    ensures ResolveRange(args, lookup) == Ok(Range(range))
  {
    TrimEndOfTrailing(range, "\n");
  }

  /** A boolean git prints for a switch is the value the run uses when
      neither of its flags is given. */
  lemma StoredSwitchUsed(on: bool, off: bool, b: GitConfigBuilder, dflt: bool, lookup: Lookup, v: bool, stderr: string)
    requires !on && !off
    requires lookup(b) == Output(Some(0), (if v then "true" else "false") + "\n", stderr)
    ensures ResolveSwitch(on, off, b, dflt, lookup) == Ok(v)
  {
    TrimEndOfTrailing(if v then "true" else "false", "\n");
  }

  /** A count git prints in decimal is the value the run uses when no
      explicit count is given. */
  lemma StoredCountUsed(b: GitConfigBuilder, lookup: Lookup, n: u32, stderr: string)
    requires lookup(b) == Output(Some(0), NatToString(n) + "\n", stderr)
    ensures ResolveCount(None, b, lookup) == Ok(n)
  {
    StoredIntReadBack(b, n, "\n", stderr);
  }

  /** No flag given. */
  const NoFlags: Args := Args(false, false, false, false, None, None, None, false, false, false,
                              false, false, false, false, None, None, false, false, None, false,
                              false, false, false, false)

  /** No key is stored: a lookup with a default prints that default and
      succeeds, as `git config --get --default d` does, and a lookup without
      one exits with status 1. */
  ghost predicate NothingStored(lookup: Lookup) {
    forall b :: lookup(b).code == (if b.default.Some? then Some(0) else Some(1))
             && (b.default.Some? ==> lookup(b).stdout == b.default.value + "\n")
  }

  /** With no flag given and no key stored, each setting's resolver gives
      its default: the lookups without a default report "unset", and the
      defaults the others print read back as the hard defaults. */
  lemma UnsetSettingsDefault(version: string, satisfies: (string, string) -> bool, lookup: Lookup)
    requires NothingStored(lookup)
    ensures ResolveMode(NoFlags, lookup) == Ok(Smash)
    ensures ResolveRange(NoFlags, lookup) == Ok(All)
    ensures ResolveFormat(NoFlags, lookup) == Ok(DEFAULT_LIST_FORMAT)
    ensures ResolveCount(None, MaxCountLookup, lookup) == Ok(0)
    ensures ResolveSwitch(false, false, AutoRebaseLookup, true, lookup) == Ok(true)
    ensures ResolveInteractive(NoFlags, lookup) == Ok(false)
    ensures ResolveSwitch(false, false, BlameLookup, true, lookup) == Ok(true)
    ensures ResolveSwitch(false, false, FilesLookup, true, lookup) == Ok(true)
    ensures ResolveCount(None, RecentLookup, lookup) == Ok(0)
    ensures ResolveFixupMode(NoFlags, version, satisfies) == Ok(Fixup)
  {
    assert Get(lookup(ModeLookup)) == Ok(None);
    assert Get(lookup(RangeLookup)) == Ok(None);
    assert Get(lookup(FormatLookup)) == Ok(None);
    assert NatToString(0) == "0";
    StoredCountUsed(MaxCountLookup, lookup, 0, lookup(MaxCountLookup).stderr);
    StoredCountUsed(RecentLookup, lookup, 0, lookup(RecentLookup).stderr);
    StoredSwitchUsed(false, false, AutoRebaseLookup, true, lookup, true, lookup(AutoRebaseLookup).stderr);
    StoredSwitchUsed(false, false, InteractiveLookup, false, lookup, false, lookup(InteractiveLookup).stderr);
    StoredSwitchUsed(false, false, BlameLookup, true, lookup, true, lookup(BlameLookup).stderr);
    StoredSwitchUsed(false, false, FilesLookup, true, lookup, true, lookup(FilesLookup).stderr);
  }

  /** With no key stored, each source label is the default git prints back. */
  lemma UnsetLabelsDefault(lookup: Lookup)
    requires NothingStored(lookup)
    ensures StoredOr(FilesLabelLookup, DEFAULT_FORMAT_SOURCE_FILES, lookup) == Ok(DEFAULT_FORMAT_SOURCE_FILES)
    ensures StoredOr(BlameLabelLookup, DEFAULT_FORMAT_SOURCE_BLAME, lookup) == Ok(DEFAULT_FORMAT_SOURCE_BLAME)
    ensures StoredOr(RecentLabelLookup, DEFAULT_FORMAT_SOURCE_RECENT, lookup) == Ok(DEFAULT_FORMAT_SOURCE_RECENT)
  {
    assert lookup(FilesLabelLookup).stdout == DEFAULT_FORMAT_SOURCE_FILES + "\n";
    assert lookup(BlameLabelLookup).stdout == DEFAULT_FORMAT_SOURCE_BLAME + "\n";
    assert lookup(RecentLabelLookup).stdout == DEFAULT_FORMAT_SOURCE_RECENT + "\n";
    TrimEndOfTrailing(DEFAULT_FORMAT_SOURCE_FILES, "\n");
    TrimEndOfTrailing(DEFAULT_FORMAT_SOURCE_BLAME, "\n");
    TrimEndOfTrailing(DEFAULT_FORMAT_SOURCE_RECENT, "\n");
  }

  /** The load succeeds when the version was read and every setting
      resolves; the configuration is then made of the resolved values. */
  lemma LoadOfResolved(args: Args, version: string, satisfies: (string, string) -> bool, lookup: Lookup)
    requires ResolveMode(args, lookup).Ok? && ResolveRange(args, lookup).Ok? && ResolveFormat(args, lookup).Ok?
    requires ResolveCount(args.maxCount, MaxCountLookup, lookup).Ok?
    requires ResolveSwitch(args.rebase, args.noRebase, AutoRebaseLookup, true, lookup).Ok?
    requires ResolveInteractive(args, lookup).Ok?
    requires ResolveSwitch(args.blame, args.noBlame, BlameLookup, true, lookup).Ok?
    requires ResolveSwitch(args.files, args.noFiles, FilesLookup, true, lookup).Ok?
    requires ResolveCount(args.recent, RecentLookup, lookup).Ok?
    requires StoredOr(FilesLabelLookup, DEFAULT_FORMAT_SOURCE_FILES, lookup).Ok?
    requires StoredOr(BlameLabelLookup, DEFAULT_FORMAT_SOURCE_BLAME, lookup).Ok?
    requires StoredOr(RecentLabelLookup, DEFAULT_FORMAT_SOURCE_RECENT, lookup).Ok?
    requires ResolveFixupMode(args, version, satisfies).Ok?
    ensures Load(args, Ok(version), satisfies, lookup).Ok?
  {
  }

  /** With no flag given and no key stored, every setting takes its default. */
  lemma UnsetStoreGivesDefaults(version: string, satisfies: (string, string) -> bool, lookup: Lookup)
    requires NothingStored(lookup)
    ensures Load(NoFlags, Ok(version), satisfies, lookup) ==
      Ok(Config(Smash, All, DEFAULT_LIST_FORMAT, 0, true, false, true, true, 0, None,
                DEFAULT_FORMAT_SOURCE_FILES, DEFAULT_FORMAT_SOURCE_BLAME, DEFAULT_FORMAT_SOURCE_RECENT,
                Fixup, None, None, None))
  {
    UnsetSettingsDefault(version, satisfies, lookup);
    UnsetLabelsDefault(lookup);
    LoadOfResolved(NoFlags, version, satisfies, lookup);
  }
}
