/** The string logic of the `bz` command (cmd/bz/main.go): the input
    validators of `init` and `submit`, the next-version suggestion and its
    validator, the watcher's file filter and the classification of a changed
    file into the builds it triggers. */
module Cli {
  import opened Wrappers
  import opened Decimal
  import GoPath

  // ---------------------------------------------------------------- validators

  /** Go's `unicode.IsSpace`: the ASCII spaces, NEL and NBSP, and the other
      characters with the Unicode White_Space property. */
  predicate IsGoSpace(c: char) {
    c == '\t' || c == '\n' || c == '\U{B}' || c == '\U{C}' || c == '\r' || c == ' '
    || c == '\U{85}' || c == '\U{A0}' || c == '\U{1680}'
    || ('\U{2000}' <= c <= '\U{200A}')
    || c == '\U{2028}' || c == '\U{2029}' || c == '\U{202F}' || c == '\U{205F}' || c == '\U{3000}'
  }

  /** Leading white space removed: what remains is a suffix of s that does
      not start with white space, and everything removed was white space. */
  function TrimLeft(s: string): (r: string)
    ensures |r| <= |s| && r == s[|s| - |r|..]
    ensures r != [] ==> !IsGoSpace(r[0])
    ensures forall i :: 0 <= i < |s| - |r| ==> IsGoSpace(s[i])
  {
    if s != [] && IsGoSpace(s[0]) then TrimLeft(s[1..]) else s
  }

  /** Trailing white space removed, symmetrically. */
  function TrimRight(s: string): (r: string)
    ensures |r| <= |s| && r == s[..|r|]
    ensures r != [] ==> !IsGoSpace(r[|r| - 1])
    ensures forall i :: |r| <= i < |s| ==> IsGoSpace(s[i])
  {
    if s != [] && IsGoSpace(s[|s| - 1]) then TrimRight(s[..|s| - 1]) else s
  }

  /** `strings.TrimSpace`. */
  function TrimSpace(s: string): string {
    TrimRight(TrimLeft(s))
  }

  /** `validateName`: the error, if any. A name is required to hold something
      besides white space. */
  function ValidateName(name: string): (err: Option<string>)
    ensures err.Some? <==> forall i :: 0 <= i < |name| ==> IsGoSpace(name[i])
    ensures err.Some? ==> err.value == "this value is required"
  {
    if |TrimSpace(name)| == 0 then Some("this value is required") else None
  }

  /** The characters of `[a-z0-9_-]`. */
  predicate IsShortNameChar(c: char) {
    ('a' <= c <= 'z') || ('0' <= c <= '9') || c == '_' || c == '-'
  }

  /** A character by character match of `[a-z0-9_-]*` from the start to the
      end of s. */
  function MatchesShortNameChars(s: string): (m: bool)
    ensures m <==> forall i :: 0 <= i < |s| ==> IsShortNameChar(s[i])
  {
    if s == [] then true
    else IsShortNameChar(s[0]) && MatchesShortNameChars(s[1..])
  }

  /** `validateShortName`: `^[a-z0-9_-]+$` must match the whole name. The
      pattern is a constant that compiles, so its compile error never
      happens. */
  function ValidateShortName(name: string): (err: Option<string>)
    ensures err.None? <==> name != [] && forall i :: 0 <= i < |name| ==> IsShortNameChar(name[i])
  {
    if name != [] && MatchesShortNameChars(name) then None
    else Some("can only contain lowercase letters, digits, _ and -")
  }

  /** A short name never holds white space, so it always passes the name
      validator too. */
  lemma ShortNameIsName(name: string)
    requires ValidateShortName(name).None?
    ensures ValidateName(name).None?
  {
  }

  // ---------------------------------------------------------------- watcher filter

  predicate EndsWith(s: string, suffix: string) {
    |suffix| <= |s| && s[|s| - |suffix|..] == suffix
  }

  /** The watcher's filter hook: directories, `.bak` files, editor lock and
      autosave files (`.#x`, `#x`) and backups (`x~`) are skipped. */
  predicate SkipWatched(name: string, isDir: bool) {
    isDir || GoPath.Ext(name) == ".bak" || ".#" <= name || "#" <= name || EndsWith(name, "~")
  }

  /** A name ending in `.bak` has the extension `.bak`. */
  lemma ExtOfBak(x: string)
    ensures GoPath.Ext(x + ".bak") == ".bak"
  {
    var p := x + ".bak";
    var e := GoPath.Ext(p);
    assert p[|x|] == '.' && p[|x| + 1..] == "bak";
    assert e != "";
    var q := |p| - |e|;
    assert p[q] == e[0] == '.';
    assert q == |x|;
  }

  /** The filter in plain terms: a file is skipped exactly when it is a
      directory or its name ends in `.bak` or `~` or starts with `#` or
      `.#`. */
  lemma SkipWatchedNames(name: string, isDir: bool)
    ensures SkipWatched(name, isDir) <==>
      isDir || EndsWith(name, ".bak") || EndsWith(name, "~") || "#" <= name || ".#" <= name
  {
    if EndsWith(name, ".bak") {
      var x := name[..|name| - 4];
      assert name == x + ".bak";
      ExtOfBak(x);
    }
  }

  // ---------------------------------------------------------------- build classification

  /** The build kinds as bits (internal/builder.go, line 22). */
  const UI: bv8 := 1
  const Game: bv8 := 2

  /** `filepath.Rel` as the event loop uses it: the path of target relative
      to a base, or an error. It depends on the platform's path rules. */
  type Rel = (string, string) -> Result<string, string>

  /** The watch directories of a group: each watch path joined to the game
      root, as the loop body does before it calls `rel`. */
  function WatchDirs(root: string, watchPaths: seq<string>): (dirs: seq<string>)
    ensures |dirs| == |watchPaths|
    ensures forall i :: 0 <= i < |dirs| ==> dirs[i] == GoPath.Join([root, watchPaths[i]])
  {
    if watchPaths == [] then [] else [GoPath.Join([root, watchPaths[0]])] + WatchDirs(root, watchPaths[1..])
  }

  /** A watch directory relative to which the changed file does not start
      with `..`: the file lies inside it. */
  predicate Covers(rel: Rel, dir: string, file: string) {
    var r := rel(dir, file);
    r.Ok? && !(".." <= r.value)
  }

  /** The relative path could be computed and leads out of the directory. */
  predicate Misses(rel: Rel, dir: string, file: string) {
    var r := rel(dir, file);
    r.Ok? && ".." <= r.value
  }

  /** Some watch directory of the group covers the file. */
  predicate AnyCovers(rel: Rel, dirs: seq<string>, file: string) {
    exists i :: 0 <= i < |dirs| && Covers(rel, dirs[i], file)
  }

  /** The loop over a group ends without a fatal error: every relative path
      is computed up to the first covering directory, or to the end. */
  predicate ScanSucceeds(rel: Rel, dirs: seq<string>, file: string) {
    (forall j :: 0 <= j < |dirs| ==> Misses(rel, dirs[j], file))
    || exists i :: 0 <= i < |dirs| && Covers(rel, dirs[i], file)
         && forall j :: 0 <= j < i ==> Misses(rel, dirs[j], file)
  }

  /** One loop of the event handler over a group's watch directories: the
      first one that covers the file ends the loop with a hit; one whose
      relative path cannot be computed ends the program (`log.Fatal`). */
  method ScanWatchPaths(rel: Rel, dirs: seq<string>, file: string)
    returns (hit: Result<bool, string>)
    ensures hit.Ok? <==> ScanSucceeds(rel, dirs, file)
    ensures hit.Ok? ==> (hit.value <==> AnyCovers(rel, dirs, file))
    ensures hit.Err? ==> exists i :: (0 <= i < |dirs| && rel(dirs[i], file) == Err(hit.error)
      && forall j :: 0 <= j < i ==> Misses(rel, dirs[j], file))
  {
    var i := 0;
    while i < |dirs|
      invariant 0 <= i <= |dirs|
      invariant forall j :: 0 <= j < i ==> Misses(rel, dirs[j], file)
    {
      var r := rel(dirs[i], file);
      if r.Err? {
        return Err(r.error);
      }
      if !(".." <= r.value) {
        return Ok(true);
      }
      i := i + 1;
    }
    hit := Ok(false);
  }

  /** What the event loop asks of the builder and the dev server. */
  datatype Action =
    | Build(types: bv8)
    | ReportBuildError(stdout: string, stderr: string)
    | ReloadGame
    | ReloadUI

  /** The reloads a build triggers: the game first, then the UI, each only
      when its bit is set. */
  function Reloads(types: bv8): (r: seq<Action>)
    ensures ReloadGame in r <==> types & Game != 0
    ensures ReloadUI in r <==> types & UI != 0
    ensures |r| <= 2 && (|r| == 2 ==> r == [ReloadGame, ReloadUI])
  {
    (if types & Game != 0 then [ReloadGame] else []) + (if types & UI != 0 then [ReloadUI] else [])
  }

  /** The report of a failed build, if it failed. */
  function Report(failure: Option<(string, string)>): seq<Action> {
    if failure.Some? then [ReportBuildError(failure.value.0, failure.value.1)] else []
  }

  /** The tail of the event handler: the build on the chosen bits, the
      report of its failure and the reloads. */
  method Respond(types: bv8, build: bv8 -> Option<(string, string)>) returns (actions: seq<Action>)
    ensures actions == [Build(types)] + Report(build(types)) + Reloads(types)
  {
    actions := [Build(types)];
    var failure := build(types);
    if failure.Some? {
      actions := actions + [ReportBuildError(failure.value.0, failure.value.1)];
    }
    if types & Game != 0 {
      actions := actions + [ReloadGame];
    }
    if types & UI != 0 {
      actions := actions + [ReloadUI];
    }
  }

  /** One file event: the UI bit is set when some UI watch path covers the
      file, the Game bit likewise, then the builder runs on those bits (its
      failure is reported with its output) and the frames whose bit is set
      reload. An error from `rel` ends the program. */
  method HandleEvent(rel: Rel, root: string, uiPaths: seq<string>, gamePaths: seq<string>, file: string,
                     build: bv8 -> Option<(string, string)>)
    returns (types: bv8, outcome: Result<seq<Action>, string>)
    ensures outcome.Ok? <==>
      ScanSucceeds(rel, WatchDirs(root, uiPaths), file) && ScanSucceeds(rel, WatchDirs(root, gamePaths), file)
    ensures outcome.Ok? ==>
      && (types & UI != 0 <==> AnyCovers(rel, WatchDirs(root, uiPaths), file))
      && (types & Game != 0 <==> AnyCovers(rel, WatchDirs(root, gamePaths), file))
      && types & !(UI | Game) == 0
      && outcome.value == [Build(types)] + Report(build(types)) + Reloads(types)
  {
    types := 0;
    var uiDirs, gameDirs := WatchDirs(root, uiPaths), WatchDirs(root, gamePaths);
    var uiHit := ScanWatchPaths(rel, uiDirs, file);
    if uiHit.Err? {
      return types, Err(uiHit.error);
    }
    var gameHit := ScanWatchPaths(rel, gameDirs, file);
    if gameHit.Err? {
      return types, Err(gameHit.error);
    }
    if uiHit.value {
      types := types | UI;
    }
    if gameHit.value {
      types := types | Game;
    }
    var actions := Respond(types, build);
    outcome := Ok(actions);
  }

  // ---------------------------------------------------------------- versions

  const MaxUint64: nat := 0xFFFF_FFFF_FFFF_FFFF

  /** `strconv.ParseUint(s, 10, 64)`: decimal digits only, no sign, at least
      one digit, and a value that fits in 64 bits. */
  function ParseUint(s: string): (r: Option<nat>)
    ensures r.Some? ==> r.value <= MaxUint64 && AllDigits(s) && r.value == DigitsValue(s)
    ensures r.None? <==> s == [] || !AllDigits(s) || DigitsValue(s) > MaxUint64
  {
    if s != [] && AllDigits(s) && DigitsValue(s) <= MaxUint64 then Some(DigitsValue(s)) else None
  }

  /** Every 64-bit value's decimal form parses back to it. */
  lemma ParseUintOfNatToString(n: nat)
    requires n <= MaxUint64
    ensures ParseUint(NatToString(n)) == Some(n)
  {
    ValueOfNatToString(n);
  }

  /** The versions the server knows for a game. */
  datatype GameInfo = GameInfo(latestPublished: Option<string>, latestSubmitted: Option<string>)

  /** The outcome of asking the server for the game's info. */
  datatype InfoLookup = Found(info: GameInfo) | GameNotFound | LookupFailed(error: string)

  datatype VersionError =
    | LookupError(error: string)
    | PatchError(patch: string)
    /** Slicing the published version past its end panics. */
    | SlicePanic

  /** The suggested next version. `majorMinor` is `semver.MajorMinor`, whose
      library is not part of this model. The patch after the `major.minor`
      prefix and a separator is incremented with the wrap-around of Go's
      `uint64`. */
  function NextVersion(lookup: InfoLookup, majorMinor: string -> string): (r: Result<string, VersionError>)
    ensures lookup.LookupFailed? <==> r.Err? && r.error.LookupError?
    ensures lookup.GameNotFound? ==> r == Ok("v0.0.1")
    ensures lookup.Found? && lookup.info.latestPublished.None? ==>
      r == Ok(if lookup.info.latestSubmitted.Some? then lookup.info.latestSubmitted.value else "v0.0.1")
  {
    match lookup
    case LookupFailed(e) => Err(LookupError(e))
    case GameNotFound => Ok("v0.0.1")
    case Found(info) =>
      if info.latestPublished.Some? then
        var v := info.latestPublished.value;
        var mm := majorMinor(v);
        if |mm| + 1 > |v| then Err(SlicePanic)
        else
          var patchText := v[|mm| + 1..];
          var patch := ParseUint(patchText);
          if patch.None? then Err(PatchError(patchText))
          else Ok(mm + "." + NatToString((patch.value + 1) % (MaxUint64 + 1)))
      else if info.latestSubmitted.Some? then Ok(info.latestSubmitted.value)
      else Ok("v0.0.1")
  }

  /** A published `major.minor.patch` suggests the same `major.minor` with
      the next patch, wrapping to 0 after the largest 64-bit patch. */
  lemma NextVersionIncrementsPatch(mm: string, patch: nat, submitted: Option<string>, majorMinor: string -> string)
    requires patch <= MaxUint64
    requires majorMinor(mm + "." + NatToString(patch)) == mm
    ensures NextVersion(Found(GameInfo(Some(mm + "." + NatToString(patch)), submitted)), majorMinor)
      == Ok(mm + "." + NatToString(if patch == MaxUint64 then 0 else patch + 1))
  {
    var text := NatToString(patch);
    var v := mm + "." + text;
    assert v[|mm| + 1..] == text;
    ParseUintOfNatToString(patch);
    WrappingSuccessor(patch);
  }

  /** `patch+1` on a uint64 wraps to 0 after the largest value. */
  lemma WrappingSuccessor(patch: nat)
    requires patch <= MaxUint64
    ensures (patch + 1) % (MaxUint64 + 1) == if patch == MaxUint64 then 0 else patch + 1
  {
  }

  /** A published version whose patch is not a 64-bit decimal number is an
      error, whatever was submitted. */
  lemma NextVersionRejectsBadPatch(mm: string, patch: string, submitted: Option<string>, majorMinor: string -> string)
    requires ParseUint(patch).None?
    requires majorMinor(mm + "." + patch) == mm
    ensures NextVersion(Found(GameInfo(Some(mm + "." + patch), submitted)), majorMinor) == Err(PatchError(patch))
  {
  }

  /** The suggestion is a required, valid version above the published one
      when the library functions `isValid` (`semver.IsValid`) and `compare`
      (`semver.Compare`) say so: the validator's own error, if any. */
  function ValidateVersion(s: string, info: Option<GameInfo>, isValid: string -> bool, compare: (string, string) -> int)
    : (err: Option<string>)
    ensures err.None? <==> (s != "" && isValid(s)
      && (info.Some? && info.value.latestPublished.Some? ==> compare(s, info.value.latestPublished.value) == 1))
    ensures s == "" ==> err == Some("required")
    ensures s != "" && !isValid(s) ==> err == Some("expected a valid semver version")
  {
    if s == "" then Some("required")
    else if !isValid(s) then Some("expected a valid semver version")
    else if info.Some? && info.value.latestPublished.Some? && compare(s, info.value.latestPublished.value) != 1 then
      Some("expected version to be higher than " + info.value.latestPublished.value)
    else None
  }
}
