/** The pure parts of the dev server (internal/server.go): rebuilding a saved
    session's history by replay, the embedded-file path mapping, and the
    default player count. */
module DevServer {
  import opened Wrappers
  import opened GoPath

  /** A JSON value kept as its encoded text and passed through untouched
      (Go's `json.RawMessage`). */
  type RawMessage = string

  datatype Move = Move(position: int, data: RawMessage)

  datatype HistoryItem = HistoryItem(seqNo: int, state: RawMessage, data: RawMessage, position: int)

  datatype Player = Player(
    id: string, color: string, name: string, position: int,
    avatar: string, host: bool, settings: Option<RawMessage>)

  datatype InitialStateHistoryItem = InitialStateHistoryItem(
    state: RawMessage, players: seq<Player>, settings: RawMessage)

  datatype SaveStateData = SaveStateData(
    randomSeed: string,
    settings: RawMessage,
    players: seq<Player>,
    history: seq<HistoryItem>,
    initialState: InitialStateHistoryItem)

  datatype SetupState = SetupState(randomSeed: string, players: seq<Player>, settings: RawMessage)

  datatype ReprocessRequest = ReprocessRequest(setup: SetupState, moves: seq<Move>)

  /** What the game's own `reprocessHistory` returns: the initial state and one
      update per move it could replay, plus an error text that this glue does
      not look at. */
  datatype ReprocessResponse = ReprocessResponse(initialState: RawMessage, updates: seq<RawMessage>, error: string)

  /** A Go function either returns an error or panics. */
  datatype Failure = Error(message: string) | Panic(message: string)

  const IndexOutOfRange: string := "runtime error: index out of range"

  /** The move list a saved history replays: each item's position and data, in order. */
  function MovesOf(history: seq<HistoryItem>): (moves: seq<Move>)
    ensures |moves| == |history|
    ensures forall i :: 0 <= i < |moves| ==> moves[i] == Move(history[i].position, history[i].data)
  {
    seq(|history|, i requires 0 <= i < |history| => Move(history[i].position, history[i].data))
  }

  /** The history rebuilt from replayed updates: item i is numbered i, holds
      update i, and keeps the data and position of the move it replays. */
  function Rebuild(moves: seq<Move>, updates: seq<RawMessage>): seq<HistoryItem>
    requires |updates| <= |moves|
  {
    seq(|updates|, i requires 0 <= i < |updates| => HistoryItem(i, updates[i], moves[i].data, moves[i].position))
  }

  /** `reprocessHistoryFromSaveState`. The replay itself (a JavaScript isolate
      running the game's code) is the parameter `reprocess`. */
  method ReprocessHistoryFromSaveState(
    ss: SaveStateData,
    reprocess: ReprocessRequest -> Result<ReprocessResponse, string>)
    returns (r: Result<SaveStateData, Failure>)
    ensures var req := ReprocessRequest(SetupState(ss.randomSeed, ss.players, ss.settings), MovesOf(ss.history));
      match reprocess(req)
      case Err(e) => r == Err(Error(e))
      case Ok(resp) =>
        if |resp.updates| > |ss.history| then r == Err(Panic(IndexOutOfRange))
        else
          && r.Ok?
          && r.value.randomSeed == ss.randomSeed
          && r.value.settings == ss.settings
          && r.value.players == ss.players
          && r.value.initialState == InitialStateHistoryItem(resp.initialState, ss.players, ss.settings)
          && |r.value.history| == |resp.updates|
          && (forall i :: 0 <= i < |resp.updates| ==>
                r.value.history[i] == HistoryItem(i, resp.updates[i], ss.history[i].data, ss.history[i].position))
          && r.value.history == Rebuild(MovesOf(ss.history), resp.updates)
  {
    var moves := new Move[|ss.history|];
    var setup := SetupState(ss.randomSeed, ss.players, ss.settings);
    for i := 0 to |ss.history|
      invariant forall k :: 0 <= k < i ==> moves[k] == Move(ss.history[k].position, ss.history[k].data)
    {
      moves[i] := Move(ss.history[i].position, ss.history[i].data);
    }
    assert moves[..] == MovesOf(ss.history);
    var resp := reprocess(ReprocessRequest(setup, moves[..]));
    if resp.Err? {
      return Err(Error(resp.error));
    }
    var updates := resp.value.updates;
    var history := new HistoryItem[|updates|];
    for i := 0 to |updates|
      invariant i <= moves.Length
      invariant moves[..] == MovesOf(ss.history)
      invariant forall k :: 0 <= k < i ==>
        history[k] == HistoryItem(k, updates[k], moves[k].data, moves[k].position)
    {
      if i >= moves.Length {
        return Err(Panic(IndexOutOfRange));
      }
      history[i] := HistoryItem(i, updates[i], moves[i].data, moves[i].position);
    }
    assert history[..] == Rebuild(moves[..], updates);
    return Ok(SaveStateData(
      ss.randomSeed, ss.settings, ss.players, history[..],
      InitialStateHistoryItem(resp.value.initialState, ss.players, ss.settings)));
  }

  /** Replay is faithful to a well-formed save: when the engine reproduces
      every saved state, the rebuilt history is the saved one. */
  lemma RebuildReproducesSave(history: seq<HistoryItem>, updates: seq<RawMessage>)
    requires forall i :: 0 <= i < |history| ==> history[i].seqNo == i
    requires |updates| == |history|
    requires forall i :: 0 <= i < |history| ==> updates[i] == history[i].state
    ensures Rebuild(MovesOf(history), updates) == history
  {
  }

  /** A replay that stops early keeps exactly the items it could replay: the
      rebuilt history is numbered contiguously and is a prefix of the full
      rebuild. */
  lemma RebuildPrefix(moves: seq<Move>, updates: seq<RawMessage>, k: nat)
    requires |updates| <= |moves| && k <= |updates|
    ensures forall i :: 0 <= i < |updates| ==> Rebuild(moves, updates)[i].seqNo == i
    ensures Rebuild(moves, updates[..k]) == Rebuild(moves, updates)[..k]
  {
  }

  // ---------------------------------------------------------------------
  // Embedded files

  /** The names `getBuildFile` serves from the root of the embedded tree. */
  const RootFiles: set<string> := {
    "/game.html", "/ui.html", "0.jpg", "1.jpg", "2.jpg", "3.jpg", "4.jpg",
    "5.jpg", "6.jpg", "7.jpg", "8.jpg", "9.jpg"}

  /** `strings.ReplaceAll(n, "\\", "/")`. */
  function ForwardSlashes(n: string): (r: string)
    ensures |r| == |n| && '\\' !in r
    ensures forall i :: 0 <= i < |n| ==> r[i] == if n[i] == '\\' then '/' else n[i]
  {
    if n == "" then "" else [if n[0] == '\\' then '/' else n[0]] + ForwardSlashes(n[1..])
  }

  /** The path `getBuildFile` reads: root files from the embed root, anything
      else under site/build, all below `internal` when serving the live tree. */
  function BuildFilePath(n: string, liveDev: bool): string {
    var p := if n in RootFiles then Join([".", n]) else Join(["site", "build", ForwardSlashes(n)]);
    if liveDev then Join(["internal", p]) else p
  }

  lemma CleanDotName(name: string)
    requires name != "" && name != "." && name != ".." && '/' !in name
    ensures Join([".", name]) == name
    ensures Join([".", "/" + name]) == name
  {
    assert Split(name) == [name];
    assert JoinSlash([".", name]) == "." + "/" + name;
    SplitAppend(".", name);
    ResolveCons([], ".", [name], false);
    ResolveCons([], name, [], false);
    assert Resolve([], Split("." + "/" + name), false) == [name];
    SplitAppend("", name);
    assert "" + "/" + name == "/" + name;
    SplitAppend(".", "/" + name);
    assert JoinSlash([".", "/" + name]) == "." + "/" + ("/" + name);
    assert Split("." + "/" + ("/" + name)) == [".", ""] + [name];
    ResolveCons([], ".", [""] + [name], false);
    assert ([""] + [name]) == [""] + [name];
    ResolveCons([], "", [name], false);
    assert [".", ""] + [name] == ["."] + ([""] + [name]);
  }

  /** The HTML pages and the ten profile pictures come from the root of the
      embedded tree, under their own names. */
  lemma RootFilesFromRoot(n: string)
    requires n in RootFiles
    ensures n[0] == '/' ==> BuildFilePath(n, false) == n[1..]
    ensures n[0] != '/' ==> BuildFilePath(n, false) == n
  {
    var name := if n[0] == '/' then n[1..] else n;
    assert name != "" && name != "." && name != ".." && '/' !in name;
    CleanDotName(name);
    if n[0] == '/' {
      assert n == "/" + name;
    }
  }

  lemma {:induction false} ResolveKeepsStack(stack: seq<string>, parts: seq<string>, rooted: bool)
    requires ".." !in parts
    ensures |Resolve(stack, parts, rooted)| >= |stack|
    ensures Resolve(stack, parts, rooted)[..|stack|] == stack
    decreases |parts|
  {
    if parts != [] {
      var next := Step(stack, parts[0], rooted);
      assert ".." !in parts[1..];
      ResolveKeepsStack(next, parts[1..], rooted);
      assert next[..|stack|] == stack;
    }
  }

  /** Every other name lands under site/build, as long as it has no ".."
      piece that would climb out of it. */
  lemma UnderSiteBuild(n: string)
    requires n !in RootFiles
    requires ".." !in Split(ForwardSlashes(n))
    ensures var p := BuildFilePath(n, false);
      |p| >= 10 && p[..10] == "site/build" && (|p| == 10 || p[10] == '/')
  {
    SiteBuildPrefix(ForwardSlashes(n));
  }

  lemma SiteBuildPrefix(x: string)
    requires ".." !in Split(x)
    ensures var p := Join(["site", "build", x]);
      |p| >= 10 && p[..10] == "site/build" && (|p| == 10 || p[10] == '/')
  {
    var q := "site" + "/" + ("build" + "/" + x);
    SiteBuildJoin(x);
    SiteBuildResolve(x);
    ResolveKeepsStack(["site", "build"], Split(x), false);
    var kept := Resolve(["site", "build"], Split(x), false);
    assert kept[..2] == ["site", "build"];
    KeptPrefix(kept);
    CleanRelative(q, kept);
  }

  /** `Clean` of a relative path is its resolved pieces joined. */
  lemma CleanRelative(q: string, kept: seq<string>)
    requires q != "" && q[0] != '/'
    requires Resolve([], Split(q), false) == kept && JoinSlash(kept) != ""
    ensures Clean(q) == JoinSlash(kept)
  {
  }

  lemma SiteBuildJoin(x: string)
    ensures Join(["site", "build", x]) == Clean("site" + "/" + ("build" + "/" + x))
    ensures ("site" + "/" + ("build" + "/" + x))[0] == 's'
  {
    assert ["site", "build", x][0] != "";
    JoinSiteBuild(x);
  }

  lemma SiteBuildResolve(x: string)
    ensures Resolve([], Split("site" + "/" + ("build" + "/" + x)), false) == Resolve(["site", "build"], Split(x), false)
  {
    SplitSiteBuild(x);
    ResolveSiteBuild(Split(x));
  }

  lemma JoinSiteBuild(x: string)
    ensures JoinSlash(["site", "build", x]) == "site" + "/" + ("build" + "/" + x)
  {
    assert ["site", "build", x][1..] == ["build", x];
    assert ["build", x][1..] == [x];
    assert JoinSlash([x]) == x;
    assert JoinSlash(["build", x]) == "build" + "/" + x;
  }

  lemma SplitSiteBuild(x: string)
    ensures Split("site" + "/" + ("build" + "/" + x)) == ["site", "build"] + Split(x)
  {
    var site: string := "site";
    var build: string := "build";
    SplitAppend(build, x);
    SplitAppend(site, build + "/" + x);
  }

  lemma ResolveSiteBuild(rest: seq<string>)
    ensures Resolve([], ["site", "build"] + rest, false) == Resolve(["site", "build"], rest, false)
  {
    assert ["site", "build"] + rest == ["site"] + (["build"] + rest);
    ResolveCons([], "site", ["build"] + rest, false);
    ResolveCons(["site"], "build", rest, false);
    assert Step([], "site", false) == ["site"];
    assert Step(["site"], "build", false) == ["site", "build"];
  }

  lemma KeptPrefix(kept: seq<string>)
    requires |kept| >= 2 && kept[..2] == ["site", "build"]
    ensures var p := JoinSlash(kept);
      |p| >= 10 && p[..10] == "site/build" && (|p| == 10 || p[10] == '/')
  {
  }

  /** Climbing pieces are resolved lexically, so a name can leave site/build:
      "../../x" is read from the root as "x". */
  lemma EscapeExample()
    ensures BuildFilePath("../../x", false) == "x"
  {
    var x: string := "x";
    var up: string := "..";
    var name := up + "/" + (up + "/" + x);
    assert name == "../../x";
    assert name !in RootFiles;
    ForwardSlashesNoBackslash(name);
    EscapeJoin(name, x);
  }

  lemma ForwardSlashesNoBackslash(n: string)
    requires '\\' !in n
    ensures ForwardSlashes(n) == n
  {
  }

  lemma EscapeJoin(name: string, x: string)
    requires x == "x" && name == ".." + "/" + (".." + "/" + x)
    ensures Join(["site", "build", name]) == x
  {
    SiteBuildJoin(name);
    SiteBuildResolve(name);
    EscapeSplit(name, x);
    EscapeResolve(x);
    CleanRelative("site" + "/" + ("build" + "/" + name), [x]);
  }

  lemma EscapeSplit(name: string, x: string)
    requires x == "x" && name == ".." + "/" + (".." + "/" + x)
    ensures Split(name) == ["..", "..", x]
  {
    var up: string := "..";
    assert Split(x) == [x];
    SplitAppend(up, x);
    SplitAppend(up, up + "/" + x);
  }

  lemma EscapeResolve(x: string)
    requires x == "x"
    ensures Resolve(["site", "build"], ["..", "..", x], false) == [x]
  {
    var up: string := "..";
    assert ["..", "..", x] == [up] + ([up] + [x]);
    ResolveCons(["site", "build"], up, [up] + [x], false);
    assert Step(["site", "build"], up, false) == ["site"];
    ResolveCons(["site"], up, [x], false);
    assert Step(["site"], up, false) == [];
    ResolveCons([], x, [], false);
  }

  /** `DefaultPlayers` as the index page receives it: the manifest's value,
      or the minimum when the manifest leaves it at zero. */
  function DefaultPlayers(minimumPlayers: int, defaultPlayers: int): (n: int)
    ensures defaultPlayers != 0 ==> n == defaultPlayers
    ensures defaultPlayers == 0 ==> n == minimumPlayers
  {
    if defaultPlayers == 0 then minimumPlayers else defaultPlayers
  }
}
