/** The earlier host page (site/src/App.tsx). It keeps a history of moves
    whose results arrive later: a move from the UI frame is appended at once
    with no state, the game frame's result fills in the newest entry, and an
    error from the game frame drops it again. */
module DraftHost {
  import opened Wrappers
  import opened HostTypes
  import opened JsRules
  import opened ArraySearch

  datatype DraftPlayer = DraftPlayer(position: int, name: string, color: string)

  /** The game frame's update; the game part is opaque here. */
  datatype DraftUpdate = DraftUpdate(game: Json, players: seq<PlayerState>, messages: seq<Message>)

  /** A history entry. Entries made by the result handler on an empty history
      have only their data: spreading `undefined` copies no fields. */
  datatype DraftItem = DraftItem(seqNo: Option<int>, data: Option<DraftUpdate>, move: Option<Json>)

  /** The messages the game frame sends. */
  datatype GameMessage =
    | InitialStateMessage(data: Option<DraftUpdate>)
    | ProcessMoveMessage(data: Option<DraftUpdate>)
    | ProcessMoveErrorMessage(move: Json, error: Json)
    | OtherGameMessage

  /** What the page posts to the game frame and to the UI frame. */
  datatype ToGame =
    | InitialStateRequest(players: seq<DraftPlayer>)
    | ProcessMoveRequest(position: int, previousState: Json, move: Json)
  datatype ToUI = SetState(state: Option<PlayerState>) | MoveError(move: Json, error: Json)

  const PossiblePlayers: seq<DraftPlayer> := [
    DraftPlayer(0, "Evelyn", "#ff0000"), DraftPlayer(1, "Logan", "#00ff00"),
    DraftPlayer(2, "Avery", "#0000ff"), DraftPlayer(3, "Jayden", "#666600"),
    DraftPlayer(4, "Aischa", "#006666"), DraftPlayer(5, "Shyamapada", "#660066"),
    DraftPlayer(6, "Iovica", "#333333"), DraftPlayer(7, "Liubika", "#ff6633"),
    DraftPlayer(8, "Zvezdelina", "#3366ff"), DraftPlayer(9, "Guadalupe", "#f01a44")]

  /** The history after a UI move: one more entry, numbered by its place,
      waiting for its state. */
  function Appended(h: seq<DraftItem>, move: Json): (r: seq<DraftItem>)
    ensures |r| == |h| + 1 && r[..|h|] == h
  {
    h + [DraftItem(Some(|h|), None, Some(move))]
  }

  /** The history after a result: the newest entry gets the state; on an
      empty history an entry holding only the state appears. */
  function Filled(h: seq<DraftItem>, d: Option<DraftUpdate>): seq<DraftItem> {
    if h == [] then [DraftItem(None, d, None)]
    else h[..|h| - 1] + [h[|h| - 1].(data := d)]
  }

  /** The history after an error: the newest entry removed, if any. */
  function Dropped(h: seq<DraftItem>): (r: seq<DraftItem>)
    ensures h != [] ==> |r| == |h| - 1 && r == h[..|h| - 1]
    ensures h == [] ==> r == []
  {
    if h == [] then [] else h[..|h| - 1]
  }

  /** A move rejected by the game leaves the history as it was before. */
  lemma RejectedMoveRestores(h: seq<DraftItem>, move: Json)
    ensures Dropped(Appended(h, move)) == h
  {
  }

  /** A move accepted by the game ends up as one complete entry: its number,
      its move and its state. */
  lemma AcceptedMoveCompletes(h: seq<DraftItem>, move: Json, d: Option<DraftUpdate>)
    ensures Filled(Appended(h, move), d) == h + [DraftItem(Some(|h|), d, Some(move))]
  {
  }

  /** Filling changes only the data of the newest entry. */
  lemma FilledKeepsOthers(h: seq<DraftItem>, d: Option<DraftUpdate>)
    requires h != []
    ensures |Filled(h, d)| == |h|
    ensures forall i :: 0 <= i < |h| - 1 ==> Filled(h, d)[i] == h[i]
    ensures Filled(h, d)[|h| - 1].data == d
    ensures Filled(h, d)[|h| - 1].seqNo == h[|h| - 1].seqNo && Filled(h, d)[|h| - 1].move == h[|h| - 1].move
  {
  }

  /** The index of the newest entry that has a state, or -1. */
  function LatestWithData(h: seq<DraftItem>): (i: int)
    ensures -1 <= i < |h|
    ensures i >= 0 ==> h[i].data.Some?
    ensures forall j :: i < j < |h| ==> h[j].data.None?
  {
    if h == [] then -1
    else if h[|h| - 1].data.Some? then |h| - 1
    else LatestWithData(h[..|h| - 1])
  }

  /** The update the current player's state is taken from: the newest entry
      with a state, otherwise the initial state. */
  function ShownUpdate(h: seq<DraftItem>, initial: Option<DraftUpdate>): (r: Option<DraftUpdate>)
    ensures r.None? <==> LatestWithData(h) == -1 && initial.None?
  {
    var i := LatestWithData(h);
    if i >= 0 then h[i].data else initial
  }

  /** Once the newest entry has its state, that state is shown; while it
      waits, the state before it is. */
  lemma ShownUpdateFollowsResults(h: seq<DraftItem>, initial: Option<DraftUpdate>, move: Json, d: DraftUpdate)
    ensures ShownUpdate(Appended(h, move), initial) == ShownUpdate(h, initial)
    ensures ShownUpdate(Filled(Appended(h, move), Some(d)), initial) == Some(d)
  {
  }

  /** The shortcut keys, the seat with index i answering to the i-th. */
  const SeatKeys: seq<string> := ["Digit1", "Digit2", "Digit3", "Digit4", "Digit5",
                                  "Digit6", "Digit7", "Digit8", "Digit9", "Digit0"]

  class DraftSession {
    var gameLoaded: bool
    var numberOfPlayers: int
    var players: seq<DraftPlayer>
    var currentPlayer: int
    var initialState: Option<DraftUpdate>
    var history: seq<DraftItem>
    /** Messages posted to the game frame and to the UI frame, oldest first. */
    var toGame: seq<ToGame>
    var toUI: seq<ToUI>

    /** Set when the first render threw: the page never mounted, so none of
      its handlers can run. */
    var failedToMount: bool

    /** The page starts with the minimum number of players seated and the
      first of them current. When that seats nobody (a minimum of 0 or of -10
      or less), reading the first player's position is a TypeError. */
    constructor (minPlayers: int)
      ensures numberOfPlayers == minPlayers && players == Slice(PossiblePlayers, 0, minPlayers)
      ensures failedToMount <==> |players| == 0
      ensures !failedToMount ==> currentPlayer == players[0].position
      ensures !gameLoaded && initialState.None? && history == [] && toGame == [] && toUI == []
    {
      gameLoaded := false;
      numberOfPlayers := minPlayers;
      var seated := Slice(PossiblePlayers, 0, minPlayers);
      players := seated;
      if |seated| == 0 {
        failedToMount := true;
        currentPlayer := 0;
      } else {
        failedToMount := false;
        currentPlayer := seated[0].position;
      }
      initialState := None;
      history := [];
      toGame := [];
      toUI := [];
    }

    /** `updateNumberOfPlayers(n)`: text that does not parse as a number is
      ignored; otherwise the first players are seated and the game is reset.
      When that seats nobody, the next render reads the first player's
      position and throws, so the page unmounts. */
    method UpdateNumberOfPlayers(n: string)
      modifies this`numberOfPlayers, this`players, this`initialState, this`history, this`failedToMount
      requires !failedToMount
      ensures var num := ParseInt(n);
        if num.None? then
          numberOfPlayers == old(numberOfPlayers) && players == old(players)
          && initialState == old(initialState) && history == old(history) && !failedToMount
        else
          numberOfPlayers == num.value && players == Slice(PossiblePlayers, 0, num.value)
          && initialState.None? && history == [] && (failedToMount <==> |players| == 0)
    {
      var num := ParseInt(n);
      if num.Some? {
        Reseat(num.value);
      }
    }

    /** The numeric branch of `updateNumberOfPlayers`. */
    method Reseat(num: int)
      modifies this`numberOfPlayers, this`players, this`initialState, this`history, this`failedToMount
      ensures numberOfPlayers == num && players == Slice(PossiblePlayers, 0, num)
      ensures initialState.None? && history == [] && (failedToMount <==> |players| == 0)
    {
      numberOfPlayers := num;
      var seated := Slice(PossiblePlayers, 0, num);
      players := seated;
      initialState := None;
      history := [];
      failedToMount := |seated| == 0;
    }

    /** `resetGame`: the initial state and the history are cleared. */
    method ResetGame()
      modifies this`initialState, this`history
      requires !failedToMount
      ensures initialState.None? && history == []
    {
      initialState := None;
      history := [];
    }

    /** `sendCurrentPlayerState`: the current player's part of the shown
      update is posted to the UI frame; with nothing to show, nothing is
      posted. */
    method SendCurrentPlayerState() returns (sent: bool)
      modifies this`toUI
      requires !failedToMount
      ensures sent <==> ShownUpdate(history, initialState).Some?
      ensures sent ==> toUI == old(toUI) + [SetState(PlayerOf(ShownUpdate(history, initialState).value, currentPlayer))]
      ensures !sent ==> toUI == old(toUI)
    {
      var i := LatestWithData(history);
      if initialState.None? && i == -1 {
        return false;
      }
      var update := if i >= 0 then history[i].data.value else initialState.value;
      toUI := toUI + [SetState(PlayerOf(update, currentPlayer))];
      sent := true;
    }

    /** A message from the game frame. */
    method FromGame(m: GameMessage)
      modifies this`initialState, this`history, this`toUI
      requires !failedToMount
      ensures m.InitialStateMessage? ==> initialState == m.data && history == old(history) && toUI == old(toUI)
      ensures m.ProcessMoveMessage? ==> history == Filled(old(history), m.data) && initialState == old(initialState) && toUI == old(toUI)
      ensures m.ProcessMoveErrorMessage? ==>
        history == Dropped(old(history)) && initialState == old(initialState)
        && toUI == old(toUI) + [MoveError(m.move, m.error)]
      ensures m.OtherGameMessage? ==> history == old(history) && initialState == old(initialState) && toUI == old(toUI)
    {
      match m {
        case InitialStateMessage(data) =>
          initialState := data;
        case ProcessMoveMessage(data) =>
          var len := |history|;
          if len == 0 {
            history := Slice(history, 0, len - 1) + [DraftItem(None, data, None)];
          } else {
            var last := history[len - 1];
            history := Slice(history, 0, len - 1) + [last.(data := data)];
          }
        case ProcessMoveErrorMessage(move, error) =>
          history := Slice(history, 0, |history| - 1);
          toUI := toUI + [MoveError(move, error)];
        case OtherGameMessage =>
      }
    }

    /** A move from the UI frame: appended at once, then sent to the game
      frame with the state it is played against. When that state is missing
      (no initial state yet, or the newest entry still waiting) reading its
      `game` throws after the entry was appended. */
    method FromUI(move: Json) returns (crashed: bool)
      modifies this`history, this`toGame
      requires !failedToMount
      ensures history == Appended(old(history), move)
      ensures var previous := if old(history) == [] then initialState else old(history)[|old(history)| - 1].data;
        && (crashed <==> previous.None?)
        && (crashed ==> toGame == old(toGame))
        && (!crashed ==> toGame == old(toGame) + [ProcessMoveRequest(currentPlayer, previous.value.game, move)])
    {
      var h := history;
      history := h + [DraftItem(Some(|h|), None, Some(move))];
      var previous := if |h| == 0 then initialState else h[|h| - 1].data;
      if previous.None? {
        return true;
      }
      crashed := false;
      toGame := toGame + [ProcessMoveRequest(currentPlayer, previous.value.game, move)];
    }

    /** The game frame finished loading (`true`) or is being reloaded
      (`false`). */
    method SetGameLoaded(loaded: bool)
      modifies this`gameLoaded
      requires !failedToMount
      ensures gameLoaded == loaded
    {
      gameLoaded := loaded;
    }

    /** The effect that asks a loaded game frame for an initial state while
      there is none. */
    method RequestInitialState() returns (sent: bool)
      modifies this`toGame
      requires !failedToMount
      ensures sent <==> initialState.None? && gameLoaded
      ensures sent ==> toGame == old(toGame) + [InitialStateRequest(players)]
      ensures !sent ==> toGame == old(toGame)
    {
      if initialState.Some? || !gameLoaded {
        return false;
      }
      toGame := toGame + [InitialStateRequest(players)];
      sent := true;
    }

    /** The keyboard shortcut: shift with the i-th digit key makes the i-th
      seated player current; keys beyond the seated players and unshifted
      keys are ignored. */
    method KeyDown(code: string, shift: bool) returns (handled: bool)
      modifies this`currentPlayer
      requires !failedToMount
      ensures handled <==> shift && exists i :: 0 <= i < |players| && i < |SeatKeys| && SeatKeys[i] == code
      ensures handled ==> exists i :: (0 <= i < |players| && i < |SeatKeys| && SeatKeys[i] == code
        && currentPlayer == players[i].position && forall j :: 0 <= j < i ==> SeatKeys[j] != code)
      ensures !handled ==> currentPlayer == old(currentPlayer)
    {
      var validKeys := Slice(SeatKeys, 0, |players|);
      var n := if |players| < |SeatKeys| then |players| else |SeatKeys|;
      assert validKeys == SeatKeys[..n];
      var idx := IndexOf(validKeys, code);
      if !shift || idx == -1 {
        forall i | 0 <= i < n ensures shift ==> SeatKeys[i] != code {
          assert validKeys[i] == SeatKeys[i];
        }
        return false;
      }
      forall j | 0 <= j <= idx ensures validKeys[j] == SeatKeys[j] {
      }
      currentPlayer := players[idx].position;
      handled := true;
    }

    /** The history panel's `revertTo(n)`: `history.slice(0, n + 1)`. */
    method RevertTo(n: int)
      modifies this`history
      requires !failedToMount
      ensures history == Slice(old(history), 0, n + 1)
      ensures history <= old(history)
      ensures -1 <= n < |old(history)| ==> history == old(history)[..n + 1]
    {
      history := Slice(history, 0, n + 1);
    }
  }

  /** The state of the player at a position in an update, if any. */
  function PlayerOf(u: DraftUpdate, position: int): (r: Option<PlayerState>)
    decreases |u.players|
    ensures r.Some? ==> r.value in u.players && r.value.position == position
    ensures r.Some? ==> exists i :: (0 <= i < |u.players| && r.value == u.players[i]
      && forall j :: 0 <= j < i ==> u.players[j].position != position)
    ensures r.None? ==> forall j :: 0 <= j < |u.players| ==> u.players[j].position != position
  {
    if u.players == [] then None
    else if u.players[0].position == position then Some(u.players[0])
    else
      var rest := DraftUpdate(u.game, u.players[1..], u.messages);
      PlayerOf(rest, position)
  }
}
