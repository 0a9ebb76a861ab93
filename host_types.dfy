/** The values the development host passes between the game frame and the UI
    frame (internal/site/src/types.tsx, internal/site/src/types/game.ts and
    internal/site/src/types/ui.ts), and the few JavaScript value rules the
    host's handlers depend on. */
module HostTypes {
  import opened Wrappers

  /** A JSON value as the host sees it after `JSON.parse`. Numbers are kept
      as integers. A missing property (`undefined`) is an `Option` around
      this type, not a case of it. */
  datatype Json =
    | JNull
    | JBool(b: bool)
    | JNum(n: int)
    | JStr(s: string)
    | JArr(items: seq<Json>)
    | JObj(fields: seq<(string, Json)>)

  /** JavaScript truthiness of a present value: `null`, `false`, `0` and the
      empty string are falsy; arrays and objects are truthy even when empty. */
  predicate Truthy(v: Json) {
    match v
    case JNull => false
    case JBool(b) => b
    case JNum(n) => n != 0
    case JStr(s) => s != ""
    case JArr(_) => true
    case JObj(_) => true
  }

  /** Truthiness of a property that may be missing. */
  predicate Present(v: Option<Json>) {
    v.Some? && Truthy(v.value)
  }

  /** The settings object `{}` that a fresh or reset session starts from. */
  const NoSettings: Json := JObj([])

  datatype Player = Player(
    id: string,
    color: string,
    name: string,
    avatar: string,
    host: bool,
    position: int,
    settings: Option<Json>)

  datatype Message = Message(position: int, body: string)

  /** A game is either running, with the positions whose turn it is, or over,
      with its winners. */
  datatype GameState =
    | Started(currentPlayers: seq<int>, state: Json)
    | Finished(winners: seq<int>, state: Json)

  datatype PlayerState = PlayerState(position: int, state: Json)

  datatype GameUpdate = GameUpdate(game: GameState, players: seq<PlayerState>, messages: seq<Message>)

  datatype GameMove = GameMove(position: int, data: Option<Json>)

  datatype SetupState = SetupState(randomSeed: string, players: seq<Player>, settings: Json)

  /** One accepted move: its place in the history, the state it produced, the
      move's own payload and the seat that made it. */
  datatype HistoryItem = HistoryItem(seqNo: int, state: GameUpdate, data: Option<Json>, position: int)

  datatype InitialStateHistoryItem = InitialStateHistoryItem(state: GameUpdate, players: seq<Player>, settings: Json)

  /** What the game frame returns when it replays a list of moves. */
  datatype ReprocessHistoryResult = ReprocessHistoryResult(
    initialState: GameUpdate, updates: seq<GameUpdate>, error: Option<string>)

  datatype PlayerDetails = PlayerDetails(
    color: string, position: int, ready: bool, settings: Option<Json>, sessionURL: Option<string>)

  /** A user as listed to the UI, with the seat details when seated. */
  datatype User = User(id: string, name: string, avatar: string, playerDetails: Option<PlayerDetails>)

  datatype Frame = UIFrame | GameFrame

  /** The events the host posts to the UI frame, plus the frame reloads it
      asks the browser for. */
  datatype Event =
    | UsersEvent(users: seq<User>)
    | GameUpdateEvent(position: int, playerState: Option<Json>, currentPlayers: seq<int>, readOnly: bool)
    | GameFinishedEvent(position: int, playerState: Option<Json>, winners: seq<int>)
    | SettingsUpdate(settings: Json, seatCount: int)
    | MessageProcessed(id: string, error: Option<string>)
    | Reload(frame: Frame)

  /** The operations of an `updatePlayers` message. `openSeat` and `reserve`
      are accepted and ignored by the host. */
  datatype PlayerOperation =
    | Seat(position: int, userID: string, color: string, name: string, settings: Option<Json>)
    | Unseat(userID: string)
    | OpenSeat(position: int, open: bool)
    | Update(userID: string, newColor: Option<string>, newName: Option<string>, ready: Option<bool>, settings: Option<Json>)
    | Reserve(position: int, color: string, name: string, settings: Option<Json>)
}
