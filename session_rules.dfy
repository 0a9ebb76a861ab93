/** The expression-level parts of the development host
    (internal/site/src/App.tsx): the fixed user and colour tables, lookups,
    `getCurrentState`, what `updateUI` decides to do, the seats
    `setNumberAndSeat` adds, the operations of an `updatePlayers` message and
    the `users` list shown to the UI. The host's mutable session is the class
    in module HostSession. */
module SessionRules {
  import opened Wrappers
  import opened HostTypes
  import opened JsRules

  /** The id of the first possible user, who is the host. */
  const HostID: string := "0"

  /** The ten users a development session can hold, as (id, name). */
  const PossibleUsers: seq<(string, string)> := [
    ("0", "Evelyn"), ("1", "Jennifer"), ("2", "Kateryna"), ("3", "Logan"),
    ("4", "Liubika"), ("5", "Aischa"), ("6", "Leilani"), ("7", "Avery"),
    ("8", "Guadalupe"), ("9", "Zvezdelina")]

  const Colors: seq<string> := [
    "#d50000", "#00695c", "#304ffe", "#ff6f00", "#7c4dff",
    "#ffa825", "#f2d330", "#43a047", "#004d40", "#795a4f",
    "#00838f", "#408074", "#448aff", "#1a237e", "#ff4081",
    "#bf360c", "#4a148c", "#aa00ff", "#455a64", "#600020"]

  function AvatarURL(userID: string): string {
    "/_profile/" + userID + ".jpg"
  }

  /** What `String(err)` gives for the TypeError of reading a property of
      `undefined`, for the two properties the host reads. */
  const ReadPositionError: string := "TypeError: Cannot read properties of undefined (reading 'position')"
  const ReadIdError: string := "TypeError: Cannot read properties of undefined (reading 'id')"

  lemma PossibleUsersDistinct()
    ensures forall i, j :: 0 <= i < j < |PossibleUsers| ==> PossibleUsers[i].0 != PossibleUsers[j].0
  {
  }

  /* ---------------------------------------------------------------- lookups */

  /** `findIndex`: the first index whose item satisfies f, or -1. */
  function FirstIndex<T>(xs: seq<T>, f: T -> bool): (i: int)
    ensures -1 <= i < |xs|
    ensures i >= 0 ==> f(xs[i])
    ensures forall j :: 0 <= j < |xs| && (i == -1 || j < i) ==> !f(xs[j])
  {
    if xs == [] then -1
    else if f(xs[0]) then 0
    else
      var k := FirstIndex(xs[1..], f);
      if k == -1 then -1 else k + 1
  }

  /** `find`: the first item satisfying f, if any. */
  function Find<T>(xs: seq<T>, f: T -> bool): (r: Option<T>)
    ensures r.Some? ==> r.value in xs && f(r.value)
    ensures r.Some? ==> exists i :: 0 <= i < |xs| && r.value == xs[i] && f(xs[i]) && forall j :: 0 <= j < i ==> !f(xs[j])
    ensures r.None? <==> forall j :: 0 <= j < |xs| ==> !f(xs[j])
  {
    var i := FirstIndex(xs, f);
    if i == -1 then None else Some(xs[i])
  }

  /** The seated player of the current user (`currentPlayer`). */
  function CurrentPlayer(players: seq<Player>, userID: string): Option<Player> {
    Find(players, (p: Player) => p.id == userID)
  }

  function PlayerAt(players: seq<Player>, position: int): Option<Player> {
    Find(players, (p: Player) => p.position == position)
  }

  /** The state of the player at a position in an update, or undefined. */
  function PlayerStateAt(states: seq<PlayerState>, position: int): Option<Json> {
    var s := Find(states, (p: PlayerState) => p.position == position);
    if s.Some? then Some(s.value.state) else None
  }

  /** `xs[0]`, undefined for an empty list. */
  function Head(xs: seq<int>): Option<int> {
    if xs == [] then None else Some(xs[0])
  }

  /* ------------------------------------------------------ getCurrentState */

  /** `getCurrentState(history)`: the entry at the pin, or at the last index
      when nothing is pinned; the initial state for a negative index. `None`
      is the TypeError of reading `state` from a missing entry or a missing
      initial state. */
  function CurrentState(history: seq<HistoryItem>, pin: Option<int>, initial: Option<InitialStateHistoryItem>): Option<GameUpdate> {
    var idx := if pin.Some? then pin.value else |history| - 1;
    if idx >= 0 then
      (if idx < |history| then Some(history[idx].state) else None)
    else if initial.Some? then Some(initial.value.state)
    else None
  }

  /** The pin `viewHistory(idx)` leaves: none when the last entry is viewed. */
  function PinAfterView(len: nat, idx: int): (pin: Option<int>)
    ensures pin.None? <==> idx == len - 1
    ensures pin.Some? ==> pin.value == idx
  {
    if idx == len - 1 then None else Some(idx)
  }

  /** Unpinned, the session shows its newest state: the last entry, or the
      initial state before any move. */
  lemma CurrentStateUnpinned(history: seq<HistoryItem>, initial: Option<InitialStateHistoryItem>)
    ensures history != [] ==> CurrentState(history, None, initial) == Some(history[|history| - 1].state)
    ensures history == [] ==> CurrentState(history, None, initial) == if initial.Some? then Some(initial.value.state) else None
  {
  }

  /** Viewing an entry makes it the current state, whether or not the pin is
      kept; viewing -1 shows the initial state. */
  lemma ViewedStateIsCurrent(history: seq<HistoryItem>, idx: int, initial: Option<InitialStateHistoryItem>)
    requires -1 <= idx < |history|
    requires idx == -1 ==> initial.Some?
    ensures CurrentState(history, PinAfterView(|history|, idx), initial)
         == Some(if idx == -1 then initial.value.state else history[idx].state)
  {
  }

  /** A pin past the end of the history, which a reset or a shorter replay
      can leave behind, makes the current state unreadable. */
  lemma StalePinUnreadable(history: seq<HistoryItem>, pin: int, initial: Option<InitialStateHistoryItem>)
    requires pin >= |history|
    ensures CurrentState(history, Some(pin), initial).None?
  {
  }

  /* ------------------------------------------------------------- updateUI */

  /** The state `updateUI` closes over when its handler starts. */
  datatype View = View(
    reprocessing: bool,
    players: seq<Player>,
    currentUserID: string,
    autoSwitch: bool,
    requested: Option<string>,
    pin: Option<int>)

  /** What one `updateUI(update)` call does: nothing, post one event, switch
      the current user, or throw. */
  datatype UiOutcome = Quiet | Send(event: Event) | SwitchTo(userID: string) | Crash(error: string)

  function UpdateUI(v: View, update: GameUpdate): (o: UiOutcome)
    ensures v.reprocessing ==> o == Quiet
    ensures !v.reprocessing && CurrentPlayer(v.players, v.currentUserID).None? ==> o == Crash(ReadPositionError)
    ensures o.Send? ==>
      var me := CurrentPlayer(v.players, v.currentUserID).value;
      match update.game
      case Finished(winners, _) =>
        o.event == GameFinishedEvent(me.position, PlayerStateAt(update.players, me.position), winners)
      case Started(current, _) =>
        o.event == GameUpdateEvent(me.position, PlayerStateAt(update.players, me.position), current, v.pin.Some?)
    ensures o.SwitchTo? ==>
      && update.game.Started? && v.autoSwitch && v.requested.None?
      && update.game.currentPlayers != []
      && var p := PlayerAt(v.players, update.game.currentPlayers[0]);
         p.Some? && p.value.id == o.userID
    ensures o.Crash? && CurrentPlayer(v.players, v.currentUserID).Some? ==>
      && o.error == ReadIdError && update.game.Started? && v.autoSwitch && v.requested.None?
      && Head(update.game.currentPlayers) != Some(CurrentPlayer(v.players, v.currentUserID).value.position)
      && (update.game.currentPlayers == [] || PlayerAt(v.players, update.game.currentPlayers[0]).None?)
  {
    if v.reprocessing then Quiet
    else
      var me := CurrentPlayer(v.players, v.currentUserID);
      if me.None? then Crash(ReadPositionError)
      else
        var pos := me.value.position;
        var mine := PlayerStateAt(update.players, pos);
        match update.game
        case Finished(winners, _) => Send(GameFinishedEvent(pos, mine, winners))
        case Started(current, _) =>
          if v.autoSwitch && Head(current) != Some(pos) && v.requested.None? then
            var next := if current == [] then None else PlayerAt(v.players, current[0]);
            if next.None? then Crash(ReadIdError) else SwitchTo(next.value.id)
          else Send(GameUpdateEvent(pos, mine, current, v.pin.Some?))
  }

  /** A running game whose turn is already the current player's is shown to
      that player, read-only exactly when a history entry is pinned. */
  lemma OwnTurnIsShown(v: View, update: GameUpdate)
    requires !v.reprocessing && update.game.Started?
    requires CurrentPlayer(v.players, v.currentUserID).Some?
    requires Head(update.game.currentPlayers) == Some(CurrentPlayer(v.players, v.currentUserID).value.position)
    ensures UpdateUI(v, update).Send?
    ensures UpdateUI(v, update).event.readOnly <==> v.pin.Some?
  {
  }

  /* ------------------------------------------------------ setNumberAndSeat */

  /** The player `setNumberAndSeat` creates for the k-th possible user. */
  function NewPlayer(k: nat): (p: Player)
    requires k < |PossibleUsers|
    ensures p.id == PossibleUsers[k].0 && p.position == k + 1 && p.host == (k == 0)
  {
    var u := PossibleUsers[k];
    Player(u.0, Colors[k], u.1, AvatarURL(u.0), k == 0, k + 1, None)
  }

  /** The players added when the seat count n exceeds the len seated players:
      the possible users len..n-1, as far as there are any. */
  function NewSeats(len: nat, n: int): (r: seq<Player>)
    ensures |r| == |Slice(PossibleUsers, len, n)|
    ensures forall i :: 0 <= i < |r| ==> len + i < |PossibleUsers| && r[i] == NewPlayer(len + i)
  {
    var users := Slice(PossibleUsers, len, n);
    seq(|users|, i requires 0 <= i < |users| => NewPlayer(len + i))
  }

  /** Seats are numbered on from the seated players: the added players hold
      the consecutive positions len+1, len+2, and so on. */
  lemma NewSeatsConsecutive(len: nat, n: int)
    requires len <= n <= |PossibleUsers|
    ensures |NewSeats(len, n)| == n - len
    ensures forall i :: 0 <= i < n - len ==> NewSeats(len, n)[i].position == len + i + 1
  {
  }

  /** `new Map([...readiness, ...entries])` for the entries [id, id !== "0"]
      of the users us: each of their ids is entered, ready unless it is the
      host's, and every other entry is kept. */
  function MarkAll(readiness: map<string, bool>, us: seq<(string, string)>): (r: map<string, bool>)
    ensures forall i :: 0 <= i < |us| ==> us[i].0 in r && r[us[i].0] == (us[i].0 != HostID)
    ensures forall id :: id in readiness ==> id in r
    ensures forall id :: id in r ==> (id in readiness || exists i :: 0 <= i < |us| && us[i].0 == id)
    ensures forall id :: id in readiness && (forall i :: 0 <= i < |us| ==> us[i].0 != id) ==> r[id] == readiness[id]
    decreases |us|
  {
    if us == [] then readiness
    else
      var id := us[0].0;
      var r := MarkAll(readiness[id := id != HostID], us[1..]);
      assert forall i :: 1 <= i < |us| ==> us[i] == us[1..][i - 1];
      r
  }

  /** The readiness map after seating: every possible user from index
      `from` on is entered as ready, except the host, who must confirm. */
  function MarkUsers(readiness: map<string, bool>, from: int): (r: map<string, bool>)
    ensures forall k :: SliceBound(from, |PossibleUsers|) <= k < |PossibleUsers| ==>
      PossibleUsers[k].0 in r && r[PossibleUsers[k].0] == (PossibleUsers[k].0 != HostID)
    ensures forall id :: id in readiness ==> id in r
    ensures forall id :: id in r ==>
      (id in readiness || exists k :: SliceBound(from, |PossibleUsers|) <= k < |PossibleUsers| && PossibleUsers[k].0 == id)
    ensures forall id :: id in readiness && (forall k :: SliceBound(from, |PossibleUsers|) <= k < |PossibleUsers| ==> PossibleUsers[k].0 != id) ==> r[id] == readiness[id]
  {
    var b := SliceBound(from, |PossibleUsers|);
    var us := PossibleUsers[b..];
    assert forall k :: b <= k < |PossibleUsers| ==> PossibleUsers[k] == us[k - b];
    assert forall i :: 0 <= i < |us| ==> us[i] == PossibleUsers[b + i];
    MarkAll(readiness, us)
  }

  /* --------------------------------------------------------- auto-start */

  /** The condition under which the host starts the game by itself. */
  predicate ShouldStart(started: bool, players: seq<Player>, seatCount: int, readiness: map<string, bool>, minPlayers: int) {
    && !started
    && |players| >= minPlayers
    && |players| == seatCount
    && forall i :: 0 <= i < |players| ==> players[i].id in readiness && readiness[players[i].id]
  }

  /* ---------------------------------------------------- updatePlayers */

  /** The players being edited by an `updatePlayers` message, and the last
      readiness change it asked for. */
  datatype Seating = Seating(players: seq<Player>, ready: Option<(string, bool)>)

  /** `players.filter(p => p.id !== id)`. */
  function WithoutUser(players: seq<Player>, id: string): (r: seq<Player>)
    ensures |r| <= |players|
    ensures forall p :: p in r <==> p in players && p.id != id
    ensures forall p :: multiset(r)[p] == if p.id == id then 0 else multiset(players)[p]
  {
    if players == [] then []
    else
      assert players == [players[0]] + players[1..];
      var rest := WithoutUser(players[1..], id);
      if players[0].id == id then rest
      else [players[0]] + rest
  }

  /** The player entry a `seat` operation pushes. */
  function SeatedPlayer(op: PlayerOperation): Player
    requires op.Seat?
  {
    Player(op.userID, op.color, op.name, AvatarURL(op.userID), op.userID == HostID, op.position, None)
  }

  /** A player after an `update`: colour and name when given non-empty,
      settings when given truthy. */
  function Updated(p: Player, op: PlayerOperation): Player
    requires op.Update?
  {
    p.(color := if op.newColor.Some? && op.newColor.value != "" then op.newColor.value else p.color,
       name := if op.newName.Some? && op.newName.value != "" then op.newName.value else p.name,
       settings := if Present(op.settings) then op.settings else p.settings)
  }

  /** One operation, as the loop at lines 588-630 applies it for a caller who
      is the host or the user me. */
  function ApplyOp(host: bool, me: string, s: Seating, op: PlayerOperation): Seating {
    match op
    case Seat(_, userID, _, _, _) =>
      if host || userID == me then s.(players := s.players + [SeatedPlayer(op)]) else s
    case Unseat(userID) =>
      if host || userID == me then s.(players := WithoutUser(s.players, userID)) else s
    case Update(userID, _, _, ready, _) =>
      var i := FirstIndex(s.players, (p: Player) => p.id == userID);
      if i == -1 || (!host && userID != me) then s
      else
        Seating(s.players[i := Updated(s.players[i], op)],
                if ready.Some? then Some((s.players[i].id, ready.value)) else s.ready)
    case OpenSeat(_, _) => s
    case Reserve(_, _, _, _) => s
  }

  /** All operations in order. */
  function ApplyOps(host: bool, me: string, s: Seating, ops: seq<PlayerOperation>): Seating
    decreases |ops|
  {
    if ops == [] then s
    else ApplyOp(host, me, ApplyOps(host, me, s, ops[..|ops| - 1]), ops[|ops| - 1])
  }

  /** The readiness map after the message: only the last readiness change
      survives, laid over the map the handler started from. */
  function Readied(readiness: map<string, bool>, ready: Option<(string, bool)>): (r: map<string, bool>)
    ensures ready.None? ==> r == readiness
    ensures ready.Some? ==> r == readiness[ready.value.0 := ready.value.1]
  {
    if ready.Some? then readiness[ready.value.0 := ready.value.1] else readiness
  }

  /** A seat is taken only on the caller's own behalf or by the host, and
      then exactly one player is appended. */
  lemma SeatAppendsWhenAllowed(host: bool, me: string, s: Seating, op: PlayerOperation)
    requires op.Seat?
    ensures var r := ApplyOp(host, me, s, op).players;
      if host || op.userID == me then r == s.players + [SeatedPlayer(op)] && r[|s.players|].id == op.userID
      else r == s.players
  {
  }

  /** An allowed unseat removes every entry of that user and nothing else. */
  lemma UnseatRemovesEveryEntry(host: bool, me: string, s: Seating, op: PlayerOperation)
    requires op.Unseat? && (host || op.userID == me)
    ensures forall p :: p in ApplyOp(host, me, s, op).players <==> p in s.players && p.id != op.userID
  {
  }

  /** An update changes at most the first entry of that user, and never its
      id or position; a missing or foreign player is skipped. */
  lemma UpdateTouchesOneEntry(host: bool, me: string, s: Seating, op: PlayerOperation)
    requires op.Update?
    ensures var r := ApplyOp(host, me, s, op).players;
      && |r| == |s.players|
      && (forall j :: 0 <= j < |r| ==> r[j].id == s.players[j].id && r[j].position == s.players[j].position)
      && (forall j :: 0 <= j < |r| && r[j] != s.players[j] ==>
            && s.players[j].id == op.userID && (host || op.userID == me)
            && forall k :: 0 <= k < j ==> s.players[k].id != op.userID)
  {
  }

  /** The entries of users other than u, in order. */
  function Others(players: seq<Player>, u: string): seq<Player> {
    WithoutUser(players, u)
  }

  lemma OthersAppend(a: seq<Player>, b: seq<Player>, u: string)
    ensures Others(a + b, u) == Others(a, u) + Others(b, u)
  {
    if a == [] {
      assert a + b == b;
    } else {
      assert (a + b)[1..] == a[1..] + b;
      OthersAppend(a[1..], b, u);
    }
  }

  lemma {:induction false} OthersWithout(players: seq<Player>, u: string)
    ensures Others(WithoutUser(players, u), u) == Others(players, u)
  {
    if players != [] {
      OthersWithout(players[1..], u);
      if players[0].id != u {
        OthersAppend([players[0]], WithoutUser(players[1..], u), u);
      }
    }
  }

  lemma {:induction false} OthersUpdate(players: seq<Player>, i: nat, q: Player, u: string)
    requires i < |players| && players[i].id == u && q.id == u
    ensures Others(players[i := q], u) == Others(players, u)
  {
    if i > 0 {
      OthersUpdate(players[1..], i - 1, q, u);
      assert players[i := q][1..] == players[1..][i - 1 := q];
    } else {
      assert players[i := q][1..] == players[1..];
    }
  }

  /** A caller who is not the host can only seat, unseat or edit themselves:
      whatever operations they send, every other user's entries stay exactly
      as they were, in order. */
  lemma {:induction false} NonHostOnlyTouchesSelf(me: string, s: Seating, ops: seq<PlayerOperation>)
    ensures Others(ApplyOps(false, me, s, ops).players, me) == Others(s.players, me)
    decreases |ops|
  {
    if ops != [] {
      var before := ApplyOps(false, me, s, ops[..|ops| - 1]);
      NonHostOnlyTouchesSelf(me, s, ops[..|ops| - 1]);
      var op := ops[|ops| - 1];
      assert ApplyOps(false, me, s, ops) == ApplyOp(false, me, before, op);
      match op {
        case Seat(_, userID, _, _, _) =>
          if userID == me {
            OthersAppend(before.players, [SeatedPlayer(op)], me);
          }
        case Unseat(userID) =>
          if userID == me {
            OthersWithout(before.players, me);
          }
        case Update(userID, _, _, _, _) =>
          var i := FirstIndex(before.players, (p: Player) => p.id == userID);
          if i != -1 && userID == me {
            OthersUpdate(before.players, i, Updated(before.players[i], op), me);
          }
        case OpenSeat(_, _) =>
        case Reserve(_, _, _, _) =>
      }
    }
  }

  /* ------------------------------------------------------------- users */

  /** `userWithPlayerDetails(user, player)`. */
  function UserDetails(id: string, name: string, player: Option<Player>, readiness: map<string, bool>, host: bool, href: string): (u: User)
    ensures u.id == id && u.avatar == AvatarURL(id)
    ensures u.playerDetails.Some? <==> player.Some?
    ensures player.None? ==> u.name == name
    ensures player.Some? ==>
      && u.name == player.value.name
      && u.playerDetails.value.position == player.value.position
      && u.playerDetails.value.color == player.value.color
      && (u.playerDetails.value.ready <==> id !in readiness || readiness[id])
      && (u.playerDetails.value.sessionURL.Some? <==> host)
  {
    User(id,
         if player.Some? then player.value.name else name,
         AvatarURL(id),
         if player.None? then None
         else Some(PlayerDetails(
           player.value.color, player.value.position,
           if id in readiness then readiness[id] else true,
           player.value.settings,
           if host then Some(href) else None)))
  }

  predicate HasUser(users: seq<User>, id: string) {
    exists i :: 0 <= i < |users| && users[i].id == id
  }

  /** The second half of the `users` memo: each player whose id is not listed
      yet is added with its own details. */
  function AddMissing(users: seq<User>, players: seq<Player>, readiness: map<string, bool>, host: bool, href: string): (r: seq<User>)
    ensures users <= r
    ensures forall k :: |users| <= k < |r| ==> exists p :: (p in players && !HasUser(users, p.id)
      && r[k] == UserDetails(p.id, p.name, Some(p), readiness, host, href))
    decreases |players|
  {
    if players == [] then users
    else
      var p := players[0];
      var next := if HasUser(users, p.id) then users else users + [UserDetails(p.id, p.name, Some(p), readiness, host, href)];
      var r := AddMissing(next, players[1..], readiness, host, href);
      assert forall id :: HasUser(users, id) ==> HasUser(next, id) by {
        forall id | HasUser(users, id) ensures HasUser(next, id) { HasUserPrefix(users, next, id); }
      }
      r
  }

  /** A user listed in a prefix stays listed in the longer list. */
  lemma HasUserPrefix(users: seq<User>, longer: seq<User>, id: string)
    requires users <= longer && HasUser(users, id)
    ensures HasUser(longer, id)
  {
    var i :| 0 <= i < |users| && users[i].id == id;
    assert longer[i] == users[i];
  }

  /** The `users` memo: the first numberOfUsers possible users with their
      seats, then any seated player not among them. */
  function Users(numberOfUsers: int, players: seq<Player>, readiness: map<string, bool>, host: bool, href: string): seq<User> {
    var listed := Slice(PossibleUsers, 0, numberOfUsers);
    var first := seq(|listed|, i requires 0 <= i < |listed| =>
      UserDetails(listed[i].0, listed[i].1, CurrentPlayer(players, listed[i].0), readiness, host, href));
    AddMissing(first, players, readiness, host, href)
  }

  predicate DistinctIds(users: seq<User>) {
    forall i, j :: 0 <= i < j < |users| ==> users[i].id != users[j].id
  }

  lemma {:induction false} AddMissingSpec(users: seq<User>, players: seq<Player>, readiness: map<string, bool>, host: bool, href: string)
    requires DistinctIds(users)
    ensures DistinctIds(AddMissing(users, players, readiness, host, href))
    ensures forall p :: p in players ==> HasUser(AddMissing(users, players, readiness, host, href), p.id)
    decreases |players|
  {
    if players != [] {
      var p := players[0];
      var next := if HasUser(users, p.id) then users else users + [UserDetails(p.id, p.name, Some(p), readiness, host, href)];
      AddMissingSpec(next, players[1..], readiness, host, href);
      var r := AddMissing(next, players[1..], readiness, host, href);
      assert HasUser(next, p.id) by {
        if !HasUser(users, p.id) {
          assert next[|users|].id == p.id;
        }
      }
      assert next <= r;
      var k :| 0 <= k < |next| && next[k].id == p.id;
      assert r[k].id == p.id;
    }
  }

  /** Every user appears once in the list sent to the UI, and every seated
      player is among them. */
  lemma UsersListEachOnce(numberOfUsers: int, players: seq<Player>, readiness: map<string, bool>, host: bool, href: string)
    ensures DistinctIds(Users(numberOfUsers, players, readiness, host, href))
    ensures forall p :: p in players ==> HasUser(Users(numberOfUsers, players, readiness, host, href), p.id)
  {
    var listed := Slice(PossibleUsers, 0, numberOfUsers);
    var first := seq(|listed|, i requires 0 <= i < |listed| =>
      UserDetails(listed[i].0, listed[i].1, CurrentPlayer(players, listed[i].0), readiness, host, href));
    PossibleUsersDistinct();
    assert listed == PossibleUsers[..|listed|];
    assert DistinctIds(first);
    AddMissingSpec(first, players, readiness, host, href);
  }
}
