/** The development host's session (internal/site/src/App.tsx): one record of
    React state, changed by the message listener's cases and by the history
    panel's callbacks. Each method runs one handler to completion. A handler
    reads the state as it was when it started, as a React closure does, and
    its setters write the fields. A handler that throws stops where it threw
    and reports `crashed`. The game frame's answers (the engine) and the
    replay of a history are function parameters. Events for the UI frame are
    appended to `outbox`. */
module HostSession {
  import opened Wrappers
  import opened HostTypes
  import opened JsRules
  import opened ArraySearch
  import opened SessionRules

  datatype Phase = NewGame | StartedGame

  /** History entries are numbered 0, 1, 2, ... in order. */
  predicate Contiguous(history: seq<HistoryItem>) {
    forall i :: 0 <= i < |history| ==> history[i].seqNo == i
  }

  /** The state a move is played against: the newest entry, or the initial
      state while the history is empty; `None` when that is missing. */
  function PreviousState(history: seq<HistoryItem>, initial: Option<InitialStateHistoryItem>): (r: Option<GameUpdate>)
    ensures r.None? <==> history == [] && initial.None?
    ensures history != [] ==> r == CurrentState(history, None, initial)
  {
    if history != [] then Some(history[|history| - 1].state)
    else if initial.Some? then Some(initial.value.state)
    else None
  }

  /** What the game frame answers to `processMove`. */
  type Engine = (GameState, GameMove) -> Result<GameUpdate, string>

  /** What the game frame answers to `sendInitialState`. */
  type Initializer = SetupState -> GameUpdate

  /** What the game frame answers when it replays a list of moves. */
  type Replay = (SetupState, seq<GameMove>) -> ReprocessHistoryResult

  /** The engine call inside the move handler's `try`: reading the position
      of a missing current player throws there, as does the engine. */
  function Attempt(engine: Engine, previous: GameUpdate, me: Option<Player>, data: Option<Json>): (r: Result<GameUpdate, string>)
    ensures me.None? ==> r == Err(ReadPositionError)
    ensures me.Some? ==> r == engine(previous.game, GameMove(me.value.position, data))
  {
    if me.None? then Err(ReadPositionError) else engine(previous.game, GameMove(me.value.position, data))
  }

  /** What the move handler does after acknowledging an accepted move: switch
      to the player whose turn it now is, or show the update. */
  function MoveFollowUp(v: View, position: int, update: GameUpdate): UiOutcome {
    if update.game.Started? && v.autoSwitch && Head(update.game.currentPlayers) != Some(position) then
      var next := if update.game.currentPlayers == [] then None else PlayerAt(v.players, update.game.currentPlayers[0]);
      if next.None? then Crash(ReadIdError) else SwitchTo(next.value.id)
    else UpdateUI(v, update)
  }

  /** An accepted move is acknowledged a second time, with an error, exactly
      when the turn passes to a position no seated player holds; otherwise
      the follow-up switches the user or shows the update. */
  lemma MoveFollowUpOutcome(v: View, position: int, update: GameUpdate)
    requires !v.reprocessing
    requires CurrentPlayer(v.players, v.currentUserID).Some?
    requires CurrentPlayer(v.players, v.currentUserID).value.position == position
    ensures MoveFollowUp(v, position, update).Crash? <==>
      && update.game.Started? && v.autoSwitch && Head(update.game.currentPlayers) != Some(position)
      && (update.game.currentPlayers == [] || PlayerAt(v.players, update.game.currentPlayers[0]).None?)
    ensures MoveFollowUp(v, position, update).Crash? ==> MoveFollowUp(v, position, update).error == ReadIdError
    ensures MoveFollowUp(v, position, update).Quiet? == false
  {
  }

  /** The moves of a history, in order (the argument of `reprocessHistory`). */
  function MovesOf(history: seq<HistoryItem>): (moves: seq<GameMove>)
    ensures |moves| == |history|
    ensures forall i :: 0 <= i < |history| ==> moves[i] == GameMove(history[i].position, history[i].data)
  {
    seq(|history|, i requires 0 <= i < |history| => GameMove(history[i].position, history[i].data))
  }

  /** The history rebuilt from replayed updates: entry i keeps the move of
      old entry i and takes the i-th update as its state. */
  function Rebuilt(history: seq<HistoryItem>, updates: seq<GameUpdate>): (r: seq<HistoryItem>)
    requires |updates| <= |history|
    ensures |r| == |updates|
    ensures forall i :: 0 <= i < |r| ==> r[i] == HistoryItem(i, updates[i], history[i].data, history[i].position)
  {
    seq(|updates|, i requires 0 <= i < |updates| => HistoryItem(i, updates[i], history[i].data, history[i].position))
  }

  /** A rebuilt history is numbered from 0, and replaying it again replays
      the same moves as the prefix it came from. */
  lemma RebuiltReplaysSameMoves(history: seq<HistoryItem>, updates: seq<GameUpdate>)
    requires |updates| <= |history|
    ensures Contiguous(Rebuilt(history, updates))
    ensures MovesOf(Rebuilt(history, updates)) == MovesOf(history)[..|updates|]
  {
  }

  /** Reverting keeps a prefix, so the numbering stays contiguous; for
      idx >= -1 the prefix holds the entries 0..idx. */
  lemma RevertKeepsPrefix(history: seq<HistoryItem>, idx: int)
    requires Contiguous(history)
    ensures Slice(history, 0, idx + 1) <= history
    ensures Contiguous(Slice(history, 0, idx + 1))
    ensures -1 <= idx < |history| ==> Slice(history, 0, idx + 1) == history[..idx + 1]
  {
  }

  /** The shift-digit keys, in the order of the seats they select. */
  const DigitKeys: seq<string> := [
    "Digit1", "Digit2", "Digit3", "Digit4", "Digit5",
    "Digit6", "Digit7", "Digit8", "Digit9", "Digit0"]

  /** What a key code asks the host to do. */
  datatype KeyAction = ToggleSaves | ToggleFullScreen | ReloadFrames | Select(seat: nat) | Ignore

  function KeyFor(code: string): (a: KeyAction)
    ensures code == "KeyS" ==> a == ToggleSaves
    ensures code == "KeyF" ==> a == ToggleFullScreen
    ensures code == "KeyR" ==> a == ReloadFrames
    ensures a.Select? <==> code in DigitKeys
    ensures a.Select? ==> a.seat == IndexOf(DigitKeys, code) && DigitKeys[a.seat] == code
    ensures a.Ignore? <==> code !in ["KeyS", "KeyF", "KeyR"] && code !in DigitKeys
  {
    if code == "KeyS" then ToggleSaves
    else if code == "KeyF" then ToggleFullScreen
    else if code == "KeyR" then ReloadFrames
    else if code in DigitKeys then Select(IndexOf(DigitKeys, code))
    else Ignore
  }

  class Session {
    var phase: Phase
    var settings: Json
    var seatCount: int
    var numberOfUsers: int
    var players: seq<Player>
    var playerReadiness: map<string, bool>
    var history: seq<HistoryItem>
    var historyPin: Option<int>
    var initialState: Option<InitialStateHistoryItem>
    var currentUserID: string
    var currentUserIDRequested: Option<string>
    var autoSwitch: bool
    var reprocessing: bool
    var saveStatesOpen: bool
    var fullScreen: bool
    /** The events posted to the UI frame and the frame reloads, oldest first. */
    var outbox: seq<Event>
    /** The game's minimum player count, read from the page. */
    const minPlayers: int
    /** The page's own address, shown to the host as the session URL. */
    const href: string

    constructor (minPlayers: int, href: string)
      ensures this.minPlayers == minPlayers && this.href == href
      ensures phase == NewGame && settings == NoSettings && seatCount == 0 && numberOfUsers == 0
      ensures players == [] && playerReadiness == map[] && history == [] && historyPin.None?
      ensures initialState.None? && currentUserID == HostID && currentUserIDRequested.None?
      ensures autoSwitch && !reprocessing && !saveStatesOpen && !fullScreen && outbox == []
    {
      this.minPlayers := minPlayers;
      this.href := href;
      phase := NewGame;
      settings := NoSettings;
      seatCount := 0;
      numberOfUsers := 0;
      players := [];
      playerReadiness := map[];
      history := [];
      historyPin := None;
      initialState := None;
      currentUserID := HostID;
      currentUserIDRequested := None;
      autoSwitch := true;
      reprocessing := false;
      saveStatesOpen := false;
      fullScreen := false;
      outbox := [];
    }

    predicate Valid()
      reads this
    {
      Contiguous(history)
    }

    /** The current user is the host. */
    function Host(): bool
      reads this
    {
      currentUserID == HostID
    }

    /** The state `updateUI` sees, as of now. */
    function Closure(): View
      reads this
    {
      View(reprocessing, players, currentUserID, autoSwitch, currentUserIDRequested, historyPin)
    }

    /** The `users` list, as of now. */
    function UserList(): seq<User>
      reads this
    {
      Users(numberOfUsers, players, playerReadiness, Host(), href)
    }

    /** Carries out what `updateUI` decided; a throw changes nothing more. */
    method Perform(o: UiOutcome) returns (crashed: bool)
      modifies this`outbox, this`currentUserID
      ensures crashed <==> o.Crash?
      ensures o.Send? ==> outbox == old(outbox) + [o.event] && currentUserID == old(currentUserID)
      ensures o.SwitchTo? ==> currentUserID == o.userID && outbox == old(outbox)
      ensures o.Quiet? || o.Crash? ==> outbox == old(outbox) && currentUserID == old(currentUserID)
    {
      crashed := false;
      match o {
        case Quiet =>
        case Send(e) => outbox := outbox + [e];
        case SwitchTo(u) => currentUserID := u;
        case Crash(_) => crashed := true;
      }
    }

    /** `setNumberAndSeat(n)`, closing over the settings value `shown`. */
    method SetNumberAndSeat(n: int, shown: Json)
      modifies this`seatCount, this`numberOfUsers, this`players, this`playerReadiness, this`outbox
      ensures seatCount == n
      ensures numberOfUsers == if n > old(numberOfUsers) then n else old(numberOfUsers)
      ensures n > |old(players)| ==>
        && players == old(players) + NewSeats(|old(players)|, n)
        && playerReadiness == MarkUsers(old(playerReadiness), old(numberOfUsers))
        && outbox == old(outbox) + [SettingsUpdate(shown, n)]
      ensures n <= |old(players)| ==>
        players == old(players) && playerReadiness == old(playerReadiness) && outbox == old(outbox)
    {
      var len := |players|;
      var users := numberOfUsers;
      seatCount := n;
      numberOfUsers := if n > users then n else users;
      if n > len {
        players := players + NewSeats(len, n);
        playerReadiness := MarkUsers(playerReadiness, users);
        outbox := outbox + [SettingsUpdate(shown, n)];
      }
    }

    /** The effect that seats the minimum number of players in a session
      that has no users yet. */
    method Bootstrap()
      modifies this`seatCount, this`numberOfUsers, this`players, this`playerReadiness, this`outbox
      ensures old(numberOfUsers) != 0 ==>
        seatCount == old(seatCount) && numberOfUsers == old(numberOfUsers) && players == old(players)
        && playerReadiness == old(playerReadiness) && outbox == old(outbox)
      ensures old(numberOfUsers) == 0 ==>
        && seatCount == minPlayers
        && numberOfUsers == (if minPlayers > 0 then minPlayers else 0)
      ensures old(numberOfUsers) == 0 && minPlayers > |old(players)| ==>
        && players == old(players) + NewSeats(|old(players)|, minPlayers)
        && playerReadiness == MarkUsers(old(playerReadiness), 0)
        && outbox == old(outbox) + [SettingsUpdate(settings, minPlayers)]
      ensures old(numberOfUsers) == 0 && minPlayers <= |old(players)| ==>
        players == old(players) && playerReadiness == old(playerReadiness) && outbox == old(outbox)
    {
      if numberOfUsers == 0 {
        SetNumberAndSeat(minPlayers, settings);
      }
    }

    /** The `updateSettings` case: ignored unless the host sent it; otherwise
      the settings are replaced, the seats follow the new count, and the
      message is acknowledged. The seating event carries the settings as
      they were when the handler started. */
    method UpdateSettings(id: string, newSettings: Json, n: int)
      modifies this`settings, this`seatCount, this`numberOfUsers, this`players, this`playerReadiness, this`outbox
      ensures !old(Host()) ==>
        settings == old(settings) && seatCount == old(seatCount) && numberOfUsers == old(numberOfUsers)
        && players == old(players) && playerReadiness == old(playerReadiness) && outbox == old(outbox)
      ensures old(Host()) ==>
        && settings == newSettings && seatCount == n
        && numberOfUsers == (if n > old(numberOfUsers) then n else old(numberOfUsers))
        && players == old(players) + (if n > |old(players)| then NewSeats(|old(players)|, n) else [])
        && playerReadiness == (if n > |old(players)| then MarkUsers(old(playerReadiness), old(numberOfUsers))
                               else old(playerReadiness))
        && outbox == old(outbox) + (if n > |old(players)| then [SettingsUpdate(old(settings), n)] else [])
                     + [MessageProcessed(id, None)]
    {
      if !Host() {
        return;
      }
      var shown := settings;
      settings := newSettings;
      SetNumberAndSeat(n, shown);
      outbox := outbox + [MessageProcessed(id, None)];
    }

    /** The `move` case. */
    method Move(id: string, data: Option<Json>, engine: Engine) returns (crashed: bool)
      modifies this`history, this`historyPin, this`outbox, this`currentUserIDRequested, this`currentUserID
      ensures old(Valid()) ==> Valid()
      ensures crashed <==> PreviousState(old(history), old(initialState)).None?
      // a missing or finished previous state: no entry and no acknowledgement
      ensures var prev := PreviousState(old(history), old(initialState));
        prev.None? || prev.value.game.Finished? ==>
          history == old(history) && historyPin == old(historyPin) && outbox == old(outbox)
          && currentUserIDRequested == old(currentUserIDRequested) && currentUserID == old(currentUserID)
      ensures var prev := PreviousState(old(history), old(initialState));
        prev.Some? && prev.value.game.Started? ==>
        var me := CurrentPlayer(old(players), old(currentUserID));
        var r := Attempt(engine, prev.value, me, data);
        && |outbox| > |old(outbox)|
        && outbox[..|old(outbox)| + 1] == old(outbox) + [MessageProcessed(id, if r.Err? then Some(r.error) else None)]
        // a rejected move: the acknowledgement carries the error, nothing else changes
        && (r.Err? ==>
              history == old(history) && historyPin == old(historyPin) && |outbox| == |old(outbox)| + 1
              && currentUserIDRequested == old(currentUserIDRequested) && currentUserID == old(currentUserID))
        // an accepted move: one new entry, the pin and the user request cleared
        && (r.Ok? ==>
              && history == old(history) + [HistoryItem(|old(history)|, r.value, data, me.value.position)]
              && historyPin.None? && currentUserIDRequested.None?
              && var o := MoveFollowUp(old(Closure()), me.value.position, r.value);
                 && (o.Send? ==> outbox == old(outbox) + [MessageProcessed(id, None), o.event] && currentUserID == old(currentUserID))
                 && (o.SwitchTo? ==> outbox == old(outbox) + [MessageProcessed(id, None)] && currentUserID == o.userID)
                 && (o.Crash? ==>
                       outbox == old(outbox) + [MessageProcessed(id, None), MessageProcessed(id, Some(o.error))]
                       && currentUserID == old(currentUserID))
                 && (o.Quiet? ==> outbox == old(outbox) + [MessageProcessed(id, None)] && currentUserID == old(currentUserID)))
    {
      var view := Closure();
      var previous := PreviousState(history, initialState);
      if previous.None? {
        // `initialState!.state` throws before the `try`
        return true;
      }
      crashed := false;
      if previous.value.game.Finished? {
        return;
      }
      var me := CurrentPlayer(players, currentUserID);
      var result := Attempt(engine, previous.value, me, data);
      if result.Err? {
        outbox := outbox + [MessageProcessed(id, Some(result.error))];
        return;
      }
      Accept(id, data, result.value, me.value.position, view);
    }

    /** An accepted move: the entry is appended, the pin and the user request
      cleared, the move acknowledged, and its follow-up performed. */
    method Accept(id: string, data: Option<Json>, update: GameUpdate, position: int, view: View)
      modifies this`history, this`historyPin, this`outbox, this`currentUserIDRequested, this`currentUserID
      ensures history == old(history) + [HistoryItem(|old(history)|, update, data, position)]
      ensures old(Valid()) ==> Valid()
      ensures historyPin.None? && currentUserIDRequested.None?
      ensures var o := MoveFollowUp(view, position, update);
        && (o.Send? ==> outbox == old(outbox) + [MessageProcessed(id, None), o.event] && currentUserID == old(currentUserID))
        && (o.SwitchTo? ==> outbox == old(outbox) + [MessageProcessed(id, None)] && currentUserID == o.userID)
        && (o.Crash? ==>
              outbox == old(outbox) + [MessageProcessed(id, None), MessageProcessed(id, Some(o.error))]
              && currentUserID == old(currentUserID))
        && (o.Quiet? ==> outbox == old(outbox) + [MessageProcessed(id, None)] && currentUserID == old(currentUserID))
    {
      history := history + [HistoryItem(|history|, update, data, position)];
      historyPin := None;
      outbox := outbox + [MessageProcessed(id, None)];
      currentUserIDRequested := None;
      FollowUp(id, MoveFollowUp(view, position, update));
    }

    /** What follows a move's acknowledgement: the update shown, the player
      switched, or the switch's throw caught and acknowledged as an error. */
    method FollowUp(id: string, o: UiOutcome)
      modifies this`outbox, this`currentUserID
      ensures o.Send? ==> outbox == old(outbox) + [o.event] && currentUserID == old(currentUserID)
      ensures o.SwitchTo? ==> outbox == old(outbox) && currentUserID == o.userID
      ensures o.Crash? ==> outbox == old(outbox) + [MessageProcessed(id, Some(o.error))] && currentUserID == old(currentUserID)
      ensures o.Quiet? ==> outbox == old(outbox) && currentUserID == old(currentUserID)
    {
      match o {
        case Quiet =>
        case Send(e) => outbox := outbox + [e];
        case SwitchTo(u) => currentUserID := u;
        case Crash(err) => outbox := outbox + [MessageProcessed(id, Some(err))];
      }
    }

    /** The `ready` case: before the game starts, the setup and the users are
      sent; afterwards the current state is shown. */
    method Ready() returns (crashed: bool)
      modifies this`outbox, this`currentUserID
      ensures old(initialState).None? ==>
        !crashed && currentUserID == old(currentUserID)
        && outbox == old(outbox) + [SettingsUpdate(settings, seatCount), UsersEvent(old(UserList()))]
      ensures old(initialState).Some? ==>
        var s := CurrentState(history, historyPin, initialState);
        && (s.None? ==> crashed && outbox == old(outbox) && currentUserID == old(currentUserID))
        && (s.Some? ==>
              var o := UpdateUI(old(Closure()), s.value);
              && (crashed <==> o.Crash?)
              && (o.Send? ==> outbox == old(outbox) + [o.event])
              && (o.SwitchTo? ==> currentUserID == o.userID && outbox == old(outbox))
              && (!o.Send? ==> outbox == old(outbox)))
    {
      if initialState.None? {
        outbox := outbox + [SettingsUpdate(settings, seatCount), UsersEvent(UserList())];
        return false;
      }
      var s := CurrentState(history, historyPin, initialState);
      if s.None? {
        return true;
      }
      crashed := Perform(UpdateUI(Closure(), s.value));
    }

    /** The `updatePlayers` case: the operations are applied one by one to a
      copy of the players, each checked against the caller, and the message
      is acknowledged once at the end. */
    method UpdatePlayers(id: string, ops: seq<PlayerOperation>)
      modifies this`players, this`playerReadiness, this`outbox
      ensures var r := ApplyOps(old(Host()), old(currentUserID), Seating(old(players), None), ops);
        && players == r.players
        && playerReadiness == Readied(old(playerReadiness), r.ready)
      ensures outbox == old(outbox) + [MessageProcessed(id, None)]
    {
      var host := Host();
      var me := currentUserID;
      var newPlayers := players;
      var ready: Option<(string, bool)> := None;
      for i := 0 to |ops|
        invariant Seating(newPlayers, ready) == ApplyOps(host, me, Seating(players, None), ops[..i])
      {
        var op := ops[i];
        assert ops[..i + 1][..i] == ops[..i];
        match op {
          case Seat(_, userID, _, _, _) =>
            if host || userID == me {
              newPlayers := newPlayers + [SeatedPlayer(op)];
            }
          case Unseat(userID) =>
            if host || userID == me {
              newPlayers := WithoutUser(newPlayers, userID);
            }
          case Update(userID, _, _, r, _) =>
            var k := FirstIndex(newPlayers, (p: Player) => p.id == userID);
            if k != -1 && (host || userID == me) {
              var p := newPlayers[k];
              newPlayers := newPlayers[k := Updated(p, op)];
              if r.Some? {
                ready := Some((p.id, r.value));
              }
            }
          case OpenSeat(_, _) =>
          case Reserve(_, _, _, _) =>
        }
      }
      assert ops[..|ops|] == ops;
      players := newPlayers;
      playerReadiness := Readied(playerReadiness, ready);
      outbox := outbox + [MessageProcessed(id, None)];
    }

    /** `processKey(code)`: S and F toggle panels, R reloads both frames, and
      a digit selects the user of that seat. A digit beyond the seated
      players throws. */
    method ProcessKey(code: string) returns (handled: bool, crashed: bool)
      modifies this`saveStatesOpen, this`fullScreen, this`outbox, this`currentUserID
      ensures var action := KeyFor(code);
        && (handled <==> !action.Ignore?)
        && (crashed <==> action.Select? && action.seat >= |players|)
        && saveStatesOpen == (if action.ToggleSaves? then !old(saveStatesOpen) else old(saveStatesOpen))
        && fullScreen == (if action.ToggleFullScreen? then !old(fullScreen) else old(fullScreen))
        && outbox == old(outbox) + (if action.ReloadFrames? then [Reload(UIFrame), Reload(GameFrame)] else [])
        && currentUserID == if action.Select? && !crashed then players[action.seat].id else old(currentUserID)
    {
      handled, crashed := true, false;
      var action := KeyFor(code);
      match action {
        case ToggleSaves => saveStatesOpen := !saveStatesOpen;
        case ToggleFullScreen => fullScreen := !fullScreen;
        case ReloadFrames => outbox := outbox + [Reload(UIFrame), Reload(GameFrame)];
        case Select(seat) => crashed := SelectSeat(code, seat);
        case Ignore => handled := false;
      }
    }

    /** The digit case: the seat is looked up among the keys of the seated
      players only. */
    method SelectSeat(code: string, seat: nat) returns (crashed: bool)
      requires code in DigitKeys && seat == IndexOf(DigitKeys, code)
      modifies this`currentUserID
      ensures crashed <==> seat >= |players|
      ensures currentUserID == if crashed then old(currentUserID) else players[seat].id
    {
      var validKeys := Slice(DigitKeys, 0, |players|);
      SliceFromFront(DigitKeys, |players|);
      var idx := IndexOf(validKeys, code);
      DigitIndex(validKeys, code);
      if idx == -1 {
        crashed := true;
      } else {
        crashed := false;
        currentUserID := players[idx].id;
      }
    }

    /** The i-th valid key is the i-th digit key, so looking a digit up among
      the valid keys finds its own seat, or nothing past the seated players. */
    static lemma DigitIndex(validKeys: seq<string>, code: string)
      requires validKeys <= DigitKeys && code in DigitKeys
      ensures var k := IndexOf(DigitKeys, code);
        IndexOf(validKeys, code) == if k < |validKeys| then k else -1
    {
    }

    /** `viewHistory(idx)`: the pin moves to idx (cleared on the last entry)
      and the viewed state is shown. The history is not touched, and the
      event is marked read-only by the pin the handler started with. */
    method ViewHistory(idx: int) returns (crashed: bool)
      modifies this`historyPin, this`outbox, this`currentUserID
      ensures historyPin == PinAfterView(|history|, idx)
      ensures var target := if idx == -1 then (if initialState.Some? then Some(initialState.value.state) else None)
                            else if 0 <= idx < |history| then Some(history[idx].state) else None;
        && (target.None? ==> crashed && outbox == old(outbox) && currentUserID == old(currentUserID))
        && (target.Some? ==>
              var o := UpdateUI(old(Closure()), target.value);
              && (crashed <==> o.Crash?)
              && (o.Send? ==> outbox == old(outbox) + [o.event])
              && (o.SwitchTo? ==> currentUserID == o.userID)
              && (!o.Send? ==> outbox == old(outbox)))
    {
      var view := Closure();
      historyPin := PinAfterView(|history|, idx);
      var target := ViewedState(history, initialState, idx);
      if target.None? {
        return true;
      }
      crashed := Perform(UpdateUI(view, target.value));
    }

    /** The state shown for entry idx of h (the initial state for -1);
      `None` is the TypeError of reading a missing one. */
    static function ViewedState(h: seq<HistoryItem>, initial: Option<InitialStateHistoryItem>, idx: int): Option<GameUpdate> {
      if idx == -1 then (if initial.Some? then Some(initial.value.state) else None)
      else if 0 <= idx < |h| then Some(h[idx].state)
      else None
    }

    /** `revertTo(idx)`: the history is cut to `slice(0, idx + 1)`, the pin is
      cleared and the state of entry idx (before the cut) is shown. */
    method RevertTo(idx: int) returns (crashed: bool)
      modifies this`history, this`historyPin, this`outbox, this`currentUserID
      ensures history == Slice(old(history), 0, idx + 1)
      ensures historyPin.None?
      ensures old(Valid()) ==> Valid()
      ensures var target := ViewedState(old(history), initialState, idx);
        && (target.None? ==> crashed && outbox == old(outbox) && currentUserID == old(currentUserID))
        && (target.Some? ==>
              var o := UpdateUI(old(Closure()), target.value);
              && (crashed <==> o.Crash?)
              && (o.Send? ==> outbox == old(outbox) + [o.event])
              && (o.SwitchTo? ==> currentUserID == o.userID)
              && (!o.Send? ==> outbox == old(outbox)))
    {
      var view := Closure();
      var h := history;
      if Contiguous(h) {
        RevertKeepsPrefix(h, idx);
      }
      history := Slice(h, 0, idx + 1);
      historyPin := None;
      var target := ViewedState(h, initialState, idx);
      if target.None? {
        return true;
      }
      crashed := Perform(UpdateUI(view, target.value));
    }

    /** `reprocessCurrentHistory`: without an initial state nothing happens.
      Otherwise the moves are replayed from the same setup and the history
      is rebuilt from the updates. More updates than entries throws while
      rebuilding and leaves the session marked as reprocessing. */
    method Reprocess(randomSeed: string, replay: Replay) returns (crashed: bool)
      modifies this`reprocessing, this`initialState, this`history
      ensures old(initialState).None? ==>
        !crashed && reprocessing == old(reprocessing) && initialState == old(initialState) && history == old(history)
      ensures old(initialState).Some? ==>
        var result := replay(SetupState(randomSeed, players, settings), MovesOf(old(history)));
        && (crashed <==> |result.updates| > |old(history)|)
        && (crashed ==> reprocessing && initialState == old(initialState) && history == old(history))
        && (!crashed ==>
              && !reprocessing
              && initialState == Some(old(initialState).value.(state := result.initialState))
              && history == Rebuilt(old(history), result.updates))
      ensures old(Valid()) ==> Valid()
    {
      if initialState.None? {
        return false;
      }
      reprocessing := true;
      var result := replay(SetupState(randomSeed, players, settings), MovesOf(history));
      if |result.updates| > |history| {
        return true;
      }
      crashed := false;
      var rebuilt := Rebuilt(history, result.updates);
      RebuiltReplaysSameMoves(history, result.updates);
      reprocessing := false;
      initialState := Some(initialState.value.(state := result.initialState));
      history := rebuilt;
    }

    /** `resetGame`: back to a new game with no players, history or initial
      state, the host as current user, and both frames reloaded. The pin, the
      seat count and the readiness map are left as they were. */
    method ResetGame()
      modifies this`phase, this`settings, this`initialState, this`history, this`players, this`currentUserID, this`outbox
      ensures phase == NewGame && settings == NoSettings && initialState.None? && history == []
      ensures players == [] && currentUserID == HostID
      ensures outbox == old(outbox) + [Reload(UIFrame), Reload(GameFrame)]
      ensures Valid()
    {
      phase := NewGame;
      settings := NoSettings;
      initialState := None;
      history := [];
      players := [];
      currentUserID := HostID;
      outbox := outbox + [Reload(UIFrame), Reload(GameFrame)];
    }

    /** The auto-start effect and `start`: when every seat is filled by a
      ready player in a new game, the game frame builds the initial state
      from the seed, players and settings, the game is marked started and
      the initial state is shown. The history is not cleared. */
    method AutoStart(randomSeed: string, initialize: Initializer) returns (started: bool, crashed: bool)
      modifies this`initialState, this`phase, this`outbox, this`currentUserID
      ensures started <==> ShouldStart(old(phase) == StartedGame, players, seatCount, playerReadiness, minPlayers)
      ensures !started ==>
        !crashed && initialState == old(initialState) && phase == old(phase)
        && outbox == old(outbox) && currentUserID == old(currentUserID)
      ensures started ==>
        var update := initialize(SetupState(randomSeed, players, settings));
        var o := UpdateUI(old(Closure()), update);
        && initialState == Some(InitialStateHistoryItem(update, players, settings))
        && phase == StartedGame
        && (crashed <==> o.Crash?)
        && (o.Send? ==> outbox == old(outbox) + [o.event])
        && (o.SwitchTo? ==> currentUserID == o.userID)
        && (!o.Send? ==> outbox == old(outbox))
    {
      started := ShouldStart(phase == StartedGame, players, seatCount, playerReadiness, minPlayers);
      crashed := false;
      if !started {
        return;
      }
      var view := Closure();
      var update := initialize(SetupState(randomSeed, players, settings));
      initialState := Some(InitialStateHistoryItem(update, players, settings));
      phase := StartedGame;
      crashed := Perform(UpdateUI(view, update));
    }
  }
}
