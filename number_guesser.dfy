/** The number-guesser reference engine (number-guesser/game/src/index.ts and
    its compiled twin number-guesser/game/build/index.js): players take turns
    guessing a fixed number; a wrong guess passes the turn to the next seat,
    a right guess ends the game with the guesser as winner. */
module NumberGuesser {
  import opened Wrappers
  import opened Decimal
  import ArraySearch

  datatype Player = Player(position: int, name: string, color: string)

  /** The engine's `currentPlayer`: a seat position, or the two non-positions
      JavaScript can put there: `Math.min()` of no positions is Infinity, and
      indexing an empty array yields `undefined`. Neither equals any position. */
  datatype Turn = Seat(pos: int) | Infinity | Undefined

  datatype GameState = GameState(
    currentPlayer: Turn,
    players: seq<Player>,
    number: int,
    finished: bool,
    move: int,
    winner: Option<int>)

  datatype PlayerState = PlayerState(position: int, winner: Option<int>, currentPlayer: Turn, move: int)

  datatype Message = Message(position: int, body: string)

  datatype GameUpdate = GameUpdate(game: GameState, players: seq<PlayerState>, messages: seq<Message>)

  /** A move as the engine receives it. The TypeScript source reads the guess
      from `move.data.number`, the compiled build from `move.number`; `None`
      stands for a missing field or one that holds something other than a
      number, which `===` never equates with the target. */
  datatype GuessData = GuessData(number: Option<int>)
  datatype GuessMove = GuessMove(data: Option<GuessData>, number: Option<int>)

  /** The number every game asks for. */
  const Target: int := 5

  const NotYourTurn: string := "not your turn"
  const MissingData: string := "TypeError: Cannot read properties of undefined (reading 'number')"

  function Positions(players: seq<Player>): (ps: seq<int>)
    ensures |ps| == |players|
    ensures forall i :: 0 <= i < |ps| ==> ps[i] == players[i].position
  {
    if players == [] then [] else [players[0].position] + Positions(players[1..])
  }

  /** `Math.min(...positions)`. */
  function MinPosition(ps: seq<int>): (t: Turn)
    ensures ps == [] <==> t == Infinity
    ensures t.Seat? ==> t.pos in ps && forall i :: 0 <= i < |ps| ==> t.pos <= ps[i]
  {
    if ps == [] then Infinity
    else
      var head := ps[0];
      match MinPosition(ps[1..])
      case Seat(m) => if head <= m then Seat(head) else Seat(m)
      case _ => Seat(head)
  }

  /** The game state and every player's view of it: each player state carries
      the game's current player, winner and move count. */
  function Project(s: GameState): (u: GameUpdate)
    ensures u.game == s && u.messages == []
    ensures |u.players| == |s.players|
    ensures forall i :: 0 <= i < |u.players| ==>
      u.players[i] == PlayerState(s.players[i].position, s.winner, s.currentPlayer, s.move)
  {
    GameUpdate(s, seq(|s.players|, i requires 0 <= i < |s.players| =>
      PlayerState(s.players[i].position, s.winner, s.currentPlayer, s.move)), [])
  }

  /** `initialState(players, setup)`: the lowest position moves first, nobody
      has won, no move has been made; one player state per player, in order. */
  function InitialState(players: seq<Player>): (u: GameUpdate)
    ensures u.game.players == players && u.game.number == Target
    ensures !u.game.finished && u.game.move == 0 && u.game.winner == None
    ensures players == [] ==> u.game.currentPlayer == Infinity
    ensures players != [] ==>
      && u.game.currentPlayer.Seat?
      && u.game.currentPlayer.pos in Positions(players)
      && forall i :: 0 <= i < |players| ==> u.game.currentPlayer.pos <= players[i].position
    ensures |u.players| == |players| && u.messages == []
    ensures forall i :: 0 <= i < |players| ==>
      u.players[i] == PlayerState(players[i].position, None, u.game.currentPlayer, 0)
  {
    Project(GameState(MinPosition(Positions(players)), players, Target, false, 0, None))
  }

  // ---------------------------------------------------------------------
  // JavaScript's default `sort()`: elements are compared as strings.

  /** String order by UTF-16 code units; characters of decimal spellings are
      all single code units. */
  predicate StrLe(a: string, b: string)
    decreases |a|
  {
    a == [] || (b != [] && (a[0] < b[0] || (a[0] == b[0] && StrLe(a[1..], b[1..]))))
  }

  lemma {:induction false} StrLeTotal(a: string, b: string)
    ensures StrLe(a, b) || StrLe(b, a)
    decreases |a|
  {
    if a != [] && b != [] && a[0] == b[0] {
      StrLeTotal(a[1..], b[1..]);
    }
  }

  lemma {:induction false} StrLeTransitive(a: string, b: string, c: string)
    requires StrLe(a, b) && StrLe(b, c)
    ensures StrLe(a, c)
    decreases |a|
  {
    if a != [] && b != [] && c != [] && a[0] == b[0] && b[0] == c[0] {
      StrLeTransitive(a[1..], b[1..], c[1..]);
    }
  }

  /** Positions ordered the way `sort()` orders them: by their spelling. */
  predicate PosLe(x: int, y: int) {
    StrLe(IntToString(x), IntToString(y))
  }

  predicate SortedAsStrings(s: seq<int>) {
    SortedBy(s, PosLe)
  }

  function Insert(x: int, s: seq<int>): seq<int> {
    if s == [] then [x]
    else if PosLe(x, s[0]) then [x] + s
    else [s[0]] + Insert(x, s[1..])
  }

  /** Everything Insert returns is bounded below by whatever bounds x and s. */
  lemma {:induction false} InsertLowerBound(x: int, s: seq<int>, y: int)
    requires PosLe(y, x)
    requires forall k :: 0 <= k < |s| ==> PosLe(y, s[k])
    ensures forall k :: 0 <= k < |Insert(x, s)| ==> PosLe(y, Insert(x, s)[k])
  {
    if s != [] && !PosLe(x, s[0]) {
      InsertLowerBound(x, s[1..], y);
    }
  }

  lemma {:induction false} InsertMultiset(x: int, s: seq<int>)
    ensures multiset(Insert(x, s)) == multiset(s) + multiset{x}
  {
    if s != [] && !PosLe(x, s[0]) {
      var t := Insert(x, s[1..]);
      InsertMultiset(x, s[1..]);
      assert s == [s[0]] + s[1..];
      calc {
        multiset(Insert(x, s));
        multiset([s[0]] + t);
        multiset([s[0]]) + multiset(t);
        multiset([s[0]]) + multiset(s[1..]) + multiset{x};
        multiset(s) + multiset{x};
      }
    }
  }

  /** Sorted under an order passed as a value: the step below needs nothing
      about the order, so it is proved once without looking into spellings. */
  predicate SortedBy(s: seq<int>, le: (int, int) -> bool) {
    forall i, j :: 0 <= i < j < |s| ==> le(s[i], s[j])
  }

  lemma SortedConsBy(y: int, t: seq<int>, le: (int, int) -> bool)
    requires SortedBy(t, le)
    requires forall k :: 0 <= k < |t| ==> le(y, t[k])
    ensures SortedBy([y] + t, le)
  {
    var r := [y] + t;
    forall i, j | 0 <= i < j < |r| ensures le(r[i], r[j]) {
      assert r[j] == t[j - 1];
      if i > 0 {
        assert r[i] == t[i - 1];
      }
    }
  }

  /** A sorted sequence stays sorted with a lower bound of all of it in front. */
  lemma SortedCons(y: int, t: seq<int>)
    requires SortedAsStrings(t)
    requires forall k :: 0 <= k < |t| ==> PosLe(y, t[k])
    ensures SortedAsStrings([y] + t)
  {
    SortedConsBy(y, t, PosLe);
  }

  lemma {:induction false} InsertSorted(x: int, s: seq<int>)
    requires SortedAsStrings(s)
    ensures SortedAsStrings(Insert(x, s))
  {
    if s == [] {
    } else if PosLe(x, s[0]) {
      forall k | 0 <= k < |s| ensures PosLe(x, s[k]) {
        if k > 0 {
          StrLeTransitive(IntToString(x), IntToString(s[0]), IntToString(s[k]));
        }
      }
      SortedCons(x, s);
    } else {
      StrLeTotal(IntToString(x), IntToString(s[0]));
      InsertSorted(x, s[1..]);
      InsertLowerBound(x, s[1..], s[0]);
      SortedCons(s[0], Insert(x, s[1..]));
    }
  }

  /** The result of `positions.sort()`: the same positions, ordered by their
      decimal spelling (so 10 comes before 2). */
  function SortAsStrings(xs: seq<int>): (r: seq<int>)
    ensures SortedAsStrings(r)
    ensures multiset(r) == multiset(xs)
    ensures |r| == |xs|
  {
    if xs == [] then []
    else
      var rest := SortAsStrings(xs[1..]);
      var r := Insert(xs[0], rest);
      InsertSorted(xs[0], rest);
      InsertMultiset(xs[0], rest);
      assert xs == [xs[0]] + xs[1..];
      assert multiset(xs) == multiset(xs[1..]) + multiset{xs[0]};
      assert |r| == |multiset(r)| == |multiset(xs)| == |xs|;
      r
  }

  /** The seat after `current` in the sorted positions, wrapping from the
      last to the first. */
  function NextTurn(sorted: seq<int>, current: int): Turn {
    var idx := ArraySearch.IndexOf(sorted, current);
    if idx == |sorted| - 1 then (if |sorted| > 0 then Seat(sorted[0]) else Undefined)
    else Seat(sorted[idx + 1])
  }

  // ---------------------------------------------------------------------
  // processMove

  /** What `processMove` does once the turn check has passed, for a guess. */
  function Apply(s: GameState, guess: Option<int>): GameState
    requires s.currentPlayer.Seat?
  {
    if guess == Some(s.number) then s.(finished := true, winner := Some(s.currentPlayer.pos))
    else s.(move := s.move + 1, currentPlayer := NextTurn(SortAsStrings(Positions(s.players)), s.currentPlayer.pos))
  }

  /** The guess as the TypeScript source reads it: `move.data.number`, which
      throws when `data` is missing. */
  function SourceGuess(m: GuessMove): Result<Option<int>, string> {
    match m.data
    case None => Err(MissingData)
    case Some(d) => Ok(d.number)
  }

  /** number-guesser/game/src/index.ts `processMove`, on values. */
  function StepSource(s: GameState, position: int, m: GuessMove): Result<GameState, string> {
    if s.currentPlayer != Seat(position) then Err(NotYourTurn)
    else
      match SourceGuess(m)
      case Err(e) => Err(e)
      case Ok(g) => Ok(Apply(s, g))
  }

  /** number-guesser/game/build/index.js `processMove`, on values. */
  function StepCompiled(s: GameState, position: int, m: GuessMove): Result<GameState, string> {
    if s.currentPlayer != Seat(position) then Err(NotYourTurn) else Ok(Apply(s, m.number))
  }

  // ---------------------------------------------------------------------
  // Properties of the rules

  /** The turn guard: a move from anyone but the current player is refused
      with "not your turn" by both builds, and a move from the current player
      never is. */
  lemma TurnGuard(s: GameState, position: int, m: GuessMove)
    ensures StepSource(s, position, m) == Err(NotYourTurn) <==> s.currentPlayer != Seat(position)
    ensures StepCompiled(s, position, m) == Err(NotYourTurn) <==> s.currentPlayer != Seat(position)
  {
  }

  /** A right guess finishes the game with the guesser as winner and leaves the
      move count and the turn where they were; a wrong guess counts one more
      move, passes the turn to the next position in string order and leaves
      the game unfinished if it was. */
  lemma GuessOutcome(s: GameState, guess: Option<int>)
    requires s.currentPlayer.Seat?
    ensures guess == Some(s.number) ==>
      Apply(s, guess) == s.(finished := true, winner := Some(s.currentPlayer.pos))
    ensures guess != Some(s.number) ==>
      Apply(s, guess).move == s.move + 1 && Apply(s, guess).finished == s.finished &&
      Apply(s, guess).winner == s.winner && Apply(s, guess).players == s.players &&
      Apply(s, guess).currentPlayer == NextTurn(SortAsStrings(Positions(s.players)), s.currentPlayer.pos)
  {
  }

  /** Whenever anybody is seated, the turn belongs to a seated position. */
  ghost predicate TurnInRange(s: GameState) {
    s.players != [] ==> s.currentPlayer.Seat? && s.currentPlayer.pos in Positions(s.players)
  }

  lemma {:induction false} NextTurnInRange(ps: seq<int>, current: int)
    requires ps != []
    ensures NextTurn(SortAsStrings(ps), current).Seat?
    ensures NextTurn(SortAsStrings(ps), current).pos in ps
  {
    var sorted := SortAsStrings(ps);
    var t := NextTurn(sorted, current);
    assert |sorted| == |multiset(ps)| == |ps|;
    assert t.pos in sorted;
    assert t.pos in multiset(sorted);
  }

  /** The initial state puts the turn in range, and every accepted move of
      either build keeps it there. */
  lemma {:induction false} TurnStaysInRange(s: GameState, position: int, m: GuessMove)
    ensures TurnInRange(InitialState(s.players).game)
    requires TurnInRange(s)
    ensures StepSource(s, position, m).Ok? ==> TurnInRange(StepSource(s, position, m).value)
    ensures StepCompiled(s, position, m).Ok? ==> TurnInRange(StepCompiled(s, position, m).value)
  {
    if s.currentPlayer == Seat(position) && s.players != [] {
      NextTurnInRange(Positions(s.players), position);
    }
  }

  /** No position is held twice. */
  ghost predicate Distinct(ps: seq<int>) {
    forall i, j :: 0 <= i < j < |ps| ==> ps[i] != ps[j]
  }

  lemma {:induction false} DistinctCount(ps: seq<int>, x: int)
    requires Distinct(ps)
    ensures multiset(ps)[x] <= 1
  {
    if ps != [] {
      assert ps == [ps[0]] + ps[1..];
      DistinctCount(ps[1..], x);
      if x == ps[0] {
        assert x !in ps[1..];
      }
    }
  }

  lemma {:induction false} RepeatCounts(s: seq<int>, i: int, j: int)
    requires 0 <= i < j < |s| && s[i] == s[j]
    ensures multiset(s)[s[i]] >= 2
  {
    assert s == s[..i] + [s[i]] + s[i + 1..j] + [s[j]] + s[j + 1..];
  }

  /** Reordering keeps positions distinct. */
  lemma DistinctPermutation(a: seq<int>, b: seq<int>)
    requires Distinct(a) && multiset(a) == multiset(b)
    ensures Distinct(b)
  {
    forall i, j | 0 <= i < j < |b| ensures b[i] != b[j] {
      if b[i] == b[j] {
        RepeatCounts(b, i, j);
        DistinctCount(a, b[i]);
      }
    }
  }

  /** Over distinct positions the turn passes to the next one in sorted
      order, and from the last back to the first. */
  lemma {:induction false} RotationIsCyclic(sorted: seq<int>, k: int)
    requires Distinct(sorted) && 0 <= k < |sorted|
    ensures NextTurn(sorted, sorted[k]) == Seat(sorted[(k + 1) % |sorted|])
  {
    IndexOfDistinct(sorted, k);
    SuccessorMod(k, |sorted|);
  }

  /** In a sequence without repeats, each element is found at its own index. */
  lemma IndexOfDistinct(xs: seq<int>, k: int)
    requires Distinct(xs) && 0 <= k < |xs|
    ensures ArraySearch.IndexOf(xs, xs[k]) == k
  {
    var idx := ArraySearch.IndexOf(xs, xs[k]);
    assert xs[idx] == xs[k];
  }

  lemma SuccessorMod(k: int, n: int)
    requires 0 <= k < n
    ensures (k + 1) % n == if k == n - 1 then 0 else k + 1
  {
  }

  /** A wrong guess by the current player hands the turn to the position
      after it in the sorted order of all positions, cyclically. */
  lemma {:induction false} WrongGuessPassesTurn(s: GameState, guess: Option<int>, k: int)
    requires Distinct(Positions(s.players))
    requires 0 <= k < |s.players| && guess != Some(s.number)
    requires s.currentPlayer == Seat(SortAsStrings(Positions(s.players))[k])
    ensures var sorted := SortAsStrings(Positions(s.players));
      Apply(s, guess).currentPlayer == Seat(sorted[(k + 1) % |sorted|])
  {
    var ps := Positions(s.players);
    var sorted := SortAsStrings(ps);
    DistinctPermutation(ps, sorted);
    RotationIsCyclic(sorted, k);
  }

  lemma SpellingOrder()
    ensures PosLe(1, 10) && !PosLe(2, 10) && !PosLe(10, 1)
  {
  }

  lemma SortTwoTen()
    ensures SortAsStrings([2, 10]) == [10, 2]
  {
    SpellingOrder();
    assert [2, 10][1..] == [10] && [10][1..] == [];
    assert SortAsStrings([10]) == Insert(10, SortAsStrings([])) == [10];
    assert Insert(2, [10]) == [10] + Insert(2, []) == [10, 2];
  }

  /** `sort()` puts seat 10 between seats 1 and 2. */
  lemma SortOneTwoTen()
    ensures SortAsStrings([1, 2, 10]) == [1, 10, 2]
  {
    SpellingOrder();
    SortTwoTen();
    assert [1, 2, 10][1..] == [2, 10];
    assert Insert(1, [10, 2]) == [1, 10, 2];
  }

  /** The turn over the sorted seats 1, 10, 2 goes round in that order. */
  lemma RotateOneTenTwo()
    ensures NextTurn([1, 10, 2], 1) == Seat(10)
    ensures NextTurn([1, 10, 2], 10) == Seat(2)
    ensures NextTurn([1, 10, 2], 2) == Seat(1)
  {
    assert [1, 10, 2][1..] == [10, 2] && [10, 2][1..] == [2];
    assert ArraySearch.IndexOf([2], 2) == 0;
    assert ArraySearch.IndexOf([10, 2], 10) == 0 && ArraySearch.IndexOf([10, 2], 2) == 1;
  }

  /** The order is by spelling, not by value: with seats 1, 2 and 10 the turn
      goes 1, 10, 2 and back to 1. */
  lemma StringOrderExample()
    ensures SortAsStrings([1, 2, 10]) == [1, 10, 2]
    ensures NextTurn(SortAsStrings([1, 2, 10]), 1) == Seat(10)
    ensures NextTurn(SortAsStrings([1, 2, 10]), 10) == Seat(2)
    ensures NextTurn(SortAsStrings([1, 2, 10]), 2) == Seat(1)
  {
    SortOneTwoTen();
    RotateOneTenTwo();
  }

  /** The state object `processMove` receives and updates in place. */
  class GameObject {
    var currentPlayer: Turn
    var players: seq<Player>
    var number: int
    var finished: bool
    var move: int
    var winner: Option<int>

    function Value(): GameState
      reads this
    {
      GameState(currentPlayer, players, number, finished, move, winner)
    }

    constructor (s: GameState)
      ensures Value() == s
    {
      currentPlayer, players, number := s.currentPlayer, s.players, s.number;
      finished, move, winner := s.finished, s.move, s.winner;
    }

    /** The shared body of both builds once the guess has been read: flag
        the win, or count the move and pass the turn on. */
    method ApplyGuess(guess: Option<int>)
      requires currentPlayer.Seat?
      modifies this
      ensures Value() == Apply(old(Value()), guess)
    {
      if guess == Some(number) {
        finished := true;
        winner := Some(currentPlayer.pos);
      } else {
        move := move + 1;
        var positions := SortAsStrings(Positions(players));
        currentPlayer := NextTurn(positions, currentPlayer.pos);
      }
    }

    /** The TypeScript `processMove`: throws "not your turn" (state untouched)
        unless `position` is the current player; otherwise updates the state
        in place and returns it with every player's projection. */
    method ProcessMove(position: int, m: GuessMove) returns (r: Result<GameUpdate, string>)
      modifies this
      ensures old(currentPlayer) != Seat(position) ==> r == Err(NotYourTurn) && Value() == old(Value())
      ensures StepSource(old(Value()), position, m).Err? ==>
        r == Err(StepSource(old(Value()), position, m).error) && Value() == old(Value())
      ensures StepSource(old(Value()), position, m).Ok? ==>
        Value() == StepSource(old(Value()), position, m).value && r == Ok(Project(Value()))
    {
      if currentPlayer != Seat(position) {
        return Err(NotYourTurn);
      }
      match m.data {
        case None =>
          return Err(MissingData);
        case Some(d) =>
          ApplyGuess(d.number);
      }
      r := Ok(Project(Value()));
    }

    /** The compiled `processMove`, reading the guess from `move.number`. */
    method ProcessMoveCompiled(position: int, m: GuessMove) returns (r: Result<GameUpdate, string>)
      modifies this
      ensures old(currentPlayer) != Seat(position) ==> r == Err(NotYourTurn) && Value() == old(Value())
      ensures StepCompiled(old(Value()), position, m).Ok? ==>
        Value() == StepCompiled(old(Value()), position, m).value && r == Ok(Project(Value()))
    {
      if currentPlayer != Seat(position) {
        return Err(NotYourTurn);
      }
      ApplyGuess(m.number);
      r := Ok(Project(Value()));
    }
  }
}
