/** The correlation registry of the host's game bridge (site/src/game.ts): each
    request to the game frame gets the next number of a counter as its id,
    a pending promise is filed under that id, and the game frame's answer
    settles the promise filed under the id it carries. Promises are modelled
    by their settlement; the messages posted to the game frame are logged. */
module Correlation {
  import opened Wrappers
  import opened Decimal
  import opened HostTypes

  /** The settlement of a pending promise. A promise settles once: a later
      resolve or reject of the same promise has no effect. */
  datatype Settlement = Waiting | Resolved(value: Json) | Rejected(reason: Json)

  /** The three requests the bridge can make of the game frame. */
  datatype Request =
    | InitialStateRequest(setup: SetupState, rseed: string)
    | ProcessMoveRequest(previousState: GameState, move: GameMove, rseed: string)
    | PlayerStateRequest(state: GameState, position: int)

  /** A posted message: the request with its id attached. */
  datatype Posted = Posted(request: Request, id: string)

  /** The answer messages the host's listener routes to the registry
      (internal/site/src/App.tsx, lines 503-519). */
  datatype Answer =
    | InitialStateResult(id: string, state: Json)
    | ProcessMoveResult(id: string, error: Option<string>, state: Json)
    | ReprocessHistoryResult(id: string, error: Option<string>, initialState: Json, updates: seq<Json>)

  /** The value a `reprocessHistoryResult` resolves its promise with. */
  function ReplayRecord(error: Option<string>, initialState: Json, updates: seq<Json>): Json {
    JObj([("error", if error.Some? then JStr(error.value) else JNull),
          ("initialState", initialState),
          ("updates", JArr(updates))])
  }

  /** A promise settled for the first time; later settlements are ignored. */
  function Settle(current: Settlement, next: Settlement): (r: Settlement)
    requires !next.Waiting?
    ensures current.Waiting? ==> r == next
    ensures !current.Waiting? ==> r == current
  {
    if current.Waiting? then next else current
  }

  /** The ids of the first n requests. */
  function IdsBelow(n: nat): set<string> {
    set i | 0 <= i < n :: NatToString(i)
  }

  /** The next counter value gives a new id, and adds just that id. */
  lemma IdsBelowNext(n: nat)
    ensures NatToString(n) !in IdsBelow(n)
    ensures IdsBelow(n + 1) == IdsBelow(n) + {NatToString(n)}
  {
    forall k | 0 <= k < n
      ensures NatToString(k) != NatToString(n)
    {
      NatToStringInjective(k, n);
    }
    assert forall x :: x in IdsBelow(n + 1) ==> x in IdsBelow(n) + {NatToString(n)};
    assert forall x :: x in IdsBelow(n) + {NatToString(n)} ==> x in IdsBelow(n + 1);
  }

  class Registry {
    /** `pendingPromises`, by id. */
    var pending: map<string, Settlement>
    /** `promiseSequence`: the number the next request will use. */
    var sequence: nat
    /** The messages posted to the game frame, oldest first. */
    var posted: seq<Posted>

    /** The ids handed out so far are the counter values 0, 1, ... in
      decimal, every one of them is filed, and the i-th posted message
      carries the i-th id. */
    ghost predicate Valid()
      reads this
    {
      && |posted| == sequence
      && (forall i :: 0 <= i < |posted| ==> posted[i].id == NatToString(i))
      && pending.Keys == IdsBelow(sequence)
    }

    constructor ()
      ensures Valid() && pending == map[] && sequence == 0 && posted == []
    {
      pending := map[];
      sequence := 0;
      posted := [];
    }

    /** The ids posted so far are pairwise different. */
    lemma IdsDistinct()
      requires Valid()
      ensures forall i, j :: 0 <= i < j < |posted| ==> posted[i].id != posted[j].id
    {
      forall i, j | 0 <= i < j < |posted|
        ensures posted[i].id != posted[j].id
      {
        NatToStringInjective(i, j);
      }
    }

    /** `sendToGame`: take the next id, file a waiting promise under it, then
      post the request with that id. The id was never used before. */
    method SendToGame(request: Request) returns (id: string)
      requires Valid()
      modifies this
      ensures Valid()
      ensures id == NatToString(old(sequence)) && sequence == old(sequence) + 1
      ensures id !in old(pending)
      ensures pending == old(pending)[id := Waiting]
      ensures posted == old(posted) + [Posted(request, id)]
    {
      id := NatToString(sequence);
      IdsBelowNext(sequence);
      sequence := sequence + 1;
      pending := pending[id := Waiting];
      posted := posted + [Posted(request, id)];
    }

    /** `resolveGamePromise` and `rejectGamePromise`: the promise filed under
      id is settled. An id that was never filed has no entry, so reading its
      `resolve` throws (`crashed`) and nothing is created. Entries are never
      removed. */
    method SettleId(id: string, outcome: Settlement) returns (crashed: bool)
      requires !outcome.Waiting?
      requires Valid()
      modifies this`pending
      ensures Valid()
      ensures crashed <==> id !in old(pending)
      ensures crashed ==> pending == old(pending)
      ensures !crashed ==> pending == old(pending)[id := Settle(old(pending)[id], outcome)]
      ensures pending.Keys == old(pending).Keys
    {
      if id !in pending {
        return true;
      }
      crashed := false;
      pending := pending[id := Settle(pending[id], outcome)];
    }

    method Resolve(id: string, value: Json) returns (crashed: bool)
      requires Valid()
      modifies this`pending
      ensures Valid()
      ensures crashed <==> id !in old(pending)
      ensures !crashed ==> pending == old(pending)[id := Settle(old(pending)[id], Resolved(value))]
      ensures crashed ==> pending == old(pending)
    {
      crashed := SettleId(id, Resolved(value));
    }

    method Reject(id: string, reason: Json) returns (crashed: bool)
      requires Valid()
      modifies this`pending
      ensures Valid()
      ensures crashed <==> id !in old(pending)
      ensures !crashed ==> pending == old(pending)[id := Settle(old(pending)[id], Rejected(reason))]
      ensures crashed ==> pending == old(pending)
    {
      crashed := SettleId(id, Rejected(reason));
    }

    /** `sendInitialState`, `processMove` and `getPlayerState`: one request
      each, tagged with its own kind. */
    method SendInitialState(setup: SetupState, rseed: string) returns (id: string)
      requires Valid()
      modifies this
      ensures Valid() && id !in old(pending) && pending == old(pending)[id := Waiting]
      ensures posted == old(posted) + [Posted(InitialStateRequest(setup, rseed), id)]
    {
      id := SendToGame(InitialStateRequest(setup, rseed));
    }

    method ProcessMove(previousState: GameState, move: GameMove, rseed: string) returns (id: string)
      requires Valid()
      modifies this
      ensures Valid() && id !in old(pending) && pending == old(pending)[id := Waiting]
      ensures posted == old(posted) + [Posted(ProcessMoveRequest(previousState, move, rseed), id)]
    {
      id := SendToGame(ProcessMoveRequest(previousState, move, rseed));
    }

    method GetPlayerState(state: GameState, position: int) returns (id: string)
      requires Valid()
      modifies this
      ensures Valid() && id !in old(pending) && pending == old(pending)[id := Waiting]
      ensures posted == old(posted) + [Posted(PlayerStateRequest(state, position), id)]
    {
      id := SendToGame(PlayerStateRequest(state, position));
    }

    /** The host listener's result cases: a move result with a non-empty
      error rejects, every other answer resolves, always the promise filed
      under the answer's id. */
    method Dispatch(answer: Answer) returns (crashed: bool)
      requires Valid()
      modifies this`pending
      ensures Valid()
      ensures crashed <==> answer.id !in old(pending)
      ensures crashed ==> pending == old(pending)
      ensures !crashed ==> pending == old(pending)[answer.id := Settle(old(pending)[answer.id], Outcome(answer))]
    {
      match answer {
        case InitialStateResult(id, state) =>
          crashed := Resolve(id, state);
        case ProcessMoveResult(id, error, state) =>
          if error.Some? && error.value != "" {
            crashed := Reject(id, JStr(error.value));
          } else {
            crashed := Resolve(id, state);
          }
        case ReprocessHistoryResult(id, error, initialState, updates) =>
          crashed := Resolve(id, ReplayRecord(error, initialState, updates));
      }
    }
  }

  /** How an answer settles its promise. */
  function Outcome(answer: Answer): (s: Settlement)
    ensures !s.Waiting?
    ensures s.Rejected? <==> answer.ProcessMoveResult? && answer.error.Some? && answer.error.value != ""
  {
    match answer
    case InitialStateResult(_, state) => Resolved(state)
    case ProcessMoveResult(_, error, state) =>
      if error.Some? && error.value != "" then Rejected(JStr(error.value)) else Resolved(state)
    case ReprocessHistoryResult(_, error, initialState, updates) =>
      Resolved(ReplayRecord(error, initialState, updates))
  }
}
