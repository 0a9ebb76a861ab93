# A model of the boardzilla development tools

The boardzilla devtools let a game author run a game on a local page. That page is
the *host*. It embeds the game's rules (the *game frame*) and the game's interface
(the *UI frame*). The host seats up to ten pretend users and relays moves between
the two frames. It keeps the history of accepted moves, and it can show or revert
to any earlier state. A small Go server serves the built files and replays saved
histories. The `bz` command validates project names, watches the sources and
suggests the next version to submit.

This Dafny project models that core:

- `session.dfy` (module `HostSession`) is the host's session as a class. Its fields
  are the page's React state. Each method is one handler of the message listener or
  the history panel: move, ready, updateSettings, updatePlayers, key, viewHistory,
  revertTo, reprocess, reset, and the effects that seat the first players and start
  the game. A handler reads the state as it was when it started, like a React
  closure, and its setters write the fields. A handler that throws stops where it
  threw; the method reports this as `crashed`.
- `session_rules.dfy` (module `SessionRules`) holds the pure rules these handlers
  use:
  - the current state under the history pin;
  - `updateUI`'s decision;
  - seating new users;
  - applying `updatePlayers` operations;
  - the memoised users list.
- `host_types.dfy` (module `HostTypes`) holds the messages and records exchanged
  with the frames.
- `registry.dfy` (module `Correlation`) is the bridge to the game frame. Each
  request gets the next counter value as its id, and the answer settles the promise
  filed under that id.
- `draft_host.dfy` (module `DraftHost`) is the earlier host page. It appends a move
  at once, then fills in or drops the entry when the game frame answers.
- `number_guesser.dfy` (module `NumberGuesser`) is the sample engine, both as
  written in TypeScript and as compiled. It covers the turn guard, the guess and the
  turn rotation over positions sorted as strings.
- `dev_server.dfy` (module `DevServer`) models the Go server. It covers replaying a
  save state, mapping a requested name to an embedded file, and the default player
  count.
- `cli.dfy` (module `Cli`) models the `bz` command. It covers:
  - the name and short-name validators;
  - the watcher's file filter;
  - the classification of a changed file into UI and game builds;
  - the next-version suggestion and its validator.
- Support modules:
  - `wrappers.dfy`: `Option` and `Result`.
  - `decimal.dfy`: decimal strings of numbers.
  - `js_rules.dfy`: JavaScript's `slice` and `parseInt`.
  - `array_search.dfy`: JavaScript's `indexOf`, shared by both hosts and the sample engine.
  - `go_path.dfy`: Go's `path.Clean`, `path.Join` and `path.Ext`.

Where the page calls code that is not shown, the model takes it as a function
parameter:
- the game frame's engine, initial state and replay;
- `semver.MajorMinor`, `semver.IsValid` and `semver.Compare`;
- `filepath.Rel`;
- the builder.

The random seed is a parameter. Messages posted to frames are appended to a log
field (`outbox`, `toUI`, `toGame`, `posted`).

Some behaviours of the host page that a reader may not expect, and that the
model keeps:
- Starting a game does not clear the history (internal/site/src/App.tsx:351-376).
- Reprocessing replaces the history but keeps the history pin
  (internal/site/src/App.tsx:740-767).
- A successful move whose automatic player switch throws is acknowledged twice:
  first without an error, then with the error (internal/site/src/App.tsx:546-575).
- The settings event sent while handling `updateSettings` carries the settings from
  before the update, because `setNumberAndSeat` reads them from its closure
  (internal/site/src/App.tsx:214-242 and 520-524).

## Model

| member | source | states |
|---|---|---|
| Decimal.NatToStringInjective | site/src/game.ts:14 | different counter values give different decimal ids |
| Decimal.ValueOfNatToString | cmd/bz/main.go:537-541 | the decimal form of a number reads back as that number |
| Decimal.IntToStringInjective | number-guesser/game/src/index.ts:66 | distinct numbers have distinct decimal spellings, so sorting by spelling loses no position |
| GoPath.Ext | cmd/bz/main.go:308 | the extension is the suffix from the last dot, holding no further dot or slash, and it is empty exactly when every dot has a slash after it, so the final element has no dot |
| JsRules.Slice | internal/site/src/App.tsx:728 | `slice(start, end)` counts negative bounds from the end, clamps both into the array and is empty when they cross |
| JsRules.SliceFromFront | site/src/App.tsx:34 | a slice from 0 is a prefix, of the asked length when the array is long enough |
| JsRules.SliceNegativeEnd | site/src/App.tsx:74 | a negative end drops that many entries from the back |
| JsRules.ParseInt | site/src/App.tsx:31-32 | `parseInt` is NaN exactly when no digit follows the white space, the sign and the hex prefix |
| JsRules.ParseIntDecimal | site/src/App.tsx:31-32 | plain decimal text reads as its digit value |
| JsRules.ParseIntNoDigit | site/src/App.tsx:31-32 | text that starts with neither white space, a sign nor a digit is NaN, so the player count is left unchanged |
| NumberGuesser.MinPosition | number-guesser/game/src/index.ts:45 | the first turn is the least position, or Infinity with no players |
| NumberGuesser.InitialState | number-guesser/game/src/index.ts:44-56 | the target is 5, nobody has won, no move is made, the turn is at the least position, and every player sees that |
| NumberGuesser.Project | number-guesser/game/src/index.ts:70-79 | every player's view carries the game's turn, winner and move count, one view per player in order |
| NumberGuesser.SortAsStrings | number-guesser/game/src/index.ts:66 | `sort()` orders positions by their decimal spelling and is a permutation |
| ArraySearch.IndexOf | number-guesser/game/src/index.ts:67 | the index of the first occurrence, or -1 exactly when absent |
| NumberGuesser.TurnGuard | number-guesser/game/src/index.ts:59 | a move is refused with "not your turn" exactly when the mover is not the current player, in both the source and the compiled engine |
| NumberGuesser.GuessOutcome | number-guesser/game/src/index.ts:60-69 | the right number finishes the game with the mover as winner; a wrong one counts a move and passes the turn to the next position in string order |
| NumberGuesser.NextTurnInRange | number-guesser/game/src/index.ts:65-68 | the next turn is always some player's position |
| NumberGuesser.TurnStaysInRange | number-guesser/game/src/index.ts:44-80 | the turn stays at a seated position from the initial state through every accepted move |
| NumberGuesser.RotationIsCyclic | number-guesser/game/src/index.ts:67-68 | with distinct positions the turn moves to the next sorted position and wraps from the last to the first |
| NumberGuesser.WrongGuessPassesTurn | number-guesser/game/src/index.ts:63-69 | a wrong guess hands the turn to the next position in string order |
| NumberGuesser.StringOrderExample | number-guesser/game/src/index.ts:66 | positions 1, 2, 10 take turns as 1, 10, 2 |
| NumberGuesser.GameObject.ApplyGuess | number-guesser/game/src/index.ts:60-69 | the state object is updated in place to the guess's outcome |
| NumberGuesser.GameObject.ProcessMove | number-guesser/game/src/index.ts:58-80 | the source engine refuses out-of-turn moves without change, fails on a move without data, and otherwise updates the state and returns its projection |
| NumberGuesser.GameObject.ProcessMoveCompiled | number-guesser/game/build/index.js:39-64 | the compiled engine reads the number from the move itself and otherwise behaves the same |
| DevServer.MovesOf | internal/server.go:584-595 | one move per history item, with its position and data |
| DevServer.ReprocessHistoryFromSaveState | internal/server.go:583-621 | the replay request carries the save's seed, players, settings and moves; an error is passed on; more updates than moves panic; otherwise the history is rebuilt with fresh numbers and the save's moves |
| DevServer.RebuildReproducesSave | internal/server.go:601-609 | replaying a contiguous history that yields the same states gives back the same history |
| DevServer.RebuildPrefix | internal/server.go:601-609 | a replay that stops early gives a prefix of the full rebuild, numbered from 0 |
| DevServer.ForwardSlashes | internal/server.go:564 | backslashes become slashes and nothing else changes |
| DevServer.RootFilesFromRoot | internal/server.go:559-563 | the pages and avatar images are served from the root, without a leading slash |
| DevServer.UnderSiteBuild | internal/server.go:563-565 | any other name without `..` resolves inside `site/build` |
| DevServer.EscapeExample | internal/server.go:564 | a name with `..` can resolve outside `site/build`: `../../x` maps to `x` |
| DevServer.DefaultPlayers | internal/server.go:423-427 | the default player count is the manifest's, or the minimum when it is 0 |
| SessionRules.PossibleUsersDistinct | internal/site/src/App.tsx:25-36 | the ten pretend users have distinct ids |
| SessionRules.Find | internal/site/src/App.tsx:146 | `find` returns the first matching element, and nothing exactly when none matches |
| SessionRules.PinAfterView | internal/site/src/App.tsx:720 | viewing the last entry unpins; viewing any other pins it |
| SessionRules.CurrentStateUnpinned | internal/site/src/App.tsx:156-164 | unpinned, the current state is the newest entry's, or the initial state's with an empty history |
| SessionRules.ViewedStateIsCurrent | internal/site/src/App.tsx:718-724 | after viewing an entry, the current state is that entry's state |
| SessionRules.StalePinUnreadable | internal/site/src/App.tsx:156-164 | a pin past the end of the history reads nothing |
| SessionRules.UpdateUI | internal/site/src/App.tsx:304-349 | nothing while reprocessing; a finished game goes to the viewer; a started game switches to the player whose turn it is under auto-switch, else it is shown, read-only when pinned; a missing player throws |
| SessionRules.OwnTurnIsShown | internal/site/src/App.tsx:319-337 | when it is the viewer's own turn the update is shown, read-only exactly when pinned |
| SessionRules.NewPlayer | internal/site/src/App.tsx:221-228 | the k-th new seat is the k-th user, at position k+1, host only for the first |
| SessionRules.NewSeats | internal/site/src/App.tsx:218-230 | the new seats are the users after those seated, up to n |
| SessionRules.NewSeatsConsecutive | internal/site/src/App.tsx:219-229 | seating up to n adds n minus the seated count players at consecutive positions |
| SessionRules.MarkAll | internal/site/src/App.tsx:231-238 | spreading the entries [id, id !== "0"] over the map enters every listed id, ready unless it is the host, keeps every old entry not listed, and adds no other key |
| SessionRules.MarkUsers | internal/site/src/App.tsx:231-238 | users from the user count on are marked ready except the host; other entries are kept, and no other key is added |
| SessionRules.WithoutUser | internal/site/src/App.tsx:601-608 | every entry of the user is removed, and every other entry keeps its number of occurrences |
| SessionRules.Readied | internal/site/src/App.tsx:619-623 | a readiness change overwrites that user's entry only |
| SessionRules.SeatAppendsWhenAllowed | internal/site/src/App.tsx:590-600 | a seat operation appends the player when the host or the user itself asks, else changes nothing |
| SessionRules.UnseatRemovesEveryEntry | internal/site/src/App.tsx:601-608 | an allowed unseat removes every entry of that user |
| SessionRules.UpdateTouchesOneEntry | internal/site/src/App.tsx:609-627 | an update changes only the user's first entry, only for truthy fields, and only when allowed |
| SessionRules.NonHostOnlyTouchesSelf | internal/site/src/App.tsx:585-630 | a non-host's operations leave every other user's entries unchanged |
| SessionRules.UserDetails | internal/site/src/App.tsx:184-202 | a listed user keeps its id and avatar; when seated it takes the player's name, position and color, is ready unless marked otherwise, and carries the session URL only for the host |
| SessionRules.AddMissing | internal/site/src/App.tsx:439-443 | the list is kept as a prefix, and each appended entry is a seated player not yet listed, with that player's own details |
| SessionRules.AddMissingSpec | internal/site/src/App.tsx:439-445 | the completed list has distinct ids and lists every seated player |
| SessionRules.UsersListEachOnce | internal/site/src/App.tsx:431-446 | the users list has every seated player exactly once by id |
| HostSession.PreviousState | internal/site/src/App.tsx:527-530 | a move is played against the newest entry's state, or the initial state, and there is none only before the game exists |
| HostSession.Attempt | internal/site/src/App.tsx:532-536 | the engine is asked with the viewer's position; a missing viewer throws first |
| HostSession.MoveFollowUpOutcome | internal/site/src/App.tsx:554-568 | after a move the page either shows the update or switches player; the switch throws exactly when no player holds the next position |
| HostSession.MovesOf | internal/site/src/App.tsx:748 | one move per entry, with its position and data |
| HostSession.Rebuilt | internal/site/src/App.tsx:755-760 | the replayed history is numbered from 0 and keeps each entry's move |
| HostSession.RebuiltReplaysSameMoves | internal/site/src/App.tsx:746-760 | a replayed history is contiguous and holds the same moves as the prefix it replaced |
| HostSession.RevertKeepsPrefix | internal/site/src/App.tsx:726-733 | reverting keeps a contiguous prefix, up to and including the chosen entry |
| HostSession.KeyFor | internal/site/src/App.tsx:463-493 | S, F and R toggle or reload; a digit key selects its seat; other keys are ignored |
| HostSession.Session.constructor | internal/site/src/App.tsx:91-119 | a new session has no players, users, settings or history, the host is current and auto-switch is on |
| HostSession.Session.SetNumberAndSeat | internal/site/src/App.tsx:214-243 | the seat count is set, the user count never shrinks, and new seats are added with readiness and a settings event only when the count grows |
| HostSession.Session.Bootstrap | internal/site/src/App.tsx:245-247 | a session with no users gets the minimum as seat and user count; missing seats are added with readiness marked and a settings event, and otherwise players, readiness and events stay; a session with users is unchanged |
| HostSession.Session.UpdateSettings | internal/site/src/App.tsx:520-525 | only the host's update is applied: settings replaced, seats, user count and readiness adjusted as `setNumberAndSeat` does, then acknowledged |
| HostSession.Session.Move | internal/site/src/App.tsx:526-576 | a move on a finished game is ignored; an accepted move appends a contiguous entry, unpins and acknowledges; a refused one acknowledges with the error |
| HostSession.Session.Ready | internal/site/src/App.tsx:577-584 | before the game exists the settings and users are sent, afterwards the current state |
| HostSession.Session.UpdatePlayers | internal/site/src/App.tsx:585-632 | the players become the operations applied in order to a copy, only the last readiness change survives, and the message is acknowledged once |
| HostSession.Session.ProcessKey | internal/site/src/App.tsx:448-496 | the key's action is carried out, and a digit past the seated players throws |
| HostSession.Session.SelectSeat | internal/site/src/App.tsx:478-490 | a digit key makes the player in that seat current, and throws for an empty seat |
| HostSession.Session.DigitIndex | internal/site/src/App.tsx:462-488 | a digit's index among the valid keys is its seat when seated, else -1 |
| HostSession.Session.ViewHistory | internal/site/src/App.tsx:718-724 | the pin follows the viewed entry and that entry's state is shown |
| HostSession.Session.RevertTo | internal/site/src/App.tsx:726-733 | the history is cut after the chosen entry, unpinned, and the chosen state is shown |
| HostSession.Session.Reprocess | internal/site/src/App.tsx:740-767 | without a game nothing happens; otherwise the history is rebuilt from the replay of its own moves with the new seed, and more updates than entries throw with the session left reprocessing |
| HostSession.Session.ResetGame | internal/site/src/App.tsx:378-391 | the game, settings, players and history are cleared, the host is current and both frames reload |
| HostSession.Session.AutoStart | internal/site/src/App.tsx:351-376 | a new game starts exactly when enough players are seated, all seats are taken and everyone is ready |
| Correlation.Settle | site/src/game.ts:15-16 | a promise keeps its first settlement |
| Correlation.Outcome | internal/site/src/App.tsx:506-519 | only a move result with a non-empty error rejects |
| Correlation.Registry.constructor | site/src/game.ts:7-8 | the registry starts empty with the counter at 0 |
| Correlation.Registry.IdsDistinct | site/src/game.ts:14 | the ids handed out are pairwise different |
| Correlation.IdsBelowNext | site/src/game.ts:13-19 | the counter value about to be used is not among the ids handed out before it, and using it adds exactly that id |
| Correlation.Registry.SendToGame | site/src/game.ts:13-19 | a request takes the next counter value as a new id, files a waiting promise under it and is posted with it |
| Correlation.Registry.SettleId | site/src/game.ts:10-11 | the promise filed under the id is settled once; an unknown id throws and changes nothing |
| Correlation.Registry.Resolve | site/src/game.ts:10 | resolving settles the id's promise with the value |
| Correlation.Registry.Reject | site/src/game.ts:11 | rejecting settles the id's promise with the reason |
| Correlation.Registry.SendInitialState | site/src/game.ts:21-23 | the initial-state request is posted under a new id |
| Correlation.Registry.ProcessMove | site/src/game.ts:25-27 | the move request is posted under a new id |
| Correlation.Registry.GetPlayerState | site/src/game.ts:29-31 | the player-state request is posted under a new id |
| Correlation.Registry.Dispatch | internal/site/src/App.tsx:503-519 | each answer settles the promise under its own id as `Outcome` says |
| DraftHost.Appended | site/src/App.tsx:87-91 | a UI move adds one entry and keeps the rest |
| DraftHost.Dropped | site/src/App.tsx:80 | an error drops the newest entry, and an empty history stays empty |
| DraftHost.RejectedMoveRestores | site/src/App.tsx:79-91 | a move refused by the game leaves the history as before |
| DraftHost.AcceptedMoveCompletes | site/src/App.tsx:72-91 | an accepted move ends as one entry with its number, move and state |
| DraftHost.FilledKeepsOthers | site/src/App.tsx:72-78 | a result changes only the newest entry's state |
| DraftHost.LatestWithData | site/src/App.tsx:52 | the newest entry with a state, or -1 |
| DraftHost.ShownUpdate | site/src/App.tsx:51-54 | there is nothing to show exactly when no entry has a state and there is no initial state |
| DraftHost.ShownUpdateFollowsResults | site/src/App.tsx:51-57 | a waiting move shows the state before it; once filled, its own state is shown |
| DraftHost.PlayerOf | site/src/App.tsx:55 | the first player state at the position, or none when no player has it |
| DraftHost.DraftSession.constructor | site/src/App.tsx:23-28 | the page seats the minimum number of players and makes the first current; when that seats nobody, reading `players[0].position` throws and the page does not mount, so no handler of the page runs |
| DraftHost.DraftSession.UpdateNumberOfPlayers | site/src/App.tsx:30-37 | text that is not a number is ignored; otherwise the first players are seated and the game is reset, and when that seats nobody the next render throws and the page unmounts |
| DraftHost.DraftSession.ResetGame | site/src/App.tsx:39-42 | the initial state and the history are cleared |
| DraftHost.DraftSession.SendCurrentPlayerState | site/src/App.tsx:51-57 | the current player's part of the shown update is sent exactly when there is one |
| DraftHost.DraftSession.FromGame | site/src/App.tsx:66-85 | an initial state is stored, a result fills the newest entry, an error drops it and is forwarded |
| DraftHost.DraftSession.FromUI | site/src/App.tsx:86-94 | a UI move is appended and sent with the previous state; without one it throws after appending |
| DraftHost.DraftSession.SetGameLoaded | site/src/App.tsx:111-155 | loading and reloading the game frame set the flag |
| DraftHost.DraftSession.RequestInitialState | site/src/App.tsx:122-125 | a loaded game frame is asked for an initial state exactly when there is none |
| DraftHost.DraftSession.KeyDown | site/src/App.tsx:132-143 | shift with a seated player's digit key makes that player current |
| DraftHost.DraftSession.RevertTo | site/src/App.tsx:159 | the history is cut to a prefix after the chosen entry |
| Cli.TrimLeft | cmd/bz/main.go:52 | leading white space is removed, and only white space |
| Cli.TrimRight | cmd/bz/main.go:52 | trailing white space is removed, and only white space |
| Cli.ValidateName | cmd/bz/main.go:51-56 | a name is refused exactly when it is all white space |
| Cli.MatchesShortNameChars | cmd/bz/main.go:59 | the pattern's character class matches every character |
| Cli.ValidateShortName | cmd/bz/main.go:58-67 | a short name is accepted exactly when it is non-empty and only lower-case letters, digits, `_` and `-` |
| Cli.ShortNameIsName | cmd/bz/main.go:51-67 | every accepted short name is also an accepted name |
| Cli.ExtOfBak | cmd/bz/main.go:308 | a name ending in `.bak` has the extension `.bak` |
| Cli.SkipWatchedNames | cmd/bz/main.go:306-312 | a file is skipped exactly when it is a directory or its name ends in `.bak` or `~` or starts with `#` or `.#` |
| Cli.ScanWatchPaths | cmd/bz/main.go:328-342 | over the watch paths joined to the game root, the scan hits exactly when some such directory contains the file, and fails fatally only on an error before the first hit |
| Cli.Reloads | cmd/bz/main.go:363-368 | the game reloads iff its bit is set, the UI likewise, the game first |
| Cli.HandleEvent | cmd/bz/main.go:326-368 | the UI bit is set iff a UI watch path, joined to the root, contains the file, the game bit likewise; then a build, its error report and the reloads follow |
| Cli.ParseUint | cmd/bz/main.go:537 | only non-empty decimal digits of a 64-bit value parse |
| Cli.ParseUintOfNatToString | cmd/bz/main.go:537 | a 64-bit value's decimal form parses back to it |
| Cli.NextVersion | cmd/bz/main.go:527-545 | a lookup failure is an error; no game means `v0.0.1`; without a published version the submitted one, if any, is suggested |
| Cli.NextVersionIncrementsPatch | cmd/bz/main.go:534-541 | a published version suggests the same major.minor with the next patch, wrapping to 0 after the largest 64-bit patch |
| Cli.NextVersionRejectsBadPatch | cmd/bz/main.go:536-540 | an unparsable patch is an error |
| Cli.ValidateVersion | cmd/bz/main.go:550-564 | a version is accepted exactly when it is non-empty, valid, and above the published version if there is one |

## Left out

- DraftHost.DraftSession.constructor: the minimum is an integer. A NaN minimum, which also seats nobody and throws, is not modelled.
- Rendering, toasts, modals, dark mode, the `sendDark` reply and the `userOnline` events are left out. They show state but do not change it.
- The server-sent event stream is left out. So are the reload and build-error handlers on the page, and all of the Go server's HTTP routing except `getBuildFile`.
- Loading, saving and deleting save states from the page is left out. It is fetch calls to the server.
- The settings and users effects that resend events on every change are left out. Only the bootstrap and auto-start effects are modelled.
- The random seed comes from session storage or `Math.random` on the page. The model takes it as a parameter.
- The game frame's engine, its initial state and its replay are function parameters. The v8 replay in `reprocessHistory` (internal/server.go:623-700) is a parameter of `ReprocessHistoryFromSaveState`.
- Players are modelled as values. An `update` operation changes player objects in place, and those objects are shared with the initial state. That aliasing is not captured.
- Handlers run one at a time to completion. Interleaving at `await` points is not modelled.
- JavaScript numbers are modelled as integers. NaN appears only as the failure of `parseInt`. Fractions are not modelled.
- Cli.HandleEvent: `filepath.Rel` is a parameter. The checks at cmd/bz/main.go:330 and :346 test an `err` that is always nil at that point, so they are left out. `log.Fatal` is modelled as an `Err` result.
- Cli.NextVersion: `semver.MajorMinor` is a parameter. The game lookup over HTTP is the `InfoLookup` parameter.
- Cli.ValidateVersion: `semver.IsValid` and `semver.Compare` are parameters.
- The rest of the `bz` command is not modelled: login, HTTP submit, zip handling, git checks, prompts and the watcher's recursion. These are network, filesystem and terminal plumbing.
- The builders, the debounce notifier and the other commands (cmd/main.go, cmd/dev/main.go, builder.go, internal/builder.go) are not modelled. They run processes and concurrency.
- Strings are sequences of characters. Go's byte-level UTF-8 handling and invalid byte sequences are not modelled.
