# Dots and Boxes: a Dafny model of the game and session core

This project models the game logic and session bookkeeping of a browser
Dots and Boxes game. It has four parts.

- **The networked client** (`public/js/app.js`). A `Game` builds a
  `width × height` grid of boxes. Horizontal lines are `lines.h[x][y]`,
  vertical lines `lines.v[x][y]` and boxes `boxes[y][x]`. Neighbouring
  boxes share a line. `Line.setPlayer` gives a line an owner once, then asks
  the line's boxes, through `Array.some`, whether they are now closed.
  `Game.nextTurn` keeps the turn after a closing move and otherwise moves
  to the next player. `Game.setState` replays the server's turn log. An
  owner is a player index, and JavaScript tests it for truthiness, so
  index 0 counts as no owner.
- **The standalone local game** (`js/app.js`). It has the same grid, but
  horizontal lines are stored row first (`lines.h[y][x]`). Every box is
  notified, through `forEach`. A box that closes increments its owner's
  `score` field. The turn always passes. When every box is taken the
  roster is sorted in place by descending score, and the first two scores
  decide between a winner and a tie.
- **The session server** (`server/lib/Server.js`). A dictionary from
  identifiers to session records has four socket handlers: create, join,
  start and turn. Each rejects requests in a fixed order.
- **The session identifier** (`server/lib/Util.js`). `createSessionId`
  builds a string over a 62-character alphanumeric alphabet.

The code works by changing state in place, and so does the model:

- Classes hold the fields the code updates: `Replica.Game`, `Local.Game`,
  the local `Player`, and the server's `Session`, `Socket` and `Server`.
- Methods with loops and invariants follow the code's loops: grid
  construction, listener notification, the all-taken scan, the score
  count, the replay, the sort and the identifier loop.
- Each method is proved against a specification function of the state
  before the call. The properties are proved as lemmas about those
  functions, in modules `ReplicaRules`, `LocalRules` and `Sessions`.

Some behaviours of the code as written are stated and proved, not fixed:

- In the networked client, `some` stops at the first box that closes. A
  line that completes two boxes at once gives the first to the player and
  leaves the second complete and without an owner
  (`SomeLeavesSecondBoxOpen`). No later move can reach that box
  (`StuckBoxStays`), so no later replay reaches the all-taken branch
  (`ReplayKeepsStuckBox`).
- The server broadcasts the whole log after every accepted turn, and the
  client replays all of it. The session creator plays as id 0, which is
  falsy. So each of their re-sent turns runs `setPlayer` again, closes
  nothing, and moves the client's current player on once more. The
  client's turn index therefore drifts from the server's with every
  snapshot (`ResentZeroTurnAdvancesAgain`). Re-sent turns with truthy
  ids have no effect (`ReplayResentLog`).
- The all-taken branch of the client's `nextTurn` reads an undeclared
  variable `players`, so it throws. It is modelled as a call that fails
  and leaves the current player unchanged.
- The server logs any turn in a started game. It checks neither whose
  turn it is nor whether the line is taken (`DuplicateTurnsAccepted`).
  It always moves the current player on (`TurnAdvancesPlayer`), while the
  client keeps the turn after a closed box.
- `joinSession` stores the looked-up session on the socket before it runs
  its checks. A rejected socket therefore still holds that session.

The code as written also behaves as follows, and the model follows it:

- `joinSession` checks `max_players` before `game_already_started`.
- `createSession` does not look for an identifier collision. It replaces
  any session stored under that identifier.
- The server enforces no turn order and rejects no taken line.
- Scores are derived from box owners in the networked client, and
  counted in `score` fields in the local game.

Modules: `Wrappers` (Option), `SessionIds`, `Sessions`, `SessionServer`,
`Board` (the grid shared by both games, generic in the owner type),
`ReplicaRules` and `Replica` (networked client), `LocalBoard`,
`LocalRules` and `Local` (local game).

## Model

| member | source | states |
|---|---|---|
| SessionIds.Spell | server/lib/Util.js:8-10 | The identifier has one character per draw, and character i is the alphabet entry at draw i. |
| SessionIds.IndexOf | server/lib/Util.js:6 | Every alphanumeric character has a position in the 62-character alphabet, and that entry is the character. |
| SessionIds.AlphabetAt | server/lib/Util.js:6 | The alphabet is `A-Z`, then `a-z`, then `0-9`. Position i < 26 holds code `'A' + i`, position 26 to 51 holds `'a' + (i - 26)`, and the rest hold `'0' + (i - 52)`. |
| SessionIds.IndexOfAlphabet | server/lib/Util.js:6 | The alphabet repeats no character. The position of the character at index i is i. |
| SessionIds.AlphabetIsAlnum | server/lib/Util.js:6 | A character is in the alphabet exactly when it is in `[A-Za-z0-9]`. |
| SessionIds.Unspell | server/lib/Util.js:6 | Reading an identifier back gives one valid draw per character. |
| SessionIds.SpellRoundTrip | server/lib/Util.js:9 | Reading back the identifier spelled from any valid draws gives those draws, so distinct draws give distinct identifiers. |
| SessionIds.RouteIdsAreSpelled | server/lib/Server.js:21 | Every string the route `[A-Za-z0-9]{5}` accepts is spelled by some five valid draws. |
| SessionIds.DefaultIdMatchesRoute | server/lib/Util.js:5-11 | With the default length 5, every generated identifier matches the route pattern. |
| SessionIds.CreateSessionId | server/lib/Util.js:5-11 | The loop returns the spelled identifier. Its length is the `length` argument (0 when negative), and every character is in the alphabet. |
| Sessions.NextPlayer | server/lib/Server.js:130-131 | No contract of its own: the increment with reset to 0. NextPlayerIsModular and TurnAdvancesPlayer state what it computes. |
| Sessions.Step | server/lib/Server.js:73-131 | No contract of its own: one request to its handler. StepConsistent and StepMonotone state what it keeps. |
| Sessions.NewSession | server/lib/Server.js:49-59 | A created session is a lobby: not started, player 0, an empty log, and a roster that is a copy of `PLAYERS[0]` alone. It is consistent. |
| Sessions.Join | server/lib/Server.js:82-91 | A full roster is rejected, and the string sent is `max_players`. Otherwise a started game is rejected, and the string sent is `game_already_started`. A join is accepted exactly when there is room and the game has not started. It then appends `PLAYERS[n]` and returns id n, the old roster size. |
| Sessions.Start | server/lib/Server.js:107-110 | Accepted exactly with two or more players, and then only `started` changes. Otherwise rejected, and the string sent is `Waiting for players...`. |
| Sessions.Turn | server/lib/Server.js:121-131 | Accepted exactly when the game has started, and otherwise rejected, and the string sent is `Game not started!`. An accepted turn appends exactly the sent entry and keeps the roster, the identifier and `started`. |
| Sessions.NextPlayerIsModular | server/lib/Server.js:130-131 | The increment with reset to 0 is `(player + 1) mod |players|`, and it stays in range. |
| Sessions.StepConsistent | server/lib/Server.js:73-131 | Every handler, accepting or rejecting, keeps a session consistent. The roster is a non-empty prefix of `PLAYERS` with at most 5 entries, the player is in range, and a lobby has an empty log and player 0. |
| Sessions.Run | server/lib/Server.js:73-131 | Any sequence of requests leaves a consistent session consistent. |
| Sessions.StepMonotone | server/lib/Server.js:73-131 | One request keeps the identifier, never clears `started`, only appends to the roster and the log, and adds at most one log entry. |
| Sessions.RunMonotone | server/lib/Server.js:73-131 | Over any sequence of requests: the identifier is kept and `started` is never reset. The roster and the log are only appended to. The roster never exceeds `PLAYERS.length`, and the player stays in range. |
| Sessions.RunTurnsBound | server/lib/Server.js:129 | The log grows by at most one entry per turn request. |
| Sessions.DuplicateTurnsAccepted | server/lib/Server.js:124-129 | In a started game the same entry is accepted twice in a row and logged twice, because turn order and line occupancy are not checked. |
| Sessions.TurnAdvancesPlayer | server/lib/Server.js:130-131 | An accepted turn moves the current player to `(player + 1) mod |players|`, whatever the move did. |
| SessionServer.Session.constructor | server/lib/Server.js:49-59 | The new session object holds the created record. |
| SessionServer.Socket.constructor | server/lib/Server.js:36-43 | A connected socket has no identifier, no session and no player id yet. |
| SessionServer.Server.constructor | server/lib/Server.js:33 | The dictionary starts empty. |
| SessionServer.Server.CreateSession | server/lib/Server.js:45-71 | It stores a fresh session object under the spelled identifier and replaces any old entry there. Every other entry is kept. The socket holds the identifier, the session and player 0. The reply and the emitted snapshot are the new lobby record. |
| SessionServer.Server.JoinSession | server/lib/Server.js:73-101 | The socket records the identifier and the looked-up session before any check. An unknown identifier is rejected with `session_not_found`. Otherwise the session changes exactly as `Join` says, and on acceptance the socket gets the new id and the snapshot is emitted. A rejection changes neither the session nor the player id, and the dictionary is never changed. |
| SessionServer.Server.Start | server/lib/Server.js:103-115 | A socket without a session is rejected with `session_not_found`. Otherwise the session changes exactly as `Start` says, and it is emitted on acceptance. |
| SessionServer.Server.Turn | server/lib/Server.js:117-136 | A socket without a session is rejected with `session_not_found`. Otherwise the entry built from the socket's player id is handled exactly as `Turn` says and emitted on acceptance. |
| Board.AddListener | public/js/app.js:115-117 | `addListener` appends the box to the end of one line's listeners and changes nothing else. |
| Board.TakeOrCreate | public/js/app.js:204-205 | `lines[d][a] = lines[d][a] \|\| []; lines[d][a][b] = lines[d][a][b] \|\| new Line`: an existing line is kept, and a missing one is appended at the next free index. |
| Board.TopAndBottom | public/js/app.js:204-216 | Taking or creating `h[x][y]` and `h[x][y + 1]` and registering box (x, y) with both extends the horizontal layout by one box. |
| Board.LeftAndRight | public/js/app.js:218-230 | The same for `v[x][y]` and `v[x + 1][y]`. |
| Board.PlaceBox | public/js/app.js:232-240 | `boxes[y] = boxes[y] \|\| []; boxes[y][x] = new Box(…)` extends the box layout by box (x, y). |
| Board.PlaceGridBox | public/js/app.js:204-240 | One pass of the inner loop body extends all three arrays by box (x, y). |
| Board.BuildGrid | public/js/app.js:202-242 | The construction loops produce the finished `width × height` grid with no owners. Every line sits at its index, and its listeners are the boxes built next to it, in construction order. |
| Board.BoxBinding | public/js/app.js:232-240 | Box (x, y) exists exactly inside the grid. It is bound to top `h[x][y]`, bottom `h[x][y + 1]`, left `v[x][y]` and right `v[x + 1][y]`, and all four exist. |
| Board.LineListeners | public/js/app.js:19-22 | A line exists exactly on the grid. The listeners of a horizontal line are the box above, then the box below. Those of a vertical line are the box to its left, then the box to its right. |
| Board.ListenersDistinct | public/js/app.js:19-22 | A line has one or two listeners, and two listeners are different boxes. |
| Board.Adjacency | public/js/app.js:202-240 | Line sharing: a box listens to a line exactly when the line is one of its four sides. |
| Board.AdjacencyTable | public/js/app.js:202-240 | The closed forms of listeners and sides agree in both directions. |
| ReplicaRules.BoxComplete | public/js/app.js:40-43 | No contract of its own: the four-sides test. CompleteSides states what it decides. |
| ReplicaRules.OnLineClick | public/js/app.js:39-53 | No contract of its own: a box's listener. Replica.Game.OnLineClick is proved to compute it, and CompleteSides states when it closes. |
| ReplicaRules.Notify | public/js/app.js:122-124 | No contract of its own: the `some` over the listeners. NotifyClosesFirst and NotifiedBoxes state what it does. |
| ReplicaRules.AllBoxesTaken | public/js/app.js:249-256 | No contract of its own: the all-taken scan. Replica.Game.AllBoxesTaken is proved to compute it, and FinishedIsFinal and StuckBoxStays state what follows from it. |
| ReplicaRules.Advance | public/js/app.js:284-288 | No contract of its own: the move to the next player. AdvanceInRange states what it computes. |
| ReplicaRules.NextTurn | public/js/app.js:248-292 | No contract of its own: `nextTurn` without rendering. SetPlayerEffect states when it fails and when it advances, and Replica.Game.NextTurn is proved to compute it. |
| ReplicaRules.SetPlayer | public/js/app.js:119-134 | No contract of its own: `setPlayer`. SetPlayerEffect, SetPlayerValid and SetPlayerScores state what it does. |
| ReplicaRules.Resolve | public/js/app.js:318 | No contract of its own: the lookup of `lines[direction][x][y]`. ResolveSkeleton and ReplayMarksLines state what it finds. |
| ReplicaRules.Replay | public/js/app.js:317-320 | No contract of its own: the `turns.forEach` replay. ReplayValid, ReplayAppend, ReplaySkeleton, ReplayMarksLines and ReplayKeepsStuckBox state what it does. |
| ReplicaRules.GridScore | public/js/app.js:258-265 | No contract of its own: the per-id count of owned boxes. SetPlayerScores and OpenBoxScore state how it changes. |
| ReplicaRules.SetState | public/js/app.js:314-320 | No contract of its own: `setState` without rendering. ReplayResentLog states its effect on a re-sent log, and Replica.Game.SetState is proved to compute it. |
| ReplicaRules.SetLineOwner | public/js/app.js:121 | Only the owner of the one line changes. The shape, the boxes and the current player are kept. |
| ReplicaRules.SetBoxOwner | public/js/app.js:44 | Only the owner of the one box changes. The shape, the lines and the current player are kept. |
| ReplicaRules.CompleteIgnoresBoxOwners | public/js/app.js:40-43 | Whether a box is complete depends on its lines only. |
| ReplicaRules.CompleteSides | public/js/app.js:40-43 | A box is complete exactly when its four sides have truthy owners. |
| ReplicaRules.NotifyClosesFirst | public/js/app.js:122-124 | `some` reports a closed box exactly when some listener is complete. It then gives only the first complete listener to the player. Lines and the current player are untouched, and with no complete listener nothing changes. |
| ReplicaRules.NotifiedBoxes | public/js/app.js:122-124 | A box whose owner `some` changed is a complete listener, and it now has the given owner. |
| ReplicaRules.AdvanceInRange | public/js/app.js:284-288 | The advance stays in `[0, players.length)` and is `(player + 1) mod players.length`. |
| ReplicaRules.SetPlayerEffect | public/js/app.js:119-132 | A line with a truthy owner makes `setPlayer` do nothing. Otherwise that line, and no other, takes the owner. A box changes owner only if it is a complete listener, and then it takes `playerId`. The call fails exactly when `playerId` is not a player or every box is now taken. The current player moves on exactly when the call succeeds and no box closed. |
| ReplicaRules.SetPlayerKeepsPlayerInRange | public/js/app.js:284-288 | `setPlayer` keeps the roster and keeps the current player in range. |
| ReplicaRules.ListenersHaveSide | public/js/app.js:19-22 | A line's listeners are boxes of which it is a side. |
| ReplicaRules.SetPlayerBox | public/js/app.js:39-53 | After `setPlayer` on an open line, an owned box has a truthy owner and four truthy lines, and a box that already had an owner keeps it. |
| ReplicaRules.SetPlayerValid | public/js/app.js:119-124 | `setPlayer` keeps the invariant that owned boxes have truthy owners and four owned lines, and owned boxes keep their owner. |
| ReplicaRules.StuckBoxStays | public/js/app.js:122-124 | A complete box without an owner stays so through any `setPlayer`, so not every box can be taken. |
| ReplicaRules.ReplayKeepsStuckBox | public/js/app.js:317-320 | A complete box without an owner stays so through any replay of a turn log, and the replay never ends with every box taken. |
| ReplicaRules.SomeLeavesSecondBoxOpen | public/js/app.js:122-124 | A line that completes both of its boxes gives the first-registered box to the player. The second stays complete and without an owner. |
| ReplicaRules.FinishedIsFinal | public/js/app.js:249-256 | When every box is taken, `setPlayer` changes nothing: every line already has a truthy owner. |
| ReplicaRules.SetPlayerKeepsOwnedLines | public/js/app.js:120 | A line with a truthy owner keeps it through any `setPlayer`. |
| ReplicaRules.ReplayValid | public/js/app.js:314-320 | The replay keeps the roster, the box invariant and an in-range current player. |
| ReplicaRules.ReplayKeepsOwnedLines | public/js/app.js:317-320 | A line with a truthy owner keeps it through a replay. |
| ReplicaRules.ReplayMarksLines | public/js/app.js:317-320 | After a replay that does not throw, every logged turn names a line of the grid. A turn with a truthy player id has left its line with a truthy owner. |
| ReplicaRules.ReplaySkeleton | public/js/app.js:317-320 | A replay keeps the shape of the grid. |
| ReplicaRules.LookupSkeleton | public/js/app.js:318 | Whether a line exists, and its listeners, depend on the shape only. |
| ReplicaRules.ResolveSkeleton | public/js/app.js:318 | How a logged turn resolves to a line depends on the shape only. |
| ReplicaRules.ReplayAppend | public/js/app.js:317-320 | Replaying a log in two parts is replaying it whole. |
| ReplicaRules.ReplayOwnedTurns | public/js/app.js:120 | Turns on lines that already have truthy owners change nothing and do not throw. |
| ReplicaRules.ReplayResentLog | public/js/app.js:314-320 | Re-applying an extended log, whose replayed prefix has truthy ids, has the effect of the new entries alone. |
| ReplicaRules.FalsyWriteClosesNothing | public/js/app.js:120-124 | Writing a falsy owner such as 0 to a line completes none of its listeners, because that side stays falsy. |
| ReplicaRules.ResentZeroTurnAdvancesAgain | public/js/app.js:119-134 | A re-sent turn by id 0 on its own line, which has the falsy owner 0, does not throw, closes no box, and moves the current player to `(player + 1) mod players.length`. With two or more players that is a different player. |
| ReplicaRules.RowScoreUpdate | public/js/app.js:259-264 | Replacing one box changes a row's count by the difference of the two credits. |
| ReplicaRules.GridScoreUpdate | public/js/app.js:259-264 | The same over the whole board. |
| ReplicaRules.SetPlayerScores | public/js/app.js:258-265 | After `setPlayer`, the count of a truthy id rises by one exactly when the move is that id's and closes a box. Every other count is unchanged. |
| ReplicaRules.OpenBoxScore | public/js/app.js:259-264 | Giving an unowned box to p adds one to p's count, and nothing to the others or to id 0. |
| ReplicaRules.ClosingBoxWasOpen | public/js/app.js:122-124 | A listener of an open line has no owner yet. |
| ReplicaRules.ValidIgnoresRoster | public/js/app.js:315 | Replacing the roster keeps the box invariant, both ways. |
| Replica.Game.constructor | public/js/app.js:165-242 | The new game has the given size and roster, player 0, no owners, and the finished grid. |
| Replica.Game.OnLineClick | public/js/app.js:39-53 | The box takes the player and returns true exactly when its four lines have truthy owners, as `ReplicaRules.OnLineClick`. |
| Replica.Game.Notify | public/js/app.js:122-124 | The loop over listeners, stopping at the first true, leaves the state `ReplicaRules.Notify` computes. |
| Replica.Game.AllBoxesTaken | public/js/app.js:249-256 | The flag is true exactly when no box lacks a truthy owner. |
| Replica.CountRow | public/js/app.js:260-264 | One row's pass adds each truthy owner's boxes in that row to its count, and keeps the other entries. |
| Replica.Game.Scores | public/js/app.js:258-265 | The dictionary has a key exactly for the ids that own a box. Each value is the number of boxes that id owns. |
| Replica.Game.NextTurn | public/js/app.js:248-292 | It runs the all-taken scan and the score count (`Scores`), whose result is only logged. It fails with the player unchanged when every box is taken. Otherwise it advances the player exactly when `nextPlayer` is set. |
| Replica.Game.SetPlayer | public/js/app.js:119-134 | It leaves the state `ReplicaRules.SetPlayer` computes, and it keeps the box invariant. |
| Replica.Game.SetState | public/js/app.js:314-323 | It replaces the roster and replays the log in order, stopping at the first turn that throws, as `ReplicaRules.SetState`. It keeps the box invariant. |
| LocalBoard.TopAndBottomRows | js/app.js:212-222 | Taking or creating `h[y][x]` and `h[y + 1][x]` and registering box (x, y) extends the row-first horizontal layout by one box. |
| LocalBoard.PlaceLocalBox | js/app.js:212-244 | One pass of the inner loop body extends all three arrays by box (x, y). |
| LocalBoard.BuildLocalGrid | js/app.js:210-246 | The construction loops produce the finished row-first grid with no owners. Each line's listeners are in construction order. |
| LocalBoard.LocalBoxBinding | js/app.js:236-244 | Box (x, y) exists exactly inside the grid. It is bound to top `h[y][x]`, bottom `h[y + 1][x]`, left `v[x][y]` and right `v[x + 1][y]`, and all four exist. |
| LocalBoard.LocalLineListeners | js/app.js:19-22 | A line exists exactly on the grid, and its listeners are the neighbouring boxes in registration order. |
| LocalBoard.LocalAdjacency | js/app.js:210-244 | A box listens to a line exactly when the line is one of its sides. |
| LocalRules.Complete | js/app.js:40-43 | No contract of its own: the four-sides test. CompleteSides states what it decides. |
| LocalRules.CloseEach | js/app.js:119-121 | No contract of its own: the `forEach` over the listeners. CloseEachStep, CloseEachClosesAll and CloseEachTally state what it does. |
| LocalRules.Click | js/app.js:116-121 | No contract of its own: a click on an open line. ClickTally, ClickValid and ClickValidAt state what it does. |
| LocalRules.AllTaken | js/app.js:255-262 | No contract of its own: the all-taken scan. Local.Game.AllBoxesTaken is proved to compute it, and FinishedIsFinal states what follows from it. |
| LocalRules.Decide | js/app.js:266-277 | No contract of its own: the comparison of the first two sorted scores. DecideFindsSoleLeader states what it decides. |
| LocalRules.Player.constructor | js/app.js:141-146 | A player has the given name and colour and a score of 0. |
| LocalRules.SetOwner | js/app.js:118 | Only the owner of the one line changes, to the player. The boxes and every line's listeners are kept. |
| LocalRules.SetOwnerWf | js/app.js:118 | Writing an owner keeps the grid's shape. |
| LocalRules.SetBoxOwner | js/app.js:44 | Only the owner of the one box changes. Every box keeps its sides. |
| LocalRules.CompleteIgnoresBoxOwners | js/app.js:40-43 | Whether a box is complete depends on its lines only. |
| LocalRules.CompleteSides | js/app.js:40-43 | A box is complete exactly when its four sides have owners. |
| LocalRules.CloseEachStep | js/app.js:119-121 | `forEach` is its first call followed by the rest. |
| LocalRules.CloseEachClosesAll | js/app.js:119-121 | `forEach` gives every complete listener to the player and changes no other box and no line. |
| LocalRules.ForEachClosesBoth | js/app.js:119-121 | A line that completes both of its boxes gives both to the player. |
| LocalRules.LocalListenersHaveSide | js/app.js:19-22 | A line's listeners are distinct boxes of which it is a side. |
| LocalRules.ClosingBoxesWereOpen | js/app.js:116-121 | The boxes an open line completes had no owner. |
| LocalRules.RowTallyUpdate | js/app.js:44-45 | Replacing one box changes a row's tally by what the old and new box contribute. |
| LocalRules.TallyUpdate | js/app.js:44-45 | The same over the board. |
| LocalRules.SetBoxOwnerTally | js/app.js:44-45 | Closing an open box moves one from the open tally to the player's tally. |
| LocalRules.OpenRowTally | js/app.js:145 | A row without owners gives every player a tally of 0. |
| LocalRules.OpenBoardTally | js/app.js:145 | A board without owners gives every player a tally of 0. |
| LocalRules.CloseEachTally | js/app.js:39-45 | `forEach` moves exactly its count of `score++` steps from the open tally to the player's tally. |
| LocalRules.ClickTally | js/app.js:116-127 | A click on an open line raises the mover's tally by the number of boxes closed and lowers the open tally by as much. No other player's tally changes. |
| LocalRules.ClickValid | js/app.js:116-121 | A click on an open line gives it to the mover and leaves every other line alone. It keeps the invariant that a box has an owner exactly when its four lines have. |
| LocalRules.ClickValidAt | js/app.js:116-121 | The invariant for one box after the click. |
| LocalRules.FinishedIsFinal | js/app.js:255-264 | When every box is taken every line has an owner, so no click changes anything. |
| LocalRules.InsertByScore | js/app.js:265 | One insertion step keeps the order descending and adds exactly the one player. |
| LocalRules.SortByScore | js/app.js:265 | The sort returns the same players, as a multiset, in descending order of score. |
| LocalRules.Reordered | js/app.js:265 | A reordering keeps the length and the members. |
| LocalRules.DecideFindsSoleLeader | js/app.js:264-278 | With two or more sorted players, `players[0].score > players[1].score` names a winner exactly when one player outscores all the others. The winner is then that player. |
| Local.Game.constructor | js/app.js:175-249 | Before the final `nextTurn` there is the finished row-first grid, with no owners and player -1. A board without boxes has no lines, and a board with boxes has box (0, 0). |
| Local.Game.OnLineClick | js/app.js:39-52 | A box closes exactly when it is complete. It then takes the player, and that player's score rises by one. |
| Local.Game.Notify | js/app.js:119-121 | The `forEach` loop leaves the state `CloseEach` computes and raises the mover's score by the number of boxes closed. |
| Local.Game.AllBoxesTaken | js/app.js:255-262 | The flag is true exactly when no box lacks an owner. |
| Local.Game.Announce | js/app.js:266-277 | The first two sorted scores decide: a strictly higher first score is a win, and anything else is a tie. |
| Local.Game.Finish | js/app.js:264-278 | The roster is sorted in place by descending score, as a permutation. It fails with fewer than two players. Otherwise a winner is announced exactly when one player outscores all the others, and it is that player. |
| Local.Game.NextTurn | js/app.js:254-286 | When every box is taken the game finishes. Otherwise the player always advances, closing or not, and it fails when no player is there. Scores and the invariant are kept. |
| Local.Game.SetLine | js/app.js:118 | The line takes the mover. |
| Local.Game.Draw | js/app.js:116-122 | The mover takes the line and every box it completes. The mover's score rises by the number closed, no other score changes, and the invariant is kept. |
| Local.Game.OnClick | js/app.js:116-127 | An owned line is ignored. Otherwise the state is that of `Click`, only the mover's score rises, and `nextTurn` follows. The invariant is kept. |
| Local.DefaultRoster | js/app.js:155-168 | The default roster is three fresh players, Player One `#CCCC00`, Player Two `#00CCCC` and Player Three `#CC00CC`, on score 0. |
| Local.DefaultRosterTie | js/app.js:264-276 | A reordering of the three default players on score 0 holds only those players, still on 0, so the first two scores are equal and the verdict is a tie. |
| Local.NewGame | js/app.js:152-252 | Construction fails exactly when the constructor's `nextTurn` throws: with no player, or with fewer than two players on a board without boxes. Otherwise the game keeps the invariant, and its board is the `width × height` grid of the construction loops with no owner on any line or box. On a board with boxes the given roster is kept in its order, or else the three default players in their order, and player 0 is to move. On a board without boxes the roster is a permutation in descending score order, the verdict is that of the first two scores, and the default roster ties. |

## Left out

- Rendering is not modelled: SVG elements, dots, scribbles, CSS classes and
  status HTML (`renderStatus`, `setStatus`, `setStatusColor`, the `Lobby`
  class). `Local.Game.status` records only what the status says: nothing
  yet, whose turn it is, or the verdict.
- Visual effects are not modelled: `confetti`, the `setTimeout` animations
  and the `Math.random()` stroke width, which is floating point.
- The transport is reduced: socket.io, express, http, `socket.join` and
  `listen`. Each handler returns its callback value and the snapshot it
  would emit to the session's room.
- Browser plumbing is not modelled: the `window` load handlers, URL parsing
  and `history`. `Local.NewGame` with its defaults covers
  `new Game(…, {})`.
- The random draw in `createSessionId` is an input: one index in
  `[0, 62)` per character.
- The winner branch of the networked client's `nextTurn` throws before
  doing anything, because it reads an undeclared variable. It is modelled
  as a failed call. The winner and tie are modelled from the local game.
- `Line.prototype.onClick` of the networked client is not modelled. It is
  dead code, shadowed by the `onClick` field the constructor sets. The
  `onTurn` callback it would reach only emits to the server.
- A thrown exception is modelled as a `false` result that stops the
  enclosing call. A local game whose constructor throws is `null`.
- Keys that JavaScript would find on object prototypes are not modelled,
  for example a logged `direction` of `"constructor"`. Neither are
  non-integer coordinates or a non-integer `length`.
- `console.log`, `debug` and `PORT` are not modelled.
- In the networked client, `renderStatus` runs after the advance of
  `nextTurn` and at the end of `setState`. It throws when
  `players[player]` is undefined. The model does not report that throw.
  It cannot happen while the current player is in the roster, and
  `SetPlayerKeepsPlayerInRange` and `ReplayValid` keep it there.
- LocalRules.SortByScore: does not state that the sort is stable. No
  result depends on the order of equal scores, because the verdict
  compares only the first two scores.
- Local.Game.OnClick: requires the invariant `Valid()`, which
  `Local.NewGame` establishes and every method keeps. A player to move
  therefore always exists. A click on a game whose constructor threw is
  not modelled.
- Local.Game.Draw: requires the invariant and an open line, which
  `OnClick` checks before it calls `Draw`.
- SessionServer.Server.Start: requires the socket's session to be
  consistent, which every handler keeps.
- SessionServer.Server.Turn: requires the socket's session to be
  consistent, which every handler keeps.
- Sessions.Join: requires at most `PLAYERS.length` players, which every
  reachable session has.
