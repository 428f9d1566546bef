# Ludo game server: a verified model of its sessions and tables

The Ludo API server hosts game sessions. A client creates a game and is given
its id. Players join a game, and each is given a player id. Once four players
are in, the game is under way. Players then move one of their four pieces by
some number of steps, strictly in the order they joined, and anyone can query
a game's state.

This project models two things:

- the session state machine, the `LudoGame` class (`ludo.dfy`);
- the server's two module-level dictionaries and the four requests that read
  and update them (`server.dfy`).

The first dictionary maps game ids to games. The second, the registry, maps
player ids to the game each player joined.

Each part is written twice. Functions on values (`NewSession`, `Join`, `Move`,
`Report`; `CreateGame`, `JoinGame`, `MoveRequest`, `StateQuery`) state what an
operation does. Classes with mutable fields (`LudoGame`, `GameServer`) do the
same step by step, and their methods are proved to compute exactly those
functions.

The properties are then proved about the functions:

- **Session invariant.** A player has a record exactly when the player is in
  the turn order. A waiting game has fewer than four players. A game under way
  has four players and a turn index inside the turn order.
- **Table invariant.** Every registered player's game exists and seats that
  player. Every seated player is registered to the game that seats them.
- **Joining.** A game admits players exactly while it waits, and starts on the
  fourth join.
- **Refused moves.** A move is refused for exactly one of three reasons, checked
  in order: the game is not under way, it is not the player's turn, or the
  piece index is out of range. A refused move changes nothing.
- **Accepted moves.** A move changes exactly one piece of one player, and the
  turn passes to the next seat. After N moves by the eligible players, the turn
  has advanced exactly N seats modulo the number of seats.
- **State query.** It lists exactly the players registered to the game, in join
  order.
- **Concrete session.** The opening of a concrete game is proved step by step:
  four joins, the first move, and a refused out-of-turn move.

`common.dfy` holds the identifier and result types, plus a few sequence and
arithmetic lemmas.

Where the code's behaviour may surprise, the model follows the code:

- `add_player` does not reject an id that is already seated. It overwrites the
  player's record and appends the id to the turn order a second time. Only the
  dictionary's size decides when the game starts. `Join` does the same.
  - The turn order therefore equals the dictionary's key set only when ids are
    fresh. The server guarantees this, and `JoinGameKeepsConsistent` proves it
    as `Distinct(turnOrder)`.
  - The state query lists the dictionary's keys in insertion order, which is
    the turn order with repeats dropped (`JoinOrder`).
- A game starts only with exactly four players. A session "in progress with two
  players" cannot arise.
- Errors from inside a session come back to the mover as an ordinary reply. The
  model keeps this: `MoveRequest` answers `Success(Refused(...))`. Only an
  unknown player is a server-level failure.

## Model

| member | source | states |
|---|---|---|
| Ludo.NewSession | ludo-api.py:12-18 | a new session satisfies the invariant, is filed under its id, has no players, an empty turn order, turn index 0, and is waiting |
| Ludo.NewSessionReport | ludo-api.py:12-18 | the state of a new session reports its id, no players, waiting, and nobody to move |
| Ludo.LudoGame.constructor | ludo-api.py:12-18 | the new object's fields are those of NewSession(id) and satisfy the session invariant |
| Ludo.CurrentPlayer | ludo-api.py:32 | in a session under way, the player at the current turn index is seated and has a record |
| Ludo.Join | ludo-api.py:20-27 | a join succeeds iff the session is waiting, and a refused join changes nothing; an admitted player gets four pieces at 0 and is appended to the turn order; other records, the id and the turn index are kept; the status is in progress iff the dictionary holds four players; the invariant is kept; on a valid session a join succeeds iff fewer than four players are in |
| Ludo.JoinNewcomer | ludo-api.py:20-27 | a new id joining a waiting session yields exactly that session with one new record, the id appended, and the status moved on when it is the fourth player |
| Ludo.LudoGame.AddPlayer | ludo-api.py:20-27 | updating the fields in place returns and leaves exactly what Join gives on the old state, and keeps the invariant |
| Ludo.Move | ludo-api.py:29-41 | the three refusals hold exactly under their conditions, checked in source order, and leave the session unchanged; an accepted move adds `steps` to the chosen piece only and returns the new position; it leaves every other piece, the counters and every other player unchanged; the turn index becomes (index + 1) mod the seat count; the invariant is kept |
| Ludo.LudoGame.MakeMove | ludo-api.py:29-41 | updating the fields in place returns and leaves exactly what Move gives on the old state, and keeps the invariant |
| Ludo.Turn | ludo-api.py:29-41 | a move by the player to move keeps the session valid, under way, and with the same turn order |
| Ludo.PlayTurns | ludo-api.py:29-41 | any sequence of moves by the players to move keeps the session valid, under way, and with the same turn order |
| Ludo.PlayTurnsKeepsPlayers | ludo-api.py:29-41 | play never adds or removes a player |
| Ludo.TurnPasses | ludo-api.py:37-40 | a move by the player to move with a valid piece index is accepted and passes the turn to the next seat |
| Ludo.RotatedIsModular | ludo-api.py:40 | advancing one seat at a time, wrapping at the last seat, k times is the same as adding k modulo the seat count |
| Ludo.PlayTurnsRotated | ludo-api.py:40 | after N accepted moves the turn index has advanced N seats one at a time |
| Ludo.PlayTurnsRotate | ludo-api.py:40 | after N moves with valid piece indices, the turn index is (start + N) mod the seat count: no turn is lost or repeated |
| Ludo.Report | ludo-api.py:43-49 | the state carries the session's id and status; it lists each player with a record exactly once, in turn order when no id repeats; it names a player to move iff the game is under way, and then it is the player at the current turn index |
| Ludo.LudoGame.GetState | ludo-api.py:43-49 | reading the fields gives Report of the object's state |
| Common.FirstOccurrencesSpec | ludo-api.py:46 | listing dictionary keys in insertion order lists each appended id once; it lists only ids that were appended; it leaves a repeat-free turn order unchanged |
| Ludo.OpeningJoins | ludo-api.py:20-27 | four distinct players joining a new session are each admitted with pieces at 0; the session waits through the third join and is under way after the fourth |
| Ludo.OpeningStarted | ludo-api.py:43-49 | the started session is valid, lists its four players in join order with the first joiner to move, and refuses a fifth join |
| Ludo.OpeningFirstMove | ludo-api.py:29-41 | the first joiner moving piece 0 by 3 reaches position 3, and the turn passes to the second joiner |
| Ludo.SecondTurn | ludo-api.py:29-48 | after that move the second joiner is reported to move; a move by the third joiner is refused as out of turn; joins are still refused |
| Server.EmptyStore | ludo-api.py:7-8 | the server starts with no games and no registrations, which is a consistent state |
| Server.GameServer.constructor | ludo-api.py:7-8 | the new object's tables are EmptyStore() and consistent |
| Server.CreateGame | ludo-api.py:53-57 | creating a game adds exactly the new id, filed with a new session; it keeps every other game and the registry, and keeps the tables consistent |
| Server.GameServer.Create | ludo-api.py:53-57 | updating the game table in place gives CreateGame of the old tables, and keeps them consistent |
| Server.JoinGame | ludo-api.py:59-68 | the join fails with GameNotFound iff the game id is not filed, and with UnableToJoin iff the game is filed but not waiting; a failure changes nothing; success returns the player's id and registers the player to that game |
| Server.JoinGameUpdates | ludo-api.py:59-68 | an admitted join adds exactly the new registration and replaces game g by the session after the join; every other game and registration is kept |
| Server.JoinGameKeepsConsistent | ludo-api.py:59-68 | joins keep the tables consistent; a join is admitted iff the game exists and seats fewer than four players |
| Server.GameServer.Join | ludo-api.py:59-68 | updating both tables in place returns and leaves exactly what JoinGame gives on the old tables, and keeps them consistent |
| Server.MoveRequest | ludo-api.py:70-83 | the request fails with PlayerNotFound iff the player is unregistered, and then changes nothing; the registry is never changed by a move |
| Server.MoveRequestRoutes | ludo-api.py:77-83 | a registered player's game exists; the reply is that session's own Move outcome and the session becomes the one after the move; no other game changes |
| Server.MoveRequestKeepsConsistent | ludo-api.py:70-83 | move requests keep the tables consistent |
| Server.GameServer.MakeMove | ludo-api.py:70-83 | updating the game table in place returns and leaves exactly what MoveRequest gives on the old tables, and keeps them consistent |
| Server.StateQuery | ludo-api.py:85-89 | the query fails with GameNotFound iff the id is not filed; otherwise it replies with that game's own state report: the game's id and status, a player named to move iff the game is under way, and then exactly the player at the current turn index |
| Server.SeatedAreRegistered | ludo-api.py:59-68 | on consistent tables a game seats exactly the players registered to it |
| Server.StateListsJoinOrder | ludo-api.py:85-89 | on consistent tables the state of a game lists its turn order, that is, its players in join order |
| Server.StateListsRegistered | ludo-api.py:85-89 | the state of a game lists exactly the players registered to it |
| Server.JoinedPlayerIsListed | ludo-api.py:59-89 | after an admitted join the game's state lists the new player, after the players who joined before |
| Server.GameServer.GameState | ludo-api.py:85-89 | reading the tables gives StateQuery of the tables, and changes nothing |

## Left out

- HTTP is not modelled: Flask routing, the JSON bodies, `jsonify` and the status codes (404, 400, and the 200 sent with session-level move errors). Creating a game cannot fail, so `CreateGame` returns the new tables. The join, move and state requests return a `Result` together with the new tables where they change them. The error kinds are the three `ServerError` values and the three `MoveError` values.
- Random UUIDs are not modelled. The id of a new game or player is a parameter. `CreateGame` and `GameServer.Create` require that it is not yet filed, and `JoinGame` and `GameServer.Join` require that it is not yet registered. The source would overwrite an existing game with a colliding id; with random UUIDs this does not occur.
- Malformed request bodies are not modelled. A missing or non-integer `player_id`, `piece_index` or `steps` reaches Python's dynamic typing; the model takes a string and two integers.
- The 15x15 board is not modelled: no rule reads it. The `home` and `goal` counters are carried but inert, as in the source. The `finished` status exists but no operation enters it, and the invariant excludes it.
- Concurrency is not modelled. The server handles requests with no locking, and the model treats each request as atomic, one after another.
- The server's game table holds each game's session as a value, not a shared `LudoGame` object. Each session object is reachable only through the table, so updating the value stands for updating the object in place. `LudoGame`'s methods are proved to compute the same `Join`, `Move` and `Report`.
- A player's pieces are a sequence whose length is fixed at four by its type. In the source it is a list that no operation resizes.
- Integers are unbounded, like Python's, so piece positions have no wrap-around and no clamping.
- Server.MoveRequest: its own contract does not say what the successful reply is. That is stated by `MoveRequestRoutes`, because only a registered player's request reaches a session.
