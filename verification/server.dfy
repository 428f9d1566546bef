/**
 * The server that hosts the sessions: a table of games by id and a registry
 * that maps every admitted player to the game that player joined. The four
 * requests (create a game, join a game, move, query a game's state) are
 * stated as functions on a Store value; the class GameServer keeps the two
 * tables in mutable fields and its methods are proved to follow those
 * functions.
 *
 * Identifiers are supplied by the caller and are fresh by precondition,
 * in place of the random UUIDs the server draws.
 */
module Server {
  import opened Common
  import opened Ludo

  datatype ServerError = GameNotFound | UnableToJoin | PlayerNotFound

  /** The two tables: sessions by game id, and the game each player joined. */
  datatype Store = Store(games: map<GameId, Session>, players: map<PlayerId, GameId>)

  /** Every session is valid, is filed under its own id, and seats nobody twice. */
  ghost predicate SessionsValid(st: Store) {
    forall g :: g in st.games ==>
      Invariant(st.games[g]) && st.games[g].id == g && Distinct(st.games[g].turnOrder)
  }

  /** Every registered player's game exists and seats that player. */
  ghost predicate Registered(st: Store) {
    forall p :: p in st.players ==>
      st.players[p] in st.games && p in st.games[st.players[p]].turnOrder
  }

  /** Every seated player is registered to the game that seats them. */
  ghost predicate Seated(st: Store) {
    forall g, p :: g in st.games && p in st.games[g].turnOrder ==>
      p in st.players && st.players[p] == g
  }

  /** The invariant of the two tables. */
  ghost predicate Consistent(st: Store) {
    SessionsValid(st) && Registered(st) && Seated(st)
  }

  /** Replacing one session by a valid one filed under its id keeps every session valid. */
  lemma SessionsValidUpdate(st: Store, g: GameId, s: Session, r: Store)
    requires SessionsValid(st) && r.games == st.games[g := s]
    requires Invariant(s) && s.id == g && Distinct(s.turnOrder)
    ensures SessionsValid(r)
  {
    forall h | h in r.games
      ensures Invariant(r.games[h]) && r.games[h].id == h && Distinct(r.games[h].turnOrder)
    {
      if h != g {
        assert r.games[h] == st.games[h];
      }
    }
  }

  /** Replacing a session by one with the same seats keeps the registry in step. */
  lemma SeatsUnchanged(st: Store, g: GameId, s: Session, r: Store)
    requires Registered(st) && Seated(st) && g in st.games
    requires r.games == st.games[g := s] && r.players == st.players
    requires s.turnOrder == st.games[g].turnOrder
    ensures Registered(r) && Seated(r)
  {
    forall q | q in r.players
      ensures r.players[q] in r.games && q in r.games[r.players[q]].turnOrder
    {
      var h := st.players[q];
      assert h in st.games && q in st.games[h].turnOrder;
      assert r.games[h].turnOrder == st.games[h].turnOrder;
    }
    forall h, q | h in r.games && q in r.games[h].turnOrder
      ensures q in r.players && r.players[q] == h
    {
      assert r.games[h].turnOrder == st.games[h].turnOrder;
    }
  }

  /** Filing a new session with nobody seated keeps the registry in step. */
  lemma SeatsAfterCreate(st: Store, g: GameId, s: Session, r: Store)
    requires Registered(st) && Seated(st) && g !in st.games
    requires r.games == st.games[g := s] && r.players == st.players && s.turnOrder == []
    ensures Registered(r) && Seated(r)
  {
    forall q | q in r.players
      ensures r.players[q] in r.games && q in r.games[r.players[q]].turnOrder
    {
      var h := st.players[q];
      assert h in st.games && h != g;
      assert r.games[h] == st.games[h];
    }
    forall h, q | h in r.games && q in r.games[h].turnOrder
      ensures q in r.players && r.players[q] == h
    {
      assert h != g;
      assert r.games[h] == st.games[h];
    }
  }

  /** Seating an unregistered player in game `g` and registering them to `g` keeps the registry in step. */
  lemma SeatsAfterJoin(st: Store, g: GameId, p: PlayerId, s: Session, r: Store)
    requires Registered(st) && Seated(st) && g in st.games && p !in st.players
    requires r.games == st.games[g := s] && r.players == st.players[p := g]
    requires s.turnOrder == st.games[g].turnOrder + [p]
    ensures Registered(r) && Seated(r)
  {
    forall q | q in r.players
      ensures r.players[q] in r.games && q in r.games[r.players[q]].turnOrder
    {
      if q != p {
        var h := st.players[q];
        assert r.players[q] == h && h in st.games && q in st.games[h].turnOrder;
        if h == g {
          assert q in s.turnOrder;
        } else {
          assert r.games[h] == st.games[h];
        }
      }
    }
    forall h, q | h in r.games && q in r.games[h].turnOrder
      ensures q in r.players && r.players[q] == h
    {
      if h != g {
        assert r.games[h] == st.games[h];
        assert q in st.players && st.players[q] == h;
      } else if q != p {
        assert q in st.games[g].turnOrder;
        assert q in st.players && st.players[q] == g;
      }
    }
  }

  /** The server as it starts: no games, no players. */
  function EmptyStore(): (st: Store)
    ensures Consistent(st)
    ensures st.games == map[] && st.players == map[]
  {
    Store(map[], map[])
  }

  /** Creating a game files a fresh waiting session under the new id `g`. */
  function CreateGame(st: Store, g: GameId): (r: Store)
    requires g !in st.games
    ensures r.games.Keys == st.games.Keys + {g}
    ensures r.games[g] == NewSession(g)
    ensures forall h :: h in st.games ==> r.games[h] == st.games[h]
    ensures r.players == st.players
    ensures Consistent(st) ==> Consistent(r)
  {
    var r := Store(st.games[g := NewSession(g)], st.players);
    CreateKeepsConsistent(st, g, r);
    assert r.games.Keys == st.games.Keys + {g};
    r
  }

  lemma CreateKeepsConsistent(st: Store, g: GameId, r: Store)
    requires g !in st.games && r == Store(st.games[g := NewSession(g)], st.players)
    ensures Consistent(st) ==> Consistent(r)
  {
    if Consistent(st) {
      SessionsValidUpdate(st, g, NewSession(g), r);
      SeatsAfterCreate(st, g, NewSession(g), r);
    }
  }

  /**
   * Player `p` asks to join game `g`. An unknown game is reported before any
   * session is asked; a session that refuses the player leaves everything as
   * it was; only an admitted player is registered, to `g`.
   */
  function JoinGame(st: Store, g: GameId, p: PlayerId): (r: (Result<PlayerId, ServerError>, Store))
    requires p !in st.players
    ensures r.0 == Failure(GameNotFound) <==> g !in st.games
    ensures r.0 == Failure(UnableToJoin) <==> g in st.games && st.games[g].status != Waiting
    ensures r.0.Failure? ==> r.1 == st
    ensures r.0.Success? ==> r.0.value == p && p in r.1.players && r.1.players[p] == g
  {
    if g !in st.games then (Failure(GameNotFound), st)
    else
      var j := Join(st.games[g], p);
      if !j.0 then (Failure(UnableToJoin), st)
      else (Success(p), Store(st.games[g := j.1], st.players[p := g]))
  }

  /**
   * An admitted join changes exactly two entries: game `g` becomes the
   * session after the join, and `p` is added to the registry; every other
   * game and registration is kept.
   */
  lemma JoinGameUpdates(st: Store, g: GameId, p: PlayerId)
    requires p !in st.players && JoinGame(st, g, p).0.Success?
    ensures
      var r := JoinGame(st, g, p).1;
      && r.players.Keys == st.players.Keys + {p}
      && (forall q :: q in st.players ==> r.players[q] == st.players[q])
      && r.games.Keys == st.games.Keys
      && r.games[g] == Join(st.games[g], p).1
      && (forall h :: h in st.games && h != g ==> r.games[h] == st.games[h])
  {
    var r := JoinGame(st, g, p).1;
    assert r.players.Keys == st.players.Keys + {p};
    assert r.games.Keys == st.games.Keys;
  }

  /**
   * Joins keep the tables consistent, and on consistent tables a join is
   * admitted exactly when the game exists and has fewer than four players.
   */
  lemma JoinGameKeepsConsistent(st: Store, g: GameId, p: PlayerId)
    requires Consistent(st) && p !in st.players
    ensures Consistent(JoinGame(st, g, p).1)
    ensures JoinGame(st, g, p).0.Success? <==> g in st.games && |st.games[g].players| < Capacity
  {
    if g in st.games && st.games[g].status == Waiting {
      var s := st.games[g];
      var s' := Join(s, p).1;
      var r := JoinGame(st, g, p).1;
      assert r == Store(st.games[g := s'], st.players[p := g]);
      assert p !in s.turnOrder;
      DistinctAppend(s.turnOrder, p);
      SessionsValidUpdate(st, g, s', r);
      SeatsAfterJoin(st, g, p, s', r);
    }
  }

  /**
   * A move request by `p`. A player nobody registered is reported before
   * any session is touched; otherwise the request goes to the session `p`
   * joined, whose outcome is the reply, error or not.
   */
  function MoveRequest(st: Store, p: PlayerId, piece: int, steps: int): (r: (Result<MoveOutcome, ServerError>, Store))
    requires Consistent(st)
    ensures r.0 == Failure(PlayerNotFound) <==> p !in st.players
    ensures r.0.Failure? ==> r.1 == st
    ensures r.1.players == st.players
  {
    if p !in st.players then (Failure(PlayerNotFound), st)
    else
      var g := st.players[p];
      var m := Move(st.games[g], p, piece, steps);
      (Success(m.0), Store(st.games[g := m.1], st.players))
  }

  /**
   * A request by a registered player is answered by the session that player
   * joined, with that session's outcome; only that session changes.
   */
  lemma MoveRequestRoutes(st: Store, p: PlayerId, piece: int, steps: int)
    requires Consistent(st) && p in st.players
    ensures
      var g := st.players[p];
      var r := MoveRequest(st, p, piece, steps);
      && g in st.games
      && r.0.Success?
      && r.1.games.Keys == st.games.Keys
      && (r.0.value, r.1.games[g]) == Move(st.games[g], p, piece, steps)
      && (forall h :: h in st.games && h != g ==> r.1.games[h] == st.games[h])
  {
    var r := MoveRequest(st, p, piece, steps);
    assert r.1.games.Keys == st.games.Keys;
  }

  /** Move requests keep the tables consistent. */
  lemma MoveRequestKeepsConsistent(st: Store, p: PlayerId, piece: int, steps: int)
    requires Consistent(st)
    ensures Consistent(MoveRequest(st, p, piece, steps).1)
  {
    if p in st.players {
      var g := st.players[p];
      var s := Move(st.games[g], p, piece, steps).1;
      var r := MoveRequest(st, p, piece, steps).1;
      assert r == Store(st.games[g := s], st.players);
      SessionsValidUpdate(st, g, s, r);
      SeatsUnchanged(st, g, s, r);
    }
  }

  /**
   * The state query for game `g`: an unknown game is reported as not found;
   * otherwise the session's own report.
   */
  function StateQuery(st: Store, g: GameId): (r: Result<StateReport, ServerError>)
    requires Consistent(st)
    ensures r.Failure? <==> g !in st.games
    ensures r.Failure? ==> r.error == GameNotFound
    ensures r.Success? ==>
      && r.value.gameId == g
      && r.value.status == st.games[g].status
      && (r.value.currentTurn.Some? <==> st.games[g].status == InProgress)
    ensures r.Success? ==> r.value == Report(st.games[g])
    ensures r.Success? && st.games[g].status == InProgress ==>
      r.value.currentTurn == Some(CurrentPlayer(st.games[g]))
  {
    if g !in st.games then Failure(GameNotFound)
    else Success(Report(st.games[g]))
  }

  /** A game seats exactly the players registered to it. */
  lemma SeatedAreRegistered(st: Store, g: GameId)
    requires Registered(st) && Seated(st) && g in st.games
    ensures forall q :: q in st.games[g].turnOrder <==> q in st.players && st.players[q] == g
  {
    forall q | q in st.players && st.players[q] == g
      ensures q in st.games[g].turnOrder
    {
      assert q in st.games[st.players[q]].turnOrder;
    }
  }

  /** The state of a game lists its players in the order they joined. */
  lemma StateListsJoinOrder(st: Store, g: GameId)
    requires Consistent(st) && g in st.games
    ensures StateQuery(st, g).value.players == st.games[g].turnOrder
  {
    var s := st.games[g];
    assert Invariant(s) && Distinct(s.turnOrder);
  }

  /** The state of a game lists exactly the players registered to it. */
  lemma StateListsRegistered(st: Store, g: GameId)
    requires Consistent(st) && g in st.games
    ensures forall q :: q in StateQuery(st, g).value.players <==> q in st.players && st.players[q] == g
  {
    StateListsJoinOrder(st, g);
    SeatedAreRegistered(st, g);
  }

  /** A player admitted to a game is listed by that game's state from then on. */
  lemma JoinedPlayerIsListed(st: Store, g: GameId, p: PlayerId)
    requires Consistent(st) && p !in st.players
    requires JoinGame(st, g, p).0.Success?
    ensures Consistent(JoinGame(st, g, p).1)
    ensures StateQuery(JoinGame(st, g, p).1, g).Success?
    ensures p in StateQuery(JoinGame(st, g, p).1, g).value.players
    ensures StateQuery(JoinGame(st, g, p).1, g).value.players == st.games[g].turnOrder + [p]
  {
    JoinGameUpdates(st, g, p);
    JoinGameKeepsConsistent(st, g, p);
    StateListsJoinOrder(JoinGame(st, g, p).1, g);
  }

  /**
   * The server's two module-level tables, updated in place by the requests.
   * The game table holds each game's session as a value. The session
   * operations applied to it are Join, Move and Report, which the methods of
   * LudoGame are proved to compute.
   */
  class GameServer {
    var games: map<GameId, Session>
    var players: map<PlayerId, GameId>

    ghost function Tables(): Store
      reads this
    {
      Store(games, players)
    }

    ghost predicate Valid()
      reads this
    {
      Consistent(Tables())
    }

    constructor ()
      ensures Valid() && Tables() == EmptyStore()
    {
      games := map[];
      players := map[];
    }

    /** Handles a create request; `g` stands for the freshly drawn game id. */
    method Create(g: GameId)
      requires Valid() && g !in games
      modifies this
      ensures Tables() == CreateGame(old(Tables()), g)
      ensures Valid()
    {
      games := games[g := NewSession(g)];
    }

    /** Handles a join request for game `g`; `p` stands for the freshly drawn player id. */
    method Join(g: GameId, p: PlayerId) returns (r: Result<PlayerId, ServerError>)
      requires Valid() && p !in players
      modifies this
      ensures (r, Tables()) == JoinGame(old(Tables()), g, p)
      ensures Valid()
    {
      JoinGameKeepsConsistent(Tables(), g, p);
      if g !in games {
        return Failure(GameNotFound);
      }
      var (ok, session) := Ludo.Join(games[g], p);
      if !ok {
        return Failure(UnableToJoin);
      }
      games := games[g := session];
      players := players[p := g];
      r := Success(p);
    }

    /** Handles a move request; the session's own outcome, error or not, is the reply. */
    method MakeMove(p: PlayerId, piece: int, steps: int) returns (r: Result<MoveOutcome, ServerError>)
      requires Valid()
      modifies this
      ensures (r, Tables()) == MoveRequest(old(Tables()), p, piece, steps)
      ensures Valid()
    {
      MoveRequestKeepsConsistent(Tables(), p, piece, steps);
      if p !in players {
        return Failure(PlayerNotFound);
      }
      var g := players[p];
      var (outcome, session) := Move(games[g], p, piece, steps);
      games := games[g := session];
      r := Success(outcome);
    }

    /** Handles a state request; reads the tables and changes nothing. */
    method GameState(g: GameId) returns (r: Result<StateReport, ServerError>)
      requires Valid()
      ensures r == StateQuery(Tables(), g)
    {
      if g !in games {
        return Failure(GameNotFound);
      }
      r := Success(Report(games[g]));
    }
  }
}
