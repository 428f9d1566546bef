/**
 * One game session of the Ludo server: who has joined, in which order the
 * turn passes, where each player's four pieces stand, and whether the game
 * has started.
 *
 * The functions NewSession, Join, Move and Report state what the session
 * operations do to a session value; the class LudoGame keeps the same state
 * in mutable fields and its methods are proved to follow those functions.
 */
module Ludo {
  import opened Common

  /** Number of pieces each player owns. */
  const PieceCount: nat := 4

  /** A valid piece index. */
  type PieceIndex = i: int | 0 <= i < PieceCount

  /** The game starts as soon as this many players have joined. */
  const Capacity: nat := 4

  /** Finished is part of the status set but no operation ever enters it. */
  datatype Status = Waiting | InProgress | Finished

  /** The positions of a player's pieces: one entry per piece, a list no operation resizes. */
  type Pieces = ps: seq<int> | |ps| == PieceCount witness [0, 0, 0, 0]

  /** A player's record: piece positions and two counters that no rule reads. */
  datatype Player = Player(pieces: Pieces, home: int, goal: int)

  /** The record a player gets on joining: every piece at position 0. */
  function NewPlayer(): Player {
    Player([0, 0, 0, 0], 0, 0)
  }

  datatype MoveError = NotInProgress | NotYourTurn | InvalidPiece

  /** What a move request yields: the piece's new position, or why it was refused. */
  datatype MoveOutcome = Advanced(newPosition: int) | Refused(reason: MoveError)

  /** What a state query reports; `currentTurn` is absent unless the game is in progress. */
  datatype StateReport = StateReport(
    gameId: GameId,
    players: seq<PlayerId>,
    status: Status,
    currentTurn: Option<PlayerId>)

  /**
   * The value of one session: the player dictionary, the list to which every
   * admitted id is appended, the index of the seat whose turn it is, and the
   * lifecycle status.
   */
  datatype Session = Session(
    id: GameId,
    players: map<PlayerId, Player>,
    turnOrder: seq<PlayerId>,
    currentTurn: int,
    status: Status)

  /** The session invariant every operation preserves. */
  ghost predicate Invariant(s: Session) {
    && (forall p :: p in s.turnOrder <==> p in s.players)
    && s.status != Finished
    && (s.status == Waiting ==> |s.players| < Capacity && s.currentTurn == 0)
    && (s.status == InProgress ==> |s.players| == Capacity && 0 <= s.currentTurn < |s.turnOrder|)
  }

  /**
   * The keys of the player dictionary in the order the dictionary yields
   * them. A dictionary keeps keys in first-insertion order, and every
   * insertion into it goes with an append to the turn order, so that order
   * is the turn order with repeated ids dropped.
   */
  function JoinOrder(s: Session): seq<PlayerId> {
    FirstOccurrences(s.turnOrder)
  }

  /** The player whose turn it is, in a session that is under way. */
  function CurrentPlayer(s: Session): (p: PlayerId)
    requires Invariant(s) && s.status == InProgress
    ensures p in s.players && p in s.turnOrder
  {
    s.turnOrder[s.currentTurn]
  }

  /** A freshly created session: nobody has joined yet. */
  function NewSession(id: GameId): (s: Session)
    ensures Invariant(s)
    ensures s.id == id && s.players == map[] && s.turnOrder == [] && s.currentTurn == 0
    ensures s.status == Waiting
  {
    Session(id, map[], [], 0, Waiting)
  }

  /** A new session reports its id, nobody joined, waiting, and nobody to move. */
  lemma NewSessionReport(id: GameId)
    ensures Report(NewSession(id)) == StateReport(id, [], Waiting, None)
  {
  }

  /**
   * Admitting player `p`. Succeeds exactly while the session is waiting; the
   * session starts once the player dictionary holds Capacity players.
   */
  function Join(s: Session, p: PlayerId): (r: (bool, Session))
    ensures r.0 <==> s.status == Waiting
    ensures !r.0 ==> r.1 == s
    ensures r.0 ==>
      && r.1.id == s.id
      && r.1.turnOrder == s.turnOrder + [p]
      && r.1.players.Keys == s.players.Keys + {p}
      && r.1.players[p] == NewPlayer()
      && (forall q :: q in s.players && q != p ==> r.1.players[q] == s.players[q])
      && r.1.currentTurn == s.currentTurn
      && (r.1.status == InProgress <==> |r.1.players| == Capacity)
      && (r.1.status == Waiting <==> |r.1.players| != Capacity)
    ensures Invariant(s) ==> Invariant(r.1)
    ensures Invariant(s) ==> (r.0 <==> |s.players| < Capacity)
  {
    if s.status != Waiting then (false, s)
    else
      var players := s.players[p := NewPlayer()];
      var status := if |players| == Capacity then InProgress else s.status;
      JoinKeepsInvariant(s, p, players, status);
      (true, s.(players := players, turnOrder := s.turnOrder + [p], status := status))
  }

  lemma JoinKeepsInvariant(s: Session, p: PlayerId, players: map<PlayerId, Player>, status: Status)
    requires s.status == Waiting
    requires players == s.players[p := NewPlayer()]
    requires status == if |players| == Capacity then InProgress else s.status
    ensures Invariant(s) ==>
      Invariant(s.(players := players, turnOrder := s.turnOrder + [p], status := status))
  {
    if Invariant(s) {
      if p !in s.players {
        assert players.Keys == s.players.Keys + {p};
        assert |players| == |s.players| + 1;
      } else {
        assert players.Keys == s.players.Keys;
      }
    }
  }

  /**
   * A move request by `p`: the status is checked first, then whose turn it
   * is, then the piece index; a legal move adds `steps` to the piece and
   * passes the turn to the next seat.
   */
  function Move(s: Session, p: PlayerId, piece: int, steps: int): (r: (MoveOutcome, Session))
    requires Invariant(s)
    ensures Invariant(r.1)
    ensures r.0.Refused? ==> r.1 == s
    ensures r.0 == Refused(NotInProgress) <==> s.status != InProgress
    ensures r.0 == Refused(NotYourTurn) <==> s.status == InProgress && CurrentPlayer(s) != p
    ensures r.0 == Refused(InvalidPiece) <==>
      s.status == InProgress && CurrentPlayer(s) == p && !(0 <= piece < PieceCount)
    ensures r.0.Advanced? ==>
      && p in s.players && 0 <= piece < PieceCount
      && r.0.newPosition == s.players[p].pieces[piece] + steps
      && r.1.players.Keys == s.players.Keys
      && r.1.players[p].pieces[piece] == r.0.newPosition
      && (forall k :: 0 <= k < PieceCount && k != piece ==> r.1.players[p].pieces[k] == s.players[p].pieces[k])
      && r.1.players[p].home == s.players[p].home && r.1.players[p].goal == s.players[p].goal
      && (forall q :: q in s.players && q != p ==> r.1.players[q] == s.players[q])
      && r.1.id == s.id && r.1.turnOrder == s.turnOrder && r.1.status == s.status
      && r.1.currentTurn == (s.currentTurn + 1) % |s.turnOrder|
      && 0 <= r.1.currentTurn < |r.1.turnOrder|
  {
    if s.status != InProgress then (Refused(NotInProgress), s)
    else if s.turnOrder[s.currentTurn] != p then (Refused(NotYourTurn), s)
    else
      var pieces := s.players[p].pieces;
      if piece < 0 || piece >= |pieces| then (Refused(InvalidPiece), s)
      else
        var moved := pieces[piece := pieces[piece] + steps];
        var next := s.(players := s.players[p := s.players[p].(pieces := moved)],
                       currentTurn := (s.currentTurn + 1) % |s.turnOrder|);
        assert next.players.Keys == s.players.Keys;
        (Advanced(moved[piece]), next)
  }

  /** The state query: players in join order and, only while in progress, whose turn it is. */
  function Report(s: Session): (r: StateReport)
    requires Invariant(s)
    ensures r.gameId == s.id && r.status == s.status
    ensures Distinct(r.players)
    ensures forall q :: q in r.players <==> q in s.players
    ensures Distinct(s.turnOrder) ==> r.players == s.turnOrder
    ensures r.currentTurn.Some? <==> s.status == InProgress
    ensures r.currentTurn.Some? ==> r.currentTurn.value == CurrentPlayer(s)
  {
    FirstOccurrencesSpec(s.turnOrder);
    StateReport(s.id, JoinOrder(s), s.status, if s.status == InProgress then Some(s.turnOrder[s.currentTurn]) else None)
  }

  /**
   * One turn: the player to move asks to move `piece` by `steps`. A refused
   * request leaves the session as it was; the game stays under way either way.
   */
  function Turn(s: Session, piece: int, steps: int): (t: Session)
    requires Invariant(s) && s.status == InProgress
    ensures Invariant(t) && t.status == InProgress
    ensures t.turnOrder == s.turnOrder
  {
    Move(s, CurrentPlayer(s), piece, steps).1
  }

  /**
   * The session after each of `moves` (piece index, steps) is played, one
   * after the other, by whoever holds the turn at that moment.
   */
  function PlayTurns(s: Session, moves: seq<(int, int)>): (t: Session)
    requires Invariant(s) && s.status == InProgress
    ensures Invariant(t) && t.status == InProgress
    ensures t.turnOrder == s.turnOrder
    decreases |moves|
  {
    if moves == [] then s
    else PlayTurns(Turn(s, moves[0].0, moves[0].1), moves[1..])
  }

  /** Play never seats or unseats anyone: the same players remain, in the same turn order. */
  lemma PlayTurnsKeepsPlayers(s: Session, moves: seq<(int, int)>)
    requires Invariant(s) && s.status == InProgress
    ensures PlayTurns(s, moves).players.Keys == s.players.Keys
  {
    var t := PlayTurns(s, moves);
    assert forall q :: q in t.players <==> q in s.turnOrder;
  }

  /** The seat reached from seat `c` of `n` after `k` single-seat rotations. */
  ghost function Rotated(c: int, k: nat, n: int): int
    decreases k
  {
    if k == 0 then c else Rotated(if c + 1 == n then 0 else c + 1, k - 1, n)
  }

  lemma {:induction false} RotatedIsModular(c: int, k: nat, n: int)
    requires 0 <= c < n
    ensures Rotated(c, k, n) == (c + k) % n
    decreases k
  {
    if k == 0 {
      ModUnique(c, n, 0, c);
    } else if c + 1 == n {
      RotatedIsModular(0, k - 1, n);
      ModUnique(n + k - 1, n, (k - 1) / n + 1, (k - 1) % n);
    } else {
      RotatedIsModular(c + 1, k - 1, n);
    }
  }

  lemma RotatedStep(c: int, k: nat, n: int, c': int, k': nat)
    requires 0 <= c < n && k > 0 && c' == (c + 1) % n && k' == k - 1
    ensures Rotated(c, k, n) == Rotated(c', k', n)
  {
    if c + 1 == n {
      ModUnique(c + 1, n, 1, 0);
    } else {
      ModUnique(c + 1, n, 0, c + 1);
    }
  }

  lemma {:induction false} PlayTurnsRotated(s: Session, moves: seq<(PieceIndex, int)>)
    requires Invariant(s) && s.status == InProgress
    ensures PlayTurns(s, moves).currentTurn == Rotated(s.currentTurn, |moves|, |s.turnOrder|)
    decreases |moves|
  {
    if moves != [] {
      var t := Turn(s, moves[0].0, moves[0].1);
      TurnPasses(s, moves[0].0, moves[0].1);
      var rest := moves[1..];
      PlayTurnsRotated(t, rest);
      RotatedStep(s.currentTurn, |moves|, |s.turnOrder|, t.currentTurn, |rest|);
    }
  }

  /** A turn with a valid piece index is a move that succeeds and passes the turn to the next seat. */
  lemma TurnPasses(s: Session, piece: int, steps: int)
    requires Invariant(s) && s.status == InProgress && 0 <= piece < PieceCount
    ensures Move(s, CurrentPlayer(s), piece, steps).0.Advanced?
    ensures Turn(s, piece, steps).currentTurn == (s.currentTurn + 1) % |s.turnOrder|
  {
  }

  /**
   * N moves played in turn by the eligible player with valid piece indices
   * all succeed, and the turn ends up exactly N seats further on.
   */
  lemma PlayTurnsRotate(s: Session, moves: seq<(PieceIndex, int)>)
    requires Invariant(s) && s.status == InProgress
    ensures PlayTurns(s, moves).currentTurn == (s.currentTurn + |moves|) % |s.turnOrder|
  {
    PlayTurnsRotated(s, moves);
    RotatedIsModular(s.currentTurn, |moves|, |s.turnOrder|);
  }

  /** A newcomer joining a waiting session is admitted and nothing but the join changes. */
  lemma JoinNewcomer(s: Session, p: PlayerId)
    requires s.status == Waiting && p !in s.players
    ensures Join(s, p) == (true, s.(
      players := s.players[p := NewPlayer()],
      turnOrder := s.turnOrder + [p],
      status := if |s.players| + 1 == Capacity then InProgress else Waiting))
  {
  }

  /** The session once `a`, `b`, `c` and `d` have joined, in that order: under way, `a` to move. */
  function Opening(id: GameId, a: PlayerId, b: PlayerId, c: PlayerId, d: PlayerId): Session {
    Session(id, map[a := NewPlayer(), b := NewPlayer(), c := NewPlayer(), d := NewPlayer()],
      [a, b, c, d], 0, InProgress)
  }

  /**
   * Four distinct players joining a new session: each join is admitted and
   * adds a player with every piece at 0; the session waits until the fourth
   * join, which starts it with the first joiner to move.
   */
  lemma OpeningJoins(id: GameId, a: PlayerId, b: PlayerId, c: PlayerId, d: PlayerId)
    requires Distinct([a, b, c, d])
    ensures Join(NewSession(id), a) ==
      (true, Session(id, map[a := NewPlayer()], [a], 0, Waiting))
    ensures Join(Session(id, map[a := NewPlayer()], [a], 0, Waiting), b) ==
      (true, Session(id, map[a := NewPlayer(), b := NewPlayer()], [a, b], 0, Waiting))
    ensures Join(Session(id, map[a := NewPlayer(), b := NewPlayer()], [a, b], 0, Waiting), c) ==
      (true, Session(id, map[a := NewPlayer(), b := NewPlayer(), c := NewPlayer()], [a, b, c], 0, Waiting))
    ensures Join(Session(id, map[a := NewPlayer(), b := NewPlayer(), c := NewPlayer()], [a, b, c], 0, Waiting), d) ==
      (true, Opening(id, a, b, c, d))
  {
    var ids := [a, b, c, d];
    assert ids[0] == a && ids[1] == b && ids[2] == c && ids[3] == d;
    JoinNewcomer(NewSession(id), a);
    JoinNewcomer(Session(id, map[a := NewPlayer()], [a], 0, Waiting), b);
    JoinNewcomer(Session(id, map[a := NewPlayer(), b := NewPlayer()], [a, b], 0, Waiting), c);
    JoinNewcomer(Session(id, map[a := NewPlayer(), b := NewPlayer(), c := NewPlayer()], [a, b, c], 0, Waiting), d);
    Snoc(a, b, c, d);
  }

  lemma Snoc(a: PlayerId, b: PlayerId, c: PlayerId, d: PlayerId)
    ensures [] + [a] == [a] && [a] + [b] == [a, b] && [a, b] + [c] == [a, b, c] && [a, b, c] + [d] == [a, b, c, d]
  {
  }

  /** The opening session is a valid session that reports its players in join order, `a` to move. */
  lemma OpeningStarted(id: GameId, a: PlayerId, b: PlayerId, c: PlayerId, d: PlayerId, e: PlayerId)
    requires Distinct([a, b, c, d])
    ensures Invariant(Opening(id, a, b, c, d))
    ensures Report(Opening(id, a, b, c, d)) == StateReport(id, [a, b, c, d], InProgress, Some(a))
    ensures !Join(Opening(id, a, b, c, d), e).0
  {
    var ids := [a, b, c, d];
    assert ids[0] == a && ids[1] == b && ids[2] == c && ids[3] == d;
    OpeningJoins(id, a, b, c, d);
  }

  /** The opening session after its first move: `a` has moved piece 0 by 3 and `b` is to move. */
  function AfterFirstMove(id: GameId, a: PlayerId, b: PlayerId, c: PlayerId, d: PlayerId): Session {
    var s := Opening(id, a, b, c, d);
    s.(players := s.players[a := Player([3, 0, 0, 0], 0, 0)], currentTurn := 1)
  }

  /** The first joiner, to move, moves piece 0 by 3 to position 3 and the turn passes on. */
  lemma OpeningFirstMove(id: GameId, a: PlayerId, b: PlayerId, c: PlayerId, d: PlayerId)
    requires Distinct([a, b, c, d])
    ensures Invariant(Opening(id, a, b, c, d))
    ensures Move(Opening(id, a, b, c, d), a, 0, 3) == (Advanced(3), AfterFirstMove(id, a, b, c, d))
  {
    OpeningStarted(id, a, b, c, d, a);
    ModUnique(1, 4, 0, 1);
    assert [0, 0, 0, 0][0 := 0 + 3] == [3, 0, 0, 0];
  }

  /**
   * After the first move the second joiner holds the turn, the third joiner's
   * move is refused as out of turn, and the game still admits nobody.
   */
  lemma SecondTurn(id: GameId, a: PlayerId, b: PlayerId, c: PlayerId, d: PlayerId, e: PlayerId)
    requires Distinct([a, b, c, d])
    ensures Invariant(AfterFirstMove(id, a, b, c, d))
    ensures Report(AfterFirstMove(id, a, b, c, d)).currentTurn == Some(b)
    ensures Move(AfterFirstMove(id, a, b, c, d), c, 0, 1).0 == Refused(NotYourTurn)
    ensures !Join(AfterFirstMove(id, a, b, c, d), e).0
  {
    OpeningFirstMove(id, a, b, c, d);
    var ids := [a, b, c, d];
    assert ids[1] == b && ids[2] == c && b != c;
  }

  /** A session object: the operations update its fields in place. */
  class LudoGame {
    const gameId: GameId
    var players: map<PlayerId, Player>
    var turnOrder: seq<PlayerId>
    var currentTurn: int
    var status: Status

    ghost function Model(): Session
      reads this
    {
      Session(gameId, players, turnOrder, currentTurn, status)
    }

    ghost predicate Valid()
      reads this
    {
      Invariant(Model())
    }

    constructor (id: GameId)
      ensures Valid() && Model() == NewSession(id)
    {
      gameId := id;
      players := map[];
      turnOrder := [];
      currentTurn := 0;
      status := Waiting;
    }

    method AddPlayer(p: PlayerId) returns (ok: bool)
      requires Valid()
      modifies this
      ensures Valid()
      ensures (ok, Model()) == Join(old(Model()), p)
    {
      if status != Waiting {
        return false;
      }
      players := players[p := NewPlayer()];
      turnOrder := turnOrder + [p];
      if |players| == Capacity {
        status := InProgress;
      }
      ok := true;
    }

    method MakeMove(p: PlayerId, piece: int, steps: int) returns (outcome: MoveOutcome)
      requires Valid()
      modifies this
      ensures Valid()
      ensures (outcome, Model()) == Move(old(Model()), p, piece, steps)
    {
      if status != InProgress {
        return Refused(NotInProgress);
      }
      if turnOrder[currentTurn] != p {
        return Refused(NotYourTurn);
      }
      var pieces := players[p].pieces;
      if piece < 0 || piece >= |pieces| {
        return Refused(InvalidPiece);
      }
      pieces := pieces[piece := pieces[piece] + steps];
      players := players[p := players[p].(pieces := pieces)];
      currentTurn := (currentTurn + 1) % |turnOrder|;
      outcome := Advanced(pieces[piece]);
    }

    method GetState() returns (state: StateReport)
      requires Valid()
      ensures state == Report(Model())
    {
      var turn := if status == InProgress then Some(turnOrder[currentTurn]) else None;
      state := StateReport(gameId, FirstOccurrences(turnOrder), status, turn);
    }
  }
}
