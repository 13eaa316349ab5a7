/**
 * The host's start control (src/components/StartGameButton.tsx): the
 * eligibility rule `canStart`, the button label and the status line, each
 * reporting the first failed condition in a fixed order, and the click
 * handler that raises `isStarting` around the start request.
 */
module StartGate {
  import opened GameTypes
  import Store

  /** `xs.every(keep)`. */
  function Every(xs: seq<Player>, keep: Player -> bool): (b: bool)
    ensures b <==> forall i :: 0 <= i < |xs| ==> keep(xs[i])
  {
    if xs == [] then true else keep(xs[0]) && Every(xs[1..], keep)
  }

  /** `xs.filter(keep)`: the players for which `keep` holds, in room order. */
  function Filter(xs: seq<Player>, keep: Player -> bool): (r: seq<Player>)
    ensures |r| <= |xs|
    ensures forall p :: p in r <==> p in xs && keep(p)
  {
    if xs == [] then [] else (if keep(xs[0]) then [xs[0]] else []) + Filter(xs[1..], keep)
  }

  /** `xs.map(p => p.name)`. */
  function Names(xs: seq<Player>): (r: seq<string>)
    ensures |r| == |xs|
    ensures forall i :: 0 <= i < |xs| ==> r[i] == xs[i].name
  {
    if xs == [] then [] else [xs[0].name] + Names(xs[1..])
  }

  function IsReady(p: Player): bool { p.ready }
  function IsReviewed(p: Player): bool { p.reviewComplete }
  function NotReady(p: Player): bool { !p.ready }
  function NotReviewed(p: Player): bool { !p.reviewComplete }

  /** `room.hostId === currentPlayer.id`; an unset host matches nobody. */
  predicate IsHost(room: GameRoom, me: Player) {
    room.hostId == Some(me.id)
  }

  predicate AllReady(room: GameRoom) { Every(room.players, IsReady) }
  predicate AllReviewed(room: GameRoom) { Every(room.players, IsReviewed) }
  predicate HasEnoughPlayers(room: GameRoom) { |room.players| == 2 }

  /** The start rule, read by the host's button before any request is sent. */
  function CanStart(room: GameRoom, me: Player): (b: bool)
    ensures b <==>
      && room.hostId == Some(me.id)
      && (forall i :: 0 <= i < |room.players| ==> room.players[i].ready)
      && (forall i :: 0 <= i < |room.players| ==> room.players[i].reviewComplete)
      && |room.players| == 2
      && !room.started
  {
    IsHost(room, me) && AllReady(room) && AllReviewed(room) && HasEnoughPlayers(room) && !room.started
  }

  datatype ButtonLabel =
    | StartingGame
    | WaitingForPlayers
    | WaitingForGeneration
    | WaitingForReview
    | GameStarted
    | StartGame

  function LabelText(l: ButtonLabel): string {
    match l
    case StartingGame => "Starting Game..."
    case WaitingForPlayers => "Waiting for players..."
    case WaitingForGeneration => "Waiting for all players to generate..."
    case WaitingForReview => "Waiting for all players to review..."
    case GameStarted => "Game Started"
    case StartGame => "Start Game"
  }

  /**
   * The button label: the first of starting, too few players, someone not
   * generated, someone not reviewed, already started; otherwise "Start Game".
   */
  function ButtonText(room: GameRoom, isStarting: bool): (l: ButtonLabel)
    ensures l == StartingGame <==> isStarting
    ensures l == WaitingForPlayers <==> !isStarting && |room.players| != 2
    ensures l == WaitingForGeneration <==>
      !isStarting && |room.players| == 2 && exists i :: 0 <= i < 2 && !room.players[i].ready
    ensures l == WaitingForReview <==>
      && !isStarting && |room.players| == 2
      && (forall i :: 0 <= i < 2 ==> room.players[i].ready)
      && exists i :: 0 <= i < 2 && !room.players[i].reviewComplete
    ensures l == GameStarted <==>
      && !isStarting && |room.players| == 2
      && (forall i :: 0 <= i < 2 ==> room.players[i].ready && room.players[i].reviewComplete)
      && room.started
  {
    if isStarting then StartingGame
    else if !HasEnoughPlayers(room) then WaitingForPlayers
    else if !AllReady(room) then WaitingForGeneration
    else if !AllReviewed(room) then WaitingForReview
    else if room.started then GameStarted
    else StartGame
  }

  /** For the host, the button offers "Start Game" exactly when the rule holds and no start is under way. */
  lemma HostLabelMatchesRule(room: GameRoom, me: Player, isStarting: bool)
    requires IsHost(room, me)
    ensures ButtonText(room, isStarting) == StartGame <==> CanStart(room, me) && !isStarting
    ensures LabelText(ButtonText(room, isStarting)) == "Start Game" <==> CanStart(room, me) && !isStarting
  {
  }

  datatype Status =
    | InProgress
    | NeedPlayers(missing: int)
    | WaitingForGenerationOf(names: seq<string>)
    | WaitingForReviewOf(names: seq<string>)
    | ReadyToStart

  /**
   * The status line: started first, then the number of missing players,
   * then the names of those who have not generated, then of those who have
   * not reviewed, in room order.
   */
  function StatusText(room: GameRoom): (s: Status)
    ensures s == InProgress <==> room.started
    ensures s.NeedPlayers? <==> !room.started && |room.players| != 2
    ensures s.NeedPlayers? ==> |room.players| + s.missing == 2
    ensures s.WaitingForGenerationOf? <==>
      !room.started && |room.players| == 2 && exists i :: 0 <= i < 2 && !room.players[i].ready
    ensures s.WaitingForReviewOf? <==>
      && !room.started && |room.players| == 2 && (forall i :: 0 <= i < 2 ==> room.players[i].ready)
      && exists i :: 0 <= i < 2 && !room.players[i].reviewComplete
    ensures s == ReadyToStart <==>
      && !room.started && |room.players| == 2
      && (forall i :: 0 <= i < 2 ==> room.players[i].ready && room.players[i].reviewComplete)
  {
    if room.started then InProgress
    else if !HasEnoughPlayers(room) then NeedPlayers(2 - |room.players|)
    else if !AllReady(room) then WaitingForGenerationOf(Names(Filter(room.players, NotReady)))
    else if !AllReviewed(room) then WaitingForReviewOf(Names(Filter(room.players, NotReviewed)))
    else ReadyToStart
  }

  /** The status line as shown: `names.join(', ')` and the count written in decimal. */
  function StatusMessage(s: Status): (text: string)
    ensures text == "Ready to start!" <==> s == ReadyToStart
    ensures text == "Game in progress" <==> s == InProgress
  {
    match s
    case InProgress => "Game in progress"
    case NeedPlayers(k) => "Need " + IntText(k) + " more player(s)"
    case WaitingForGenerationOf(names) => "Waiting for generation: " + Join(names, ", ")
    case WaitingForReviewOf(names) => "Waiting for review: " + Join(names, ", ")
    case ReadyToStart => "Ready to start!"
  }

  function Join(xs: seq<string>, sep: string): string {
    if xs == [] then "" else if |xs| == 1 then xs[0] else xs[0] + sep + Join(xs[1..], sep)
  }

  /** An integer in decimal, with a leading '-' when negative. */
  function IntText(k: int): string
    decreases if k < 0 then 1 - k else k
  {
    if k < 0 then "-" + IntText(-k)
    else if k < 10 then ["0123456789"[k]]
    else IntText(k / 10) + ["0123456789"[k % 10]]
  }

  /**
   * With two players, the names waited for are exactly those of the players
   * failing the check, first player first.
   */
  lemma StatusListsInRoomOrder(room: GameRoom)
    requires |room.players| == 2
    ensures var p, q := room.players[0], room.players[1];
      StatusText(room).WaitingForGenerationOf? ==>
        StatusText(room).names == (if p.ready then [] else [p.name]) + (if q.ready then [] else [q.name])
    ensures var p, q := room.players[0], room.players[1];
      StatusText(room).WaitingForReviewOf? ==>
        StatusText(room).names == (if p.reviewComplete then [] else [p.name]) + (if q.reviewComplete then [] else [q.name])
  {
    var ps := room.players;
    FilterPair(ps, NotReady);
    FilterPair(ps, NotReviewed);
  }

  /** The lists are never empty: whoever is waited for is named. */
  lemma StatusNamesSomeone(room: GameRoom)
    ensures StatusText(room).WaitingForGenerationOf? ==> StatusText(room).names != []
    ensures StatusText(room).WaitingForReviewOf? ==> StatusText(room).names != []
  {
    if |room.players| == 2 {
      StatusListsInRoomOrder(room);
    }
  }

  /** Filtering two players keeps each one that passes, first player first. */
  lemma FilterPair(ps: seq<Player>, keep: Player -> bool)
    requires |ps| == 2
    ensures Names(Filter(ps, keep)) ==
      (if keep(ps[0]) then [ps[0].name] else []) + (if keep(ps[1]) then [ps[1].name] else [])
  {
    assert ps == [ps[0]] + [ps[1]];
    FilterAppend([ps[0]], [ps[1]], keep);
  }

  /** Filtering keeps room order: it distributes over concatenation. */
  lemma {:induction false} FilterAppend(xs: seq<Player>, ys: seq<Player>, keep: Player -> bool)
    ensures Filter(xs + ys, keep) == Filter(xs, keep) + Filter(ys, keep)
  {
    if xs == [] {
      assert xs + ys == ys;
    } else {
      assert (xs + ys)[1..] == xs[1..] + ys;
      FilterAppend(xs[1..], ys, keep);
    }
  }

  /** The status shows "Ready to start!" exactly when everything but the host and `started` clauses of the rule holds. */
  lemma ReadyStatusMatchesRule(room: GameRoom, me: Player)
    requires IsHost(room, me)
    ensures StatusText(room) == ReadyToStart <==> CanStart(room, me)
  {
  }

  /** A freshly created room can never be started: it has no host and no players. */
  lemma FreshRoomCannotStart(id: string, me: Player)
    ensures !CanStart(Store.NewRoom(id), me)
    ensures ButtonText(Store.NewRoom(id), false) == WaitingForPlayers
    ensures StatusText(Store.NewRoom(id)) == NeedPlayers(2)
  {
  }

  /** The host's start control; `isStarting` is its only state. */
  class StartGameButton {
    var isStarting: bool

    constructor ()
      ensures !isStarting
    {
      isStarting := false;
    }

    /**
     * A click. When the rule fails nothing is sent and nothing changes.
     * Otherwise the start request is sent with `isStarting` raised, and
     * `isStarting` is lowered again whatever `outcome` the request has.
     * `sent` tells whether the request went out, `startingWhileSent` the
     * flag's value while it was in flight.
     */
    method HandleStartGame(room: GameRoom, me: Player, outcome: RequestOutcome)
      returns (sent: bool, startingWhileSent: bool)
      modifies this
      ensures sent == CanStart(room, me)
      ensures !sent ==> isStarting == old(isStarting)
      ensures sent ==> startingWhileSent && !isStarting
    {
      if !CanStart(room, me) {
        return false, false;
      }
      isStarting := true;
      sent := true;
      startingWhileSent := isStarting;
      // the request's outcome only decides which alert is shown
      isStarting := false;
    }
  }
}
