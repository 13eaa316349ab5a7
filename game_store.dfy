/**
 * The in-memory room store (src/lib/game-store.ts): three keyed tables
 * (rooms, chat logs and last-access timestamps) that the API handlers
 * read and overwrite, and an idle sweep that evicts every id untouched
 * for more than two hours. The clock is a parameter: every operation that
 * refreshes a timestamp takes the current time `now` in milliseconds.
 */
module Store {
  import opened GameTypes

  /** Idle age after which the sweep evicts an id: 2 hours in milliseconds. */
  const MaxAge: int := 2 * 60 * 60 * 1000

  /** The ids whose last access is more than `MaxAge` before `now`. */
  function Stale(stamps: map<string, int>, now: int): (ids: set<string>)
    ensures ids <= stamps.Keys
    ensures forall id :: id in stamps ==> (id in ids <==> now - stamps[id] > MaxAge)
  {
    set id | id in stamps && now - stamps[id] > MaxAge
  }

  /** No two positions of `s` hold the same id. */
  predicate Distinct(s: seq<string>) {
    forall i, j :: 0 <= i < j < |s| ==> s[i] != s[j]
  }

  /**
   * The room every new id starts with: no players, round 1 of 10, waiting,
   * no host, a 30-second guess timer and nobody ready.
   */
  function NewRoom(id: string): (r: GameRoom)
    ensures r.id == id && r.players == [] && r.rounds == [] && r.playersReady == []
    ensures r.currentRound == 1 && r.maxRounds == 10 && r.timerDuration == 30000
    ensures r.gamePhase == Waiting && r.roundPhase == RoundPlaying && !r.started
    ensures r.currentPlayer == None && r.currentGuesser == None
    ensures r.hostId == None && r.timerStart == None
  {
    GameRoom(
      id := id,
      players := [],
      currentRound := 1,
      maxRounds := 10,
      gamePhase := Waiting,
      roundPhase := RoundPlaying,
      currentPlayer := None,
      currentGuesser := None,
      rounds := [],
      started := false,
      hostId := None,
      timerStart := None,
      timerDuration := 30000,
      playersReady := []
    )
  }

  class GameStore {
    var rooms: map<string, GameRoom>
    var chats: map<string, seq<ChatMessage>>
    var stamps: map<string, int>

    /**
     * Every stored room and every chat log has a last-access timestamp,
     * so the sweep, which walks the timestamps, can reach all of them.
     */
    ghost predicate Valid()
      reads this
    {
      rooms.Keys <= stamps.Keys && chats.Keys <= stamps.Keys
    }

    constructor ()
      ensures Valid()
      ensures rooms == map[] && chats == map[] && stamps == map[]
    {
      rooms, chats, stamps := map[], map[], map[];
    }

    /**
     * Evicts the room, the chat log and the timestamp of every id idle for
     * more than `MaxAge` at time `now`; an id aged exactly `MaxAge` stays.
     */
    method CleanupOldRooms(now: int)
      requires Valid()
      modifies this
      ensures Valid()
      ensures rooms == old(rooms) - Stale(old(stamps), now)
      ensures chats == old(chats) - Stale(old(stamps), now)
      ensures stamps == old(stamps) - Stale(old(stamps), now)
      ensures forall id :: id in old(stamps) && now - old(stamps)[id] <= MaxAge ==>
                id in stamps && stamps[id] == old(stamps)[id]
      ensures forall id :: id in rooms ==> id in stamps && now - stamps[id] <= MaxAge
      ensures forall id :: id in chats ==> id in stamps && now - stamps[id] <= MaxAge
    {
      ghost var stale := Stale(stamps, now);
      var todo := stamps.Keys;
      while todo != {}
        invariant todo <= old(stamps).Keys
        invariant Valid()
        invariant rooms == old(rooms) - (stale - todo)
        invariant chats == old(chats) - (stale - todo)
        invariant stamps == old(stamps) - (stale - todo)
        decreases todo
      {
        var id :| id in todo;
        if now - stamps[id] > MaxAge {
          rooms := rooms - {id};
          chats := chats - {id};
          stamps := stamps - {id};
        }
        todo := todo - {id};
      }
    }

    /** Stores a fresh room under `id` (overwriting any earlier one), with an empty chat log. */
    method CreateRoom(id: string, now: int) returns (room: GameRoom)
      requires Valid()
      modifies this
      ensures Valid()
      ensures room == NewRoom(id)
      ensures rooms == old(rooms)[id := room]
      ensures chats == old(chats)[id := []]
      ensures stamps == old(stamps)[id := now]
    {
      room := NewRoom(id);
      rooms := rooms[id := room];
      chats := chats[id := []];
      stamps := stamps[id := now];
    }

    /** Looks a room up; only a hit refreshes the timestamp. */
    method GetRoom(id: string, now: int) returns (room: Option<GameRoom>)
      requires Valid()
      modifies this
      ensures Valid()
      ensures room.Some? <==> id in old(rooms)
      ensures room.Some? ==> room.value == old(rooms)[id]
      ensures rooms == old(rooms) && chats == old(chats)
      ensures stamps == if id in old(rooms) then old(stamps)[id := now] else old(stamps)
    {
      if id in rooms {
        room := Some(rooms[id]);
        stamps := stamps[id := now];
      } else {
        room := None;
      }
    }

    /** Overwrites (or inserts) the room under `id` and refreshes its timestamp. */
    method UpdateRoom(id: string, room: GameRoom, now: int)
      requires Valid()
      modifies this
      ensures Valid()
      ensures rooms == old(rooms)[id := room]
      ensures chats == old(chats)
      ensures stamps == old(stamps)[id := now]
    {
      rooms := rooms[id := room];
      stamps := stamps[id := now];
    }

    /**
     * Appends `message` to the log of `id`, starting a log if there is none,
     * and refreshes the timestamp whether or not a room exists.
     */
    method AddChatMessage(id: string, message: ChatMessage, now: int)
      requires Valid()
      modifies this
      ensures Valid()
      ensures rooms == old(rooms)
      ensures chats == old(chats)[id := (if id in old(chats) then old(chats)[id] else []) + [message]]
      ensures stamps == old(stamps)[id := now]
    {
      var messages := if id in chats then chats[id] else [];
      messages := messages + [message];
      chats := chats[id := messages];
      stamps := stamps[id := now];
    }

    /** The log of `id`, or the empty log when there is none; nothing changes. */
    method GetChatMessages(id: string) returns (messages: seq<ChatMessage>)
      ensures id in chats ==> messages == chats[id]
      ensures id !in chats ==> messages == []
    {
      messages := if id in chats then chats[id] else [];
    }

    /** The ids of all stored rooms, each once. */
    method GetAllRooms() returns (ids: seq<string>)
      ensures forall id :: id in ids <==> id in rooms
      ensures Distinct(ids)
      ensures |ids| == |rooms|
    {
      ids := [];
      var todo := rooms.Keys;
      while todo != {}
        invariant todo <= rooms.Keys
        invariant forall id :: id in ids <==> id in rooms && id !in todo
        invariant Distinct(ids)
        invariant |ids| + |todo| == |rooms|
        decreases todo
      {
        var id :| id in todo;
        ids := ids + [id];
        todo := todo - {id};
      }
    }

    /** The number of stored rooms. */
    method GetRoomCount() returns (n: nat)
      ensures n == |rooms.Keys|
    {
      n := |rooms|;
    }
  }

  /**
   * A store that has just evicted at time `now` holds no id idle for more
   * than `MaxAge`, and a second sweep at the same time evicts nothing.
   */
  lemma CleanupIdempotent(stamps: map<string, int>, now: int)
    ensures Stale(stamps - Stale(stamps, now), now) == {}
  {
  }
}
