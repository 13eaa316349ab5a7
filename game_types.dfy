/**
 * The records shared by the store and the components of the two-player
 * "truths and lies" game: rooms, players, the rounds a player generated,
 * and chat messages. They are plain values; every update in the program
 * builds or stores a whole record.
 */
module GameTypes {

  /** An optional value: TypeScript's `T | undefined` and `T | null`. */
  datatype Option<+T> = None | Some(value: T)

  /**
   * What a client-side `fetch` to the game's API ended in: the response
   * said `success: true`, it said `success: false` with an error, or the
   * request or the JSON decoding threw.
   */
  datatype RequestOutcome = Succeeded | Rejected(error: string) | Threw

  /** One of a player's five pre-generated rounds: a truth and two lies in three slots. */
  datatype PlayerRound = PlayerRound(
    truth: string,
    lie1: string,
    lie2: string,
    statements: seq<string>,
    truthIndex: int,
    guess: Option<int>,
    guessedCorrectly: Option<bool>,
    revealed: Option<bool>,
    timedOut: Option<bool>
  )

  datatype Player = Player(
    id: string,
    name: string,
    hasGenerated: bool,
    ready: bool,
    reviewComplete: bool,
    rounds: Option<seq<PlayerRound>>
  )

  datatype GamePhase = Waiting | Generating | Ready | Playing | Finished

  datatype RoundPhase = RoundPlaying | Intermission

  /** The older per-room round record still carried by every room. */
  datatype RoomRound = RoomRound(
    playerName: string,
    playerId: string,
    statements: seq<string>,
    truthIndex: int,
    guesses: map<string, int>,
    revealed: bool,
    guess: Option<int>,
    guessedCorrectly: Option<bool>,
    timedOut: Option<bool>
  )

  /** One game session. `currentRound` counts the global rounds 1 to 10. */
  datatype GameRoom = GameRoom(
    id: string,
    players: seq<Player>,
    currentRound: int,
    maxRounds: int,
    gamePhase: GamePhase,
    roundPhase: RoundPhase,
    currentPlayer: Option<string>,
    currentGuesser: Option<string>,
    rounds: seq<RoomRound>,
    started: bool,
    hostId: Option<string>,
    timerStart: Option<int>,
    timerDuration: int,
    playersReady: seq<string>
  )

  datatype ChatMessage = ChatMessage(
    id: string,
    playerId: string,
    playerName: string,
    message: string,
    timestamp: int,
    isSystem: bool
  )
}
