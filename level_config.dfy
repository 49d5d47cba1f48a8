/** The constant tables of the game: the five round mechanics and the speeds. */
module LevelConfig {

  /** The `specialMechanic` tag of a mechanic; `NoSpecial` stands for the
      absent optional field of the Normal mechanic. The source compares these
      tags as strings. */
  datatype Special =
    | NoSpecial
    | RandomChairPositions
    | MovingChairs
    | TeleportPlayers
    | MovingChairsWithFakes

  /** One round variant. `musicDuration` is in seconds. */
  datatype Mechanic = Mechanic(
    mechanicName: string,
    musicDuration: nat,
    specialMechanic: Special,
    backgroundColor: string)

  const MECHANICS: seq<Mechanic> := [
    Mechanic("Normal", 15, NoSpecial, "#87CEEB"),
    Mechanic("Random Chairs", 12, RandomChairPositions, "#90EE90"),
    Mechanic("Moving Chairs", 10, MovingChairs, "#FFB6C1"),
    Mechanic("Teleport Players", 8, TeleportPlayers, "#FFD700"),
    Mechanic("Fake Chairs", 6, MovingChairsWithFakes, "#FF6347")
  ]

  const PLAYER_SPEED: int := 200
  const BOT_EASY_SPEED: int := 150
  const BOT_MEDIUM_SPEED: int := 200
  const BOT_HARD_SPEED: int := 250
  /** Radius of the circle the chairs are laid out on. */
  const CHAIR_RADIUS: int := 200

  /** The catalogue has five entries and the first is the plain mechanic. */
  lemma MechanicsShape()
    ensures |MECHANICS| == 5
    ensures MECHANICS[0].mechanicName == "Normal"
    ensures MECHANICS[0].musicDuration == 15
    ensures MECHANICS[0].specialMechanic == NoSpecial
  {
  }

  /** Later mechanics give the music less time. */
  lemma MusicGetsShorter(i: nat, j: nat)
    requires i < j < |MECHANICS|
    ensures MECHANICS[i].musicDuration > MECHANICS[j].musicDuration
  {
  }

  /** Entries 1 to 4 carry the four special tags, each once, so none of them
      is the plain mechanic. */
  lemma SpecialTags()
    ensures MECHANICS[1].specialMechanic == RandomChairPositions
    ensures MECHANICS[2].specialMechanic == MovingChairs
    ensures MECHANICS[3].specialMechanic == TeleportPlayers
    ensures MECHANICS[4].specialMechanic == MovingChairsWithFakes
    ensures forall i, j :: 0 <= i < j < |MECHANICS| ==>
      MECHANICS[i].specialMechanic != MECHANICS[j].specialMechanic
  {
  }

  /** Bot speeds grow with difficulty; the player moves as fast as a medium bot. */
  lemma SpeedOrder()
    ensures BOT_EASY_SPEED < BOT_MEDIUM_SPEED < BOT_HARD_SPEED
    ensures PLAYER_SPEED == BOT_MEDIUM_SPEED
  {
  }
}
