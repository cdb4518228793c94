/** The roster entity shared by every part of the program. */
module Tft {

  /**
   * A champion of the roster: its API name, display name, gold cost, trait names and
   * lower-case identifier, plus two unlock attributes no computation reads.
   */
  datatype Champion = Champion(
    apiName: string,
    name: string,
    cost: int,
    traits: seq<string>,
    id: string,
    unlockLevel: int,
    unlockDifficulty: int)
}
