/** The game-progress record that the level-over step updates and that the
    in-game loader reads. Its definition (module game_state) is not part of
    this model: only the three fields the modelled code writes are named, and
    every other field is gathered in `config`, the configuration the options
    menu hands to `GameState::initialize`. */
module GameStates {

  /** The flags `GameState::initialize` receives from the options menu. */
  datatype Config = Config(graphicsHigh: bool, shadowsOn: bool, latestVersion: bool)

  datatype GameState = GameState(
    score: nat,
    cornSpawned: bool,
    currentRound: nat,
    config: Config)
}
