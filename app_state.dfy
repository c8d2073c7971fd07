/** The application modes the game moves between (src/main.rs:100-112).
    Exactly one is current at any time; `Loading` is the transient mode
    the asset-loading gate holds while it waits for queued assets. */
module AppStates {

  datatype AppState =
    | Initial
    | Pause
    | Cutscene
    | Debug
    | TitleScreen
    | Options
    | InGame
    | Splash
    | LevelOver
    | ResetInGame
    | Loading

  /** The mode the application starts in (`add_state(AppState::Initial)`). */
  const StartState: AppState := Initial
}
