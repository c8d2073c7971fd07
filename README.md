# Asset-loading gate, options menu and level advance

This project models the three pieces of decision logic in the game *USAFL Scouting Combine XLV*. Each is written in Dafny and verified.

- **The asset-loading gate** (`src/asset_loading.rs`, module `AssetLoading`). `load(next)` runs the loader of the requested mode, which queues the handles of the assets that mode needs. It records `next` as the mode to commit to and switches the app to `Loading`. Once per frame, `check_assets_ready` looks at every queued handle. When none is still loading it empties the queue and makes the recorded mode current. A handle whose load failed counts as done. The class `AssetsHandler` holds the current mode (`State<AppState>`), the recorded mode (`NextState`), the queue (`AssetsLoading.asset_handles`) and the two in-memory stores (`Assets<Mesh>`, `Assets<StandardMaterial>`). The pure `Gate`, `LoadStep` and `PollStep` specify its methods. Lemmas about them cover runs of many frames.
- **The options menu** (`src/options.rs`, module `Options`). A cursor moves over rows 0-3 and wraps at both ends. Row 0 is the graphics setting, which cycles through 0-2. Rows 1 and 2 are shadows and version, which toggle between 0 and 1. Row 3 is the start button. The class `OptionsMenu` holds the `CurrentOption` and `OptionState` resources. `ApplyChange` and `ApplyChanges` specify its event handling, and there are label functions for the row values.
- **Level advance** (`src/level_over.rs`, module `LevelOver`). The score and the corn flag are reset and the round goes up by one. The cutscene is chosen from the new round, and the game is loaded through the gate.

The application modes (`src/main.rs:100-112`) are `AppStates.AppState`. The game-progress record `GameStates.GameState` belongs to a module that is not part of this model. Only the three fields that the modelled code writes are named: `score`, `cornSpawned` and `currentRound`. The model lumps the record's remaining, unseen fields into `config`, which holds the flags the options menu passes to `GameState::initialize`.

The engine is abstract:
- `asset_server.load(path)` returns a handle fixed by its path, `Handle.Requested(kind, path)`.
- `Assets<T>::add` returns the handle of the slot it appends, `Handle.Added(kind, index)`.
- The load status of every handle is a parameter `status: Handle -> LoadState`, where `NotYet` covers every state other than loaded and failed.
- The per-mode loaders (`splash::load`, `title_screen::load`, `ingame::load`) are not part of this model. `Loaders` gives each one as the list of calls it makes on the handler (`LoadRequest`). The in-game loader's list depends on the game-progress record. `AssetsHandler.RunLoader` makes those calls.
- `GameState::initialize` is a parameter `initialize: Config -> GameState`.
- `State::set` is direct assignment.

Two behaviours of the code are easy to miss:
- The code never clears the recorded next mode when it commits. `NextState` keeps its value, and `PollStep` leaves `pending` as it was.
- Calling `load` while the app is already in `Loading` does not just overwrite the pending mode: `State::set(Loading).unwrap()` aborts. The model makes `current != Loading` a precondition of `Load`, so overlapping loads are outside it.

## Model

| member | source | states |
|---|---|---|
| AssetLoading.AssetsHandler.constructor | src/asset_loading.rs:23-37 | The gate starts in Initial mode (the app's first state, registered by `add_state(AppState::Initial)` at src/main.rs:86), with TitleScreen as the default next mode, an empty queue and empty stores |
| AssetLoading.AssetsHandler.AddAsset | src/asset_loading.rs:54-59 | The slot gets the server's handle for the path; the queue gets exactly that handle appended at the end, and earlier entries are unchanged |
| AssetLoading.AssetsHandler.AddMesh | src/asset_loading.rs:72-74 | Queues one mesh handle for the path and returns it |
| AssetLoading.AssetsHandler.AddFont | src/asset_loading.rs:76-78 | Queues one font handle for the path and returns it |
| AssetLoading.AssetsHandler.AddAudio | src/asset_loading.rs:80-82 | Queues one audio handle for the path and returns it |
| AssetLoading.AssetsHandler.AddGlb | src/asset_loading.rs:84-86 | Queues one glTF scene handle for the path and returns it |
| AssetLoading.AssetsHandler.AddAnimation | src/asset_loading.rs:88-90 | Queues one animation-clip handle for the path and returns it |
| AssetLoading.AssetsHandler.AddStandardMesh | src/asset_loading.rs:92-94 | The mesh is appended to the mesh store and the slot gets its new handle; the queue is untouched |
| AssetLoading.AssetsHandler.AddStandardMaterial | src/asset_loading.rs:96-102 | The material is appended to the material store and the slot gets its new handle; the queue is untouched |
| AssetLoading.AssetsHandler.AddMaterial | src/asset_loading.rs:104-115 | Exactly one handle, the image, is queued; the stored material shows that image and is Blend when transparent, Opaque otherwise |
| AssetLoading.AssetsHandler.RunRequest | src/asset_loading.rs:54-115 | One loader call appends its own handles to the queue and its own meshes and materials to the stores, and nothing else |
| AssetLoading.AssetsHandler.RunLoader | src/asset_loading.rs:123-127 | A loader's calls append exactly `Queued(plan)` to the queue and the built meshes and materials to the stores, in call order |
| AssetLoading.AssetsHandler.QueueAssetsForState | src/asset_loading.rs:117-129 | Only Splash, TitleScreen and InGame run a loader; every other mode leaves the queue and the stores unchanged |
| AssetLoading.AssetsHandler.Load | src/asset_loading.rs:61-70 | Afterwards the next mode is `next` and the current mode is Loading, and the queue is the old queue followed by the loader's handles, even when the loader queued nothing |
| AssetLoading.AssetsHandler.AssetsReady | src/asset_loading.rs:135-146 | Ready exactly when every queued handle is Loaded or Failed; the reported errors are the failed handles in queue order |
| AssetLoading.AssetsHandler.CheckAssetsReady | src/asset_loading.rs:132-155 | When ready, the queue becomes empty and the recorded mode becomes current; otherwise queue, current and next mode are all unchanged; the next mode is never written |
| AssetLoading.QueuedAreServerHandles | src/asset_loading.rs:54-115 | Only asset-server handles enter the queue; built meshes and materials never do |
| AssetLoading.QueuedCount | src/asset_loading.rs:54-115 | Each asset-server request queues exactly one handle and every other request none, so a loader queues at most one handle per call |
| AssetLoading.QueuedConcat | src/asset_loading.rs:54-59 | Two runs of calls queue what each queues, one after the other |
| AssetLoading.FailedHandlesAreQueuedFailures | src/asset_loading.rs:136-140 | A handle is reported as an error exactly when it is queued and its load failed |
| AssetLoading.ReadinessIgnoresOrder | src/asset_loading.rs:135-147 | Readiness depends only on which handles are queued, not on their order |
| AssetLoading.FailureNeverBlocks | src/asset_loading.rs:138-141 | Turning any handles into Failed keeps a ready queue ready |
| AssetLoading.WaitsWhileUnresolved | src/asset_loading.rs:142-154 | Polls in frames where some queued handle is unresolved leave the gate exactly as it was |
| AssetLoading.CommitsOnFirstReadyFrame | src/asset_loading.rs:135-154 | The gate waits in Loading through every unresolved frame and commits to the recorded mode, with an empty queue, on the first frame where all handles are resolved |
| AssetLoading.EmptyLoadCommitsOnNextPoll | src/asset_loading.rs:61-154 | A load that queues nothing, from an empty queue, commits on the next poll whatever the server reports |
| AssetLoading.ThreeAssetScenario | src/asset_loading.rs:61-154 | With three handles queued for InGame, one still loading keeps the gate in Loading; when all have loaded, InGame becomes current and the queue is empty |
| AssetLoading.StepsKeepSettled | src/asset_loading.rs:61-154 | After a load or a poll, a non-empty queue is only waited on in Loading |
| Options.Initialize | src/options.rs:63-69 | The menu starts with values it can show: high graphics, shadows on, latest version |
| Options.CursorUp | src/options.rs:578-581 | On the menu, Up is the row before, modulo four (0 wraps to 3); above the menu it decrements |
| Options.CursorDown | src/options.rs:582-589 | On the menu, Down is the row after, modulo four (3 wraps to 0); above the menu it increments |
| Options.DownUndoesUp | src/options.rs:578-589 | On the menu, Up followed by Down returns the cursor to its start |
| Options.UpUndoesDown | src/options.rs:578-589 | On the menu, Down followed by Up returns the cursor to its start |
| Options.UndoNeedsRange | src/options.rs:578-589 | From row 4, Up then Down does not return to the start |
| Options.CursorStaysOnMenu | src/options.rs:578-589 | From a row on the menu (such as 3, set on entry), any keys pressed in any frames keep the cursor in 0..3 |
| Options.CursorCountsPresses | src/options.rs:578-589 | On the menu, the cursor after any frames is its start plus Down presses minus Up presses, modulo four |
| Options.OptionsMenu.constructor | src/options.rs:16-17 | The menu resources start at row 0 with the initial options |
| Options.OptionsMenu.Setup | src/options.rs:85 | Entering the menu puts the cursor on row 3 and leaves the options alone |
| Options.OptionsMenu.UpdateMenuButtons | src/options.rs:568-605 | The cursor is moved by Up and then by Down; Right, Left and Select become Increase, Decrease and Select events in that order; the cursor stays on the menu |
| Options.NextGraphics | src/options.rs:656-663 | Increase on graphics is the next value modulo three (2 wraps to 0) |
| Options.PrevGraphics | src/options.rs:664-671 | Decrease on graphics is the previous value modulo three (0 wraps to 2) |
| Options.Toggle | src/options.rs:679-686 | Increase or Decrease on a two-valued row gives 0 or 1, and on 0 or 1 it flips the value |
| Options.ApplyChange | src/options.rs:651-726 | On row 0 Increase moves graphics to `NextGraphics` and Decrease to `PrevGraphics`; on rows 1 and 2 either event toggles that row's flag; an event changes only the field of the cursor's row; Select on any row, and any event on row 3 or above, leave the options unchanged; values stay showable |
| Options.ApplyChanges | src/options.rs:650-727 | A frame's events change only the field of the cursor's row; from row 3 or above they change nothing |
| Options.ChangesKeepRange | src/options.rs:650-727 | From showable values, any events on any row keep graphics in 0..2 and the two toggles in 0..1 |
| Options.ApplyTwo | src/options.rs:650-727 | Two events apply one after the other, in arrival order |
| Options.GraphicsStepsInverse | src/options.rs:655-673 | On graphics, Increase then Decrease, and Decrease then Increase, are the identity |
| Options.GraphicsCycle | src/options.rs:655-673 | Three steps in one direction bring graphics back to its start |
| Options.ToggleRows | src/options.rs:675-712 | On shadows and version, Increase and Decrease have the same effect, and any two of them restore the value |
| Options.OptionsMenu.HandleOptionChanges | src/options.rs:641-728 | The options become `ApplyChanges` of the events on the cursor's row; Select on row 3 re-initialises the game from graphics==0, shadows_on==0 and game_version==0 and loads InGame, so the gate ends in Loading with InGame recorded; otherwise the game record and the gate are unchanged |
| Options.GraphicsLabel | src/options.rs:736-739 | Six characters, and " High " exactly when graphics is 0 and " Low  " for every other value |
| Options.ShadowsLabel | src/options.rs:743-746 | Six characters, and "  On  " exactly when shadows_on is 0 and "  Off " for every other value |
| Options.VersionLabel | src/options.rs:750-753 | Six characters, and "Latest" exactly when game_version is 0 and " Jam  " for every other value |
| Options.RowLabel | src/options.rs:734-755 | Rows 0-2 show a six-character value; other rows get none; row 0 shows " High " or " Low  ", row 1 "  On  " or "  Off ", row 2 "Latest" or " Jam  ", the first text exactly when the row's value is 0 |
| Options.LabelsShowChosenConfig | src/options.rs:715-719 | Each row shows its "on" label exactly when the start button passes that flag as true to the game's initialisation, and its "off" label (" Low  ", "  Off ", " Jam  ") exactly when it passes false |
| LevelOver.CutsceneFor | src/level_over.rs:30-34 | Round 1 gives LevelTwoIntro, round 2 gives LevelThreeIntro, and any other round gives Intro, both ways |
| LevelOver.LoadNextLevel | src/level_over.rs:19-37 | Score is 0, the corn flag false and the round one higher, with no other field written; the cutscene is chosen from the new round; the gate ends in Loading with InGame recorded, and the loader sees the new round |
| LevelOver.AfterLevelsAdvances | src/level_over.rs:25-27 | After n levels the round is n higher and the rest of the record is unchanged; after at least one, score is 0 and the corn flag false |
| LevelOver.CampaignCutscenes | src/level_over.rs:27-34 | From round 0, the first level-over shows LevelTwoIntro, the second LevelThreeIntro, and every later one Intro |
| LevelOver.LoadNextLevelIsOneRound | src/level_over.rs:25-27 | The record that `LoadNextLevel` produces is exactly one application of the level advance |

## Left out

- Bevy's asset server, the in-memory asset stores and their asynchronous resolution: they are engine code. The model has path-determined handles, append-only stores and a load-status oracle.
- The contents of meshes and every material field except the base-colour texture and the alpha mode: they are engine data, and `Mesh` is an opaque type.
- The per-mode loaders and `GameState::initialize`: their source is not part of this model, so they are parameters.
- Which `GameAssets` slot each loader call writes: `GameAssets` is not part of this model, so the slot handles the loaders receive are dropped.
- `State::set` scheduling the transition for later and refusing a second transition queued in the same frame: it is modelled as direct assignment. Its abort on setting the current mode is turned into preconditions on `Load` and `CheckAssetsReady`.
- Overlapping loads (`load` while in `Loading`): the source aborts on them, so they are excluded by precondition.
- The error log line printed for a failed asset: it is returned as the list of failed handles.
- Audio effects (`audio.play_sfx`), the controller mapping in `handle_controllers`, the menu's entity and layout construction (`setup` apart from line 85, `add_label`, `add_option`, `add_button`, `add_title`) and `highlight_options`: they are rendering, input and audio side effects.
- The Bevy event queue between `update_menu_buttons` and `handle_option_changes`: the events one system sends are handed directly to the other, and system ordering within a frame is not modelled.
- The text entities that `display_current_options` iterates over: `RowLabel` gives the text for one row.
- `usize` overflow of the cursor and option fields at `usize::MAX`: it is unreachable from the values the menu starts with.
- `current_round` overflow: the field's integer type is not part of this model, so the round is an unbounded `nat`.
- The `println!` announcing the round in `load_next_level` (src/level_over.rs:29) and the `images: Assets<Image>` store the handler holds (src/asset_loading.rs:45): the first is console output, and no modelled operation adds to the second.
- The cutscene state's `init`: its module is not part of this model, so the step returns the chosen cutscene.
- `src/football.rs`, `src/other_persons.rs` and the rest of `src/main.rs` (plugin wiring, window settings, the debug key handler, `ZeroSignum`): they are floating-point motion, marker components and engine glue.
