/** Advancing to the next level (src/level_over.rs): reset the score and the
    corn flag, move to the next round, pick the cutscene that introduces it,
    and load the game through the asset-loading gate.

    The game-progress record and the chosen cutscene are resources the step
    writes; here the step returns their new values. */
module LevelOver {
  import AppStates
  import opened GameStates
  import opened AssetLoading

  /** The cutscenes the level-over step chooses between. */
  datatype Cutscene = Intro | LevelTwoIntro | LevelThreeIntro

  /** The cutscene that introduces `round`: rounds 1 and 2 have their own,
      every other round replays the intro. */
  function CutsceneFor(round: nat): (c: Cutscene)
    ensures c == LevelTwoIntro <==> round == 1
    ensures c == LevelThreeIntro <==> round == 2
    ensures c == Intro <==> round != 1 && round != 2
  {
    match round
    case 1 => LevelTwoIntro
    case 2 => LevelThreeIntro
    case _ => Intro
  }

  /** The game-progress record after a level is over. */
  function NextRound(g: GameState): GameState
  {
    g.(score := 0, cornSpawned := false, currentRound := g.currentRound + 1)
  }

  /** The record after `n` levels are over. */
  function AfterLevels(g: GameState, n: nat): GameState
  {
    if n == 0 then g else NextRound(AfterLevels(g, n - 1))
  }

  /** Every finished level advances the round by exactly one and clears the
      score and the corn flag; nothing else in the record ever changes. */
  lemma {:induction false} AfterLevelsAdvances(g: GameState, n: nat)
    ensures AfterLevels(g, n).currentRound == g.currentRound + n
    ensures AfterLevels(g, n).config == g.config
    ensures n > 0 ==> AfterLevels(g, n).score == 0 && !AfterLevels(g, n).cornSpawned
    ensures n == 0 ==> AfterLevels(g, n) == g
  {
    if n > 0 {
      AfterLevelsAdvances(g, n - 1);
    }
  }

  /** Starting from round 0, the first level-over introduces level two, the
      second level three, and every later one replays the intro. */
  lemma CampaignCutscenes(g: GameState, n: nat)
    requires g.currentRound == 0 && n > 0
    ensures CutsceneFor(AfterLevels(g, n).currentRound)
              == (if n == 1 then LevelTwoIntro else if n == 2 then LevelThreeIntro else Intro)
  {
    AfterLevelsAdvances(g, n);
  }

  /** `load_next_level`: the record is advanced first, so the cutscene and
      the in-game loader both see the new round; the gate ends in Loading with
      InGame recorded as next. Loading aborts if the app is already in
      Loading, so callers must not be. */
  method LoadNextLevel(handler: AssetsHandler, game: GameState, loaders: Loaders)
    returns (next: GameState, cutscene: Cutscene)
    requires handler.current != AppStates.Loading
    modifies handler
    ensures next.score == 0 && !next.cornSpawned
    ensures next.currentRound == game.currentRound + 1
    ensures next.config == game.config
    ensures cutscene == CutsceneFor(next.currentRound)
    ensures handler.Snapshot()
            == LoadStep(old(handler.Snapshot()), AppStates.InGame, Queued(Plan(loaders, AppStates.InGame, next)))
    ensures handler.meshes == old(handler.meshes) + MeshesBuilt(Plan(loaders, AppStates.InGame, next))
    ensures handler.materials == old(handler.materials) + MaterialsBuilt(Plan(loaders, AppStates.InGame, next))
  {
    next := game.(score := 0);
    next := next.(cornSpawned := false);
    next := next.(currentRound := next.currentRound + 1);

    match next.currentRound {
      case 1 => cutscene := LevelTwoIntro;
      case 2 => cutscene := LevelThreeIntro;
      case _ => cutscene := Intro;
    }

    handler.Load(AppStates.InGame, loaders, next);
  }

  /** The level-over step is one application of `NextRound`. */
  lemma LoadNextLevelIsOneRound(game: GameState, next: GameState)
    requires next.score == 0 && !next.cornSpawned
    requires next.currentRound == game.currentRound + 1 && next.config == game.config
    ensures next == AfterLevels(game, 1)
  {
  }
}
