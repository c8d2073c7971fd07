/** The options menu (src/options.rs): a cursor over four rows, three option
    fields changed by the events the rows receive, and the labels that show
    the fields.

    Rows 0 to 2 hold the graphics quality (three values, cycling), shadows
    and game version (two values each, toggling); row 3 is the button that
    starts the game with the chosen configuration. All values are the
    source's `usize`, modelled as unbounded `nat`. */
module Options {
  import opened AppStates
  import opened GameStates
  import opened Wrappers
  import opened AssetLoading

  /** The last row of the menu (`max_options`). */
  const MaxOption: nat := 3

  /** The highest graphics value; shadows and version have highest value 1. */
  const MaxGraphics: nat := 2

  datatype OptionChange = Increase | Decrease | Select

  datatype OptionState = OptionState(graphics: nat, shadowsOn: nat, gameVersion: nat)

  /** The menu keys pressed in one frame. */
  datatype MenuInput = MenuInput(up: bool, down: bool, left: bool, right: bool, select: bool)

  /** The option fields hold values the menu can show and cycle through. */
  predicate InRange(o: OptionState)
  {
    o.graphics <= MaxGraphics && o.shadowsOn <= 1 && o.gameVersion <= 1
  }

  /** The options the menu starts with: high graphics, shadows on, latest
      version. */
  function Initialize(): (o: OptionState)
    ensures InRange(o)
    ensures GraphicsLabel(o.graphics) == " High "
    ensures ShadowsLabel(o.shadowsOn) == "  On  "
    ensures VersionLabel(o.gameVersion) == "Latest"
  {
    OptionState(0, 0, 0)
  }

  // ---------------------------------------------------------------- cursor

  /** Up moves to the previous row; row 0 wraps to the last row. */
  function CursorUp(c: nat): (r: nat)
    ensures c <= MaxOption ==> r <= MaxOption && r == (c - 1) % (MaxOption + 1)
    ensures c > MaxOption ==> r + 1 == c
  {
    if c == 0 then MaxOption else c - 1
  }

  /** Down moves to the next row; the last row wraps to row 0. */
  function CursorDown(c: nat): (r: nat)
    ensures c <= MaxOption ==> r <= MaxOption && r == (c + 1) % (MaxOption + 1)
    ensures c > MaxOption ==> r == c + 1
  {
    if c == MaxOption then 0 else c + 1
  }

  /** The cursor after one frame: Up is handled before Down. */
  function CursorAfter(c: nat, input: MenuInput): nat
  {
    var c' := if input.up then CursorUp(c) else c;
    if input.down then CursorDown(c') else c'
  }

  /** The cursor after a run of frames. */
  function CursorAfterFrames(c: nat, inputs: seq<MenuInput>): nat
  {
    if inputs == [] then c
    else CursorAfter(CursorAfterFrames(c, inputs[..|inputs| - 1]), inputs[|inputs| - 1])
  }

  lemma DownUndoesUp(c: nat)
    requires c <= MaxOption
    ensures CursorDown(CursorUp(c)) == c
  {
  }

  lemma UpUndoesDown(c: nat)
    requires c <= MaxOption
    ensures CursorUp(CursorDown(c)) == c
  {
  }

  /** Undoing a move needs the cursor to be on the menu: from row 4, Up then
      Down lands on row 0. */
  lemma UndoNeedsRange()
    ensures CursorDown(CursorUp(MaxOption + 1)) != MaxOption + 1
  {
  }

  /** Starting on the menu, any keys pressed in any frames keep the cursor on
      the menu. */
  lemma {:induction false} CursorStaysOnMenu(c: nat, inputs: seq<MenuInput>)
    requires c <= MaxOption
    ensures CursorAfterFrames(c, inputs) <= MaxOption
  {
    if inputs != [] {
      CursorStaysOnMenu(c, inputs[..|inputs| - 1]);
    }
  }

  /** On the menu, the cursor after any frames is the start row moved by the
      number of Down presses less the number of Up presses, modulo four. */
  lemma {:induction false} CursorCountsPresses(c: nat, inputs: seq<MenuInput>)
    requires c <= MaxOption
    ensures CursorAfterFrames(c, inputs)
              == (c + Presses(inputs, false) - Presses(inputs, true)) % (MaxOption + 1)
  {
    if inputs != [] {
      var init := inputs[..|inputs| - 1];
      var last := inputs[|inputs| - 1];
      CursorCountsPresses(c, init);
      CursorStaysOnMenu(c, init);
      var x := c + Presses(init, false) - Presses(init, true);
      var u: int := if last.up then 1 else 0;
      var d: int := if last.down then 1 else 0;
      var m := CursorAfterFrames(c, init);
      var m' := if last.up then CursorUp(m) else m;
      assert m' == (m - u) % 4;
      ModAdd(x, -u);
      ModAdd(x - u, d);
    }
  }

  /** The number of frames in which Up (`up`) or Down (not `up`) was pressed. */
  function Presses(inputs: seq<MenuInput>, up: bool): nat
  {
    if inputs == [] then 0
    else Presses(inputs[..|inputs| - 1], up)
         + (if (if up then inputs[|inputs| - 1].up else inputs[|inputs| - 1].down) then 1 else 0)
  }

  lemma ModAdd(x: int, y: int)
    ensures (x % 4 + y) % 4 == (x + y) % 4
  {
    var q := x / 4;
    assert x == 4 * q + x % 4;
    ModShift(x % 4 + y, q);
  }

  lemma ModShift(z: int, q: int)
    ensures (z + 4 * q) % 4 == z % 4
  {
    var p := z / 4;
    assert z + 4 * q == 4 * (p + q) + z % 4;
  }

  // ---------------------------------------------------------- option fields

  /** Increase on the graphics row: the value after `g`, 2 wrapping to 0. */
  function NextGraphics(g: nat): (r: nat)
    ensures g <= MaxGraphics ==> r == (g + 1) % (MaxGraphics + 1)
    ensures g > MaxGraphics ==> r == g + 1
  {
    if g == MaxGraphics then 0 else g + 1
  }

  /** Decrease on the graphics row: the value before `g`, 0 wrapping to 2. */
  function PrevGraphics(g: nat): (r: nat)
    ensures g <= MaxGraphics ==> r == (g + MaxGraphics) % (MaxGraphics + 1)
    ensures g > MaxGraphics ==> r + 1 == g
  {
    if g == 0 then MaxGraphics else g - 1
  }

  /** Increase or Decrease on a two-valued row: 1 becomes 0 and every other
      value becomes 1. */
  function Toggle(v: nat): (r: nat)
    ensures r <= 1
    ensures v <= 1 ==> r == 1 - v
  {
    if v == 1 then 0 else 1
  }

  /** What one event does to the option fields, given the cursor row. */
  function ApplyChange(o: OptionState, row: nat, change: OptionChange): (r: OptionState)
    ensures row != 0 ==> r.graphics == o.graphics
    ensures row != 1 ==> r.shadowsOn == o.shadowsOn
    ensures row != 2 ==> r.gameVersion == o.gameVersion
    ensures change == Select || row > 2 ==> r == o
    ensures row == 0 && change == Increase ==> r.graphics == NextGraphics(o.graphics)
    ensures row == 0 && change == Decrease ==> r.graphics == PrevGraphics(o.graphics)
    ensures row == 1 && change != Select ==> r.shadowsOn == Toggle(o.shadowsOn)
    ensures row == 2 && change != Select ==> r.gameVersion == Toggle(o.gameVersion)
    ensures InRange(o) ==> InRange(r)
  {
    if change == Select then o
    else if row == 0 then
      o.(graphics := if change == Increase then NextGraphics(o.graphics) else PrevGraphics(o.graphics))
    else if row == 1 then o.(shadowsOn := Toggle(o.shadowsOn))
    else if row == 2 then o.(gameVersion := Toggle(o.gameVersion))
    else o
  }

  /** What a frame's events do to the option fields, in order. */
  function ApplyChanges(o: OptionState, row: nat, events: seq<OptionChange>): (r: OptionState)
    ensures row != 0 ==> r.graphics == o.graphics
    ensures row != 1 ==> r.shadowsOn == o.shadowsOn
    ensures row != 2 ==> r.gameVersion == o.gameVersion
    ensures row > 2 ==> r == o
  {
    if events == [] then o
    else ApplyChange(ApplyChanges(o, row, events[..|events| - 1]), row, events[|events| - 1])
  }

  /** From any state the menu can show, the fields stay showable whatever
      events arrive on whatever row. */
  lemma {:induction false} ChangesKeepRange(o: OptionState, row: nat, events: seq<OptionChange>)
    requires InRange(o)
    ensures InRange(ApplyChanges(o, row, events))
  {
    if events != [] {
      ChangesKeepRange(o, row, events[..|events| - 1]);
    }
  }

  /** Applying two events one after the other. */
  lemma ApplyTwo(o: OptionState, row: nat, a: OptionChange, b: OptionChange)
    ensures ApplyChanges(o, row, [a, b]) == ApplyChange(ApplyChange(o, row, a), row, b)
  {
    assert [a, b][..1] == [a];
    assert [a][..0] == [];
    assert ApplyChanges(o, row, [a]) == ApplyChange(ApplyChanges(o, row, []), row, a);
    assert ApplyChanges(o, row, [a, b]) == ApplyChange(ApplyChanges(o, row, [a]), row, b);
  }

  /** Increase and Decrease undo each other on the graphics row. */
  lemma GraphicsStepsInverse(o: OptionState)
    requires o.graphics <= MaxGraphics
    ensures ApplyChanges(o, 0, [Increase, Decrease]) == o
    ensures ApplyChanges(o, 0, [Decrease, Increase]) == o
  {
    ApplyTwo(o, 0, Increase, Decrease);
    ApplyTwo(o, 0, Decrease, Increase);
  }

  /** Three steps in one direction bring the graphics row back to its start. */
  lemma GraphicsCycle(o: OptionState, change: OptionChange)
    requires o.graphics <= MaxGraphics && change != Select
    ensures ApplyChanges(o, 0, [change, change, change]) == o
  {
    assert [change, change, change][..2] == [change, change];
    ApplyTwo(o, 0, change, change);
  }

  /** On the shadows and version rows Increase and Decrease do the same
      thing, and any two of them restore a value the menu can show. */
  lemma ToggleRows(o: OptionState, row: nat, a: OptionChange, b: OptionChange)
    requires row == 1 || row == 2
    requires a != Select && b != Select
    requires InRange(o)
    ensures ApplyChange(o, row, Increase) == ApplyChange(o, row, Decrease)
    ensures ApplyChanges(o, row, [a, b]) == o
  {
    ApplyTwo(o, row, a, b);
  }

  // ----------------------------------------------------------------- labels

  function GraphicsLabel(graphics: nat): (s: string)
    ensures |s| == 6
    ensures s == " High " <==> graphics == 0
    ensures graphics != 0 ==> s == " Low  "
  {
    if graphics == 0 then " High " else " Low  "
  }

  function ShadowsLabel(shadowsOn: nat): (s: string)
    ensures |s| == 6
    ensures s == "  On  " <==> shadowsOn == 0
    ensures shadowsOn != 0 ==> s == "  Off "
  {
    if shadowsOn == 0 then "  On  " else "  Off "
  }

  function VersionLabel(gameVersion: nat): (s: string)
    ensures |s| == 6
    ensures s == "Latest" <==> gameVersion == 0
    ensures gameVersion != 0 ==> s == " Jam  "
  {
    if gameVersion == 0 then "Latest" else " Jam  "
  }

  /** The text of the value shown on a row; the button row shows none. */
  function RowLabel(o: OptionState, row: nat): (s: Option<string>)
    ensures s.Some? <==> row <= 2
    ensures s.Some? ==> |s.value| == 6
    ensures row == 0 ==> s == Some(if o.graphics == 0 then " High " else " Low  ")
    ensures row == 1 ==> s == Some(if o.shadowsOn == 0 then "  On  " else "  Off ")
    ensures row == 2 ==> s == Some(if o.gameVersion == 0 then "Latest" else " Jam  ")
  {
    if row == 0 then Some(GraphicsLabel(o.graphics))
    else if row == 1 then Some(ShadowsLabel(o.shadowsOn))
    else if row == 2 then Some(VersionLabel(o.gameVersion))
    else None
  }

  /** The configuration the start button hands to `GameState::initialize`. */
  function ChosenConfig(o: OptionState): Config
  {
    Config(o.graphics == 0, o.shadowsOn == 0, o.gameVersion == 0)
  }

  /** What the menu shows is what the game is started with. */
  lemma LabelsShowChosenConfig(o: OptionState)
    ensures RowLabel(o, 0) == Some(" High ") <==> ChosenConfig(o).graphicsHigh
    ensures RowLabel(o, 1) == Some("  On  ") <==> ChosenConfig(o).shadowsOn
    ensures RowLabel(o, 2) == Some("Latest") <==> ChosenConfig(o).latestVersion
    ensures RowLabel(o, 0) == Some(if ChosenConfig(o).graphicsHigh then " High " else " Low  ")
    ensures RowLabel(o, 1) == Some(if ChosenConfig(o).shadowsOn then "  On  " else "  Off ")
    ensures RowLabel(o, 2) == Some(if ChosenConfig(o).latestVersion then "Latest" else " Jam  ")
  {
  }

  lemma SelectsSplit(events: seq<OptionChange>, i: nat)
    requires i <= |events|
    requires multiset(events)[Select] <= 1
    requires Select in events[..i]
    ensures Select !in events[i..]
  {
    assert events == events[..i] + events[i..];
    assert multiset(events) == multiset(events[..i]) + multiset(events[i..]);
  }

  /** The menu's two resources: the row under the cursor (`CurrentOption`)
      and the option fields (`OptionState`). */
  class OptionsMenu {
    var cursor: nat
    var options: OptionState

    ghost predicate Valid()
      reads this
    {
      cursor <= MaxOption && InRange(options)
    }

    /** As the menu plugin inserts them: row 0 and the initial options. */
    constructor ()
      ensures cursor == 0 && options == Initialize()
      ensures Valid()
    {
      cursor := 0;
      options := Initialize();
    }

    /** Entering the menu puts the cursor on the start button. */
    method Setup()
      modifies this`cursor
      ensures cursor == MaxOption
      ensures options == old(options)
    {
      cursor := MaxOption;
    }

    /** One frame of key handling: Up and Down move the cursor, Right, Left
        and Select become Increase, Decrease and Select events, in that
        order. */
    method UpdateMenuButtons(input: MenuInput) returns (events: seq<OptionChange>)
      modifies this`cursor
      ensures cursor == CursorAfter(old(cursor), input)
      ensures old(Valid()) ==> Valid()
      ensures events == (if input.right then [Increase] else [])
                        + (if input.left then [Decrease] else [])
                        + (if input.select then [Select] else [])
    {
      if input.up {
        cursor := if cursor == 0 then MaxOption else cursor - 1;
      }
      if input.down {
        cursor := if cursor == MaxOption then 0 else cursor + 1;
      }
      events := [];
      if input.right {
        events := events + [Increase];
      }
      if input.left {
        events := events + [Decrease];
      }
      if input.select {
        events := events + [Select];
      }
    }

    /** One frame of event handling. Each event changes only the field of the
        cursor's row; Select on the start button re-initialises the game with
        the chosen configuration and loads the game. Loading twice in one
        frame, or while already loading, aborts, so callers must not. */
    method HandleOptionChanges(events: seq<OptionChange>, handler: AssetsHandler, loaders: Loaders,
                               initialize: Config -> GameState, game: GameState)
      returns (game': GameState)
      requires cursor == MaxOption && Select in events ==>
                 handler.current != Loading && multiset(events)[Select] == 1
      modifies this`options, handler
      ensures options == ApplyChanges(old(options), cursor, events)
      ensures old(Valid()) ==> Valid()
      ensures if cursor == MaxOption && Select in events then
                && options == old(options)
                && game' == initialize(ChosenConfig(options))
                && handler.Snapshot()
                   == LoadStep(old(handler.Snapshot()), InGame, Queued(Plan(loaders, InGame, game')))
                && handler.meshes == old(handler.meshes) + MeshesBuilt(Plan(loaders, InGame, game'))
                && handler.materials == old(handler.materials) + MaterialsBuilt(Plan(loaders, InGame, game'))
              else
                game' == game && unchanged(handler)
    {
      game' := game;
      var i := 0;
      while i < |events|
        invariant 0 <= i <= |events|
        invariant options == ApplyChanges(old(options), cursor, events[..i])
        invariant if cursor == MaxOption && Select in events[..i] then
                    && game' == initialize(ChosenConfig(options))
                    && handler.Snapshot()
                       == LoadStep(old(handler.Snapshot()), InGame, Queued(Plan(loaders, InGame, game')))
                    && handler.meshes == old(handler.meshes) + MeshesBuilt(Plan(loaders, InGame, game'))
                    && handler.materials == old(handler.materials) + MaterialsBuilt(Plan(loaders, InGame, game'))
                  else
                    game' == game && unchanged(handler)
      {
        assert events[..i + 1][..i] == events[..i];
        assert events[..i + 1] == events[..i] + [events[i]];
        var change := events[i];
        if cursor == 0 {
          match change {
            case Increase => options := options.(graphics := if options.graphics == MaxGraphics then 0 else options.graphics + 1);
            case Decrease => options := options.(graphics := if options.graphics == 0 then MaxGraphics else options.graphics - 1);
            case Select =>
          }
        } else if cursor == 1 {
          if change != Select {
            options := options.(shadowsOn := if options.shadowsOn == 1 then 0 else 1);
          }
        } else if cursor == 2 {
          if change != Select {
            options := options.(gameVersion := if options.gameVersion == 1 then 0 else 1);
          }
        } else if cursor == MaxOption {
          if change == Select {
            assert Select !in events[..i] by {
              if Select in events[..i] {
                SelectsSplit(events, i);
              }
            }
            game' := initialize(ChosenConfig(options));
            handler.Load(InGame, loaders, game');
          }
        }
        i := i + 1;
      }
      assert events[..i] == events;
      if old(Valid()) {
        ChangesKeepRange(old(options), cursor, events);
      }
    }
  }
}
