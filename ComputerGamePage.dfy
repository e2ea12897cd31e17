/** The page around the engine game (frontend/src/pages/ComputerGamePage.tsx): the setup
    form (colour and a level from 1 to 20), the start button, and the level's name. */
module ComputerGamePage {
  import opened ChessRules
  import Stockfish
  import ComputerGameStore

  datatype DifficultyLabel = Beginner | Intermediate | Advanced | Expert | Master

  /** `getDifficultyLabel(level)`: the first band whose upper bound the level does not
      exceed; above 16 everything is Master. */
  function LabelOf(level: int): (band: DifficultyLabel)
    ensures band == Beginner <==> level <= 3
    ensures band == Intermediate <==> 3 < level <= 7
    ensures band == Advanced <==> 7 < level <= 12
    ensures band == Expert <==> 12 < level <= 16
    ensures band == Master <==> 16 < level
  {
    if level <= 3 then Beginner
    else if level <= 7 then Intermediate
    else if level <= 12 then Advanced
    else if level <= 16 then Expert
    else Master
  }

  function BandRank(band: DifficultyLabel): nat {
    match band
    case Beginner => 0
    case Intermediate => 1
    case Advanced => 2
    case Expert => 3
    case Master => 4
  }

  /** A higher level never gets a lower band. */
  lemma LabelMonotone(a: int, b: int)
    requires a <= b
    ensures BandRank(LabelOf(a)) <= BandRank(LabelOf(b))
  {
  }

  /** On the slider's range every band is reached: the default level 5 is
      Intermediate, and the ends are Beginner and Master. */
  lemma SliderBands()
    ensures LabelOf(1) == Beginner && LabelOf(5) == Intermediate && LabelOf(10) == Advanced
    ensures LabelOf(15) == Expert && LabelOf(20) == Master
  {
  }

  class SetupPage {
    var showSetup: bool
    var selectedColor: Color
    var selectedDifficulty: int
    var isLoading: bool

    /** The form as first shown: White, level 5, not loading. */
    constructor ()
      ensures showSetup && selectedColor == White && selectedDifficulty == ComputerGameStore.InitialDifficulty && !isLoading
    {
      showSetup, selectedColor, selectedDifficulty, isLoading := true, White, 5, false;
    }

    /** The colour buttons, disabled while loading. */
    method SelectColor(color: Color)
      modifies this`selectedColor
      ensures selectedColor == (if isLoading then old(selectedColor) else color)
    {
      if !isLoading {
        selectedColor := color;
      }
    }

    /** The range input, disabled while loading; its value is an integer from 1 to 20. */
    method SelectDifficulty(level: int)
      requires 1 <= level <= 20
      modifies this`selectedDifficulty
      ensures selectedDifficulty == (if isLoading then old(selectedDifficulty) else level)
    {
      if !isLoading {
        selectedDifficulty := level;
      }
    }

    /** `startGame`: the form is hidden and the store initialised with the chosen colour
        and level; when that rejects the form comes back. Loading ends either way. */
    method StartGame(store: ComputerGameStore.ComputerStore, engine: Stockfish.StockfishService, engineStarted: bool)
      returns (computerFirst: bool)
      requires store.Valid() && engine.Valid()
      requires engineStarted ==> engine.isReady && engine.hasWorker
      requires !engineStarted ==> !engine.isReady && !engine.hasWorker && engine.messageQueue == []
      modifies this`showSetup, this`isLoading, store, engine
      ensures store.Valid() && engine.Valid()
      ensures showSetup == !engineStarted && !isLoading
      ensures !engineStarted ==> !computerFirst && unchanged(store) && unchanged(engine)
      ensures engineStarted ==> store.playerColor == selectedColor && store.difficulty == selectedDifficulty &&
                                store.game == NewGame() && !store.isThinking &&
                                engine.difficulty == Stockfish.ClampSkill(selectedDifficulty) &&
                                engine.sent == old(engine.sent) + Stockfish.DifficultyCommands(engine.difficulty) &&
                                computerFirst == (selectedColor == Black)
    {
      isLoading := true;
      showSetup := false;
      var ok;
      ok, computerFirst := store.InitializeGame(selectedColor, selectedDifficulty, engine, engineStarted);
      if !ok {
        showSetup := true;
      }
      isLoading := false;
    }

    /** The "New Game" button brings the form back; the store is not reset. */
    method ChooseNewGame()
      modifies this`showSetup
      ensures showSetup
    {
      showSetup := true;
    }
  }
}
