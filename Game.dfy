/** The control logic of the game window: the MENU / PLAYING / PAUSED / GAME_OVER
    state machine driven by key presses, the status text of each state, the planet
    names of the board, and the fleet list with its "Upgrade Selected Ship" action. */
module Games {
  import opened Ships
  import opened Shipyards
  import opened JavaStrings

  datatype Option<T> = None | Some(value: T)

  datatype GameState = Menu | Playing | Paused | GameOver

  /** The keys the handler distinguishes; every other key code is OtherKey. */
  datatype KeyCode = Enter | P | Escape | OtherKey(code: nat)

  // ---------------------------------------------------------------------------
  // Key presses

  /** The state after one handleKeyPress. */
  function NextState(s: GameState, key: KeyCode): GameState {
    match key
    case Enter => if s == Menu then Playing else s
    case P => if s == Playing then Paused else if s == Paused then Playing else s
    case Escape => GameOver
    case OtherKey(_) => s
  }

  /** ENTER changes the state only in MENU, and then to PLAYING. */
  lemma EnterOnlyStartsFromMenu(s: GameState)
    ensures NextState(s, Enter) != s <==> s == Menu
    ensures NextState(Menu, Enter) == Playing
  {
  }

  /** P toggles PLAYING and PAUSED, does nothing in MENU or GAME_OVER, and pressing it
      twice returns to the starting state. */
  lemma PTogglesPause(s: GameState)
    ensures NextState(Playing, P) == Paused && NextState(Paused, P) == Playing
    ensures s == Menu || s == GameOver ==> NextState(s, P) == s
    ensures NextState(NextState(s, P), P) == s
  {
  }

  /** ESCAPE ends the game from every state, and GAME_OVER is kept under every key. */
  lemma EscapeEndsGame(s: GameState, key: KeyCode)
    ensures NextState(s, Escape) == GameOver
    ensures NextState(GameOver, key) == GameOver
  {
  }

  /** Keys other than ENTER, P and ESCAPE leave the state as it is. */
  lemma OtherKeysIgnored(s: GameState, code: nat)
    ensures NextState(s, OtherKey(code)) == s
  {
  }

  /** The state after handling a whole sequence of key presses in order. */
  function AfterKeys(s: GameState, keys: seq<KeyCode>): GameState
    decreases |keys|
  {
    if keys == [] then s else AfterKeys(NextState(s, keys[0]), keys[1..])
  }

  /** Once the game is over, no sequence of keys leaves GAME_OVER. */
  lemma {:induction false} GameOverIsFinal(keys: seq<KeyCode>)
    ensures AfterKeys(GameOver, keys) == GameOver
    decreases |keys|
  {
    if keys != [] {
      GameOverIsFinal(keys[1..]);
    }
  }

  /** An ESCAPE anywhere in the sequence ends the game. */
  lemma {:induction false} EscapeInKeysEndsGame(s: GameState, keys: seq<KeyCode>)
    requires Escape in keys
    ensures AfterKeys(s, keys) == GameOver
    decreases |keys|
  {
    if keys[0] == Escape {
      GameOverIsFinal(keys[1..]);
    } else {
      EscapeInKeysEndsGame(NextState(s, keys[0]), keys[1..]);
    }
  }

  /** No key sequence leads back to MENU once it has been left. */
  lemma {:induction false} MenuIsNeverReentered(s: GameState, keys: seq<KeyCode>)
    requires s != Menu
    ensures AfterKeys(s, keys) != Menu
    decreases |keys|
  {
    if keys != [] {
      MenuIsNeverReentered(NextState(s, keys[0]), keys[1..]);
    }
  }

  // ---------------------------------------------------------------------------
  // Pure tables

  /** The status line updateGame shows in each state. */
  function StatusText(s: GameState): string {
    match s
    case Menu => "In Menu... Press 'Enter' to play"
    case Playing => "Game running... Manage Fleet & Explore"
    case Paused => "Game Paused. Press 'P' to resume!"
    case GameOver => "Game Over! Press 'ESC' to exit"
  }

  /** Each state has its own status text, so the text tells the state. */
  lemma StatusTextDistinct(a: GameState, b: GameState)
    ensures StatusText(a) == StatusText(b) ==> a == b
  {
    if a != b {
      assert StatusText(a)[0] != StatusText(b)[0] || StatusText(a)[5] != StatusText(b)[5];
    }
  }

  /** getPlanetNameById. */
  function PlanetName(id: int): string {
    match id
    case 1 => "Earth"
    case 2 => "Mars"
    case 3 => "Jupiter"
    case 4 => "Saturn"
    case _ => "Unknown"
  }

  /** Ids 1 to 4 are the four planets, and exactly every other id is "Unknown". */
  lemma PlanetNames(id: int)
    ensures PlanetName(1) == "Earth" && PlanetName(2) == "Mars"
    ensures PlanetName(3) == "Jupiter" && PlanetName(4) == "Saturn"
    ensures PlanetName(id) == "Unknown" <==> !(1 <= id <= 4)
  {
  }

  // ---------------------------------------------------------------------------
  // The fleet list

  /** One line of the fleet list: "name | HP: health | ATK: attack". */
  function FleetLine(r: ShipRecord): string {
    r.name + " | HP: " + IntToString(r.health) + " | ATK: " + IntToString(r.attackPower)
  }

  /** The fleet list: one line per ship, in fleet order. */
  function FleetLines(fleet: seq<ShipRecord>): (lines: seq<string>)
    ensures |lines| == |fleet|
  {
    if fleet == [] then [] else FleetLines(fleet[..|fleet| - 1]) + [FleetLine(fleet[|fleet| - 1])]
  }

  /** Line k of the fleet list is the line of ship k. */
  lemma {:induction false} FleetLinesAt(fleet: seq<ShipRecord>, k: nat)
    requires k < |fleet|
    ensures FleetLines(fleet)[k] == FleetLine(fleet[k])
    decreases |fleet|
  {
    if k < |fleet| - 1 {
      FleetLinesAt(fleet[..|fleet| - 1], k);
    }
  }

  /** A name from which split(" \\| ")[0] recovers itself: no separator inside it, and
      no trailing " |" that would run into the separator after it. */
  predicate ExtractableName(name: string) {
    && (forall j :: 0 <= j < |name| ==> !SeparatorAt(name, j))
    && !(|name| >= 2 && name[|name| - 2..] == " |")
  }

  /** The first field of a name followed by a separator is the name itself. */
  lemma SplitHeadOfJoined(name: string, rest: string)
    requires ExtractableName(name)
    ensures SplitHead(name + Separator + rest) == name
  {
    var line := name + Separator + rest;
    var n := |name|;
    assert line[n] == ' ' && line[n + 1] == '|' && line[n + 2] == ' ';
    assert line[n..n + 3] == Separator;
    forall j | 0 <= j < n
      ensures !SeparatorAt(line, j)
    {
      if j + 3 <= n {
        assert line[j..j + 3] == name[j..j + 3];
        assert !SeparatorAt(name, j);
      } else if j == n - 2 {
        assert name[n - 2..] == [line[j], line[j + 1]];
      } else {
        assert line[j + 2] == '|';
      }
    }
    SplitHeadAtFirstSeparator(line, n);
    assert line[..n] == name;
  }

  /** Conversely, a name that splits back off its line is extractable: a separator
      inside it, or one made of its trailing " |", would end the first field early. */
  lemma JoinedSplitsOnlyIfExtractable(name: string, rest: string)
    requires SplitHead(name + Separator + rest) == name
    ensures ExtractableName(name)
  {
    var line := name + Separator + rest;
    var n := |name|;
    forall j | 0 <= j < n
      ensures !SeparatorAt(name, j)
    {
      assert !SeparatorAt(line, j);
      if j + 3 <= n {
        assert line[j..j + 3] == name[j..j + 3];
      }
    }
    if n >= 2 {
      assert !SeparatorAt(line, n - 2);
      assert line[n - 2..n + 1] == name[n - 2..] + [' '];
    }
  }

  /** Taking the first field of a ship's fleet line gives back its name exactly when
      the name is extractable. */
  lemma NameFromFleetLine(r: ShipRecord)
    ensures SplitHead(FleetLine(r)) == r.name <==> ExtractableName(r.name)
  {
    var rest := "HP: " + IntToString(r.health) + " | ATK: " + IntToString(r.attackPower);
    assert FleetLine(r) == r.name + Separator + rest;
    if ExtractableName(r.name) {
      SplitHeadOfJoined(r.name, rest);
    }
    if SplitHead(FleetLine(r)) == r.name {
      JoinedSplitsOnlyIfExtractable(r.name, rest);
    }
  }

  /** Having no " | " inside the name is not enough: a name ending in " |" loses it. */
  lemma TrailingBarNameIsCut()
    ensures SplitHead(FleetLine(ShipRecord("x |", 100, 20, []))) == "x"
  {
    var line := FleetLine(ShipRecord("x |", 100, 20, []));
    assert line[1..4] == Separator;
    assert line[0] == 'x';
    SplitHeadAtFirstSeparator(line, 1);
  }

  /** Selecting the line of ship k upgrades the FIRST ship with that name ignoring
      case, which is ship k exactly when no earlier ship shares the name. */
  lemma SelectedLineUpgradesFirstNamesake(fleet: seq<ShipRecord>, k: nat)
    requires k < |fleet| && ExtractableName(fleet[k].name)
    ensures var n := SplitHead(FleetLines(fleet)[k]);
      && n == fleet[k].name
      && FirstMatch(fleet, n) <= k
      && ((forall j :: 0 <= j < k ==> !EqualsIgnoreCase(fleet[j].name, n)) <==> FirstMatch(fleet, n) == k)
  {
    if FirstMatch(fleet, fleet[k].name) == k {
      forall j | 0 <= j < k
        ensures !EqualsIgnoreCase(fleet[j].name, fleet[k].name)
      {
        FirstMatchIsFirst(fleet, fleet[k].name, j);
      }
    }
    FleetLinesAt(fleet, k);
    NameFromFleetLine(fleet[k]);
    EqualsIgnoreCaseReflexive(fleet[k].name);
    FirstMatchAtMost(fleet, fleet[k].name, k);
    if forall j :: 0 <= j < k ==> !EqualsIgnoreCase(fleet[j].name, fleet[k].name) {
      FirstMatchAt(fleet, fleet[k].name, k);
    }
  }

  // ---------------------------------------------------------------------------
  // The game object

  const WelcomeText: string := "Welcome to Galactic Strategy! (Press ENTER to start)"
  const SelectShipText: string := "Select a ship to upgrade!"

  class Game {
    var gameState: GameState
    var statusLabel: string
    /** The items of the fleet list view. */
    var fleetItems: seq<string>
    const shipyard: Shipyard

    ghost predicate Valid()
      reads this, shipyard
    {
      shipyard.Valid()
    }

    /** start(): a shipyard on the save file, MENU, the welcome text, the fleet list. */
    constructor (file: SaveFile)
      ensures Valid() && fresh(shipyard) && shipyard.saveFile == file
      ensures gameState == Menu && statusLabel == WelcomeText
      ensures fleetItems == FleetLines(shipyard.Snapshot())
      ensures shipyard.pending == []
      ensures file.contents.ListOf? ==> shipyard.Snapshot() == ShipsOf(file.contents.items)
      ensures !file.contents.ListOf? ==> shipyard.playerFleet == []
      ensures forall s :: s in shipyard.playerFleet ==> fresh(s)
    {
      shipyard := new Shipyard(file);
      gameState := Menu;
      statusLabel := WelcomeText;
      fleetItems := [];
      new;
      UpdateFleetDisplay();
    }

    method HandleKeyPress(key: KeyCode)
      modifies this`gameState
      ensures gameState == NextState(old(gameState), key)
    {
      match key
      case Enter =>
        if gameState == Menu { gameState := Playing; }
      case P =>
        if gameState == Playing { gameState := Paused; }
        else if gameState == Paused { gameState := Playing; }
      case Escape =>
        gameState := GameOver;
      case OtherKey(_) =>
    }

    /** updateGame: the status line shows the text of the current state. */
    method UpdateGame()
      modifies this`statusLabel
      ensures statusLabel == StatusText(gameState)
    {
      match gameState
      case Menu => statusLabel := "In Menu... Press 'Enter' to play";
      case Playing => statusLabel := "Game running... Manage Fleet & Explore";
      case Paused => statusLabel := "Game Paused. Press 'P' to resume!";
      case GameOver => statusLabel := "Game Over! Press 'ESC' to exit";
    }

    /** updateFleetDisplay: the list is rebuilt with one line per ship of the fleet. */
    method UpdateFleetDisplay()
      modifies this`fleetItems
      ensures fleetItems == FleetLines(shipyard.Snapshot())
    {
      fleetItems := [];
      var fleet := shipyard.GetPlayerFleet();
      var i := 0;
      while i < |fleet|
        invariant 0 <= i <= |fleet|
        invariant fleetItems == FleetLines(Records(fleet[..i]))
      {
        var line := FleetLine(fleet[i].Record());
        assert fleet[..i + 1] == fleet[..i] + [fleet[i]];
        RecordsAppend(fleet[..i], fleet[i]);
        fleetItems := fleetItems + [line];
        i := i + 1;
      }
      assert fleet[..i] == fleet;
    }

    /** upgradeSelectedShip: no selection, or an empty one, only asks for a selection;
        otherwise the name before the first " | " is upgraded and the list redrawn. */
    method UpgradeSelectedShip(selected: Option<string>) returns (requested: bool)
      requires Valid()
      modifies this`statusLabel, this`fleetItems, (set ship | ship in shipyard.playerFleet), shipyard.saveFile
      ensures Valid()
      ensures requested <==> selected.Some? && selected.value != ""
      ensures !requested ==>
        && statusLabel == SelectShipText
        && shipyard.Snapshot() == old(shipyard.Snapshot())
        && fleetItems == old(fleetItems)
        && unchanged(shipyard.saveFile)
      ensures requested ==>
        && shipyard.Snapshot() == Upgraded(old(shipyard.Snapshot()), SplitHead(selected.value))
        && fleetItems == FleetLines(shipyard.Snapshot())
        && statusLabel == selected.value + " upgraded!"
      ensures requested ==>
        var found := FirstMatch(old(shipyard.Snapshot()), SplitHead(selected.value)) < |shipyard.playerFleet|;
        && (found ==> shipyard.saveFile.contents == ListOf(Image(shipyard.Snapshot())))
        && (!found ==> unchanged(shipyard.saveFile))
    {
      if selected.None? || selected.value == "" {
        statusLabel := SelectShipText;
        return false;
      }
      var selectedShip := selected.value;
      var shipName := SplitHead(selectedShip);
      var _ := shipyard.UpgradeShip(shipName);
      UpdateFleetDisplay();
      statusLabel := selectedShip + " upgraded!";
      requested := true;
    }
  }
}
