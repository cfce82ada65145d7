/** The shipyard: a fixed catalog of ship types, the player's fleet of ship objects,
    the builds that were accepted but have not completed yet, and the save file the
    fleet is written to after every build and upgrade and read back at start-up.
    Each synchronized region on the fleet is one atomic method here. */
module Shipyards {
  import opened Ships
  import opened JavaStrings

  /** Base stats of a ship type. */
  datatype ShipTemplate = ShipTemplate(health: int, attackPower: int)

  /** initializeShipyard: three puts into an empty map. */
  function InitialCatalog(): map<string, ShipTemplate> {
    map[]["Fighter" := ShipTemplate(100, 20)]
         ["Cruiser" := ShipTemplate(200, 40)]
         ["Battleship" := ShipTemplate(300, 60)]
  }

  /** The catalog holds exactly the three reference types with their stats; every
      other name, including a differently capitalised one, is not a type. */
  lemma CatalogContents()
    ensures InitialCatalog().Keys == {"Fighter", "Cruiser", "Battleship"}
    ensures InitialCatalog()["Fighter"] == ShipTemplate(100, 20)
    ensures InitialCatalog()["Cruiser"] == ShipTemplate(200, 40)
    ensures InitialCatalog()["Battleship"] == ShipTemplate(300, 60)
    ensures "fighter" !in InitialCatalog()
  {
  }

  /** Health added by an upgrade, applied as takeDamage(-50). */
  const UpgradeBonus: int := 50

  // ---------------------------------------------------------------------------
  // Persistence, as values

  /** An element of the list read back from the save file. */
  datatype StoredObject = ShipObject(ship: ShipRecord) | OtherObject

  /** What reading the save file yields: no file, a read failure, an object that is
      not a list, or a list. */
  datatype SaveFileState = Missing | Unreadable | NotAList | ListOf(items: seq<StoredObject>)

  /** The list writeObject puts in the file for a fleet: one ship element per ship. */
  function Image(fleet: seq<ShipRecord>): (items: seq<StoredObject>)
    ensures |items| == |fleet|
  {
    if fleet == [] then [] else [ShipObject(fleet[0])] + Image(fleet[1..])
  }

  /** Element i of the written list is ship i. */
  lemma {:induction false} ImageAt(fleet: seq<ShipRecord>, i: nat)
    requires i < |fleet|
    ensures Image(fleet)[i] == ShipObject(fleet[i])
    decreases i
  {
    if i > 0 {
      ImageAt(fleet[1..], i - 1);
    }
  }

  /** The ships a load keeps from a stored list: the ship elements, in stored order. */
  function ShipsOf(items: seq<StoredObject>): (ships: seq<ShipRecord>)
    ensures |ships| <= |items|
  {
    if items == [] then []
    else
      assert items == [items[0]] + items[1..];
      match items[0]
      case ShipObject(r) => [r] + ShipsOf(items[1..])
      case OtherObject => ShipsOf(items[1..])
  }

  /** A load keeps a record exactly when the stored list holds it as a ship element. */
  lemma {:induction false} ShipsOfMembers(items: seq<StoredObject>, r: ShipRecord)
    ensures r in ShipsOf(items) <==> ShipObject(r) in items
    decreases |items|
  {
    if items != [] {
      ShipsOfMembers(items[1..], r);
      assert items == [items[0]] + items[1..];
    }
  }

  /** Filtering distributes over concatenation, so the ships keep their relative order. */
  lemma {:induction false} ShipsOfAppend(a: seq<StoredObject>, b: seq<StoredObject>)
    ensures ShipsOf(a + b) == ShipsOf(a) + ShipsOf(b)
    decreases |a|
  {
    if a == [] {
      assert a + b == b;
    } else {
      assert (a + b)[1..] == a[1..] + b;
      ShipsOfAppend(a[1..], b);
    }
  }

  /** Loading what was saved gives back the same ships in the same order. */
  lemma {:induction false} SaveLoadRoundTrip(fleet: seq<ShipRecord>)
    ensures ShipsOf(Image(fleet)) == fleet
    decreases |fleet|
  {
    if fleet != [] {
      SaveLoadRoundTrip(fleet[1..]);
      assert Image(fleet)[1..] == Image(fleet[1..]);
    }
  }

  // ---------------------------------------------------------------------------
  // Upgrade, as values

  /** Index of the first ship whose name equals n ignoring case; |fleet| when none. */
  function FirstMatch(fleet: seq<ShipRecord>, n: string): (k: nat)
    ensures k <= |fleet|
    ensures k < |fleet| ==> EqualsIgnoreCase(fleet[k].name, n)
  {
    if fleet == [] then 0
    else if EqualsIgnoreCase(fleet[0].name, n) then 0
    else 1 + FirstMatch(fleet[1..], n)
  }

  /** No ship before the first match has a matching name. */
  lemma {:induction false} FirstMatchIsFirst(fleet: seq<ShipRecord>, n: string, j: nat)
    requires j < FirstMatch(fleet, n)
    ensures !EqualsIgnoreCase(fleet[j].name, n)
    decreases j
  {
    if j > 0 {
      FirstMatchIsFirst(fleet[1..], n, j - 1);
    }
  }

  /** A matching ship at position k puts the first match at k or before. */
  lemma {:induction false} FirstMatchAtMost(fleet: seq<ShipRecord>, n: string, k: nat)
    requires k < |fleet| && EqualsIgnoreCase(fleet[k].name, n)
    ensures FirstMatch(fleet, n) <= k
    decreases k
  {
    if k > 0 && !EqualsIgnoreCase(fleet[0].name, n) {
      FirstMatchAtMost(fleet[1..], n, k - 1);
    }
  }

  /** A position before which no name matches and at which one does (or the end of
      the fleet) is the first match. */
  lemma {:induction false} FirstMatchAt(fleet: seq<ShipRecord>, n: string, k: nat)
    requires k <= |fleet|
    requires forall j :: 0 <= j < k ==> !EqualsIgnoreCase(fleet[j].name, n)
    requires k < |fleet| ==> EqualsIgnoreCase(fleet[k].name, n)
    ensures FirstMatch(fleet, n) == k
    decreases k
  {
    if k > 0 {
      FirstMatchAt(fleet[1..], n, k - 1);
    }
  }

  /** The fleet after upgradeShip(n): the first case-insensitive match takes
      takeDamage(-UpgradeBonus), nothing else changes. */
  function Upgraded(fleet: seq<ShipRecord>, n: string): seq<ShipRecord> {
    var k := FirstMatch(fleet, n);
    if k < |fleet| then UpgradedAt(fleet, k) else fleet
  }

  /** The fleet after ship k took takeDamage(-UpgradeBonus). */
  function UpgradedAt(fleet: seq<ShipRecord>, k: nat): seq<ShipRecord>
    requires k < |fleet|
  {
    fleet[k := fleet[k].(health := AfterDamage(fleet[k].health, -UpgradeBonus))]
  }

  /** When ship k is the first whose name matches, the upgrade raises its health by
      exactly UpgradeBonus (from any health of at least 0) and leaves its name, attack
      power and abilities, and every other ship, including later matches, as they were. */
  lemma UpgradeFirstMatch(fleet: seq<ShipRecord>, n: string, k: nat)
    requires k < |fleet| && EqualsIgnoreCase(fleet[k].name, n)
    requires forall j :: 0 <= j < k ==> !EqualsIgnoreCase(fleet[j].name, n)
    ensures var r := Upgraded(fleet, n);
      && |r| == |fleet|
      && r[k] == fleet[k].(health := AfterDamage(fleet[k].health, -UpgradeBonus))
      && (fleet[k].health >= 0 ==> r[k].health == fleet[k].health + UpgradeBonus)
      && forall j :: 0 <= j < |fleet| && j != k ==> r[j] == fleet[j]
  {
    FirstMatchAt(fleet, n, k);
  }

  /** Without a case-insensitive match the upgrade changes nothing. */
  lemma UpgradeWithoutMatch(fleet: seq<ShipRecord>, n: string)
    requires forall j :: 0 <= j < |fleet| ==> !EqualsIgnoreCase(fleet[j].name, n)
    ensures Upgraded(fleet, n) == fleet
  {
    FirstMatchAt(fleet, n, |fleet|);
  }

  /** An upgrade never changes the length of the fleet, nor any name, attack power or
      ability list; a match is found exactly when some ship's name matches. */
  lemma UpgradeKeepsShape(fleet: seq<ShipRecord>, n: string)
    ensures var r := Upgraded(fleet, n);
      && |r| == |fleet|
      && (forall j :: 0 <= j < |fleet| ==>
            r[j].name == fleet[j].name && r[j].attackPower == fleet[j].attackPower
            && r[j].abilities == fleet[j].abilities)
      && (r != fleet ==> exists j :: 0 <= j < |fleet| && EqualsIgnoreCase(fleet[j].name, n))
  {
  }

  // ---------------------------------------------------------------------------
  // The objects

  /** The current value of each ship of a list, in list order. */
  function Records(ships: seq<GalacticShip>): (r: seq<ShipRecord>)
    reads ships
    ensures |r| == |ships|
  {
    if ships == [] then [] else Records(ships[..|ships| - 1]) + [ships[|ships| - 1].Record()]
  }

  /** Position k of the records is the current value of ship k. */
  lemma {:induction false} RecordsAt(ships: seq<GalacticShip>, k: nat)
    requires k < |ships|
    ensures Records(ships)[k] == ships[k].Record()
    decreases |ships|
  {
    if k < |ships| - 1 {
      RecordsAt(ships[..|ships| - 1], k);
    }
  }

  /** Appending a ship appends its current value. */
  lemma RecordsAppend(ships: seq<GalacticShip>, x: GalacticShip)
    ensures Records(ships + [x]) == Records(ships) + [x.Record()]
  {
    assert (ships + [x])[..|ships|] == ships;
  }

  /** No ship object stands twice in the list. */
  predicate NoRepeats(ships: seq<GalacticShip>)
    decreases |ships|
  {
    ships == [] || (ships[0] !in ships[1..] && NoRepeats(ships[1..]))
  }

  /** Two positions of a list without repeats hold two different objects. */
  lemma {:induction false} NoRepeatsDistinct(ships: seq<GalacticShip>, i: nat, j: nat)
    requires NoRepeats(ships) && i < |ships| && j < |ships| && i != j
    ensures ships[i] != ships[j]
    decreases |ships|
  {
    if i > 0 && j > 0 {
      NoRepeatsDistinct(ships[1..], i - 1, j - 1);
    } else if i == 0 {
      assert ships[j] == ships[1..][j - 1];
    } else {
      assert ships[i] == ships[1..][i - 1];
    }
  }

  /** Appending an object that is not in the list keeps it without repeats. */
  lemma {:induction false} NoRepeatsAppend(ships: seq<GalacticShip>, x: GalacticShip)
    requires NoRepeats(ships) && x !in ships
    ensures NoRepeats(ships + [x])
    decreases |ships|
  {
    if ships != [] {
      assert (ships + [x])[1..] == ships[1..] + [x];
      NoRepeatsAppend(ships[1..], x);
    } else {
      assert [x][1..] == [];
    }
  }

  /** The file at the shipyard's save path. */
  class SaveFile {
    var contents: SaveFileState

    constructor (contents: SaveFileState)
      ensures this.contents == contents
    {
      this.contents := contents;
    }
  }

  class Shipyard {
    const availableShips: map<string, ShipTemplate>
    var playerFleet: seq<GalacticShip>
    /** Ship types whose build task was submitted and has not completed. */
    var pending: seq<string>
    const saveFile: SaveFile

    /** The catalog is the initial one, no ship object stands twice in the fleet, and
        every pending build is for a catalog type. */
    ghost predicate Valid()
      reads this
    {
      && availableShips == InitialCatalog()
      && NoRepeats(playerFleet)
      && (forall t :: t in pending ==> t in availableShips)
    }

    /** The fleet's ships as values, in fleet order. */
    function Snapshot(): seq<ShipRecord>
      reads this, playerFleet
    {
      Records(playerFleet)
    }

    /** new Shipyard(): the catalog, an empty fleet, then the saved fleet loaded. */
    constructor (file: SaveFile)
      ensures Valid() && saveFile == file && pending == []
      ensures file.contents.ListOf? ==> Snapshot() == ShipsOf(file.contents.items)
      ensures !file.contents.ListOf? ==> playerFleet == []
      ensures forall s :: s in playerFleet ==> fresh(s)
    {
      availableShips := InitialCatalog();
      playerFleet := [];
      pending := [];
      saveFile := file;
      new;
      LoadShipyardState();
    }

    /** The live fleet list: the same ship objects, not copies. */
    method GetPlayerFleet() returns (fleet: seq<GalacticShip>)
      ensures fleet == playerFleet
    {
      fleet := playerFleet;
    }

    /** buildShip, submission half: an exact, case-sensitive catalog key schedules a
        build; anything else schedules nothing. */
    method BuildShip(shipType: string) returns (accepted: bool)
      requires Valid()
      modifies this`pending
      ensures Valid()
      ensures accepted <==> shipType in availableShips
      ensures pending == if accepted then old(pending) + [shipType] else old(pending)
      ensures |playerFleet| + |pending| == old(|playerFleet| + |pending|) + (if accepted then 1 else 0)
    {
      if shipType !in availableShips {
        return false;
      }
      pending := pending + [shipType];
      accepted := true;
    }

    /** buildShip, task half: pending build i (any of them, since the pool may finish
        out of order) completes, appending one new ship with the template's stats and
        no abilities, and the fleet is saved. */
    method CompleteBuild(i: nat)
      requires Valid()
      requires i < |pending|
      modifies this`playerFleet, this`pending, saveFile
      ensures Valid()
      ensures pending == old(pending[..i] + pending[i + 1..])
      ensures |playerFleet| == old(|playerFleet|) + 1
      ensures playerFleet[..old(|playerFleet|)] == old(playerFleet)
      ensures fresh(playerFleet[old(|playerFleet|)])
      ensures var t := old(pending[i]);
        Snapshot() == old(Snapshot()) + [ShipRecord(t, availableShips[t].health, availableShips[t].attackPower, [])]
      ensures |playerFleet| + |pending| == old(|playerFleet| + |pending|)
      ensures saveFile.contents == ListOf(Image(Snapshot()))
    {
      var shipType := pending[i];
      pending := pending[..i] + pending[i + 1..];
      assert forall t :: t in pending ==> t in old(pending);
      if shipType in availableShips {
        var template := availableShips[shipType];
        var newShip := new GalacticShip(shipType, template.health, template.attackPower);
        NoRepeatsAppend(playerFleet, newShip);
        playerFleet := playerFleet + [newShip];
        assert Snapshot() == old(Snapshot()) + [newShip.Record()];
        SaveShipyardState();
      }
    }

    /** The search loop of upgradeShip: the position of the first ship whose name
        equals shipName ignoring case, or the fleet size when there is none. */
    method FindShip(shipName: string) returns (i: nat)
      ensures i == FirstMatch(Snapshot(), shipName)
    {
      i := 0;
      while i < |playerFleet| && !EqualsIgnoreCase(playerFleet[i].name, shipName)
        invariant 0 <= i <= |playerFleet|
        invariant forall j :: 0 <= j < i ==> !EqualsIgnoreCase(playerFleet[j].name, shipName)
      {
        i := i + 1;
      }
      forall j | 0 <= j < |playerFleet|
        ensures Snapshot()[j].name == playerFleet[j].name
      {
        RecordsAt(playerFleet, j);
      }
      FirstMatchAt(Snapshot(), shipName, i);
    }

    /** upgradeShip: the first ship whose name equals shipName ignoring case gains
        UpgradeBonus health and the fleet is saved; without a match nothing changes. */
    method UpgradeShip(shipName: string) returns (upgraded: bool)
      requires Valid()
      modifies (set ship | ship in playerFleet), saveFile
      ensures Valid()
      ensures upgraded <==> FirstMatch(old(Snapshot()), shipName) < |playerFleet|
      ensures Snapshot() == Upgraded(old(Snapshot()), shipName)
      ensures upgraded ==> saveFile.contents == ListOf(Image(Snapshot()))
      ensures !upgraded ==> unchanged(saveFile)
    {
      var i := FindShip(shipName);
      if i == |playerFleet| {
        return false;
      }
      UpgradeAt(i);
      SaveShipyardState();
      upgraded := true;
    }

    /** The update step of upgradeShip: ship i takes takeDamage(-UpgradeBonus). */
    method UpgradeAt(i: nat)
      requires Valid() && i < |playerFleet|
      modifies playerFleet[i]
      ensures Snapshot() == UpgradedAt(old(Snapshot()), i)
    {
      ghost var before := Snapshot();
      var ship := playerFleet[i];
      forall j | 0 <= j < |playerFleet|
        ensures before[j] == playerFleet[j].Record()
      {
        RecordsAt(playerFleet, j);
      }
      ship.TakeDamage(-UpgradeBonus);
      forall j | 0 <= j < |playerFleet|
        ensures Snapshot()[j] == UpgradedAt(before, i)[j]
      {
        RecordsAt(playerFleet, j);
        if j != i {
          NoRepeatsDistinct(playerFleet, i, j);
        }
      }
    }

    /** saveShipyardState: the file now holds the fleet's ships as a list. */
    method SaveShipyardState()
      modifies saveFile
      ensures saveFile.contents == ListOf(Image(Snapshot()))
    {
      saveFile.contents := ListOf(Image(Records(playerFleet)));
    }

    /** One step of the load loop: a ship deserialized from r joins the fleet. */
    method AddRestored(r: ShipRecord)
      requires NoRepeats(playerFleet)
      modifies this`playerFleet
      ensures NoRepeats(playerFleet)
      ensures |playerFleet| == old(|playerFleet|) + 1
      ensures playerFleet == old(playerFleet) + [playerFleet[|playerFleet| - 1]]
      ensures fresh(playerFleet[|playerFleet| - 1])
      ensures Records(playerFleet) == old(Records(playerFleet)) + [r]
    {
      var ship := new GalacticShip.Restore(r);
      NoRepeatsAppend(playerFleet, ship);
      playerFleet := playerFleet + [ship];
      RecordsAppend(old(playerFleet), ship);
    }

    /** loadShipyardState: a stored list replaces the fleet by its ship elements in
        stored order; a missing file, a read failure or a non-list leaves the fleet. */
    method LoadShipyardState()
      requires Valid()
      modifies this`playerFleet
      ensures Valid()
      ensures saveFile.contents.ListOf? ==> Snapshot() == ShipsOf(saveFile.contents.items)
      ensures saveFile.contents.ListOf? ==> forall s :: s in playerFleet ==> fresh(s)
      ensures !saveFile.contents.ListOf? ==> playerFleet == old(playerFleet)
    {
      if saveFile.contents.ListOf? {
        var items := saveFile.contents.items;
        playerFleet := [];
        var i := 0;
        while i < |items|
          invariant 0 <= i <= |items|
          invariant Records(playerFleet) == ShipsOf(items[..i])
          invariant forall s :: s in playerFleet ==> fresh(s)
          invariant NoRepeats(playerFleet)
        {
          assert items[..i + 1] == items[..i] + [items[i]];
          ShipsOfAppend(items[..i], [items[i]]);
          if items[i].ShipObject? {
            AddRestored(items[i].ship);
          }
          i := i + 1;
        }
        assert items[..|items|] == items;
      }
    }
  }

  /** Saving and then starting a fresh shipyard on the same file restores the same
      ships in the same order, as new objects. */
  method SaveAndRestart(yard: Shipyard) returns (restarted: Shipyard)
    requires yard.Valid()
    modifies yard.saveFile
    ensures fresh(restarted) && restarted.Valid()
    ensures restarted.saveFile == yard.saveFile && restarted.pending == []
    ensures yard.saveFile.contents == ListOf(Image(yard.Snapshot()))
    ensures restarted.Snapshot() == yard.Snapshot()
    ensures forall s :: s in restarted.playerFleet ==> fresh(s)
    ensures forall s :: s in restarted.playerFleet ==> s !in yard.playerFleet
  {
    yard.SaveShipyardState();
    SaveLoadRoundTrip(yard.Snapshot());
    restarted := new Shipyard(yard.saveFile);
  }

  /** The shipyard's own demonstration: on a save file that yields no list, build a Fighter and a
      Cruiser; the builds finish in either order (here the Cruiser first when
      cruiserFirst); then upgrade "Fighter". */
  method Demonstration(file: SaveFile, cruiserFirst: bool) returns (yard: Shipyard)
    requires !file.contents.ListOf?
    modifies file
    ensures yard.Valid() && yard.pending == []
    ensures var fighter := ShipRecord("Fighter", 150, 20, []);
      var cruiser := ShipRecord("Cruiser", 200, 40, []);
      yard.Snapshot() == if cruiserFirst then [cruiser, fighter] else [fighter, cruiser]
    ensures file.contents == ListOf(Image(yard.Snapshot()))
  {
    yard := new Shipyard(file);
    CatalogContents();
    var _ := yard.BuildShip("Fighter");
    var _ := yard.BuildShip("Cruiser");
    assert yard.pending == ["Fighter", "Cruiser"];
    ghost var built := BuildBoth(yard, cruiserFirst);
    UpgradeFighter(built, cruiserFirst);
    var _ := yard.UpgradeShip("Fighter");
  }

  /** The upgrade step of Demonstration, on values. */
  lemma UpgradeFighter(built: seq<ShipRecord>, cruiserFirst: bool)
    requires var fighter := ShipRecord("Fighter", 100, 20, []);
      var cruiser := ShipRecord("Cruiser", 200, 40, []);
      built == if cruiserFirst then [cruiser, fighter] else [fighter, cruiser]
    ensures var fighter := ShipRecord("Fighter", 150, 20, []);
      var cruiser := ShipRecord("Cruiser", 200, 40, []);
      Upgraded(built, "Fighter") == if cruiserFirst then [cruiser, fighter] else [fighter, cruiser]
  {
    EqualsIgnoreCaseExamples();
    EqualsIgnoreCaseReflexive("Fighter");
    UpgradeFirstMatch(built, "Fighter", if cruiserFirst then 1 else 0);
  }

  /** The two pending builds of Demonstration complete, in the chosen order. */
  method BuildBoth(yard: Shipyard, cruiserFirst: bool) returns (ghost built: seq<ShipRecord>)
    requires yard.Valid() && yard.pending == ["Fighter", "Cruiser"] && yard.playerFleet == []
    modifies yard, yard.saveFile
    ensures yard.Valid() && yard.pending == []
    ensures forall s :: s in yard.playerFleet ==> fresh(s)
    ensures built == yard.Snapshot()
    ensures var fighter := ShipRecord("Fighter", 100, 20, []);
      var cruiser := ShipRecord("Cruiser", 200, 40, []);
      built == if cruiserFirst then [cruiser, fighter] else [fighter, cruiser]
  {
    CatalogContents();
    if cruiserFirst {
      yard.CompleteBuild(1);
      yard.CompleteBuild(0);
    } else {
      yard.CompleteBuild(0);
      yard.CompleteBuild(0);
    }
    built := yard.Snapshot();
  }
}
