# Galactic Strategy: ships, shipyard and game control, in Dafny

This project models the sequential core of a small Java strategy game and proves
properties of that model.

- **Ships** (`GalacticShip.dfy`, module `Ships`) is the `GalacticShip` class. A ship has
  a name, a health, an attack power and an ordered list of combat abilities.
  - `TakeDamage` lowers health but never below 0. A negative damage raises health, with no cap.
  - `Attack` makes the target take the attacker's attack power as damage.
  - `IsDestroyed` holds when health is at most 0.
  - The ability list is changed by an append-if-absent (`WithAbility`) and by a
    remove-first-occurrence (`WithoutAbility`), both stated on values.
  - `ShipRecord` is the value of a ship's four fields. It is also the record a saved fleet is made of.
- **Shipyard** (`Shipyard.dfy`, module `Shipyards`) is the `Shipyard` class.
  - Its catalog is a constant: Fighter 100/20, Cruiser 200/40, Battleship 300/60.
  - The fleet is a `seq` of ship objects with no object repeated (`NoRepeats`), so an upgrade changes one ship in place.
  - `pending` holds the accepted builds that have not finished yet.
  - `saveFile` is a `SaveFile` object that holds what reading the file would yield.
  - Each `synchronized (playerFleet)` region is one atomic method, and so is the body of a build task.
  - `buildShip` is split in two. `BuildShip` checks the type and queues it. `CompleteBuild(i)`
    runs any queued build, because the two-thread pool may finish builds out of order. It
    appends the ship and saves the fleet. This allows every completion order, including
    some the pool cannot produce (with three or more requests, the third cannot finish
    before one of the first two has started), so what is proved for all orders holds for
    the real ones.
  - `UpgradeShip` finds the first ship whose name matches ignoring case and applies
    `takeDamage(-50)` to it, then saves.
  - `LoadShipyardState` replaces the fleet by the ship elements of a stored list.
  - Value-level partners: `Upgraded`, `Image` (what a save writes) and `ShipsOf` (what a load keeps).
- **Game** (`Game.dfy`, module `Games`) is the `Game` class.
  - `HandleKeyPress` drives the MENU / PLAYING / PAUSED / GAME_OVER machine, specified by `NextState`.
  - `UpdateGame` shows one fixed status text per state.
  - `PlanetName` is the planet table.
  - `UpdateFleetDisplay` builds the fleet list. Each line has the form `name | HP: h | ATK: a`.
  - `UpgradeSelectedShip` takes the part of the selected line before the first `" | "` and upgrades that name.
- **Java strings** (`JavaStrings.dfy`, module `JavaStrings`) models three library calls:
  `String.equalsIgnoreCase` with ASCII case folding, `Integer.toString`, and the first
  field of `split(" \\| ")`.

Behaviour the model takes from the code:

- A missing, unreadable or non-list save file leaves the fleet as it was. It does not empty
  the fleet, though at start-up the fleet is empty anyway.
- Abilities are an ordered list, not an unordered set.
- An upgrade goes through `takeDamage(-50)`, so the new health is `max(0, h + 50)`.

What verifying the extraction showed:

- `split(" \\| ")[0]` gives back a ship's name only when the name contains no `" | "` and
  also does not end in `" |"`. The name `"x |"` comes back as `"x"`.
- Because the upgrade searches by name, selecting the line of a later ship upgrades the
  first ship with the same name, ignoring case.

Both facts are proved. `NameFromFleetLine` proves the "only when" in both directions,
`TrailingBarNameIsCut` exhibits the trailing-bar case, and `SelectedLineUpgradesFirstNamesake`
proves the second fact. They are properties of the code as written. The model does not change that behaviour.

## Model

| member | source | states |
|---|---|---|
| `Ships.GalacticShip.constructor` | src/main/java/edu/sdccd/cisc191/game/GalacticShip.java:45-50 | the new ship has exactly the given name, health and attack power and no abilities |
| `Ships.GalacticShip.Named` | src/main/java/edu/sdccd/cisc191/game/GalacticShip.java:52-56 | the one-argument constructor: the given name, health 0, attack power at Java's default 0, no abilities |
| `Ships.GalacticShip.Restore` | src/main/java/edu/sdccd/cisc191/game/Shipyard.java:161-169 | a ship rebuilt by deserialization has exactly the fields of the stored record |
| `Ships.AfterDamage` | src/main/java/edu/sdccd/cisc191/game/GalacticShip.java:70-75 | health after damage is never negative, is at least `health - damage`, and is either `health - damage` or 0, which is `max(0, health - damage)` |
| `Ships.DamageLowersHealth` | src/main/java/edu/sdccd/cisc191/game/GalacticShip.java:70-75 | non-negative damage never raises health; it lowers it by exactly the damage, or to 0 once damage reaches the health |
| `Ships.NegativeDamageHeals` | src/main/java/edu/sdccd/cisc191/game/GalacticShip.java:70-75 | negative damage raises a non-negative health by its absolute value, with no upper cap |
| `Ships.GalacticShip.TakeDamage` | src/main/java/edu/sdccd/cisc191/game/GalacticShip.java:70-75 | the new health is `AfterDamage(old health, damage)`, so it is never negative; the ship is destroyed afterwards exactly when the damage was at least its old health; only `health` changes |
| `Ships.GalacticShip.Attack` | src/main/java/edu/sdccd/cisc191/game/GalacticShip.java:77-79 | the target's health becomes `AfterDamage(its old health, attacker's attack power)`; only the target's health may change, so a distinct attacker is untouched |
| `Ships.GalacticShip.IsDestroyed` | src/main/java/edu/sdccd/cisc191/game/GalacticShip.java:81-83 | a ship is destroyed exactly when its health is at most 0 |
| `Ships.DestroyedMeansNoHealth` | src/main/java/edu/sdccd/cisc191/game/GalacticShip.java:81-83 | for a ship with non-negative health, `isDestroyed()` holds exactly when health is 0 |
| `Ships.IndexOf` | src/main/java/edu/sdccd/cisc191/game/GalacticShip.java:101-103 | the index `List.remove` acts on: the first occurrence of the ability, or the length of the list when the ability is absent |
| `Ships.WithoutAbility` | src/main/java/edu/sdccd/cisc191/game/GalacticShip.java:101-103 | `List.remove(a)` cuts out the first occurrence of `a` and keeps everything else in order; an absent ability leaves the list unchanged |
| `Ships.WithAbility` | src/main/java/edu/sdccd/cisc191/game/GalacticShip.java:90-94 | the list effect of `addCombatAbility`: unchanged when the ability is already present, otherwise the ability appended at the end |
| `Ships.AddAbilityProperties` | src/main/java/edu/sdccd/cisc191/game/GalacticShip.java:90-94 | after adding, the ability is present and the list stays duplicate-free; the old list is an unchanged prefix; the new ability is appended only when it was absent; no other ability appears |
| `Ships.AddAbilityIdempotent` | src/main/java/edu/sdccd/cisc191/game/GalacticShip.java:90-94 | adding the same ability twice equals adding it once |
| `Ships.RemoveAbilityProperties` | src/main/java/edu/sdccd/cisc191/game/GalacticShip.java:101-103 | on a duplicate-free list, removing an ability leaves it absent and keeps the list duplicate-free; every other ability stays; the length drops by one exactly when the ability was there |
| `Ships.RemoveTakesOnlyFirstCopy` | src/main/java/edu/sdccd/cisc191/game/GalacticShip.java:101-103 | without the duplicate-free invariant, removal takes out only the first copy, so the ability can still be present |
| `Ships.GalacticShip.AddCombatAbility` | src/main/java/edu/sdccd/cisc191/game/GalacticShip.java:90-94 | the list becomes `WithAbility(old list, a)`; afterwards `HasCombatAbility(a)` holds; a duplicate-free list stays duplicate-free |
| `Ships.GalacticShip.RemoveCombatAbility` | src/main/java/edu/sdccd/cisc191/game/GalacticShip.java:101-103 | the list becomes `WithoutAbility(old list, a)`; on a duplicate-free list, afterwards `HasCombatAbility(a)` is false and the list stays duplicate-free |
| `Ships.GalacticShip.HasCombatAbility` | src/main/java/edu/sdccd/cisc191/game/GalacticShip.java:111-113 | holds exactly when the ability occurs in the ship's list |
| `Ships.GalacticShip.GetCombatAbilities` | src/main/java/edu/sdccd/cisc191/game/GalacticShip.java:120-122 | returns the ability list with the same content and order; being a value, changing it cannot change the ship |
| `JavaStrings.EqualsIgnoreCase` | src/main/java/edu/sdccd/cisc191/game/Shipyard.java:100 | two names match when they have the same length and agree character by character after ASCII lower-casing |
| `JavaStrings.EqualsIgnoreCaseReflexive` | src/main/java/edu/sdccd/cisc191/game/Shipyard.java:100 | every name matches itself ignoring case |
| `JavaStrings.EqualsIgnoreCaseSymmetric` | src/main/java/edu/sdccd/cisc191/game/Shipyard.java:100 | the case-insensitive comparison is symmetric |
| `JavaStrings.EqualsIgnoreCaseExamples` | src/main/java/edu/sdccd/cisc191/game/Shipyard.java:100 | "fighter" matches "FIGHTER"; "Fighter" matches neither "Fighters" nor "Cruiser" |
| `JavaStrings.NatToString` | src/main/java/edu/sdccd/cisc191/game/Game.java:301 | the decimal rendering of a natural number is non-empty and made of digits only |
| `JavaStrings.IntToString` | src/main/java/edu/sdccd/cisc191/game/Game.java:301 | the decimal rendering of an int is non-empty, made of digits and '-', and starts with '-' exactly for negative values |
| `JavaStrings.NatToStringValue` | src/main/java/edu/sdccd/cisc191/game/Game.java:301 | reading the digits back gives the number that was rendered |
| `JavaStrings.SplitHead` | src/main/java/edu/sdccd/cisc191/game/Game.java:290 | the first field is a prefix of the string with no separator starting inside it; it stops where a separator starts, or at the end when there is none |
| `JavaStrings.SplitHeadAtFirstSeparator` | src/main/java/edu/sdccd/cisc191/game/Game.java:290 | when the leftmost separator starts at k, the first field is exactly the first k characters |
| `JavaStrings.SplitHeadWithoutSeparator` | src/main/java/edu/sdccd/cisc191/game/Game.java:290 | a string without a separator is its own first field |
| `Shipyards.InitialCatalog` | src/main/java/edu/sdccd/cisc191/game/Shipyard.java:43-47 | the catalog map built by three puts: Fighter 100/20, Cruiser 200/40, Battleship 300/60 |
| `Shipyards.CatalogContents` | src/main/java/edu/sdccd/cisc191/game/Shipyard.java:43-47 | the catalog has exactly the keys Fighter, Cruiser and Battleship, with stats 100/20, 200/40 and 300/60; lookup is case-sensitive ("fighter" is not a key) |
| `Shipyards.Image` | src/main/java/edu/sdccd/cisc191/game/Shipyard.java:144-145 | the list written for a fleet has exactly one element per ship |
| `Shipyards.ImageAt` | src/main/java/edu/sdccd/cisc191/game/Shipyard.java:144-145 | element i of the written list is the ship element holding fleet ship i, so the list keeps fleet order |
| `Shipyards.ShipsOf` | src/main/java/edu/sdccd/cisc191/game/Shipyard.java:163-171 | a load keeps no more elements than the stored list has |
| `Shipyards.ShipsOfMembers` | src/main/java/edu/sdccd/cisc191/game/Shipyard.java:167-170 | a record is loaded exactly when the stored list holds it as a ship element; other elements are dropped |
| `Shipyards.ShipsOfAppend` | src/main/java/edu/sdccd/cisc191/game/Shipyard.java:166-171 | the filtering loop distributes over concatenation, so the loaded ships keep their stored relative order |
| `Shipyards.SaveLoadRoundTrip` | src/main/java/edu/sdccd/cisc191/game/Shipyard.java:138-171 | loading what a save wrote gives back the same ships in the same order |
| `Shipyards.FirstMatch` | src/main/java/edu/sdccd/cisc191/game/Shipyard.java:99-100 | the search result is at most the fleet length; a result inside the fleet names a ship whose name equals the given one ignoring case |
| `Shipyards.FirstMatchIsFirst` | src/main/java/edu/sdccd/cisc191/game/Shipyard.java:99-100 | no ship before the search result matches, so the loop stops at the first match |
| `Shipyards.FirstMatchAtMost` | src/main/java/edu/sdccd/cisc191/game/Shipyard.java:99-100 | a matching ship at k means the search stops at k or earlier |
| `Shipyards.FirstMatchAt` | src/main/java/edu/sdccd/cisc191/game/Shipyard.java:99-112 | a position with no match before it, and a match at it or the end of the fleet, is exactly the search result; in particular the result is the fleet length when no ship matches (with `FirstMatchIsFirst`, exactly when) |
| `Shipyards.Upgraded` | src/main/java/edu/sdccd/cisc191/game/Shipyard.java:97-108 | the fleet after `upgradeShip(n)`: the first case-insensitive match is upgraded in place, and with no match the fleet stays as it was |
| `Shipyards.UpgradedAt` | src/main/java/edu/sdccd/cisc191/game/Shipyard.java:101 | the fleet after ship k took `takeDamage(-50)`: ship k's health becomes `max(0, h + 50)`, every other field and ship stays |
| `Shipyards.UpgradeFirstMatch` | src/main/java/edu/sdccd/cisc191/game/Shipyard.java:97-108 | when ship k is the first match, exactly ship k changes, and only its health, to `max(0, h + 50)`, which is `h + 50` from any non-negative health; every other ship stays, including later ships with the same name |
| `Shipyards.UpgradeWithoutMatch` | src/main/java/edu/sdccd/cisc191/game/Shipyard.java:97-112 | with no case-insensitive match the fleet is unchanged |
| `Shipyards.UpgradeKeepsShape` | src/main/java/edu/sdccd/cisc191/game/Shipyard.java:97-112 | an upgrade never changes the fleet length, a name, an attack power or an ability list; it changes something only when some name matches |
| `Shipyards.Records` | src/main/java/edu/sdccd/cisc191/game/Shipyard.java:145 | the fleet's contents as values have one record per ship |
| `Shipyards.RecordsAt` | src/main/java/edu/sdccd/cisc191/game/Shipyard.java:145 | record k is the current value of ship k's fields |
| `Shipyards.RecordsAppend` | src/main/java/edu/sdccd/cisc191/game/Shipyard.java:169 | appending a ship to the fleet appends its record to the fleet's contents |
| `Shipyards.NoRepeatsDistinct` | src/main/java/edu/sdccd/cisc191/game/Shipyard.java:97-108 | in a fleet without a repeated object, two different positions hold different ships, so upgrading one changes no other |
| `Shipyards.NoRepeatsAppend` | src/main/java/edu/sdccd/cisc191/game/Shipyard.java:69-82 | appending a ship object not yet in the fleet keeps the fleet free of repeated objects |
| `Shipyards.Shipyard.constructor` | src/main/java/edu/sdccd/cisc191/game/Shipyard.java:29-40 | the catalog is the initial one and no build is pending; a stored list becomes the fleet, as its ship elements in order, all new objects; otherwise the fleet is empty |
| `Shipyards.Shipyard.GetPlayerFleet` | src/main/java/edu/sdccd/cisc191/game/Shipyard.java:133-135 | returns the fleet's own ship objects, not copies |
| `Shipyards.Shipyard.BuildShip` | src/main/java/edu/sdccd/cisc191/game/Shipyard.java:62-69 | a build is queued exactly when the type is an exact, case-sensitive catalog key; otherwise the fleet and the queue are unchanged; fleet length plus pending count grows by one per accepted request |
| `Shipyards.Shipyard.CompleteBuild` | src/main/java/edu/sdccd/cisc191/game/Shipyard.java:69-82 | any pending build leaves the queue; exactly one new ship is appended, named after its type, with the template's stats and no abilities; earlier ships are untouched; fleet length plus pending count is preserved; the file then holds the fleet |
| `Shipyards.Shipyard.FindShip` | src/main/java/edu/sdccd/cisc191/game/Shipyard.java:99-100 | the loop returns the position `FirstMatch` gives on the fleet's contents; nothing changes |
| `Shipyards.Shipyard.UpgradeAt` | src/main/java/edu/sdccd/cisc191/game/Shipyard.java:101 | `takeDamage(-50)` on ship i changes the fleet's contents to those with only ship i's health raised to `max(0, h + 50)` |
| `Shipyards.Shipyard.UpgradeShip` | src/main/java/edu/sdccd/cisc191/game/Shipyard.java:97-113 | the fleet becomes `Upgraded(old fleet, name)` with the same objects in the same order; it reports a match exactly when the search finds one; after a match the file holds the fleet, and without one the file is untouched |
| `Shipyards.Shipyard.SaveShipyardState` | src/main/java/edu/sdccd/cisc191/game/Shipyard.java:138-152 | the file holds the fleet's ships, in order, as a list |
| `Shipyards.Shipyard.AddRestored` | src/main/java/edu/sdccd/cisc191/game/Shipyard.java:168-169 | one new ship object holding the record is appended; earlier ships stay; the fleet stays free of repeated objects |
| `Shipyards.Shipyard.LoadShipyardState` | src/main/java/edu/sdccd/cisc191/game/Shipyard.java:155-184 | a stored list replaces the fleet by exactly its ship elements in stored order, as new objects; a missing file, a read failure or a non-list leaves the fleet as it was |
| `Shipyards.SaveAndRestart` | src/main/java/edu/sdccd/cisc191/game/Shipyard.java:138-171 | after saving, the file holds the old yard's fleet; the new shipyard is a fresh object on the same file with nothing pending, and it restores the same ships in the same order, as new objects |
| `Shipyards.Demonstration` | src/main/java/edu/sdccd/cisc191/game/Shipyard.java:210-229 | the main demonstration on a file that yields no list, so the fleet starts empty (build a Fighter and a Cruiser, upgrade "Fighter") ends with Fighter 150/20 and Cruiser 200/40, in the order the builds finished, and the file holds that fleet |
| `Shipyards.BuildBoth` | src/main/java/edu/sdccd/cisc191/game/Shipyard.java:214-218 | the demonstration's two pending builds complete in either order, giving Fighter 100/20 and Cruiser 200/40 in completion order |
| `Shipyards.UpgradeFighter` | src/main/java/edu/sdccd/cisc191/game/Shipyard.java:225 | in either order, upgrading "Fighter" raises the Fighter from 100 to 150 and leaves the Cruiser alone |
| `Games.NextState` | src/main/java/edu/sdccd/cisc191/game/Game.java:178-191 | the state after one key press: ENTER starts a game from MENU, P toggles PLAYING and PAUSED, ESCAPE ends the game, any other key changes nothing |
| `Games.EnterOnlyStartsFromMenu` | src/main/java/edu/sdccd/cisc191/game/Game.java:180-182 | ENTER changes the state exactly in MENU, and then to PLAYING |
| `Games.PTogglesPause` | src/main/java/edu/sdccd/cisc191/game/Game.java:183-186 | P turns PLAYING into PAUSED and PAUSED into PLAYING; it does nothing in MENU or GAME_OVER; pressing it twice returns to the starting state |
| `Games.EscapeEndsGame` | src/main/java/edu/sdccd/cisc191/game/Game.java:178-191 | ESCAPE moves every state to GAME_OVER, and GAME_OVER stays under every key |
| `Games.OtherKeysIgnored` | src/main/java/edu/sdccd/cisc191/game/Game.java:178-191 | any key other than ENTER, P or ESCAPE leaves the state unchanged |
| `Games.GameOverIsFinal` | src/main/java/edu/sdccd/cisc191/game/Game.java:178-191 | no sequence of key presses leaves GAME_OVER |
| `Games.EscapeInKeysEndsGame` | src/main/java/edu/sdccd/cisc191/game/Game.java:178-191 | any key sequence that contains an ESCAPE ends in GAME_OVER |
| `Games.MenuIsNeverReentered` | src/main/java/edu/sdccd/cisc191/game/Game.java:178-191 | no key sequence returns to MENU once MENU has been left |
| `Games.StatusText` | src/main/java/edu/sdccd/cisc191/game/Game.java:194-214 | the fixed status text `updateGame` shows in each of the four states |
| `Games.StatusTextDistinct` | src/main/java/edu/sdccd/cisc191/game/Game.java:194-214 | each state has a status text of its own, so the text determines the state |
| `Games.PlanetName` | src/main/java/edu/sdccd/cisc191/game/Game.java:331-339 | the planet table: Earth, Mars, Jupiter and Saturn for 1 to 4, "Unknown" for every other id |
| `Games.PlanetNames` | src/main/java/edu/sdccd/cisc191/game/Game.java:331-339 | 1, 2, 3 and 4 are Earth, Mars, Jupiter and Saturn; an id gives "Unknown" exactly when it is outside 1..4 |
| `Games.SplitHeadOfJoined` | src/main/java/edu/sdccd/cisc191/game/Game.java:290 | a name with no separator inside it and no trailing `" \|"`, followed by a separator and any text, splits back to exactly that name |
| `Games.JoinedSplitsOnlyIfExtractable` | src/main/java/edu/sdccd/cisc191/game/Game.java:290 | a name that the split gives back from `name \| rest` has no `" \| "` inside it and no trailing `" \|"` |
| `Games.NameFromFleetLine` | src/main/java/edu/sdccd/cisc191/game/Game.java:290-301 | the first field of a ship's fleet line is exactly its name if and only if the name has no `" \| "` inside it and no trailing `" \|"` |
| `Games.TrailingBarNameIsCut` | src/main/java/edu/sdccd/cisc191/game/Game.java:290-301 | having no `" \| "` inside the name is not enough: the line of the ship "x \|" yields "x" |
| `Games.SelectedLineUpgradesFirstNamesake` | src/main/java/edu/sdccd/cisc191/game/Game.java:282-294 | selecting ship k's line targets the first ship with that name ignoring case; that is ship k if and only if no earlier ship has the same name ignoring case |
| `Games.Game.constructor` | src/main/java/edu/sdccd/cisc191/game/Game.java:70-89 | start-up: a new shipyard on the save file with no pending build, whose fleet is the ship elements of a stored list, in order, as new objects, or empty when the file yields no list; state MENU, the welcome text, and the fleet list drawn from that fleet |
| `Games.Game.HandleKeyPress` | src/main/java/edu/sdccd/cisc191/game/Game.java:178-191 | the new state is `NextState(old state, key)`, the transition table the lemmas above describe; nothing else changes |
| `Games.Game.UpdateGame` | src/main/java/edu/sdccd/cisc191/game/Game.java:194-214 | the status label shows the text of the current state and depends on nothing else |
| `Games.FleetLine` | src/main/java/edu/sdccd/cisc191/game/Game.java:301 | one fleet line: the name, then `" \| HP: "`, the health, `" \| ATK: "` and the attack power, in decimal |
| `Games.FleetLines` | src/main/java/edu/sdccd/cisc191/game/Game.java:297-303 | the fleet list has exactly one line per ship |
| `Games.FleetLinesAt` | src/main/java/edu/sdccd/cisc191/game/Game.java:297-303 | line k is the line `name \| HP: h \| ATK: a` of ship k, so the list keeps fleet order |
| `Games.Game.UpdateFleetDisplay` | src/main/java/edu/sdccd/cisc191/game/Game.java:297-303 | the list is rebuilt with one line `name \| HP: h \| ATK: a` per ship, in fleet order |
| `Games.Game.UpgradeSelectedShip` | src/main/java/edu/sdccd/cisc191/game/Game.java:282-294 | an upgrade is requested exactly when the selection is present and non-empty; otherwise only the "Select a ship" message is shown and the fleet, list and file are unchanged; when requested, the fleet becomes `Upgraded(old fleet, first field of the selection)`, the file holds the new fleet when a ship matched and is untouched when none did, the list is redrawn and the label says the selection was upgraded |

## Left out

- `MultiplayerServer.java` is not part of this model. It is socket I/O and per-client threads with no state shared with the game core.
- The build thread pool is not modelled: its two threads, the `Thread.sleep` latency, interruption, `shutdown`, `awaitTermination` and `shutdownNow`. All of it is concurrency and timing. Its effect is covered by `BuildShip` plus `CompleteBuild` on any pending entry, which allows more completion orders than two threads can produce. A task that is interrupted or dropped at shutdown would simply never complete.
- Locking (`synchronized`) is not modelled. Each locked region, and each whole build-task body, is one atomic method. Interleavings inside them are not modelled, such as the save after a build running outside the lock.
- File I/O is not modelled: `ObjectOutputStream`/`ObjectInputStream`, `mkdirs`, file existence checks and the I/O exceptions. The file is the value `SaveFileState`. A failed read is `Unreadable`.
- `Shipyards.Shipyard.SaveShipyardState`: a write that fails, or leaves a truncated file, is not modelled. Every save succeeds.
- `displayAvailableShips`, `displayPlayerFleet` and all console messages are not modelled, because they only write to the console.
- `Shipyard.main` sleeps five seconds to let both builds finish. `Demonstration` instead names the order in which the two builds complete.
- `Ships.AfterDamage`: health is an unbounded integer. Java's 32-bit `health -= damage` would wrap around near 2^31. The model assumes it never gets there, for example through many `takeDamage(-50)` upgrades.
- `JavaStrings.EqualsIgnoreCase` folds ASCII letters only. Java also folds letters outside ASCII.
- The getters `getName`, `getHealth` and `getAttackPower` are not separate members. The model reads the fields directly, or through `Record()`.
- `getPlayerFleet` hands out the live list, but only the fleet's ship objects are returned here. Adding to or removing from that list from outside the shipyard is not modelled, and the game does not do it.
- `Games.Game.UpgradeSelectedShip`: Java's `split` returns an empty array, so `[0]` throws, on a string made only of separators, such as `" | "`. That exception is not modelled: on such a selection the model upgrades the empty name and sets the "upgraded!" label, where the code would throw before either. The list view only ever holds fleet lines, and a fleet line always has text after its first separator, so a selection from the list never hits this case.
- The JavaFX parts of `Game.java` are not in the model: the scene, layout, buttons, `AnimationTimer`, `setupUI`, `stop` and the delayed refresh on a `ScheduledExecutorService`. These are UI and timers.
- `Game.buildShip` is not modelled. It depends on `PlayerInventory.useResource`, whose source is not part of this model.
- `handleMove`, `exploreSelectedPlanet`, `gatherDilithium` and `runCombatExample` are not modelled. They depend on PlayerMovementManager, GameBoard, ExplorationSystem, ResourceManagement and CombatSystem, whose source is not part of this model.
- The `shipyard == null` guard in `updateFleetDisplay` is not modelled. The shipyard is created at start-up, before the first refresh, so the game's shipyard is never null here.
