/** A ship of the game: its name, health, attack power and an ordered list of
    combat abilities that the ship keeps free of duplicates. */
module Ships {

  datatype CombatAbility = LaserCannon | ShieldGenerator | MissileLauncher | CloakingDevice | RepairDrones

  /** The value of a ship's fields; also the record a saved fleet consists of. */
  datatype ShipRecord = ShipRecord(name: string, health: int, attackPower: int, abilities: seq<CombatAbility>)

  // ---------------------------------------------------------------------------
  // Health arithmetic (health is an unbounded int here; see README)

  /** Health after taking `damage`: lowered by it, but never below 0. */
  function AfterDamage(health: int, damage: int): (h: int)
    ensures h >= 0
    ensures h >= health - damage
    ensures h == health - damage || h == 0
  {
    if health - damage < 0 then 0 else health - damage
  }

  /** Positive damage never raises health, and lowers it by exactly the damage
      while the result stays non-negative. */
  lemma DamageLowersHealth(health: int, damage: int)
    requires damage >= 0 && health >= 0
    ensures AfterDamage(health, damage) <= health
    ensures damage <= health ==> AfterDamage(health, damage) == health - damage
    ensures damage >= health ==> AfterDamage(health, damage) == 0
  {
  }

  /** Negative damage is healing: health rises by |damage| with no upper cap. */
  lemma NegativeDamageHeals(health: int, damage: int)
    requires damage <= 0 && health >= 0
    ensures AfterDamage(health, damage) == health + (-damage)
  {
  }

  // ---------------------------------------------------------------------------
  // The ability list as a value

  predicate Distinct(s: seq<CombatAbility>) {
    forall i, j :: 0 <= i < j < |s| ==> s[i] != s[j]
  }

  /** List.indexOf, answering |s| for "absent". */
  function IndexOf(s: seq<CombatAbility>, a: CombatAbility): (k: nat)
    ensures k <= |s|
    ensures forall j :: 0 <= j < k ==> s[j] != a
    ensures k < |s| ==> s[k] == a
    ensures k == |s| <==> a !in s
  {
    if s == [] then 0 else if s[0] == a then 0 else 1 + IndexOf(s[1..], a)
  }

  /** The list after addCombatAbility: appended only when not already present. */
  function WithAbility(s: seq<CombatAbility>, a: CombatAbility): seq<CombatAbility> {
    if a in s then s else s + [a]
  }

  /** The list after List.remove(a): its first occurrence taken out, if any. */
  function WithoutAbility(s: seq<CombatAbility>, a: CombatAbility): (r: seq<CombatAbility>)
    ensures var k := IndexOf(s, a); r == if k < |s| then s[..k] + s[k + 1..] else s
  {
    if s == [] then []
    else if s[0] == a then s[1..]
    else
      assert s == [s[0]] + s[1..];
      [s[0]] + WithoutAbility(s[1..], a)
  }

  /** Adding keeps the list duplicate-free, keeps every earlier ability in place and
      at most appends the new one at the end; afterwards the ability is present. */
  lemma AddAbilityProperties(s: seq<CombatAbility>, a: CombatAbility)
    ensures var r := WithAbility(s, a);
      && (Distinct(s) ==> Distinct(r))
      && a in r
      && r[..|s|] == s
      && (a in s ==> r == s)
      && (a !in s ==> r == s + [a])
      && forall b :: b in r <==> b in s || b == a
  {
  }

  /** Adding the same ability twice is the same as adding it once. */
  lemma AddAbilityIdempotent(s: seq<CombatAbility>, a: CombatAbility)
    ensures WithAbility(WithAbility(s, a), a) == WithAbility(s, a)
  {
  }

  /** On a duplicate-free list, removing an ability leaves it absent, keeps the list
      duplicate-free, keeps every other ability, and keeps their relative order
      (the result is the list with one position cut out). */
  lemma RemoveAbilityProperties(s: seq<CombatAbility>, a: CombatAbility)
    requires Distinct(s)
    ensures var r := WithoutAbility(s, a);
      && a !in r
      && Distinct(r)
      && (forall b :: b != a ==> (b in r <==> b in s))
      && (a !in s ==> r == s)
      && (a in s ==> |r| == |s| - 1)
  {
    var k := IndexOf(s, a);
    if k < |s| {
      CutProperties(s, k);
    }
  }

  /** Cutting position k out of a duplicate-free list removes exactly s[k]. */
  lemma CutProperties(s: seq<CombatAbility>, k: nat)
    requires Distinct(s) && k < |s|
    ensures var r := s[..k] + s[k + 1..];
      && s[k] !in r
      && Distinct(r)
      && (forall b :: b != s[k] ==> (b in r <==> b in s))
  {
    var r := s[..k] + s[k + 1..];
    assert |r| == |s| - 1;
    assert forall i :: 0 <= i < |r| ==> r[i] == s[Skip(i, k)];
    forall i, j | 0 <= i < j < |r|
      ensures r[i] != r[j]
    {
      assert Skip(i, k) < Skip(j, k);
    }
    forall b | b != s[k] && b in s
      ensures b in r
    {
      var i :| 0 <= i < |s| && s[i] == b;
      assert r[if i < k then i else i - 1] == b;
    }
  }

  /** Position in the list before removal of position i of the list after removing k. */
  function Skip(i: nat, k: nat): nat {
    if i < k then i else i + 1
  }

  /** Without the duplicate-free invariant, removal takes out the first copy only. */
  lemma RemoveTakesOnlyFirstCopy()
    ensures WithoutAbility([LaserCannon, LaserCannon], LaserCannon) == [LaserCannon]
  {
    assert IndexOf([LaserCannon, LaserCannon], LaserCannon) == 0;
  }

  // ---------------------------------------------------------------------------
  // The mutable ship

  class GalacticShip {
    var name: string
    var health: int
    var attackPower: int
    var combatAbilities: seq<CombatAbility>

    /** GalacticShip(name, health, attackPower): the given stats, no abilities. */
    constructor (name: string, health: int, attackPower: int)
      ensures Record() == ShipRecord(name, health, attackPower, [])
    {
      this.name := name;
      this.health := health;
      this.attackPower := attackPower;
      this.combatAbilities := [];
    }

    /** GalacticShip(name): health 0, attack power left at Java's default 0. */
    constructor Named(name: string)
      ensures Record() == ShipRecord(name, 0, 0, [])
    {
      this.health := 0;
      this.name := name;
      this.attackPower := 0;
      this.combatAbilities := [];
    }

    /** A ship rebuilt by deserialization: every field as it was written. */
    constructor Restore(r: ShipRecord)
      ensures Record() == r
    {
      name := r.name;
      health := r.health;
      attackPower := r.attackPower;
      combatAbilities := r.abilities;
    }

    /** The current value of all four fields. */
    function Record(): ShipRecord
      reads this
    {
      ShipRecord(name, health, attackPower, combatAbilities)
    }

    method TakeDamage(damage: int)
      modifies this`health
      ensures health == AfterDamage(old(health), damage)
      ensures health >= 0
      ensures IsDestroyed() <==> damage >= old(health)
    {
      health := health - damage;
      if health < 0 {
        health := 0;
      }
    }

    /** The target takes this ship's attack power as damage. */
    method Attack(target: GalacticShip)
      modifies target`health
      ensures target.health == AfterDamage(old(target.health), old(attackPower))
      ensures target != this ==> health == old(health)
    {
      target.TakeDamage(attackPower);
    }

    predicate IsDestroyed()
      reads this`health
    {
      health <= 0
    }

    method AddCombatAbility(ability: CombatAbility)
      modifies this`combatAbilities
      ensures combatAbilities == WithAbility(old(combatAbilities), ability)
      ensures HasCombatAbility(ability)
      ensures old(Distinct(combatAbilities)) ==> Distinct(combatAbilities)
    {
      if ability !in combatAbilities {
        combatAbilities := combatAbilities + [ability];
      }
      AddAbilityProperties(old(combatAbilities), ability);
    }

    method RemoveCombatAbility(ability: CombatAbility)
      modifies this`combatAbilities
      ensures combatAbilities == WithoutAbility(old(combatAbilities), ability)
      ensures old(Distinct(combatAbilities)) ==> Distinct(combatAbilities) && !HasCombatAbility(ability)
    {
      combatAbilities := WithoutAbility(combatAbilities, ability);
      if Distinct(old(combatAbilities)) {
        RemoveAbilityProperties(old(combatAbilities), ability);
      }
    }

    predicate HasCombatAbility(ability: CombatAbility)
      reads this`combatAbilities
    {
      ability in combatAbilities
    }

    /** A copy of the ability list: a value, so changing it cannot reach the ship. */
    method GetCombatAbilities() returns (abilities: seq<CombatAbility>)
      ensures abilities == combatAbilities
    {
      abilities := combatAbilities;
    }
  }

  /** isDestroyed() on a ship whose health is non-negative means health is exactly 0. */
  lemma DestroyedMeansNoHealth(ship: GalacticShip)
    requires ship.health >= 0
    ensures ship.IsDestroyed() <==> ship.health == 0
  {
  }
}
