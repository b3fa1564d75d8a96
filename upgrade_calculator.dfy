/**
 * The target enumerator, the plan builder and the plan analytics: which
 * tracks of a hero can still be upgraded, what the cost table charges for
 * taking them to their maximum, and how the targets are grouped and scored.
 */
module UpgradeCalculator {
  import opened Wrappers
  import opened JsStrings
  import opened Types
  import opened CsvData
  import opened HeroDefaults
  import opened CollectionFacts

  datatype Category = RelicCategory | WeaponCategory | ArtifactCategory

  /**
   * One track to upgrade. `path` is the cost-table key; it is None where the
   * source computes `undefined` (an ability past the third slot), which no
   * parsed cost row matches.
   */
  datatype UpgradeTarget = UpgradeTarget(
    category: Category,
    subcategory: string,
    itemId: Option<string>,
    itemName: string,
    currentLevel: int,
    targetLevel: int,
    path: Option<string>)

  datatype UpgradePlan = UpgradePlan(
    targets: seq<UpgradeTarget>,
    totalCosts: seq<UpgradeCost>,
    materialSummary: map<string, int>)

  // ---------------------------------------------------------------------------
  // The target emitted for each kind of track
  // ---------------------------------------------------------------------------

  /** `abilityPaths[index]`: the path is fixed by the slot, not by the ability's name. */
  function AbilityPath(index: nat): Option<string> {
    if index < 3 then Some(["signature 1", "signature 2", "super"][index]) else None
  }

  function AbilityTarget(ability: RelicAbility, index: nat): UpgradeTarget {
    UpgradeTarget(RelicCategory, "ability", None, ability.name, ability.level, MaxLevels.ability, AbilityPath(index))
  }

  function MasteryTarget(level: int): UpgradeTarget {
    UpgradeTarget(RelicCategory, "weapon mastery", None, "Weapon Mastery", level, MaxLevels.weaponMastery, Some("weapon mastery"))
  }

  function TraitTarget(level: int): UpgradeTarget {
    UpgradeTarget(RelicCategory, "relic trait", None, "Relic Trait", level, MaxLevels.relicTrait, Some("relic trait"))
  }

  function GearTarget(weapon: Weapon): UpgradeTarget {
    UpgradeTarget(WeaponCategory, "gear level", Some(weapon.id), weapon.name + " - Gear Level",
                  weapon.gearLevel, MaxLevels.gearLevel, Some("gear level"))
  }

  function EnhancementTarget(weapon: Weapon): UpgradeTarget {
    UpgradeTarget(WeaponCategory, "enhancement", Some(weapon.id), weapon.name + " - Enhancement",
                  weapon.enhancement, MaxLevels.enhancement, Some("enhancement"))
  }

  /** The path of a mod is `mod` and its 1-based position in the weapon's mod list. */
  function ModTarget(weapon: Weapon, mod: WeaponMod, modIndex: nat): UpgradeTarget {
    UpgradeTarget(WeaponCategory, "mod", Some(weapon.id), weapon.name + " - " + mod.name,
                  mod.level, MaxLevels.mod, Some("mod " + NatToString(modIndex + 1)))
  }

  function CatalystTarget(weapon: Weapon, refinement: WeaponRefinement): UpgradeTarget {
    UpgradeTarget(WeaponCategory, "catalyst", Some(weapon.id), weapon.name + " - Catalyst",
                  refinement.catalyst, MaxLevels.catalyst, Some("catalyst"))
  }

  function BoostTarget(weapon: Weapon, refinement: WeaponRefinement): UpgradeTarget {
    UpgradeTarget(WeaponCategory, "boost", Some(weapon.id), weapon.name + " - Boost",
                  refinement.boost, MaxLevels.boost, Some("boost"))
  }

  /** The path of an artifact is `artifact` and its 1-based position in the hero's artifact list. */
  function ArtifactTarget(artifact: Artifact, artifactIndex: nat): UpgradeTarget {
    UpgradeTarget(ArtifactCategory, "level", Some(artifact.id), artifact.name,
                  artifact.level, MaxLevels.artifact, Some("artifact " + NatToString(artifactIndex + 1)))
  }

  // ---------------------------------------------------------------------------
  // What generateMaxUpgradeTargets emits, section by section
  // ---------------------------------------------------------------------------

  /** One target per ability below its maximum, in slot order. */
  function AbilityTargets(abilities: seq<RelicAbility>): (r: seq<UpgradeTarget>)
    ensures |r| <= |abilities|
  {
    if abilities == [] then []
    else
      var n := |abilities| - 1;
      AbilityTargets(abilities[..n])
        + (if abilities[n].level < MaxLevels.ability then [AbilityTarget(abilities[n], n)] else [])
  }

  /** The relic section: abilities, then weapon mastery, then relic trait. */
  function RelicTargets(relic: Relic): (r: seq<UpgradeTarget>)
    ensures |r| <= |relic.abilities| + 2
  {
    AbilityTargets(relic.abilities)
      + (if relic.weaponMastery < MaxLevels.weaponMastery then [MasteryTarget(relic.weaponMastery)] else [])
      + (if relic.relicTrait < MaxLevels.relicTrait then [TraitTarget(relic.relicTrait)] else [])
  }

  /** One target per mod below its maximum, in list order, each keeping its position in the full list. */
  function ModTargets(weapon: Weapon, mods: seq<WeaponMod>): (r: seq<UpgradeTarget>)
    ensures |r| <= |mods|
  {
    if mods == [] then []
    else
      var n := |mods| - 1;
      ModTargets(weapon, mods[..n])
        + (if mods[n].level < MaxLevels.mod then [ModTarget(weapon, mods[n], n)] else [])
  }

  function RefinementTargets(weapon: Weapon, refinement: WeaponRefinement): (r: seq<UpgradeTarget>)
    ensures |r| <= 2
  {
    (if refinement.catalyst < MaxLevels.catalyst then [CatalystTarget(weapon, refinement)] else [])
      + (if refinement.boost < MaxLevels.boost then [BoostTarget(weapon, refinement)] else [])
  }

  /** The targets of one weapon: gear, enhancement, mods (mythic heroes only), catalyst and boost (exotic weapons only). */
  function WeaponTargets(rarity: HeroRarity, weapon: Weapon): (r: seq<UpgradeTarget>)
    ensures |r| <= 4 + (if weapon.mods.Some? then |weapon.mods.value| else 0)
  {
    (if weapon.gearLevel < MaxLevels.gearLevel then [GearTarget(weapon)] else [])
      + (if weapon.enhancement < MaxLevels.enhancement then [EnhancementTarget(weapon)] else [])
      + (if rarity == Mythic && weapon.mods.Some? then ModTargets(weapon, weapon.mods.value) else [])
      + (if weapon.weaponType == Exotic && weapon.refinement.Some? then RefinementTargets(weapon, weapon.refinement.value) else [])
  }

  /** The weapon section: each weapon's targets, in weapon-list order. */
  function WeaponsTargets(rarity: HeroRarity, weapons: seq<Weapon>): seq<UpgradeTarget> {
    if weapons == [] then []
    else
      var n := |weapons| - 1;
      WeaponsTargets(rarity, weapons[..n]) + WeaponTargets(rarity, weapons[n])
  }

  /** One target per artifact below its maximum, in list order, each keeping its position in the full list. */
  function ArtifactTargets(artifacts: seq<Artifact>): (r: seq<UpgradeTarget>)
    ensures |r| <= |artifacts|
  {
    if artifacts == [] then []
    else
      var n := |artifacts| - 1;
      ArtifactTargets(artifacts[..n])
        + (if artifacts[n].level < MaxLevels.artifact then [ArtifactTarget(artifacts[n], n)] else [])
  }

  /** The list generateMaxUpgradeTargets returns: relic, then weapons, then artifacts. */
  function MaxTargets(hero: Hero): (r: seq<UpgradeTarget>)
    ensures forall t :: t in r ==> t.currentLevel < t.targetLevel
  {
    SectionsBelowMax(hero);
    RelicTargets(hero.relic) + WeaponsTargets(hero.rarity, hero.weapons) + ArtifactTargets(hero.artifacts)
  }

  /** The `hero.relic.abilities.forEach` of generateMaxUpgradeTargets: pushes the ability targets onto `targets`. */
  method PushAbilityTargets(targets: seq<UpgradeTarget>, abilities: seq<RelicAbility>) returns (pushed: seq<UpgradeTarget>)
    ensures pushed == targets + AbilityTargets(abilities)
  {
    pushed := targets;
    for index := 0 to |abilities|
      invariant pushed == targets + AbilityTargets(abilities[..index])
    {
      var ability := abilities[index];
      if ability.level < MaxLevels.ability {
        pushed := pushed + [AbilityTarget(ability, index)];
      }
      assert abilities[..index + 1][..index] == abilities[..index];
    }
    assert abilities[..|abilities|] == abilities;
  }

  /** The body of the `hero.weapons.forEach` of generateMaxUpgradeTargets: pushes one weapon's targets onto `targets`. */
  method PushWeaponTargets(targets: seq<UpgradeTarget>, rarity: HeroRarity, weapon: Weapon) returns (pushed: seq<UpgradeTarget>)
    ensures pushed == targets + WeaponTargets(rarity, weapon)
  {
    ghost var gear := if weapon.gearLevel < MaxLevels.gearLevel then [GearTarget(weapon)] else [];
    ghost var enhancement := if weapon.enhancement < MaxLevels.enhancement then [EnhancementTarget(weapon)] else [];
    ghost var mods := if rarity == Mythic && weapon.mods.Some? then ModTargets(weapon, weapon.mods.value) else [];
    ghost var refinements :=
      if weapon.weaponType == Exotic && weapon.refinement.Some? then RefinementTargets(weapon, weapon.refinement.value) else [];
    pushed := targets;
    if weapon.gearLevel < MaxLevels.gearLevel {
      pushed := pushed + [GearTarget(weapon)];
    }
    assert pushed == targets + gear;
    if weapon.enhancement < MaxLevels.enhancement {
      pushed := pushed + [EnhancementTarget(weapon)];
    }
    assert pushed == targets + gear + enhancement;
    if rarity == Mythic && weapon.mods.Some? {
      pushed := PushModTargets(pushed, weapon, weapon.mods.value);
    }
    assert pushed == targets + gear + enhancement + mods;
    if weapon.weaponType == Exotic && weapon.refinement.Some? {
      pushed := PushRefinementTargets(pushed, weapon, weapon.refinement.value);
    }
    assert pushed == targets + gear + enhancement + mods + refinements;
    AppendFour(targets, gear, enhancement, mods, refinements);
  }

  /** The `if (weapon.refinement)` block of generateMaxUpgradeTargets: catalyst, then boost. */
  method PushRefinementTargets(targets: seq<UpgradeTarget>, weapon: Weapon, refinement: WeaponRefinement)
    returns (pushed: seq<UpgradeTarget>)
    ensures pushed == targets + RefinementTargets(weapon, refinement)
  {
    ghost var catalyst := if refinement.catalyst < MaxLevels.catalyst then [CatalystTarget(weapon, refinement)] else [];
    ghost var boost := if refinement.boost < MaxLevels.boost then [BoostTarget(weapon, refinement)] else [];
    pushed := targets;
    if refinement.catalyst < MaxLevels.catalyst {
      pushed := pushed + [CatalystTarget(weapon, refinement)];
    }
    assert pushed == targets + catalyst;
    if refinement.boost < MaxLevels.boost {
      pushed := pushed + [BoostTarget(weapon, refinement)];
    }
    assert pushed == targets + catalyst + boost;
    AppendTwo(targets, catalyst, boost);
  }

  /** The `weapon.mods.forEach` of generateMaxUpgradeTargets: pushes the mod targets onto `targets`. */
  method PushModTargets(targets: seq<UpgradeTarget>, weapon: Weapon, mods: seq<WeaponMod>) returns (pushed: seq<UpgradeTarget>)
    ensures pushed == targets + ModTargets(weapon, mods)
  {
    pushed := targets;
    for modIndex := 0 to |mods|
      invariant pushed == targets + ModTargets(weapon, mods[..modIndex])
    {
      var mod := mods[modIndex];
      if mod.level < MaxLevels.mod {
        pushed := pushed + [ModTarget(weapon, mod, modIndex)];
      }
      assert mods[..modIndex + 1][..modIndex] == mods[..modIndex];
    }
    assert mods[..|mods|] == mods;
  }

  /** The `hero.artifacts.forEach` of generateMaxUpgradeTargets: pushes the artifact targets onto `targets`. */
  method PushArtifactTargets(targets: seq<UpgradeTarget>, artifacts: seq<Artifact>) returns (pushed: seq<UpgradeTarget>)
    ensures pushed == targets + ArtifactTargets(artifacts)
  {
    pushed := targets;
    for artifactIndex := 0 to |artifacts|
      invariant pushed == targets + ArtifactTargets(artifacts[..artifactIndex])
    {
      var artifact := artifacts[artifactIndex];
      if artifact.level < MaxLevels.artifact {
        pushed := pushed + [ArtifactTarget(artifact, artifactIndex)];
      }
      assert artifacts[..artifactIndex + 1][..artifactIndex] == artifacts[..artifactIndex];
    }
    assert artifacts[..|artifacts|] == artifacts;
  }

  /** The relic section of generateMaxUpgradeTargets: abilities, then weapon mastery, then relic trait. */
  method PushRelicTargets(targets: seq<UpgradeTarget>, relic: Relic) returns (pushed: seq<UpgradeTarget>)
    ensures pushed == targets + RelicTargets(relic)
  {
    ghost var mastery := if relic.weaponMastery < MaxLevels.weaponMastery then [MasteryTarget(relic.weaponMastery)] else [];
    ghost var relicTrait := if relic.relicTrait < MaxLevels.relicTrait then [TraitTarget(relic.relicTrait)] else [];
    pushed := PushAbilityTargets(targets, relic.abilities);
    if relic.weaponMastery < MaxLevels.weaponMastery {
      pushed := pushed + [MasteryTarget(relic.weaponMastery)];
    }
    assert pushed == targets + AbilityTargets(relic.abilities) + mastery;
    if relic.relicTrait < MaxLevels.relicTrait {
      pushed := pushed + [TraitTarget(relic.relicTrait)];
    }
    assert pushed == targets + AbilityTargets(relic.abilities) + mastery + relicTrait;
    assert targets + AbilityTargets(relic.abilities) + mastery + relicTrait
        == targets + (AbilityTargets(relic.abilities) + mastery + relicTrait);
  }

  lemma WeaponsTargetsStep(rarity: HeroRarity, weapons: seq<Weapon>, n: nat)
    requires n < |weapons|
    ensures WeaponsTargets(rarity, weapons[..n + 1]) == WeaponsTargets(rarity, weapons[..n]) + WeaponTargets(rarity, weapons[n])
  {
    assert weapons[..n + 1][..n] == weapons[..n];
  }

  /** The `hero.weapons.forEach` of generateMaxUpgradeTargets: pushes every weapon's targets onto `targets`. */
  method PushWeaponsTargets(targets: seq<UpgradeTarget>, rarity: HeroRarity, weapons: seq<Weapon>) returns (pushed: seq<UpgradeTarget>)
    ensures pushed == targets + WeaponsTargets(rarity, weapons)
  {
    pushed := targets;
    for weaponIndex := 0 to |weapons|
      invariant pushed == targets + WeaponsTargets(rarity, weapons[..weaponIndex])
    {
      pushed := PushWeaponTargets(pushed, rarity, weapons[weaponIndex]);
      WeaponsTargetsStep(rarity, weapons, weaponIndex);
      AppendTwo(targets, WeaponsTargets(rarity, weapons[..weaponIndex]), WeaponTargets(rarity, weapons[weaponIndex]));
    }
    assert weapons[..|weapons|] == weapons;
  }

  /** `generateMaxUpgradeTargets(hero)`: walks the hero, pushing one target per track below its maximum. */
  method GenerateMaxUpgradeTargets(hero: Hero) returns (targets: seq<UpgradeTarget>)
    ensures targets == MaxTargets(hero)
  {
    targets := PushRelicTargets([], hero.relic);
    targets := PushWeaponsTargets(targets, hero.rarity, hero.weapons);
    targets := PushArtifactTargets(targets, hero.artifacts);
    assert [] + RelicTargets(hero.relic) == RelicTargets(hero.relic);
  }

  // ---------------------------------------------------------------------------
  // What the enumerator emits, stated target by target
  // ---------------------------------------------------------------------------

  /** The targets one weapon can give rise to, each only while its track is below the maximum. */
  predicate WeaponEmits(rarity: HeroRarity, weapon: Weapon, t: UpgradeTarget) {
    || (weapon.gearLevel < MaxLevels.gearLevel && t == GearTarget(weapon))
    || (weapon.enhancement < MaxLevels.enhancement && t == EnhancementTarget(weapon))
    || (rarity == Mythic && weapon.mods.Some? &&
        exists j :: 0 <= j < |weapon.mods.value| && weapon.mods.value[j].level < MaxLevels.mod
                    && t == ModTarget(weapon, weapon.mods.value[j], j))
    || (weapon.weaponType == Exotic && weapon.refinement.Some? &&
        ((weapon.refinement.value.catalyst < MaxLevels.catalyst && t == CatalystTarget(weapon, weapon.refinement.value))
         || (weapon.refinement.value.boost < MaxLevels.boost && t == BoostTarget(weapon, weapon.refinement.value))))
  }

  /**
   * The reference definition of the enumerator, one case per track: `t` is
   * the target of some track of `hero` that is below its maximum.
   */
  predicate EmittedFor(hero: Hero, t: UpgradeTarget) {
    || (exists k :: 0 <= k < |hero.relic.abilities| && hero.relic.abilities[k].level < MaxLevels.ability
                    && t == AbilityTarget(hero.relic.abilities[k], k))
    || (hero.relic.weaponMastery < MaxLevels.weaponMastery && t == MasteryTarget(hero.relic.weaponMastery))
    || (hero.relic.relicTrait < MaxLevels.relicTrait && t == TraitTarget(hero.relic.relicTrait))
    || (exists k :: 0 <= k < |hero.weapons| && WeaponEmits(hero.rarity, hero.weapons[k], t))
    || (exists k :: 0 <= k < |hero.artifacts| && hero.artifacts[k].level < MaxLevels.artifact
                    && t == ArtifactTarget(hero.artifacts[k], k))
  }

  lemma {:induction false} AbilityTargetsExactly(abilities: seq<RelicAbility>, t: UpgradeTarget)
    ensures t in AbilityTargets(abilities) <==>
              exists k :: 0 <= k < |abilities| && abilities[k].level < MaxLevels.ability && t == AbilityTarget(abilities[k], k)
  {
    if abilities != [] {
      var n := |abilities| - 1;
      var prefix := abilities[..n];
      var last := if abilities[n].level < MaxLevels.ability then [AbilityTarget(abilities[n], n)] else [];
      assert AbilityTargets(abilities) == AbilityTargets(prefix) + last;
      AbilityTargetsExactly(prefix, t);
      if t in AbilityTargets(prefix) {
        var k :| 0 <= k < n && prefix[k].level < MaxLevels.ability && t == AbilityTarget(prefix[k], k);
        assert abilities[k] == prefix[k];
      } else if t in last {
        assert abilities[n].level < MaxLevels.ability && t == AbilityTarget(abilities[n], n);
      }
      if exists k :: 0 <= k < |abilities| && abilities[k].level < MaxLevels.ability && t == AbilityTarget(abilities[k], k) {
        var k :| 0 <= k < |abilities| && abilities[k].level < MaxLevels.ability && t == AbilityTarget(abilities[k], k);
        if k < n {
          assert prefix[k] == abilities[k];
        } else {
          assert k == n;
          assert last == [t];
        }
      }
    }
  }

  lemma {:induction false} ModTargetsExactly(weapon: Weapon, mods: seq<WeaponMod>, t: UpgradeTarget)
    ensures t in ModTargets(weapon, mods) <==>
              exists j :: 0 <= j < |mods| && mods[j].level < MaxLevels.mod && t == ModTarget(weapon, mods[j], j)
  {
    if mods != [] {
      var n := |mods| - 1;
      var prefix := mods[..n];
      var last := if mods[n].level < MaxLevels.mod then [ModTarget(weapon, mods[n], n)] else [];
      assert ModTargets(weapon, mods) == ModTargets(weapon, prefix) + last;
      ModTargetsExactly(weapon, prefix, t);
      if t in ModTargets(weapon, prefix) {
        var j :| 0 <= j < n && prefix[j].level < MaxLevels.mod && t == ModTarget(weapon, prefix[j], j);
        assert mods[j] == prefix[j];
      } else if t in last {
        assert mods[n].level < MaxLevels.mod && t == ModTarget(weapon, mods[n], n);
      }
      if exists j :: 0 <= j < |mods| && mods[j].level < MaxLevels.mod && t == ModTarget(weapon, mods[j], j) {
        var j :| 0 <= j < |mods| && mods[j].level < MaxLevels.mod && t == ModTarget(weapon, mods[j], j);
        if j < n {
          assert prefix[j] == mods[j];
        } else {
          assert j == n;
          assert last == [t];
        }
      }
    }
  }

  lemma {:induction false} ArtifactTargetsExactly(artifacts: seq<Artifact>, t: UpgradeTarget)
    ensures t in ArtifactTargets(artifacts) <==>
              exists k :: 0 <= k < |artifacts| && artifacts[k].level < MaxLevels.artifact && t == ArtifactTarget(artifacts[k], k)
  {
    if artifacts != [] {
      var n := |artifacts| - 1;
      var prefix := artifacts[..n];
      var last := if artifacts[n].level < MaxLevels.artifact then [ArtifactTarget(artifacts[n], n)] else [];
      assert ArtifactTargets(artifacts) == ArtifactTargets(prefix) + last;
      ArtifactTargetsExactly(prefix, t);
      if t in ArtifactTargets(prefix) {
        var k :| 0 <= k < n && prefix[k].level < MaxLevels.artifact && t == ArtifactTarget(prefix[k], k);
        assert artifacts[k] == prefix[k];
      } else if t in last {
        assert artifacts[n].level < MaxLevels.artifact && t == ArtifactTarget(artifacts[n], n);
      }
      if exists k :: 0 <= k < |artifacts| && artifacts[k].level < MaxLevels.artifact && t == ArtifactTarget(artifacts[k], k) {
        var k :| 0 <= k < |artifacts| && artifacts[k].level < MaxLevels.artifact && t == ArtifactTarget(artifacts[k], k);
        if k < n {
          assert prefix[k] == artifacts[k];
        } else {
          assert k == n;
          assert last == [t];
        }
      }
    }
  }

  lemma WeaponTargetsExactly(rarity: HeroRarity, weapon: Weapon, t: UpgradeTarget)
    ensures t in WeaponTargets(rarity, weapon) <==> WeaponEmits(rarity, weapon, t)
  {
    var gear := if weapon.gearLevel < MaxLevels.gearLevel then [GearTarget(weapon)] else [];
    var enhancement := if weapon.enhancement < MaxLevels.enhancement then [EnhancementTarget(weapon)] else [];
    var mods := if rarity == Mythic && weapon.mods.Some? then ModTargets(weapon, weapon.mods.value) else [];
    var refinements := if weapon.weaponType == Exotic && weapon.refinement.Some? then RefinementTargets(weapon, weapon.refinement.value) else [];
    assert WeaponTargets(rarity, weapon) == gear + enhancement + mods + refinements;
    assert t in WeaponTargets(rarity, weapon) <==> t in gear || t in enhancement || t in mods || t in refinements;
    if rarity == Mythic && weapon.mods.Some? {
      ModTargetsExactly(weapon, weapon.mods.value, t);
    }
  }

  lemma {:induction false} WeaponsTargetsExactly(rarity: HeroRarity, weapons: seq<Weapon>, t: UpgradeTarget)
    ensures t in WeaponsTargets(rarity, weapons) <==> exists k :: 0 <= k < |weapons| && WeaponEmits(rarity, weapons[k], t)
  {
    if weapons != [] {
      var n := |weapons| - 1;
      var prefix := weapons[..n];
      assert WeaponsTargets(rarity, weapons) == WeaponsTargets(rarity, prefix) + WeaponTargets(rarity, weapons[n]);
      WeaponsTargetsExactly(rarity, prefix, t);
      WeaponTargetsExactly(rarity, weapons[n], t);
      if t in WeaponsTargets(rarity, prefix) {
        var k :| 0 <= k < n && WeaponEmits(rarity, prefix[k], t);
        assert weapons[k] == prefix[k];
      } else if t in WeaponTargets(rarity, weapons[n]) {
        assert WeaponEmits(rarity, weapons[n], t);
      }
      if exists k :: 0 <= k < |weapons| && WeaponEmits(rarity, weapons[k], t) {
        var k :| 0 <= k < |weapons| && WeaponEmits(rarity, weapons[k], t);
        if k < n {
          assert prefix[k] == weapons[k];
        } else {
          assert k == n;
        }
      }
    }
  }

  /** A target is emitted exactly when it is the target of a track of the hero below its maximum. */
  lemma MaxTargetsExactly(hero: Hero, t: UpgradeTarget)
    ensures t in MaxTargets(hero) <==> EmittedFor(hero, t)
  {
    AbilityTargetsExactly(hero.relic.abilities, t);
    WeaponsTargetsExactly(hero.rarity, hero.weapons, t);
    ArtifactTargetsExactly(hero.artifacts, t);
  }

  /** The `MAX_LEVELS` entry of the track a subcategory names; artifacts use the subcategory `level`. */
  function TrackMax(subcategory: string): Option<int> {
    if subcategory == "ability" then Some(MaxLevels.ability)
    else if subcategory == "weapon mastery" then Some(MaxLevels.weaponMastery)
    else if subcategory == "relic trait" then Some(MaxLevels.relicTrait)
    else if subcategory == "gear level" then Some(MaxLevels.gearLevel)
    else if subcategory == "enhancement" then Some(MaxLevels.enhancement)
    else if subcategory == "mod" then Some(MaxLevels.mod)
    else if subcategory == "catalyst" then Some(MaxLevels.catalyst)
    else if subcategory == "boost" then Some(MaxLevels.boost)
    else if subcategory == "level" then Some(MaxLevels.artifact)
    else None
  }

  /** No section emits a target that is already at its level. */
  lemma SectionsBelowMax(hero: Hero)
    ensures forall t :: t in RelicTargets(hero.relic) + WeaponsTargets(hero.rarity, hero.weapons) + ArtifactTargets(hero.artifacts)
                        ==> t.currentLevel < t.targetLevel
  {
    forall t | t in RelicTargets(hero.relic) + WeaponsTargets(hero.rarity, hero.weapons) + ArtifactTargets(hero.artifacts)
      ensures t.currentLevel < t.targetLevel
    {
      AbilityTargetsExactly(hero.relic.abilities, t);
      WeaponsTargetsExactly(hero.rarity, hero.weapons, t);
      ArtifactTargetsExactly(hero.artifacts, t);
      EmittedBelowMax(hero, t);
    }
  }

  /** Every emitted target aims at its track's maximum and starts strictly below it, so none is empty. */
  lemma MaxTargetsBelowMax(hero: Hero)
    ensures forall t :: t in MaxTargets(hero) ==>
              t.currentLevel < t.targetLevel && TrackMax(t.subcategory) == Some(t.targetLevel)
  {
    forall t | t in MaxTargets(hero)
      ensures t.currentLevel < t.targetLevel && TrackMax(t.subcategory) == Some(t.targetLevel)
    {
      MaxTargetsExactly(hero, t);
      EmittedBelowMax(hero, t);
    }
  }

  lemma EmittedBelowMax(hero: Hero, t: UpgradeTarget)
    requires EmittedFor(hero, t)
    ensures t.currentLevel < t.targetLevel && TrackMax(t.subcategory) == Some(t.targetLevel)
  {
    if k :| 0 <= k < |hero.weapons| && WeaponEmits(hero.rarity, hero.weapons[k], t) {
      var weapon := hero.weapons[k];
      if j :| weapon.mods.Some? && 0 <= j < |weapon.mods.value| && weapon.mods.value[j].level < MaxLevels.mod
              && t == ModTarget(weapon, weapon.mods.value[j], j) {
        assert TrackMax("mod") == Some(MaxLevels.mod);
      }
    }
  }

  /** Mod targets exist exactly for the mods below the maximum of weapons of a mythic hero that have a mod list. */
  lemma ModTargetsGated(hero: Hero, t: UpgradeTarget)
    ensures t in MaxTargets(hero) && t.subcategory == "mod" <==>
              && hero.rarity == Mythic
              && exists k, j :: 0 <= k < |hero.weapons| && hero.weapons[k].mods.Some?
                                && 0 <= j < |hero.weapons[k].mods.value| && hero.weapons[k].mods.value[j].level < MaxLevels.mod
                                && t == ModTarget(hero.weapons[k], hero.weapons[k].mods.value[j], j)
  {
    MaxTargetsExactly(hero, t);
  }

  /** Catalyst targets exist exactly for exotic weapons that have a refinement whose catalyst is below the maximum. */
  lemma CatalystTargetsGated(hero: Hero, t: UpgradeTarget)
    ensures t in MaxTargets(hero) && t.subcategory == "catalyst" <==>
              exists k :: 0 <= k < |hero.weapons| && hero.weapons[k].weaponType == Exotic && hero.weapons[k].refinement.Some?
                          && hero.weapons[k].refinement.value.catalyst < MaxLevels.catalyst
                          && t == CatalystTarget(hero.weapons[k], hero.weapons[k].refinement.value)
  {
    MaxTargetsExactly(hero, t);
  }

  /** Boost targets exist exactly for exotic weapons that have a refinement whose boost is below the maximum. */
  lemma BoostTargetsGated(hero: Hero, t: UpgradeTarget)
    ensures t in MaxTargets(hero) && t.subcategory == "boost" <==>
              exists k :: 0 <= k < |hero.weapons| && hero.weapons[k].weaponType == Exotic && hero.weapons[k].refinement.Some?
                          && hero.weapons[k].refinement.value.boost < MaxLevels.boost
                          && t == BoostTarget(hero.weapons[k], hero.weapons[k].refinement.value)
  {
    MaxTargetsExactly(hero, t);
  }

  /** Relic targets carry no item id; weapon and artifact targets carry the id of the item they upgrade. */
  lemma MaxTargetsItemIds(hero: Hero)
    ensures forall t :: t in MaxTargets(hero) ==> (t.category == RelicCategory <==> t.itemId == None)
    ensures forall t :: t in MaxTargets(hero) && t.category == WeaponCategory ==>
              exists k :: 0 <= k < |hero.weapons| && t.itemId == Some(hero.weapons[k].id)
    ensures forall t :: t in MaxTargets(hero) && t.category == ArtifactCategory ==>
              exists k :: 0 <= k < |hero.artifacts| && t.itemId == Some(hero.artifacts[k].id)
  {
    forall t | t in MaxTargets(hero)
      ensures t.category == RelicCategory <==> t.itemId == None
      ensures t.category == WeaponCategory ==> exists k :: 0 <= k < |hero.weapons| && t.itemId == Some(hero.weapons[k].id)
      ensures t.category == ArtifactCategory ==> exists k :: 0 <= k < |hero.artifacts| && t.itemId == Some(hero.artifacts[k].id)
    {
      MaxTargetsExactly(hero, t);
      EmittedItemId(hero, t);
    }
  }

  lemma EmittedItemId(hero: Hero, t: UpgradeTarget)
    requires EmittedFor(hero, t)
    ensures t.category == RelicCategory <==> t.itemId == None
    ensures t.category == WeaponCategory ==> exists k :: 0 <= k < |hero.weapons| && t.itemId == Some(hero.weapons[k].id)
    ensures t.category == ArtifactCategory ==> exists k :: 0 <= k < |hero.artifacts| && t.itemId == Some(hero.artifacts[k].id)
  {
    if k :| 0 <= k < |hero.weapons| && WeaponEmits(hero.rarity, hero.weapons[k], t) {
      var weapon := hero.weapons[k];
      assert t.category == WeaponCategory && t.itemId == Some(weapon.id);
    } else if k :| 0 <= k < |hero.artifacts| && hero.artifacts[k].level < MaxLevels.artifact
                    && t == ArtifactTarget(hero.artifacts[k], k) {
      assert t.category == ArtifactCategory && t.itemId == Some(hero.artifacts[k].id);
    } else {
      assert t.category == RelicCategory && t.itemId == None;
    }
  }

  lemma SmallNumerals()
    ensures NatToString(1) == "1" && NatToString(2) == "2" && NatToString(3) == "3" && NatToString(4) == "4"
  {
    assert NatToString(1) == [DigitChar(1)];
    assert NatToString(2) == [DigitChar(2)];
    assert NatToString(3) == [DigitChar(3)];
    assert NatToString(4) == [DigitChar(4)];
  }

  lemma AbilityPathIsKey(index: nat)
    requires index < 3
    ensures AbilityPath(index).Some? && AbilityPath(index).value in UpgradePaths
  {
  }

  lemma ModPathIsKey(modIndex: nat)
    requires modIndex < 3
    ensures "mod " + NatToString(modIndex + 1) in UpgradePaths
  {
    SmallNumerals();
    if modIndex == 0 {
      assert "mod " + "1" == "mod 1";
    } else if modIndex == 1 {
      assert "mod " + "2" == "mod 2";
    } else {
      assert "mod " + "3" == "mod 3";
    }
  }

  lemma ArtifactPathIsKey(artifactIndex: nat)
    requires artifactIndex < 4
    ensures "artifact " + NatToString(artifactIndex + 1) in UpgradePaths
  {
    SmallNumerals();
    if artifactIndex == 0 {
      assert "artifact " + "1" == "artifact 1";
    } else if artifactIndex == 1 {
      assert "artifact " + "2" == "artifact 2";
    } else if artifactIndex == 2 {
      assert "artifact " + "3" == "artifact 3";
    } else {
      assert "artifact " + "4" == "artifact 4";
    }
  }

  /** For a hero within the application's bounds, every target's path is one of the sixteen cost-table keys. */
  lemma MaxTargetsPathsAreKeys(hero: Hero)
    requires WithinLimits(hero)
    ensures forall t :: t in MaxTargets(hero) ==> t.path.Some? && t.path.value in UpgradePaths
  {
    forall t | t in MaxTargets(hero)
      ensures t.path.Some? && t.path.value in UpgradePaths
    {
      MaxTargetsExactly(hero, t);
      EmittedPathIsKey(hero, t);
    }
  }

  /** The path of a target emitted for a hero within bounds is a cost-table key. */
  lemma EmittedPathIsKey(hero: Hero, t: UpgradeTarget)
    requires WithinLimits(hero) && EmittedFor(hero, t)
    ensures t.path.Some? && t.path.value in UpgradePaths
  {
    if k :| 0 <= k < |hero.relic.abilities| && t == AbilityTarget(hero.relic.abilities[k], k) {
      AbilityPathIsKey(k);
    } else if k :| 0 <= k < |hero.weapons| && WeaponEmits(hero.rarity, hero.weapons[k], t) {
      var weapon := hero.weapons[k];
      assert WeaponWithinLimits(weapon);
      if j :| weapon.mods.Some? && 0 <= j < |weapon.mods.value| && t == ModTarget(weapon, weapon.mods.value[j], j) {
        ModPathIsKey(j);
      }
    } else if k :| 0 <= k < |hero.artifacts| && t == ArtifactTarget(hero.artifacts[k], k) {
      ArtifactPathIsKey(k);
    }
  }

  /** The section a target belongs to in emission order: abilities, mastery, trait, weapons, artifacts. */
  function Rank(t: UpgradeTarget): nat {
    match t.category
    case RelicCategory =>
      if t.subcategory == "ability" then 0 else if t.subcategory == "weapon mastery" then 1 else 2
    case WeaponCategory => 3
    case ArtifactCategory => 4
  }

  predicate InEmissionOrder(targets: seq<UpgradeTarget>) {
    forall i, j :: 0 <= i < j < |targets| ==> Rank(targets[i]) <= Rank(targets[j])
  }

  lemma ConstantRankInOrder(targets: seq<UpgradeTarget>, rank: nat)
    requires forall t :: t in targets ==> Rank(t) == rank
    ensures InEmissionOrder(targets)
  {
    forall i, j | 0 <= i < j < |targets| ensures Rank(targets[i]) <= Rank(targets[j]) {
      assert targets[i] in targets && targets[j] in targets;
    }
  }

  lemma InOrderConcat(a: seq<UpgradeTarget>, b: seq<UpgradeTarget>, rank: nat)
    requires InEmissionOrder(a) && InEmissionOrder(b)
    requires forall t :: t in a ==> Rank(t) <= rank
    requires forall t :: t in b ==> rank <= Rank(t)
    ensures InEmissionOrder(a + b)
  {
    var s := a + b;
    forall i, j | 0 <= i < j < |s| ensures Rank(s[i]) <= Rank(s[j]) {
      if j < |a| {
        assert s[i] == a[i] && s[j] == a[j];
      } else if |a| <= i {
        assert s[i] == b[i - |a|] && s[j] == b[j - |a|];
      } else {
        assert s[i] == a[i] && a[i] in a;
        assert s[j] == b[j - |a|] && b[j - |a|] in b;
      }
    }
  }

  /**
   * The emission order: every ability target precedes weapon mastery, which
   * precedes relic trait, which precedes every weapon target, which precedes
   * every artifact target.
   */
  lemma MaxTargetsInOrder(hero: Hero)
    ensures InEmissionOrder(MaxTargets(hero))
  {
    var abilities := AbilityTargets(hero.relic.abilities);
    var mastery := if hero.relic.weaponMastery < MaxLevels.weaponMastery then [MasteryTarget(hero.relic.weaponMastery)] else [];
    var relicTrait := if hero.relic.relicTrait < MaxLevels.relicTrait then [TraitTarget(hero.relic.relicTrait)] else [];
    var weapons := WeaponsTargets(hero.rarity, hero.weapons);
    var artifacts := ArtifactTargets(hero.artifacts);
    forall t | t in abilities ensures Rank(t) == 0 {
      AbilityTargetsExactly(hero.relic.abilities, t);
    }
    forall t | t in weapons ensures Rank(t) == 3 {
      WeaponsTargetsExactly(hero.rarity, hero.weapons, t);
    }
    forall t | t in artifacts ensures Rank(t) == 4 {
      ArtifactTargetsExactly(hero.artifacts, t);
    }
    ConstantRankInOrder(abilities, 0);
    ConstantRankInOrder(mastery, 1);
    ConstantRankInOrder(relicTrait, 2);
    ConstantRankInOrder(weapons, 3);
    ConstantRankInOrder(artifacts, 4);
    InOrderConcat(abilities, mastery, 0);
    InOrderConcat(abilities + mastery, relicTrait, 1);
    InOrderConcat(abilities + mastery + relicTrait, weapons, 2);
    InOrderConcat(abilities + mastery + relicTrait + weapons, artifacts, 3);
  }

  /** A weapon has nothing left to upgrade (mods and refinement count only where they are offered). */
  predicate WeaponAtMax(rarity: HeroRarity, weapon: Weapon) {
    && weapon.gearLevel >= MaxLevels.gearLevel
    && weapon.enhancement >= MaxLevels.enhancement
    && (rarity == Mythic && weapon.mods.Some? ==> forall m :: m in weapon.mods.value ==> m.level >= MaxLevels.mod)
    && (weapon.weaponType == Exotic && weapon.refinement.Some? ==>
          weapon.refinement.value.catalyst >= MaxLevels.catalyst && weapon.refinement.value.boost >= MaxLevels.boost)
  }

  /** The hero has nothing left to upgrade. */
  predicate AllAtMax(hero: Hero) {
    && (forall a :: a in hero.relic.abilities ==> a.level >= MaxLevels.ability)
    && hero.relic.weaponMastery >= MaxLevels.weaponMastery
    && hero.relic.relicTrait >= MaxLevels.relicTrait
    && (forall w :: w in hero.weapons ==> WeaponAtMax(hero.rarity, w))
    && (forall a :: a in hero.artifacts ==> a.level >= MaxLevels.artifact)
  }

  /** The enumerator emits nothing exactly when every track the hero offers is at its maximum. */
  lemma MaxTargetsEmptyIffAtMax(hero: Hero)
    ensures MaxTargets(hero) == [] <==> AllAtMax(hero)
  {
    forall t | t in MaxTargets(hero) ensures !AllAtMax(hero) {
      MaxTargetsExactly(hero, t);
      if k :| 0 <= k < |hero.weapons| && WeaponEmits(hero.rarity, hero.weapons[k], t) {
        var weapon := hero.weapons[k];
        assert weapon in hero.weapons;
        if j :| weapon.mods.Some? && 0 <= j < |weapon.mods.value| && weapon.mods.value[j].level < MaxLevels.mod {
          assert weapon.mods.value[j] in weapon.mods.value;
        }
      } else if k :| 0 <= k < |hero.relic.abilities| && hero.relic.abilities[k].level < MaxLevels.ability {
        assert hero.relic.abilities[k] in hero.relic.abilities;
      } else if k :| 0 <= k < |hero.artifacts| && hero.artifacts[k].level < MaxLevels.artifact {
        assert hero.artifacts[k] in hero.artifacts;
      }
    }
    if MaxTargets(hero) != [] {
      assert MaxTargets(hero)[0] in MaxTargets(hero);
    }
    if !AllAtMax(hero) {
      var t := SomeTargetOf(hero);
      MaxTargetsExactly(hero, t);
    }
  }

  /** A target of some track that is below its maximum, for a hero not yet at its maximum. */
  ghost function SomeTargetOf(hero: Hero): (t: UpgradeTarget)
    requires !AllAtMax(hero)
    ensures EmittedFor(hero, t)
  {
    if exists k :: 0 <= k < |hero.relic.abilities| && hero.relic.abilities[k].level < MaxLevels.ability then
      var k :| 0 <= k < |hero.relic.abilities| && hero.relic.abilities[k].level < MaxLevels.ability;
      AbilityTarget(hero.relic.abilities[k], k)
    else if hero.relic.weaponMastery < MaxLevels.weaponMastery then
      MasteryTarget(hero.relic.weaponMastery)
    else if hero.relic.relicTrait < MaxLevels.relicTrait then
      TraitTarget(hero.relic.relicTrait)
    else if exists k :: 0 <= k < |hero.weapons| && !WeaponAtMax(hero.rarity, hero.weapons[k]) then
      var k :| 0 <= k < |hero.weapons| && !WeaponAtMax(hero.rarity, hero.weapons[k]);
      SomeWeaponTarget(hero.rarity, hero.weapons[k])
    else
      assert exists a :: a in hero.artifacts && a.level < MaxLevels.artifact;
      var k :| 0 <= k < |hero.artifacts| && hero.artifacts[k].level < MaxLevels.artifact;
      ArtifactTarget(hero.artifacts[k], k)
  }

  ghost function SomeWeaponTarget(rarity: HeroRarity, weapon: Weapon): (t: UpgradeTarget)
    requires !WeaponAtMax(rarity, weapon)
    ensures WeaponEmits(rarity, weapon, t)
  {
    if weapon.gearLevel < MaxLevels.gearLevel then GearTarget(weapon)
    else if weapon.enhancement < MaxLevels.enhancement then EnhancementTarget(weapon)
    else if rarity == Mythic && weapon.mods.Some? && exists j :: 0 <= j < |weapon.mods.value| && weapon.mods.value[j].level < MaxLevels.mod then
      var j :| 0 <= j < |weapon.mods.value| && weapon.mods.value[j].level < MaxLevels.mod;
      ModTarget(weapon, weapon.mods.value[j], j)
    else if weapon.refinement.value.catalyst < MaxLevels.catalyst then CatalystTarget(weapon, weapon.refinement.value)
    else BoostTarget(weapon, weapon.refinement.value)
  }

  function PathsOf(targets: seq<UpgradeTarget>): seq<Option<string>> {
    seq(|targets|, i requires 0 <= i < |targets| => targets[i].path)
  }

  /**
   * A freshly created hero of either rarity has nine targets: its three
   * abilities, weapon mastery, relic trait, then gear level and enhancement
   * of each of its two weapons.
   */
  lemma NewHeroTargets(name: string, rarity: HeroRarity, now: nat)
    ensures var hero := CreateNewHero(name, rarity, now);
            && |MaxTargets(hero)| == 9
            && PathsOf(MaxTargets(hero)) == [
                 Some("signature 1"), Some("signature 2"), Some("super"), Some("weapon mastery"), Some("relic trait"),
                 Some("gear level"), Some("enhancement"), Some("gear level"), Some("enhancement")]
  {
    var hero := CreateNewHero(name, rarity, now);
    var abilities := hero.relic.abilities;
    assert AbilityTargets(abilities[..0]) == [];
    assert abilities[..1][..0] == abilities[..0];
    assert abilities[..2][..1] == abilities[..1];
    assert abilities[..3][..2] == abilities[..2];
    assert abilities[..3] == abilities;
    assert AbilityTargets(abilities) == [AbilityTarget(abilities[0], 0), AbilityTarget(abilities[1], 1), AbilityTarget(abilities[2], 2)];
    var weapons := hero.weapons;
    assert weapons[..1][..0] == [];
    assert weapons[..2][..1] == weapons[..1];
    assert weapons[..2] == weapons;
    assert WeaponsTargets(rarity, weapons)
        == [GearTarget(weapons[0]), EnhancementTarget(weapons[0]), GearTarget(weapons[1]), EnhancementTarget(weapons[1])];
  }

  // ---------------------------------------------------------------------------
  // Plan builder
  // ---------------------------------------------------------------------------

  /**
   * The rows one target's lookup returns: getUpgradeCostsToLevel on the
   * target's path and levels. An undefined path equals no row's path.
   */
  function TargetCosts(target: UpgradeTarget, upgradeCosts: seq<UpgradeCost>): (r: seq<UpgradeCost>)
    ensures target.path.None? ==> r == []
    ensures forall c :: c in r ==> c in upgradeCosts && target.path == Some(c.path)
                                   && target.currentLevel < c.level <= target.targetLevel
  {
    match target.path
    case None => []
    case Some(path) => GetUpgradeCostsToLevel(upgradeCosts, path, target.currentLevel, target.targetLevel)
  }

  /**
   * The `totalCosts` of calculateUpgradePlan: each target's rows, in target
   * order. `failed` holds the positions whose lookup threw (the cost table
   * could not be loaded); they contribute no row.
   */
  function PlanCosts(targets: seq<UpgradeTarget>, upgradeCosts: seq<UpgradeCost>, failed: set<nat>): (r: seq<UpgradeCost>)
    ensures forall c :: c in r ==> c in upgradeCosts
  {
    if targets == [] then []
    else
      var n := |targets| - 1;
      PlanCosts(targets[..n], upgradeCosts, failed) + (if n in failed then [] else TargetCosts(targets[n], upgradeCosts))
  }

  /** `calculateUpgradePlan(targets)`: concatenates the lookups, skipping the ones that fail, then totals the rows. */
  method CalculateUpgradePlan(targets: seq<UpgradeTarget>, upgradeCosts: seq<UpgradeCost>, failed: set<nat>)
    returns (plan: UpgradePlan)
    ensures plan.targets == targets
    ensures plan.totalCosts == PlanCosts(targets, upgradeCosts, failed)
    ensures plan.materialSummary == MaterialTotals(plan.totalCosts)
    ensures targets == [] ==> plan.totalCosts == [] && plan.materialSummary == map[]
  {
    var allCosts: seq<UpgradeCost> := [];
    for i := 0 to |targets|
      invariant allCosts == PlanCosts(targets[..i], upgradeCosts, failed)
    {
      if i !in failed {
        var costs := TargetCosts(targets[i], upgradeCosts);
        allCosts := allCosts + costs;
      }
      assert targets[..i + 1][..i] == targets[..i];
    }
    assert targets[..|targets|] == targets;
    var materialSummary := CalculateTotalMaterials(allCosts);
    plan := UpgradePlan(targets, allCosts, materialSummary);
  }

  /** `calculateMaxUpgradePlan(hero)`: the plan of the hero's maximum targets. */
  method CalculateMaxUpgradePlan(hero: Hero, upgradeCosts: seq<UpgradeCost>, failed: set<nat>) returns (plan: UpgradePlan)
    ensures plan.targets == MaxTargets(hero)
    ensures plan.totalCosts == PlanCosts(MaxTargets(hero), upgradeCosts, failed)
    ensures plan.materialSummary == MaterialTotals(plan.totalCosts)
  {
    var targets := GenerateMaxUpgradeTargets(hero);
    plan := CalculateUpgradePlan(targets, upgradeCosts, failed);
  }

  /**
   * A row is in the plan exactly when it is a table row selected by the
   * range lookup of some target whose lookup did not fail.
   */
  lemma {:induction false} PlanCostsExactly(targets: seq<UpgradeTarget>, upgradeCosts: seq<UpgradeCost>, failed: set<nat>, c: UpgradeCost)
    ensures c in PlanCosts(targets, upgradeCosts, failed) <==>
              exists i :: 0 <= i < |targets| && i !in failed && targets[i].path.Some? && c in upgradeCosts
                          && InLevelRange(c, targets[i].path.value, targets[i].currentLevel, targets[i].targetLevel)
  {
    if targets != [] {
      var n := |targets| - 1;
      var prefix := targets[..n];
      PlanCostsExactly(prefix, upgradeCosts, failed, c);
      if c in PlanCosts(prefix, upgradeCosts, failed) {
        var i :| 0 <= i < n && i !in failed && prefix[i].path.Some? && c in upgradeCosts
                 && InLevelRange(c, prefix[i].path.value, prefix[i].currentLevel, prefix[i].targetLevel);
        assert targets[i] == prefix[i];
      }
      if exists i :: 0 <= i < |targets| && i !in failed && targets[i].path.Some? && c in upgradeCosts
                     && InLevelRange(c, targets[i].path.value, targets[i].currentLevel, targets[i].targetLevel) {
        var i :| 0 <= i < |targets| && i !in failed && targets[i].path.Some? && c in upgradeCosts
                 && InLevelRange(c, targets[i].path.value, targets[i].currentLevel, targets[i].targetLevel);
        if i < n {
          assert prefix[i] == targets[i];
        } else {
          assert i == n;
        }
      }
    }
  }

  /**
   * Each target adds its own totals to the summary, and a target whose
   * lookup fails leaves the summary as it was.
   */
  lemma PlanSummaryStep(targets: seq<UpgradeTarget>, upgradeCosts: seq<UpgradeCost>, failed: set<nat>, n: nat)
    requires n < |targets|
    ensures n in failed ==>
              MaterialTotals(PlanCosts(targets[..n + 1], upgradeCosts, failed)) == MaterialTotals(PlanCosts(targets[..n], upgradeCosts, failed))
    ensures n !in failed ==>
              MaterialTotals(PlanCosts(targets[..n + 1], upgradeCosts, failed))
              == MergeTotals(MaterialTotals(PlanCosts(targets[..n], upgradeCosts, failed)), MaterialTotals(TargetCosts(targets[n], upgradeCosts)))
  {
    assert targets[..n + 1][..n] == targets[..n];
    var before := PlanCosts(targets[..n], upgradeCosts, failed);
    if n in failed {
      assert before + [] == before;
    } else {
      MaterialTotalsConcat(before, TargetCosts(targets[n], upgradeCosts));
    }
  }

  /** When every lookup fails the plan has no row and an empty summary; the loop still visits every target. */
  lemma {:induction false} PlanAllFailed(targets: seq<UpgradeTarget>, upgradeCosts: seq<UpgradeCost>, failed: set<nat>)
    requires forall i :: 0 <= i < |targets| ==> i in failed
    ensures PlanCosts(targets, upgradeCosts, failed) == []
    ensures MaterialTotals(PlanCosts(targets, upgradeCosts, failed)) == map[]
  {
    if targets != [] {
      PlanAllFailed(targets[..|targets| - 1], upgradeCosts, failed);
    }
    MaterialTotalsEmpty();
  }

  /**
   * Every row of a hero's maximum plan belongs to one of the hero's tracks
   * and lies strictly above the track's current level and at most at its
   * maximum.
   */
  lemma MaxPlanRowsInRange(hero: Hero, upgradeCosts: seq<UpgradeCost>, failed: set<nat>, c: UpgradeCost)
    requires c in PlanCosts(MaxTargets(hero), upgradeCosts, failed)
    ensures c in upgradeCosts
    ensures exists t :: t in MaxTargets(hero) && EmittedFor(hero, t) && t.path == Some(c.path)
                        && t.currentLevel < c.level <= t.targetLevel && TrackMax(t.subcategory) == Some(t.targetLevel)
  {
    var targets := MaxTargets(hero);
    PlanCostsExactly(targets, upgradeCosts, failed, c);
    var i :| 0 <= i < |targets| && i !in failed && targets[i].path.Some? && c in upgradeCosts
             && InLevelRange(c, targets[i].path.value, targets[i].currentLevel, targets[i].targetLevel);
    var t := targets[i];
    MaxTargetsExactly(hero, t);
    MaxTargetsBelowMax(hero);
    assert t in targets;
  }

  /** A hero with every track at its maximum gets a plan with no row and an empty summary. */
  lemma MaxPlanOfMaxedHero(hero: Hero, upgradeCosts: seq<UpgradeCost>, failed: set<nat>)
    requires AllAtMax(hero)
    ensures PlanCosts(MaxTargets(hero), upgradeCosts, failed) == []
    ensures MaterialTotals(PlanCosts(MaxTargets(hero), upgradeCosts, failed)) == map[]
  {
    MaxTargetsEmptyIffAtMax(hero);
    MaterialTotalsEmpty();
  }

  // ---------------------------------------------------------------------------
  // Grouping
  // ---------------------------------------------------------------------------

  /** The targets of one category, in their original order. */
  function TargetsIn(targets: seq<UpgradeTarget>, category: Category): seq<UpgradeTarget> {
    if targets == [] then []
    else
      var n := |targets| - 1;
      TargetsIn(targets[..n], category) + (if targets[n].category == category then [targets[n]] else [])
  }

  /** The record groupTargetsByCategory returns: one key per category that occurs. */
  function Groups(targets: seq<UpgradeTarget>): map<Category, seq<UpgradeTarget>> {
    map c | c in (set t | t in targets :: t.category) :: TargetsIn(targets, c)
  }

  /** `groupTargetsByCategory(targets)`: a key is created on a category's first target, then each target is appended. */
  method GroupTargetsByCategory(targets: seq<UpgradeTarget>) returns (groups: map<Category, seq<UpgradeTarget>>)
    ensures groups.Keys == set t | t in targets :: t.category
    ensures forall c :: c in groups ==> groups[c] == TargetsIn(targets, c)
    ensures groups == Groups(targets)
  {
    groups := map[];
    for i := 0 to |targets|
      invariant groups.Keys == set t | t in targets[..i] :: t.category
      invariant forall c :: c in groups ==> groups[c] == TargetsIn(targets[..i], c)
    {
      var target := targets[i];
      if target.category !in groups {
        groups := groups[target.category := []];
      }
      groups := groups[target.category := groups[target.category] + [target]];
      assert targets[..i + 1][..i] == targets[..i];
      assert targets[..i + 1] == targets[..i] + [target];
      forall c | c in groups ensures groups[c] == TargetsIn(targets[..i + 1], c) {
        if c != target.category {
          assert c in (set t | t in targets[..i] :: t.category);
        } else if target.category in (set t | t in targets[..i] :: t.category) {
        } else {
          TargetsInAbsent(targets[..i], c);
        }
      }
    }
    assert targets[..|targets|] == targets;
  }

  lemma {:induction false} TargetsInAbsent(targets: seq<UpgradeTarget>, category: Category)
    requires category !in (set t | t in targets :: t.category)
    ensures TargetsIn(targets, category) == []
  {
    if targets != [] {
      var n := |targets| - 1;
      assert forall t :: t in targets[..n] ==> t in targets;
      assert targets[n] in targets;
      TargetsInAbsent(targets[..n], category);
    }
  }

  /** A group holds exactly the input's targets of its category. */
  lemma {:induction false} TargetsInExactly(targets: seq<UpgradeTarget>, category: Category, t: UpgradeTarget)
    ensures t in TargetsIn(targets, category) <==> t in targets && t.category == category
  {
    if targets != [] {
      var n := |targets| - 1;
      TargetsInExactly(targets[..n], category, t);
      assert targets == targets[..n] + [targets[n]];
    }
  }

  /** Filtering distributes over concatenation, so each group keeps the input's order. */
  lemma {:induction false} TargetsInConcat(a: seq<UpgradeTarget>, b: seq<UpgradeTarget>, category: Category)
    ensures TargetsIn(a + b, category) == TargetsIn(a, category) + TargetsIn(b, category)
  {
    if b != [] {
      var n := |b| - 1;
      TargetsInConcat(a, b[..n], category);
      assert (a + b)[..|a + b| - 1] == a + b[..n];
    } else {
      assert a + b == a;
    }
  }

  /** The three groups split the input: their sizes add up to its length and their multisets to its multiset. */
  lemma GroupsPartition(targets: seq<UpgradeTarget>)
    ensures |TargetsIn(targets, RelicCategory)| + |TargetsIn(targets, WeaponCategory)| + |TargetsIn(targets, ArtifactCategory)|
            == |targets|
    ensures multiset(TargetsIn(targets, RelicCategory)) + multiset(TargetsIn(targets, WeaponCategory))
            + multiset(TargetsIn(targets, ArtifactCategory)) == multiset(targets)
  {
    GroupsMultiset(targets);
  }

  lemma {:induction false} GroupsMultiset(targets: seq<UpgradeTarget>)
    ensures multiset(TargetsIn(targets, RelicCategory)) + multiset(TargetsIn(targets, WeaponCategory))
            + multiset(TargetsIn(targets, ArtifactCategory)) == multiset(targets)
  {
    if targets != [] {
      var n := |targets| - 1;
      var prefix := targets[..n];
      var last := targets[n];
      GroupsMultiset(prefix);
      assert multiset(targets) == multiset(prefix) + multiset{last} by {
        PrefixAndLast(targets);
      }
      var relic := multiset(TargetsIn(prefix, RelicCategory));
      var weapon := multiset(TargetsIn(prefix, WeaponCategory));
      var artifact := multiset(TargetsIn(prefix, ArtifactCategory));
      TargetsInStep(targets, RelicCategory);
      TargetsInStep(targets, WeaponCategory);
      TargetsInStep(targets, ArtifactCategory);
      match last.category
      case RelicCategory =>
        assert multiset(TargetsIn(targets, RelicCategory)) == relic + multiset{last};
        assert multiset(TargetsIn(targets, WeaponCategory)) == weapon;
        assert multiset(TargetsIn(targets, ArtifactCategory)) == artifact;
      case WeaponCategory =>
        assert multiset(TargetsIn(targets, RelicCategory)) == relic;
        assert multiset(TargetsIn(targets, WeaponCategory)) == weapon + multiset{last};
        assert multiset(TargetsIn(targets, ArtifactCategory)) == artifact;
      case ArtifactCategory =>
        assert multiset(TargetsIn(targets, RelicCategory)) == relic;
        assert multiset(TargetsIn(targets, WeaponCategory)) == weapon;
        assert multiset(TargetsIn(targets, ArtifactCategory)) == artifact + multiset{last};
    }
  }

  lemma TargetsInStep(targets: seq<UpgradeTarget>, category: Category)
    requires targets != []
    ensures var n := |targets| - 1;
            TargetsIn(targets, category)
            == TargetsIn(targets[..n], category) + (if targets[n].category == category then [targets[n]] else [])
    ensures var n := |targets| - 1;
            multiset(TargetsIn(targets, category))
            == multiset(TargetsIn(targets[..n], category)) + (if targets[n].category == category then multiset{targets[n]} else multiset{})
  {
  }

  lemma {:induction false} TargetsInAll(targets: seq<UpgradeTarget>, category: Category)
    requires forall i :: 0 <= i < |targets| ==> targets[i].category == category
    ensures TargetsIn(targets, category) == targets
  {
    if targets != [] {
      var n := |targets| - 1;
      assert forall i :: 0 <= i < n ==> targets[..n][i] == targets[i];
      TargetsInAll(targets[..n], category);
      TargetsInStep(targets, category);
      PrefixAndLast(targets);
    }
  }

  lemma {:induction false} TargetsInNone(targets: seq<UpgradeTarget>, category: Category)
    requires forall i :: 0 <= i < |targets| ==> targets[i].category != category
    ensures TargetsIn(targets, category) == []
  {
    if targets != [] {
      var n := |targets| - 1;
      assert forall i :: 0 <= i < n ==> targets[..n][i] == targets[i];
      TargetsInNone(targets[..n], category);
    }
  }

  lemma TargetsInThree(a: seq<UpgradeTarget>, b: seq<UpgradeTarget>, c: seq<UpgradeTarget>, category: Category)
    ensures TargetsIn(a + b + c, category) == TargetsIn(a, category) + TargetsIn(b, category) + TargetsIn(c, category)
  {
    TargetsInConcat(a, b, category);
    TargetsInConcat(a + b, c, category);
  }

  /** The relic section holds relic targets only, the weapon section weapon targets, the artifact section artifact targets. */
  lemma SectionCategories(hero: Hero)
    ensures forall i :: 0 <= i < |RelicTargets(hero.relic)| ==> RelicTargets(hero.relic)[i].category == RelicCategory
    ensures forall i :: 0 <= i < |WeaponsTargets(hero.rarity, hero.weapons)| ==>
              WeaponsTargets(hero.rarity, hero.weapons)[i].category == WeaponCategory
    ensures forall i :: 0 <= i < |ArtifactTargets(hero.artifacts)| ==> ArtifactTargets(hero.artifacts)[i].category == ArtifactCategory
  {
    var relic := RelicTargets(hero.relic);
    var weapons := WeaponsTargets(hero.rarity, hero.weapons);
    var artifacts := ArtifactTargets(hero.artifacts);
    forall i | 0 <= i < |relic| ensures relic[i].category == RelicCategory {
      assert relic[i] in relic;
      AbilityTargetsExactly(hero.relic.abilities, relic[i]);
    }
    forall i | 0 <= i < |weapons| ensures weapons[i].category == WeaponCategory {
      assert weapons[i] in weapons;
      WeaponsTargetsExactly(hero.rarity, hero.weapons, weapons[i]);
    }
    forall i | 0 <= i < |artifacts| ensures artifacts[i].category == ArtifactCategory {
      assert artifacts[i] in artifacts;
      ArtifactTargetsExactly(hero.artifacts, artifacts[i]);
    }
  }

  /** Grouping a hero's maximum targets gives back its relic, weapon and artifact sections. */
  lemma GroupsOfMaxTargets(hero: Hero)
    ensures TargetsIn(MaxTargets(hero), RelicCategory) == RelicTargets(hero.relic)
    ensures TargetsIn(MaxTargets(hero), WeaponCategory) == WeaponsTargets(hero.rarity, hero.weapons)
    ensures TargetsIn(MaxTargets(hero), ArtifactCategory) == ArtifactTargets(hero.artifacts)
  {
    var relic := RelicTargets(hero.relic);
    var weapons := WeaponsTargets(hero.rarity, hero.weapons);
    var artifacts := ArtifactTargets(hero.artifacts);
    SectionCategories(hero);
    GroupOfSections(relic, weapons, artifacts, RelicCategory, WeaponCategory, ArtifactCategory);
  }

  /** Three sections of three distinct categories are grouped back into themselves. */
  lemma GroupOfSections(a: seq<UpgradeTarget>, b: seq<UpgradeTarget>, c: seq<UpgradeTarget>, ca: Category, cb: Category, cc: Category)
    requires ca != cb && ca != cc && cb != cc
    requires forall i :: 0 <= i < |a| ==> a[i].category == ca
    requires forall i :: 0 <= i < |b| ==> b[i].category == cb
    requires forall i :: 0 <= i < |c| ==> c[i].category == cc
    ensures TargetsIn(a + b + c, ca) == a
    ensures TargetsIn(a + b + c, cb) == b
    ensures TargetsIn(a + b + c, cc) == c
  {
    assert TargetsIn(a + b + c, ca) == a by {
      TargetsInThree(a, b, c, ca);
      TargetsInAll(a, ca);
      TargetsInNone(b, ca);
      TargetsInNone(c, ca);
      assert a + [] + [] == a;
    }
    assert TargetsIn(a + b + c, cb) == b by {
      TargetsInThree(a, b, c, cb);
      TargetsInNone(a, cb);
      TargetsInAll(b, cb);
      TargetsInNone(c, cb);
      assert [] + b + [] == b;
    }
    assert TargetsIn(a + b + c, cc) == c by {
      TargetsInThree(a, b, c, cc);
      TargetsInNone(a, cc);
      TargetsInNone(b, cc);
      TargetsInAll(c, cc);
      assert [] + [] + c == c;
    }
  }

  // ---------------------------------------------------------------------------
  // Progress
  // ---------------------------------------------------------------------------

  predicate NoZeroTarget(targets: seq<UpgradeTarget>) {
    forall i :: 0 <= i < |targets| ==> targets[i].targetLevel != 0
  }

  /** The sum of `currentLevel / targetLevel` over the targets, in exact arithmetic. */
  function RatioSum(targets: seq<UpgradeTarget>): real
    requires NoZeroTarget(targets)
  {
    if targets == [] then 0.0
    else
      var n := |targets| - 1;
      RatioSum(targets[..n]) + (targets[n].currentLevel as real) / (targets[n].targetLevel as real)
  }

  /**
   * `calculateUpgradeProgress(targets)`: 100 for no targets, otherwise the
   * mean of `currentLevel / targetLevel` as a percentage. None stands for the
   * non-finite result of a target level of 0.
   */
  function CalculateUpgradeProgress(targets: seq<UpgradeTarget>): (r: Option<real>)
    ensures targets == [] ==> r == Some(100.0)
    ensures r.None? <==> exists i :: 0 <= i < |targets| && targets[i].targetLevel == 0
  {
    if targets == [] then Some(100.0)
    else if !NoZeroTarget(targets) then None
    else Some(RatioSum(targets) / (|targets| as real) * 100.0)
  }

  /** The levels every target the enumerator emits for a hero within bounds satisfies. */
  predicate LevelsInRange(targets: seq<UpgradeTarget>) {
    forall i :: 0 <= i < |targets| ==> 0 <= targets[i].currentLevel <= targets[i].targetLevel && 0 < targets[i].targetLevel
  }

  lemma {:induction false} RatioSumBounds(targets: seq<UpgradeTarget>)
    requires LevelsInRange(targets)
    ensures 0.0 <= RatioSum(targets) <= |targets| as real
    ensures RatioSum(targets) == |targets| as real ==>
              forall i :: 0 <= i < |targets| ==> targets[i].currentLevel == targets[i].targetLevel
  {
    if targets != [] {
      var n := |targets| - 1;
      var prefix := targets[..n];
      assert LevelsInRange(prefix) by {
        forall i | 0 <= i < n ensures 0 <= prefix[i].currentLevel <= prefix[i].targetLevel && 0 < prefix[i].targetLevel {
          assert prefix[i] == targets[i];
        }
      }
      RatioSumBounds(prefix);
      var current := targets[n].currentLevel as real;
      var target := targets[n].targetLevel as real;
      RatioAtMostOne(current, target);
      if RatioSum(targets) == |targets| as real {
        forall i | 0 <= i < |targets| ensures targets[i].currentLevel == targets[i].targetLevel {
          if i < n {
            assert prefix[i] == targets[i];
          }
        }
      }
    }
  }

  lemma RatioAtMostOne(current: real, target: real)
    requires 0.0 <= current <= target && 0.0 < target
    ensures 0.0 <= current / target <= 1.0
    ensures current / target == 1.0 ==> current == target
  {
    assert current / target * target == current;
  }

  /**
   * With every level within its target, progress is a percentage; it is 100
   * exactly when every target is already reached.
   */
  lemma ProgressBounds(targets: seq<UpgradeTarget>)
    requires LevelsInRange(targets)
    ensures CalculateUpgradeProgress(targets).Some?
    ensures 0.0 <= CalculateUpgradeProgress(targets).value <= 100.0
    ensures CalculateUpgradeProgress(targets).value == 100.0 <==>
              forall i :: 0 <= i < |targets| ==> targets[i].currentLevel == targets[i].targetLevel
  {
    if targets != [] {
      RatioSumBounds(targets);
      var n := |targets| as real;
      var sum := RatioSum(targets);
      assert sum / n <= 1.0 by {
        assert sum / n * n == sum;
      }
      assert sum / n * 100.0 == 100.0 ==> sum == n by {
        assert sum / n * n == sum;
      }
      if forall i :: 0 <= i < |targets| ==> targets[i].currentLevel == targets[i].targetLevel {
        RatioSumAllReached(targets);
        DivideBySelf(n);
      }
      assert CalculateUpgradeProgress(targets).value == sum / n * 100.0;
    }
  }

  lemma DivideBySelf(x: real)
    requires x != 0.0
    ensures x / x == 1.0
  {
  }

  lemma {:induction false} RatioSumAllReached(targets: seq<UpgradeTarget>)
    requires LevelsInRange(targets)
    requires forall i :: 0 <= i < |targets| ==> targets[i].currentLevel == targets[i].targetLevel
    ensures RatioSum(targets) == |targets| as real
  {
    if targets != [] {
      var n := |targets| - 1;
      var prefix := targets[..n];
      assert forall i :: 0 <= i < n ==> prefix[i] == targets[i];
      RatioSumAllReached(prefix);
      DivideBySelf(targets[n].targetLevel as real);
    }
  }

  /**
   * A hero's maximum targets score 100 exactly when the hero has nothing left
   * to upgrade; otherwise each target is strictly below its level and the
   * score is below 100.
   */
  lemma MaxTargetsProgress(hero: Hero)
    requires WithinLimits(hero)
    ensures CalculateUpgradeProgress(MaxTargets(hero)).Some?
    ensures CalculateUpgradeProgress(MaxTargets(hero)).value == 100.0 <==> AllAtMax(hero)
  {
    var targets := MaxTargets(hero);
    MaxTargetsBelowMax(hero);
    MaxTargetsEmptyIffAtMax(hero);
    forall i | 0 <= i < |targets|
      ensures 0 <= targets[i].currentLevel <= targets[i].targetLevel && 0 < targets[i].targetLevel
    {
      var t := targets[i];
      assert t in targets;
      MaxTargetsExactly(hero, t);
      NonNegativeLevels(hero, t);
    }
    ProgressBounds(targets);
    if targets != [] {
      assert targets[0] in targets;
    }
  }

  /** Within bounds, every level a target starts from is non-negative. */
  lemma NonNegativeLevels(hero: Hero, t: UpgradeTarget)
    requires WithinLimits(hero) && EmittedFor(hero, t)
    ensures 0 <= t.currentLevel
  {
    if k :| 0 <= k < |hero.relic.abilities| && t == AbilityTarget(hero.relic.abilities[k], k) {
      assert hero.relic.abilities[k] in hero.relic.abilities;
    } else if k :| 0 <= k < |hero.weapons| && WeaponEmits(hero.rarity, hero.weapons[k], t) {
      var weapon := hero.weapons[k];
      assert WeaponWithinLimits(weapon);
      if j :| weapon.mods.Some? && 0 <= j < |weapon.mods.value| && t == ModTarget(weapon, weapon.mods.value[j], j) {
        assert weapon.mods.value[j] in weapon.mods.value;
      }
    } else if k :| 0 <= k < |hero.artifacts| && t == ArtifactTarget(hero.artifacts[k], k) {
      assert hero.artifacts[k] in hero.artifacts;
    }
  }
}
