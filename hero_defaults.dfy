/**
 * Per-track level limits, per-rarity starting values, and the constructors
 * that give a freshly created hero its starting state.
 */
module HeroDefaults {
  import opened Wrappers
  import opened JsStrings
  import opened Types

  /** The shape of `MAX_LEVELS`: one global maximum per upgrade track. */
  datatype LevelLimits = LevelLimits(
    ability: int,
    weaponMastery: int,
    relicTrait: int,
    gearLevel: int,
    enhancement: int,
    mod: int,
    catalyst: int,
    boost: int,
    artifact: int)

  /** `MAX_LEVELS`. */
  const MaxLevels: LevelLimits := LevelLimits(18, 5, 3, 80, 10, 10, 3, 7, 10)

  /** Every maximum is positive: each track has room to upgrade, and no target level is 0. */
  lemma MaxLevelsPositive()
    ensures 0 < MaxLevels.ability && 0 < MaxLevels.weaponMastery && 0 < MaxLevels.relicTrait
    ensures 0 < MaxLevels.gearLevel && 0 < MaxLevels.enhancement && 0 < MaxLevels.mod
    ensures 0 < MaxLevels.catalyst && 0 < MaxLevels.boost && 0 < MaxLevels.artifact
  {
  }

  /** The shape of one entry of `STARTING_LEVELS`. */
  datatype StartingLevel = StartingLevel(power: int, abilities: int)

  /** `STARTING_LEVELS[rarity]`. */
  function StartingLevels(rarity: HeroRarity): (r: StartingLevel)
    ensures r.power == (if rarity == Legendary then 0 else 500)
    ensures r.abilities == 1
  {
    match rarity
    case Legendary => StartingLevel(0, 1)
    case Mythic => StartingLevel(500, 1)
  }

  /** `createDefaultRelic()`: Signature 1, Signature 2 and Super at level 1, mastery and trait at 0. */
  function CreateDefaultRelic(): (r: Relic)
    ensures |r.abilities| == 3
    ensures forall k :: 0 <= k < 3 ==> r.abilities[k].level == 1 && r.abilities[k].id == "ability-" + NatToString(k + 1)
    ensures r.abilities[0].name == "Signature 1" && r.abilities[1].name == "Signature 2" && r.abilities[2].name == "Super"
    ensures r.weaponMastery == 0 && r.relicTrait == 0
  {
    Relic(
      [ RelicAbility("ability-1", "Signature 1", 1),
        RelicAbility("ability-2", "Signature 2", 1),
        RelicAbility("ability-3", "Super", 1) ],
      0, 0)
  }

  /** `createDefaultWeapon(id, name)`: a normal weapon at gear level 0 and enhancement 0, without mods or refinement. */
  function CreateDefaultWeapon(id: string, name: string): (w: Weapon)
    ensures w.id == id && w.name == name
    ensures w.weaponType == Normal && w.gearLevel == 0 && w.enhancement == 0
    ensures w.mods == None && w.refinement == None
  {
    Weapon(id, name, Normal, 0, 0, None, None)
  }

  /** `createDefaultArtifact(id, name)`: an artifact at level 0. */
  function CreateDefaultArtifact(id: string, name: string): (a: Artifact)
    ensures a.id == id && a.name == name && a.level == 0
  {
    Artifact(id, name, 0)
  }

  /**
   * `createNewHero(name, rarity)`. `Date.now()` is the parameter `now`, so the
   * identifier is `hero-` followed by its decimal digits.
   */
  function CreateNewHero(name: string, rarity: HeroRarity, now: nat): (h: Hero)
    ensures h.id == "hero-" + NatToString(now) && h.name == name && h.rarity == rarity
    ensures h.power == StartingLevels(rarity).power
    ensures h.weapons == [CreateDefaultWeapon("weapon-1", "Primary Weapon"), CreateDefaultWeapon("weapon-2", "Secondary Weapon")]
    ensures h.relic == CreateDefaultRelic()
    ensures h.artifacts == []
  {
    var basePower := if rarity == Legendary then 0 else 500;
    Hero("hero-" + NatToString(now), name, rarity, basePower,
         [CreateDefaultWeapon("weapon-1", "Primary Weapon"), CreateDefaultWeapon("weapon-2", "Secondary Weapon")],
         CreateDefaultRelic(), [])
  }

  /**
   * The bounds every hero the application builds keeps: the limits above,
   * abilities from level 1, exactly three abilities and two weapons, at most
   * three mods per weapon and at most four artifacts.
   */
  predicate WithinLimits(h: Hero) {
    && |h.relic.abilities| == 3
    && (forall a :: a in h.relic.abilities ==> 1 <= a.level <= MaxLevels.ability)
    && 0 <= h.relic.weaponMastery <= MaxLevels.weaponMastery
    && 0 <= h.relic.relicTrait <= MaxLevels.relicTrait
    && |h.weapons| == 2
    && (forall w :: w in h.weapons ==> WeaponWithinLimits(w))
    && |h.artifacts| <= 4
    && (forall a :: a in h.artifacts ==> 0 <= a.level <= MaxLevels.artifact)
  }

  predicate WeaponWithinLimits(w: Weapon) {
    && 0 <= w.gearLevel <= MaxLevels.gearLevel
    && 0 <= w.enhancement <= MaxLevels.enhancement
    && (w.mods.Some? ==> |w.mods.value| <= 3 && forall m :: m in w.mods.value ==> 0 <= m.level <= MaxLevels.mod)
    && (w.refinement.Some? ==>
          0 <= w.refinement.value.catalyst <= MaxLevels.catalyst && 0 <= w.refinement.value.boost <= MaxLevels.boost)
  }

  /** Every track of the hero is strictly below its maximum (a track without a value counts as below). */
  predicate AllBelowMax(h: Hero) {
    && (forall a :: a in h.relic.abilities ==> a.level < MaxLevels.ability)
    && h.relic.weaponMastery < MaxLevels.weaponMastery
    && h.relic.relicTrait < MaxLevels.relicTrait
    && (forall w :: w in h.weapons ==>
          && w.gearLevel < MaxLevels.gearLevel && w.enhancement < MaxLevels.enhancement
          && (w.mods.Some? ==> forall m :: m in w.mods.value ==> m.level < MaxLevels.mod)
          && (w.refinement.Some? ==>
                w.refinement.value.catalyst < MaxLevels.catalyst && w.refinement.value.boost < MaxLevels.boost))
    && (forall a :: a in h.artifacts ==> a.level < MaxLevels.artifact)
  }

  /** A new hero starts inside every limit and strictly below every maximum. */
  lemma NewHeroWithinLimits(name: string, rarity: HeroRarity, now: nat)
    ensures WithinLimits(CreateNewHero(name, rarity, now))
    ensures AllBelowMax(CreateNewHero(name, rarity, now))
  {
  }

  /** The starting power and ability level agree with `STARTING_LEVELS` for both rarities. */
  lemma NewHeroMatchesStartingLevels(name: string, rarity: HeroRarity, now: nat)
    ensures CreateNewHero(name, rarity, now).power == StartingLevels(rarity).power
    ensures forall a :: a in CreateNewHero(name, rarity, now).relic.abilities ==> a.level == StartingLevels(rarity).abilities
  {
  }
}
