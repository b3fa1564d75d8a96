/**
 * The records the upgrade-cost engine reads: cost-table rows and the hero
 * snapshot. JavaScript numbers that hold levels, amounts and power are
 * integers here; optional (`?:`) fields are Option.
 */
module Types {
  import opened Wrappers

  /** One cost-table row: paying `amount` of `material` takes track `path` from `level - 1` to `level`. */
  datatype UpgradeCost = UpgradeCost(path: string, material: string, level: int, amount: int)

  datatype HeroRarity = Legendary | Mythic

  datatype WeaponType = Normal | Exotic

  datatype Hero = Hero(
    id: string,
    name: string,
    rarity: HeroRarity,
    power: int,
    weapons: seq<Weapon>,
    relic: Relic,
    artifacts: seq<Artifact>)

  datatype Weapon = Weapon(
    id: string,
    name: string,
    weaponType: WeaponType,
    gearLevel: int,
    enhancement: int,
    mods: Option<seq<WeaponMod>>,
    refinement: Option<WeaponRefinement>)

  datatype WeaponMod = WeaponMod(id: string, name: string, level: int)

  datatype WeaponRefinement = WeaponRefinement(catalyst: int, boost: int)

  datatype Relic = Relic(abilities: seq<RelicAbility>, weaponMastery: int, relicTrait: int)

  datatype RelicAbility = RelicAbility(id: string, name: string, level: int)

  datatype Artifact = Artifact(id: string, name: string, level: int)

  /** The sixteen path keys under which the cost table is looked up (the `UpgradePath` union). */
  const UpgradePaths: set<string> := {
    "signature 1", "signature 2", "super", "weapon mastery", "relic trait",
    "gear level", "enhancement", "mod 1", "mod 2", "mod 3", "catalyst", "boost",
    "artifact 1", "artifact 2", "artifact 3", "artifact 4"
  }
}
