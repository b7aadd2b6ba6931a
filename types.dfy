/**
 * The vocabulary shared by the perk formulas: the context a formula is
 * evaluated in, the per-calculation cache, and the response records the
 * formulas return for each outcome category.
 */
module Types {

  /** Weapon archetypes the formulas gate on (a subset of the game's catalogue). */
  datatype WeaponType =
    | AutoRifle | Bow | FusionRifle | Glaive | HandCannon | LinearFusionRifle
    | MachineGun | PulseRifle | ScoutRifle | Shotgun | Sidearm | SniperRifle
    | SubmachineGun | Sword | OtherWeapon

  datatype DamageType = Kinetic | Arc | Solar | Void | Stasis | Strand

  datatype AmmoType = Primary | Special | Heavy

  /** The perks whose ranks a formula may inspect in the active-perk map. */
  datatype Perk = ParacausalShot | StormAndStress | OtherPerk(hash: nat)

  /** Stat identifiers that appear in the stat-bump maps. */
  datatype StatHash = Airborne | Handling | Reload | ChargeRate | DrawTime

  /** A stat-bump response: stat identifier to additive delta. */
  type StatBumps = map<StatHash, int>

  /**
   * The per-calculation cache (`cached_data`): string keys to 64-bit
   * floats, modelled as reals.
   */
  type Cache = map<string, real>

  /**
   * What a formula is given: the perk's own rank (`value`, a u32), the PvP
   * flag, and the calculation data it reads (weapon, damage and ammo type,
   * the weapon's intrinsic hash, and every active perk's rank).
   */
  datatype Input = Input(
    value: nat,
    pvp: bool,
    weaponType: WeaponType,
    damageType: DamageType,
    ammoType: AmmoType,
    intrinsicHash: nat,
    perkValues: map<Perk, nat>)

  /**
   * A damage response. `DamageScales` is a record literal whose remaining
   * fields take their defaults; `BasicDmgBuff` and `SurgeDmgBuff` are the
   * library constructors `DamageModifierResponse::basic_dmg_buff` and
   * `DamageModifierResponse::surge_buff`, kept symbolic with the factor
   * they were given.
   */
  datatype DamageModifierResponse =
    | DamageScales(impactDmgScale: real, explosiveDmgScale: real)
    | BasicDmgBuff(buff: real)
    | SurgeDmgBuff(buff: real)

  const DamageDefault := DamageScales(1.0, 1.0)

  datatype HandlingModifierResponse = HandlingModifierResponse(
    statAdd: int,
    drawAdd: int,
    adsScale: real,
    drawScale: real,
    stowScale: real)

  const HandlingDefault := HandlingModifierResponse(0, 0, 1.0, 1.0, 1.0)

  datatype ReloadModifierResponse = ReloadModifierResponse(reloadStatAdd: int, reloadTimeScale: real)

  const ReloadDefault := ReloadModifierResponse(0, 1.0)

  datatype RangeModifierResponse = RangeModifierResponse(rangeAllScale: real)

  const RangeDefault := RangeModifierResponse(1.0)

  datatype FlinchModifierResponse = FlinchModifierResponse(flinchScale: real)

  const FlinchDefault := FlinchModifierResponse(1.0)

  /** `clamp(v, lo, hi)` on unsigned ranks. */
  function Clamp(v: nat, lo: nat, hi: nat): (r: nat)
    requires lo <= hi
    ensures lo <= r <= hi
    ensures lo <= v <= hi ==> r == v
    ensures v > hi ==> r == hi
    ensures v < lo ==> r == lo
  {
    if v < lo then lo else if v > hi then hi else v
  }

  function Max(a: real, b: real): real {
    if a >= b then a else b
  }
}
