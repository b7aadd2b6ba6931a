/**
 * The exotic-armor formulas of `exotic_armor()`. None of them calls a
 * stacking resolver or writes the cache, so each is a plain function of
 * its input (and, for Knucklehead Radar, of the cache it reads).
 */
module ExoticArmor {
  import opened Types

  // ---------------------------------------------------------------------
  // Damage formulas
  // ---------------------------------------------------------------------

  /** Ballindorse Wrathweavers: Stasis damage from rank 1 gets 1.05 (PvP) or 1.15 (PvE) on both scales. */
  function BallindorseWrathweavers(input: Input): (r: DamageModifierResponse)
    ensures r.DamageScales? && r.impactDmgScale == r.explosiveDmgScale
    ensures input.damageType != Stasis || input.value == 0 ==> r == DamageDefault
    ensures input.damageType == Stasis && input.value >= 1 ==>
              r.impactDmgScale == (if input.pvp then 1.05 else 1.15) && r.impactDmgScale > 1.0
  {
    var value := if input.pvp then 1.05 else 1.15;
    if input.damageType == Stasis && input.value >= 1 then DamageScales(value, value)
    else DamageDefault
  }

  /** A perk counts as active when the active-perk map holds it with a rank above 0. */
  predicate PerkActive(perkValues: map<Perk, nat>, p: Perk)
    ensures p !in perkValues ==> !PerkActive(perkValues, p)
    ensures p in perkValues && perkValues[p] == 0 ==> !PerkActive(perkValues, p)
    ensures p in perkValues && perkValues[p] > 0 ==> PerkActive(perkValues, p)
  {
    p in perkValues && perkValues[p] > 0
  }

  /** The per-stack impact multiplier of Lucky Pants: 0.3 on Special ammo, 0.45 otherwise. */
  function LuckyPantsStep(ammo: AmmoType): (m: real)
    ensures 0.3 <= m <= 0.45
  {
    if ammo == Special then 0.3 else 0.45
  }

  /**
   * Lucky Pants: switched off in PvP and whenever Paracausal Shot or Storm
   * and Stress is active; otherwise impact damage grows by the ammo's step
   * per stack, counting at most 10 stacks. Explosive damage is untouched.
   */
  function LuckyPantsDamage(input: Input): (r: DamageModifierResponse)
    ensures r.DamageScales? && r.explosiveDmgScale == 1.0
    ensures PerkActive(input.perkValues, ParacausalShot) || PerkActive(input.perkValues, StormAndStress) || input.pvp
            ==> r == DamageDefault
    ensures !(PerkActive(input.perkValues, ParacausalShot) || PerkActive(input.perkValues, StormAndStress) || input.pvp)
            ==> r == DamageScales(1.0 + LuckyPantsStep(input.ammoType) * (Clamp(input.value, 0, 10) as real), 1.0)
    ensures 1.0 <= r.impactDmgScale <= 5.5
    ensures r.impactDmgScale == 1.0 + (if r == DamageDefault then 0.0 else LuckyPantsStep(input.ammoType) * (Clamp(input.value, 0, 10) as real))
  {
    var perks := input.perkValues;
    if PerkActive(perks, ParacausalShot) || PerkActive(perks, StormAndStress) || input.pvp then
      DamageDefault
    else
      var mult := LuckyPantsStep(input.ammoType);
      DamageScales(1.0 + mult * (Clamp(input.value, 0, 10) as real), 1.0)
  }

  /** Stacks beyond 10 add nothing; below that each stack adds a positive step. */
  lemma LuckyPantsSaturates(input: Input, more: nat)
    requires input.value >= 10 && more >= input.value
    ensures LuckyPantsDamage(input) == LuckyPantsDamage(input.(value := more))
  {
  }

  lemma {:induction false} LuckyPantsMonotone(input: Input, more: nat)
    requires input.value <= more
    ensures LuckyPantsDamage(input).impactDmgScale <= LuckyPantsDamage(input.(value := more)).impactDmgScale
  {
    var c1, c2 := Clamp(input.value, 0, 10) as real, Clamp(more, 0, 10) as real;
    var m := LuckyPantsStep(input.ammoType);
    assert c1 <= c2;
    assert m * c1 <= m * c2;
  }

  /** With no excluding perk in PvE, a Special weapon gains less per stack and tops out at 4.0. */
  lemma LuckyPantsSpecialCap(input: Input)
    requires input.ammoType == Special
    ensures LuckyPantsDamage(input).impactDmgScale <= 4.0
  {
    var c := Clamp(input.value, 0, 10) as real;
    assert 0.3 * c <= 3.0;
  }

  /** The health fraction a calculation reports under "health%", 1.0 when absent. */
  function HealthPercent(cache: Cache): (h: real)
    ensures "health%" !in cache ==> h == 1.0
    ensures "health%" in cache ==> h == cache["health%"]
  {
    if "health%" in cache then cache["health%"] else 1.0
  }

  /**
   * Knucklehead Radar's damage formula: below 30% health and from rank 1,
   * a buff of one plus the missing share below 30%; the cache is only read.
   */
  function KnuckleheadRadarDamage(input: Input, cache: Cache): (r: DamageModifierResponse)
    ensures HealthPercent(cache) >= 0.3 || input.value == 0 <==> r == DamageDefault
    ensures r != DamageDefault ==> r.BasicDmgBuff? && r.buff > 1.0 && r.buff + HealthPercent(cache) == 1.3
  {
    var healthPercent := HealthPercent(cache);
    if healthPercent >= 0.3 || input.value == 0 then DamageDefault
    else BasicDmgBuff(1.0 + (0.3 - healthPercent))
  }

  /** Lower health, larger buff; with health in [0, 0.3) the buff lies in (1.0, 1.3]. */
  lemma KnuckleheadRadarDecreasing(input: Input, c1: Cache, c2: Cache)
    requires input.value > 0
    requires HealthPercent(c1) <= HealthPercent(c2) < 0.3
    ensures KnuckleheadRadarDamage(input, c2).buff <= KnuckleheadRadarDamage(input, c1).buff
    ensures HealthPercent(c1) >= 0.0 ==> KnuckleheadRadarDamage(input, c1).buff <= 1.3
  {
  }

  /** Mechaneer's Tricksleeves: Sidearms only and from rank 1, both scales at 1.10 (PvP) or 2.0 (PvE). */
  function MechaneersTricksleevesDamage(input: Input): (r: DamageModifierResponse)
    ensures input.value == 0 || input.weaponType != Sidearm <==> r == DamageDefault
    ensures r.DamageScales? && r.impactDmgScale == r.explosiveDmgScale
    ensures r != DamageDefault ==> r.impactDmgScale == (if input.pvp then 1.10 else 2.0)
  {
    if input.value == 0 || input.weaponType != Sidearm then DamageDefault
    else
      var damageMult := if input.pvp then 1.10 else 2.0;
      DamageScales(damageMult, damageMult)
  }

  /** Sealed Ahamkara Grasps: from rank 1 a basic buff of 1.2 (PvP) or 1.35 (PvE). */
  function SealedAhamkaraGraspsDamage(input: Input): (r: DamageModifierResponse)
    ensures input.value == 0 <==> r == DamageDefault
    ensures r != DamageDefault ==> r == BasicDmgBuff(if input.pvp then 1.2 else 1.35)
  {
    if input.value == 0 then DamageDefault
    else BasicDmgBuff(if input.pvp then 1.2 else 1.35)
  }

  // ---------------------------------------------------------------------
  // Stat bumps, handling, reload, range and flinch
  // ---------------------------------------------------------------------

  /** Tome of Dawn: +50 airborne from rank 1. */
  function TomeOfDawnStats(input: Input): (m: StatBumps)
    ensures input.value == 0 ==> m == map[]
    ensures input.value > 0 ==> m.Keys == {Airborne} && m[Airborne] == 50
  {
    if input.value > 0 then map[Airborne := 50] else map[]
  }

  /** Tome of Dawn: flinch scaled to 0.80 from rank 1. */
  function TomeOfDawnFlinch(input: Input): (r: FlinchModifierResponse)
    ensures input.value == 0 <==> r == FlinchDefault
    ensures input.value > 0 ==> r.flinchScale == 0.80
    ensures r.flinchScale <= 1.0
  {
    if input.value > 0 then FlinchModifierResponse(0.80) else FlinchDefault
  }

  /** The stat map and the flinch formula of Tome of Dawn switch on together. */
  lemma TomeOfDawnConsistent(input: Input)
    ensures (TomeOfDawnStats(input) == map[]) == (TomeOfDawnFlinch(input) == FlinchDefault)
  {
    if input.value > 0 {
      assert Airborne in TomeOfDawnStats(input);
    }
  }

  /** Knucklehead Radar: a fixed +20 airborne, whatever the rank. */
  function KnuckleheadRadarStats(input: Input): (m: StatBumps)
    ensures m.Keys == {Airborne} && m[Airborne] == 20
  {
    map[Airborne := 20]
  }

  /** Mechaneer's Tricksleeves: airborne 50, handling 100 and reload 100, Sidearms only, whatever the rank. */
  function MechaneersTricksleevesStats(input: Input): (m: StatBumps)
    ensures input.weaponType != Sidearm ==> m == map[]
    ensures input.weaponType == Sidearm ==> m.Keys == {Airborne, Handling, Reload}
    ensures input.weaponType == Sidearm ==> m[Airborne] == 50 && m[Handling] == 100 && m[Reload] == 100
  {
    if input.weaponType == Sidearm then map[Airborne := 50, Handling := 100, Reload := 100]
    else map[]
  }

  function MechaneersTricksleevesHandling(input: Input): (h: HandlingModifierResponse)
    ensures input.weaponType != Sidearm <==> h == HandlingDefault
    ensures h == HandlingDefault.(statAdd := h.statAdd)
  {
    if input.weaponType == Sidearm then HandlingDefault.(statAdd := 100) else HandlingDefault
  }

  function MechaneersTricksleevesReload(input: Input): (r: ReloadModifierResponse)
    ensures input.weaponType != Sidearm <==> r == ReloadDefault
    ensures r.reloadTimeScale == 1.0
  {
    if input.weaponType == Sidearm then ReloadDefault.(reloadStatAdd := 100) else ReloadDefault
  }

  /**
   * On any weapon other than a Sidearm every Mechaneer's formula is the
   * identity of its category; on a Sidearm the stat map's handling and
   * reload bumps are the handling and reload formulas' additions.
   */
  lemma MechaneersSidearmOnly(input: Input)
    ensures input.weaponType != Sidearm ==>
              && MechaneersTricksleevesStats(input) == map[]
              && MechaneersTricksleevesHandling(input) == HandlingDefault
              && MechaneersTricksleevesReload(input) == ReloadDefault
              && MechaneersTricksleevesDamage(input) == DamageDefault
    ensures input.weaponType == Sidearm ==>
              && MechaneersTricksleevesStats(input)[Handling] == MechaneersTricksleevesHandling(input).statAdd
              && MechaneersTricksleevesStats(input)[Reload] == MechaneersTricksleevesReload(input).reloadStatAdd
  {
  }

  /** Oathkeeper: airborne 40 and draw time 10 on Bows. */
  function OathkeeperStats(input: Input): (m: StatBumps)
    ensures input.weaponType != Bow ==> m == map[]
    ensures input.weaponType == Bow ==> m.Keys == {Airborne, DrawTime} && m[Airborne] == 40 && m[DrawTime] == 10
  {
    if input.weaponType == Bow then map[Airborne := 40, DrawTime := 10] else map[]
  }

  /** Sealed Ahamkara Grasps: +50 airborne from rank 1. */
  function SealedAhamkaraGraspsStats(input: Input): (m: StatBumps)
    ensures input.value == 0 ==> m == map[]
    ensures input.value > 0 ==> m.Keys == {Airborne} && m[Airborne] == 50
  {
    if input.value > 0 then map[Airborne := 50] else map[]
  }

  /** Lucky Pants: airborne 20 and handling 100 on Hand Cannons from rank 1. */
  function LuckyPantsStats(input: Input): (m: StatBumps)
    ensures !(input.value > 0 && input.weaponType == HandCannon) ==> m == map[]
    ensures input.value > 0 && input.weaponType == HandCannon ==>
              m.Keys == {Airborne, Handling} && m[Airborne] == 20 && m[Handling] == 100
  {
    if input.value > 0 && input.weaponType == HandCannon then map[Airborne := 20, Handling := 100]
    else map[]
  }

  /** Lucky Pants: on Hand Cannons from rank 1, +100 draw and a 0.6 draw-time scale. */
  function LuckyPantsHandling(input: Input): (h: HandlingModifierResponse)
    ensures !(input.value > 0 && input.weaponType == HandCannon) <==> h == HandlingDefault
    ensures h.statAdd == 0 && h.adsScale == 1.0 && h.stowScale == 1.0
    ensures h != HandlingDefault ==> h.drawAdd == 100 && h.drawScale == 0.6
  {
    if input.value > 0 && input.weaponType == HandCannon then
      HandlingDefault.(drawAdd := 100, drawScale := 0.6)
    else HandlingDefault
  }

  /** The Lucky Pants stat map and handling formula switch on together. */
  lemma LuckyPantsStatsMatchHandling(input: Input)
    ensures (LuckyPantsStats(input) == map[]) == (LuckyPantsHandling(input) == HandlingDefault)
  {
    if input.value > 0 && input.weaponType == HandCannon {
      assert Airborne in LuckyPantsStats(input);
    }
  }

  /** No Backup Plans: +30 airborne on Shotguns, whatever the rank. */
  function NoBackupPlansStats(input: Input): (m: StatBumps)
    ensures input.weaponType != Shotgun ==> m == map[]
    ensures input.weaponType == Shotgun ==> m.Keys == {Airborne} && m[Airborne] == 30
  {
    if input.weaponType == Shotgun then map[Airborne := 30] else map[]
  }

  /** Actium War Rig: +30 airborne on Auto Rifles and Machine Guns, whatever the rank. */
  function ActiumWarRigStats(input: Input): (m: StatBumps)
    ensures input.weaponType !in {AutoRifle, MachineGun} ==> m == map[]
    ensures input.weaponType in {AutoRifle, MachineGun} ==> m.Keys == {Airborne} && m[Airborne] == 30
  {
    if input.weaponType == AutoRifle || input.weaponType == MachineGun then map[Airborne := 30]
    else map[]
  }

  /** Hallowfire Heart: a fixed +20 airborne, whatever the rank. */
  function HallowfireHeartStats(input: Input): (m: StatBumps)
    ensures m.Keys == {Airborne} && m[Airborne] == 20
  {
    map[Airborne := 20]
  }

  /** Lion Rampart: a fixed +50 airborne, whatever the rank. */
  function LionRampartStats(input: Input): (m: StatBumps)
    ensures m.Keys == {Airborne} && m[Airborne] == 50
  {
    map[Airborne := 50]
  }

  /** Peacekeepers: airborne 40 and handling 50 on Submachine Guns, whatever the rank. */
  function PeacekeepersStats(input: Input): (m: StatBumps)
    ensures input.weaponType != SubmachineGun ==> m == map[]
    ensures input.weaponType == SubmachineGun ==> m.Keys == {Airborne, Handling} && m[Airborne] == 40 && m[Handling] == 50
  {
    if input.weaponType == SubmachineGun then map[Airborne := 40, Handling := 50] else map[]
  }

  /** Peacekeepers: on Submachine Guns, +50 handling with draw and stow scaled to 0.8. */
  function PeacekeepersHandling(input: Input): (h: HandlingModifierResponse)
    ensures input.weaponType != SubmachineGun <==> h == HandlingDefault
    ensures h.drawAdd == 0 && h.adsScale == 1.0
    ensures h != HandlingDefault ==> h.statAdd == 50 && h.drawScale == 0.8 && h.stowScale == 0.8
  {
    if input.weaponType == SubmachineGun then
      HandlingModifierResponse(50, 0, 1.0, 0.8, 0.8)
    else HandlingDefault
  }

  /** The Peacekeepers stat map's handling bump is the handling formula's stat addition. */
  lemma PeacekeepersConsistent(input: Input)
    ensures input.weaponType == SubmachineGun ==> PeacekeepersStats(input)[Handling] == PeacekeepersHandling(input).statAdd
    ensures (PeacekeepersStats(input) == map[]) == (PeacekeepersHandling(input) == HandlingDefault)
  {
    if input.weaponType == SubmachineGun {
      assert Airborne in PeacekeepersStats(input);
    }
  }

  /** Peregrine Greaves: a fixed +20 airborne, whatever the rank. */
  function PeregrineGreavesStats(input: Input): (m: StatBumps)
    ensures m.Keys == {Airborne} && m[Airborne] == 20
  {
    map[Airborne := 20]
  }

  /** Eye of Another World: a fixed +15 airborne, whatever the rank. */
  function EyeOfAnotherWorldStats(input: Input): (m: StatBumps)
    ensures m.Keys == {Airborne} && m[Airborne] == 15
  {
    map[Airborne := 15]
  }

  /** Astrocyte Verse: airborne 30 always; handling 100 added from rank 1. */
  function AstrocyteVerseStats(input: Input): (m: StatBumps)
    ensures Airborne in m && m[Airborne] == 30
    ensures input.value == 0 ==> m.Keys == {Airborne}
    ensures input.value > 0 ==> m.Keys == {Airborne, Handling} && m[Handling] == 100
  {
    var stats := map[Airborne := 30];
    if input.value > 0 then stats[Handling := 100] else stats
  }

  /** Astrocyte Verse: +100 draw from rank 1. */
  function AstrocyteVerseHandling(input: Input): (h: HandlingModifierResponse)
    ensures input.value == 0 <==> h == HandlingDefault
    ensures h == HandlingDefault.(drawAdd := h.drawAdd)
    ensures input.value > 0 ==> h.drawAdd == 100
  {
    if input.value == 0 then HandlingDefault else HandlingDefault.(drawAdd := 100)
  }

  /**
   * The fixed stat bumps do not depend on the rank: two inputs give the
   * same map, and rank 0 is not inert for them. Astrocyte Verse keeps its
   * airborne entry at every rank.
   */
  lemma RankIndependentStats(i1: Input, i2: Input)
    ensures KnuckleheadRadarStats(i1) == KnuckleheadRadarStats(i2) != map[]
    ensures HallowfireHeartStats(i1) == HallowfireHeartStats(i2) != map[]
    ensures LionRampartStats(i1) == LionRampartStats(i2) != map[]
    ensures PeregrineGreavesStats(i1) == PeregrineGreavesStats(i2) != map[]
    ensures EyeOfAnotherWorldStats(i1) == EyeOfAnotherWorldStats(i2) != map[]
    ensures AstrocyteVerseStats(i1)[Airborne] == AstrocyteVerseStats(i2)[Airborne]
  {
    assert Airborne in KnuckleheadRadarStats(i1);
    assert Airborne in HallowfireHeartStats(i1);
    assert Airborne in LionRampartStats(i1);
    assert Airborne in PeregrineGreavesStats(i1);
    assert Airborne in EyeOfAnotherWorldStats(i1);
  }

  /** The weapons whose intrinsic trait Necrotic Grips recognises. */
  const NecroticGripsIntrinsics: set<nat> := {1863355414, 2965975126, 2724693746, 4184462049}

  /** Necrotic Grips: +30 airborne on the listed intrinsics, whatever the rank. */
  function NecroticGripsStats(input: Input): (m: StatBumps)
    ensures input.intrinsicHash !in NecroticGripsIntrinsics ==> m == map[]
    ensures input.intrinsicHash in NecroticGripsIntrinsics ==> m.Keys == {Airborne} && m[Airborne] == 30
  {
    var h := input.intrinsicHash;
    if h == 1863355414 || h == 2965975126 || h == 2724693746 || h == 4184462049 then map[Airborne := 30]
    else map[]
  }

  /** Boots of the Assembler: +30 airborne on the one listed intrinsic, whatever the rank. */
  function BootsOfTheAssemblerStats(input: Input): (m: StatBumps)
    ensures input.intrinsicHash != 2144092201 ==> m == map[]
    ensures input.intrinsicHash == 2144092201 ==> m.Keys == {Airborne} && m[Airborne] == 30
  {
    if input.intrinsicHash == 2144092201 then map[Airborne := 30] else map[]
  }

  /** Rain of Fire: +30 airborne on Fusion and Linear Fusion Rifles. */
  function RainOfFireStats(input: Input): (m: StatBumps)
    ensures input.weaponType !in {FusionRifle, LinearFusionRifle} ==> m == map[]
    ensures input.weaponType in {FusionRifle, LinearFusionRifle} ==> m.Keys == {Airborne} && m[Airborne] == 30
  {
    if input.weaponType == FusionRifle || input.weaponType == LinearFusionRifle then map[Airborne := 30]
    else map[]
  }

  /** Speedloader Slacks' stat rows (reload, handling, airborne) by stack count, saturating at 5. */
  function SpeedloaderSlacksStats(input: Input): (m: StatBumps)
    ensures m.Keys == {Reload, Handling, Airborne}
    ensures input.value == 0 <==> m[Reload] == 0 && m[Handling] == 0 && m[Airborne] == 0
    ensures m[Reload] == m[Handling] <= 55
    ensures input.value > 0 ==> 30 <= m[Airborne] <= m[Reload] - 5
  {
    var modifiers :=
      if input.value == 0 then (0, 0, 0)
      else if input.value == 1 then (40, 40, 30)
      else if input.value == 2 then (40, 40, 35)
      else if input.value == 3 then (45, 45, 40)
      else if input.value == 4 then (50, 50, 45)
      else (55, 55, 50);
    map[Reload := modifiers.0, Handling := modifiers.1, Airborne := modifiers.2]
  }

  /** Speedloader Slacks' handling row: the stat addition only. */
  function SpeedloaderSlacksHandling(input: Input): (h: HandlingModifierResponse)
    ensures h == HandlingDefault.(statAdd := h.statAdd)
    ensures input.value == 0 <==> h == HandlingDefault
    ensures 0 <= h.statAdd <= 55
  {
    var handling :=
      if input.value == 0 then 0
      else if input.value == 1 then 40
      else if input.value == 2 then 40
      else if input.value == 3 then 45
      else if input.value == 4 then 50
      else 55;
    HandlingDefault.(statAdd := handling)
  }

  /** Speedloader Slacks' reload row: a stat addition and a reload-time scale at most 1.0. */
  function SpeedloaderSlacksReload(input: Input): (r: ReloadModifierResponse)
    ensures input.value == 0 <==> r == ReloadDefault
    ensures 0.89 <= r.reloadTimeScale <= 1.0
    ensures 0 <= r.reloadStatAdd <= 55
  {
    var modifiers :=
      if input.value == 0 then (0, 1.0)
      else if input.value == 1 then (40, 1.0)
      else if input.value == 2 then (40, 0.925)
      else if input.value == 3 then (45, 0.915)
      else if input.value == 4 then (50, 0.91)
      else (55, 0.89);
    ReloadModifierResponse(modifiers.0, modifiers.1)
  }

  /**
   * The three Speedloader Slacks tables agree at every stack count: the
   * stat map's reload bump is the reload formula's addition and its
   * handling bump is the handling formula's addition.
   */
  lemma SpeedloaderSlacksConsistent(input: Input)
    ensures SpeedloaderSlacksStats(input)[Reload] == SpeedloaderSlacksReload(input).reloadStatAdd
    ensures SpeedloaderSlacksStats(input)[Handling] == SpeedloaderSlacksHandling(input).statAdd
  {
  }

  /** Stacks above 5 behave exactly like 5 stacks, in all three tables. */
  lemma SpeedloaderSlacksSaturates(input: Input)
    requires input.value > 5
    ensures SpeedloaderSlacksStats(input) == SpeedloaderSlacksStats(input.(value := 5))
    ensures SpeedloaderSlacksHandling(input) == SpeedloaderSlacksHandling(input.(value := 5))
    ensures SpeedloaderSlacksReload(input) == SpeedloaderSlacksReload(input.(value := 5))
  {
  }

  /** More stacks never lower a bump and never lengthen the reload. */
  lemma SpeedloaderSlacksMonotone(input: Input, more: nat)
    requires input.value <= more
    ensures var s1, s2 := SpeedloaderSlacksStats(input), SpeedloaderSlacksStats(input.(value := more));
            s1[Reload] <= s2[Reload] && s1[Handling] <= s2[Handling] && s1[Airborne] <= s2[Airborne]
    ensures SpeedloaderSlacksHandling(input).statAdd <= SpeedloaderSlacksHandling(input.(value := more)).statAdd
    ensures SpeedloaderSlacksReload(input.(value := more)).reloadTimeScale <= SpeedloaderSlacksReload(input).reloadTimeScale
  {
  }

  /** Luna Faction Boots: +100 reload from rank 1. */
  function LunaFactionStats(input: Input): (m: StatBumps)
    ensures input.value == 0 ==> m == map[]
    ensures input.value >= 1 ==> m.Keys == {Reload} && m[Reload] == 100
  {
    if input.value >= 1 then map[Reload := 100] else map[]
  }

  function LunaFactionReload(input: Input): (r: ReloadModifierResponse)
    ensures input.value == 0 <==> r == ReloadDefault
    ensures input.value >= 1 ==> r.reloadStatAdd == 100 && r.reloadTimeScale == 0.9
  {
    if input.value >= 1 then ReloadModifierResponse(100, 0.9) else ReloadDefault
  }

  function LunaFactionRange(input: Input): (r: RangeModifierResponse)
    ensures input.value < 2 <==> r == RangeDefault
    ensures input.value >= 2 ==> r.rangeAllScale == 2.0
  {
    if input.value >= 2 then RangeModifierResponse(2.0) else RangeDefault
  }

  /**
   * The reload bonus comes on at rank 1 and the range bonus only at rank
   * 2: at rank 1 the reload formula is active while range is the default.
   */
  lemma LunaFactionTiers(input: Input)
    ensures input.value == 1 ==> LunaFactionReload(input) != ReloadDefault && LunaFactionRange(input) == RangeDefault
    ensures LunaFactionRange(input) != RangeDefault ==> LunaFactionReload(input) != ReloadDefault
    ensures input.value >= 1 ==> LunaFactionStats(input)[Reload] == LunaFactionReload(input).reloadStatAdd
  {
  }

  /** Triton Vice: +50 reload on Glaives from rank 1. */
  function TritonViceStats(input: Input): (m: StatBumps)
    ensures !(input.value > 0 && input.weaponType == Glaive) ==> m == map[]
    ensures input.value > 0 && input.weaponType == Glaive ==> m.Keys == {Reload} && m[Reload] == 50
  {
    if input.value > 0 && input.weaponType == Glaive then map[Reload := 50] else map[]
  }
}
