/**
 * The buff and debuff formulas of `buff_perks()`. Formulas that call a
 * stacking resolver take the calculation's cache and return the response
 * together with the cache after the call; the others are plain functions
 * of the input.
 *
 * Every resolver-calling formula requires its family's stored value to be
 * positive, so that the resolver's division is defined; every cache the
 * resolvers build from an empty one satisfies this (`Stacking.WellFormed`).
 */
module BuffPerks {
  import opened Types
  import opened Stacking

  // ---------------------------------------------------------------------
  // Empowering buffs
  // ---------------------------------------------------------------------

  /** Well of Radiance: always asks the empowering family for 1.25, whatever the rank. */
  method WellOfRadiance(input: Input, cache: Cache) returns (r: DamageModifierResponse, cache': Cache)
    requires Current(cache, Empowering) > 0.0
    ensures var s := Ratchet(cache, Empowering, 1.25);
            r == BasicDmgBuff(s.factor) && cache' == s.cache
    ensures Current(cache', Empowering) >= 1.25
    ensures OnlyTouches(cache, cache', {Key(Empowering)})
    ensures WellFormed(cache) ==> WellFormed(cache')
  {
    var buff;
    buff, cache' := EmpBuff(cache, 1.25);
    RatchetFrame(cache, Empowering, 1.25);
    r := BasicDmgBuff(buff);
  }

  /** Noble Rounds: inert at rank 0; otherwise 1.15 (PvP) or 1.35 (PvE). */
  method NobleRounds(input: Input, cache: Cache) returns (r: DamageModifierResponse, cache': Cache)
    requires Current(cache, Empowering) > 0.0
    ensures input.value == 0 ==> r == DamageDefault && cache' == cache
    ensures input.value > 0 ==>
              var s := Ratchet(cache, Empowering, if input.pvp then 1.15 else 1.35);
              r == BasicDmgBuff(s.factor) && cache' == s.cache
    ensures OnlyTouches(cache, cache', {Key(Empowering)})
    ensures WellFormed(cache) ==> WellFormed(cache')
  {
    if input.value == 0 {
      return DamageDefault, cache;
    }
    var desired := if input.pvp then 1.15 else 1.35;
    var buff;
    buff, cache' := EmpBuff(cache, desired);
    RatchetFrame(cache, Empowering, desired);
    r := BasicDmgBuff(buff);
  }

  /**
   * Radiant: 1.1 (PvP) or 1.2 (PvE) on the empowering family, and the one
   * formula that writes a key outside the three families: it records
   * "radiant" as 1.0 after resolving.
   */
  method Radiant(input: Input, cache: Cache) returns (r: DamageModifierResponse, cache': Cache)
    requires Current(cache, Empowering) > 0.0
    ensures var s := Ratchet(cache, Empowering, if input.pvp then 1.1 else 1.2);
            r == BasicDmgBuff(s.factor) && cache' == s.cache["radiant" := 1.0]
    ensures "radiant" in cache' && cache'["radiant"] == 1.0
    ensures OnlyTouches(cache, cache', {Key(Empowering), "radiant"})
    ensures forall f :: Current(cache', f) == Current(Ratchet(cache, Empowering, if input.pvp then 1.1 else 1.2).cache, f)
    ensures WellFormed(cache) ==> WellFormed(cache')
  {
    var desired := if input.pvp then 1.1 else 1.2;
    var buff, c1 := EmpBuff(cache, desired);
    RatchetFrame(cache, Empowering, desired);
    cache' := c1["radiant" := 1.0];
    forall f ensures Current(cache', f) == Current(c1, f) {
      assert Key(f) != "radiant";
    }
    r := BasicDmgBuff(buff);
  }

  /** Banner Shield: 1.35 (PvP) or 1.4 (PvE), whatever the rank. */
  method BannerShield(input: Input, cache: Cache) returns (r: DamageModifierResponse, cache': Cache)
    requires Current(cache, Empowering) > 0.0
    ensures var s := Ratchet(cache, Empowering, if input.pvp then 1.35 else 1.4);
            r == BasicDmgBuff(s.factor) && cache' == s.cache
    ensures OnlyTouches(cache, cache', {Key(Empowering)})
    ensures WellFormed(cache) ==> WellFormed(cache')
  {
    var desired := if input.pvp then 1.35 else 1.4;
    var buff;
    buff, cache' := EmpBuff(cache, desired);
    RatchetFrame(cache, Empowering, desired);
    r := BasicDmgBuff(buff);
  }

  /** Empowering Rift: 1.15 (PvP) or 1.2 (PvE), whatever the rank. */
  method EmpRift(input: Input, cache: Cache) returns (r: DamageModifierResponse, cache': Cache)
    requires Current(cache, Empowering) > 0.0
    ensures var s := Ratchet(cache, Empowering, if input.pvp then 1.15 else 1.2);
            r == BasicDmgBuff(s.factor) && cache' == s.cache
    ensures OnlyTouches(cache, cache', {Key(Empowering)})
    ensures WellFormed(cache) ==> WellFormed(cache')
  {
    var desired := if input.pvp then 1.15 else 1.2;
    var buff;
    buff, cache' := EmpBuff(cache, desired);
    RatchetFrame(cache, Empowering, desired);
    r := BasicDmgBuff(buff);
  }

  /** Ward of Dawn: always 1.25, whatever the rank. */
  method WardOfDawn(input: Input, cache: Cache) returns (r: DamageModifierResponse, cache': Cache)
    requires Current(cache, Empowering) > 0.0
    ensures var s := Ratchet(cache, Empowering, 1.25);
            r == BasicDmgBuff(s.factor) && cache' == s.cache
    ensures Current(cache', Empowering) >= 1.25
    ensures OnlyTouches(cache, cache', {Key(Empowering)})
    ensures WellFormed(cache) ==> WellFormed(cache')
  {
    var buff;
    buff, cache' := EmpBuff(cache, 1.25);
    RatchetFrame(cache, Empowering, 1.25);
    r := BasicDmgBuff(buff);
  }

  /**
   * Gyrfalcon's Hauberk: 1.35 in PvE; in PvP it asks for 1.0, which a
   * well-formed cache always covers.
   */
  method Gyrfalcon(input: Input, cache: Cache) returns (r: DamageModifierResponse, cache': Cache)
    requires Current(cache, Empowering) > 0.0
    ensures var s := Ratchet(cache, Empowering, if input.pvp then 1.0 else 1.35);
            r == BasicDmgBuff(s.factor) && cache' == s.cache
    ensures input.pvp && WellFormed(cache) ==> r == BasicDmgBuff(1.0) && cache' == cache
    ensures OnlyTouches(cache, cache', {Key(Empowering)})
    ensures WellFormed(cache) ==> WellFormed(cache')
  {
    var desired := if input.pvp then 1.0 else 1.35;
    var buff;
    buff, cache' := EmpBuff(cache, desired);
    RatchetFrame(cache, Empowering, desired);
    if input.pvp && WellFormed(cache) {
      RatchetToOneIsNoop(cache, Empowering);
    }
    r := BasicDmgBuff(buff);
  }

  /**
   * Aeon Insight: inert at rank 0; otherwise both damage scales take the
   * empowering factor for 1.0 (PvP) or 1.35 (PvE).
   */
  method AeonInsight(input: Input, cache: Cache) returns (r: DamageModifierResponse, cache': Cache)
    requires Current(cache, Empowering) > 0.0
    ensures input.value == 0 ==> r == DamageDefault && cache' == cache
    ensures input.value > 0 ==>
              var s := Ratchet(cache, Empowering, if input.pvp then 1.0 else 1.35);
              r == DamageScales(s.factor, s.factor) && cache' == s.cache
    ensures input.pvp && WellFormed(cache) ==> r == DamageDefault && cache' == cache
    ensures OnlyTouches(cache, cache', {Key(Empowering)})
    ensures WellFormed(cache) ==> WellFormed(cache')
  {
    if input.value > 0 {
      var desired := if input.pvp then 1.0 else 1.35;
      var buff;
      buff, cache' := EmpBuff(cache, desired);
      RatchetFrame(cache, Empowering, desired);
      if input.pvp && WellFormed(cache) {
        RatchetToOneIsNoop(cache, Empowering);
      }
      r := DamageScales(buff, buff);
    } else {
      r, cache' := DamageDefault, cache;
    }
  }

  /** Umbral Sharpening's PvE table, indexed by the rank clamped to 0..3. */
  function UmbralSharpeningTable(value: nat): (r: real)
    ensures 1.2 <= r <= 1.4
    ensures value >= 3 ==> r == 1.4
  {
    [1.2, 1.25, 1.35, 1.4][Clamp(value, 0, 3)]
  }

  /** The table grows with the rank; rank 0 already asks for 1.2. */
  lemma UmbralSharpeningTableMonotone(v1: nat, v2: nat)
    requires v1 <= v2
    ensures UmbralSharpeningTable(v1) <= UmbralSharpeningTable(v2)
    ensures UmbralSharpeningTable(0) == 1.2
  {
  }

  /**
   * Umbral Sharpening: the clamped PvE table, or 1.0 in PvP. Rank 0 is
   * not a gate: in PvE it still asks for 1.2.
   */
  method UmbralSharpening(input: Input, cache: Cache) returns (r: DamageModifierResponse, cache': Cache)
    requires Current(cache, Empowering) > 0.0
    ensures var s := Ratchet(cache, Empowering, if input.pvp then 1.0 else UmbralSharpeningTable(input.value));
            r == BasicDmgBuff(s.factor) && cache' == s.cache
    ensures !input.pvp ==> Current(cache', Empowering) >= 1.2
    ensures input.pvp && WellFormed(cache) ==> r == BasicDmgBuff(1.0) && cache' == cache
    ensures OnlyTouches(cache, cache', {Key(Empowering)})
    ensures WellFormed(cache) ==> WellFormed(cache')
  {
    var desired := if input.pvp then 1.0 else UmbralSharpeningTable(input.value);
    var buff;
    buff, cache' := EmpBuff(cache, desired);
    RatchetFrame(cache, Empowering, desired);
    if input.pvp && WellFormed(cache) {
      RatchetToOneIsNoop(cache, Empowering);
    }
    r := BasicDmgBuff(buff);
  }

  /** Worm Byproduct: a flat 1.15 on both scales from rank 1, outside every family. */
  function WormByproduct(input: Input): (r: DamageModifierResponse)
    ensures input.value == 0 <==> r == DamageDefault
    ensures r.DamageScales? && r.impactDmgScale == r.explosiveDmgScale
    ensures input.value > 0 ==> r.impactDmgScale == 1.15
  {
    if input.value > 0 then DamageScales(1.15, 1.15) else DamageDefault
  }

  // ---------------------------------------------------------------------
  // Debuffs
  // ---------------------------------------------------------------------

  /** Weaken: 1.075 (PvP) or 1.15 (PvE) on the debuff family. */
  method Weaken(input: Input, cache: Cache) returns (r: DamageModifierResponse, cache': Cache)
    requires Current(cache, Debuff) > 0.0
    ensures var s := Ratchet(cache, Debuff, if input.pvp then 1.075 else 1.15);
            r == BasicDmgBuff(s.factor) && cache' == s.cache
    ensures OnlyTouches(cache, cache', {Key(Debuff)})
    ensures WellFormed(cache) ==> WellFormed(cache')
  {
    var desired := if input.pvp then 1.075 else 1.15;
    var debuff;
    debuff, cache' := GblDebuff(cache, desired);
    RatchetFrame(cache, Debuff, desired);
    r := BasicDmgBuff(debuff);
  }

  /**
   * The 1.5 (PvP) / 1.3 (PvE) debuff shared by Tractor Cannon, Moebius
   * Quiver and Deadfall: all three run this same body.
   */
  method HeavyDebuff(input: Input, cache: Cache) returns (r: DamageModifierResponse, cache': Cache)
    requires Current(cache, Debuff) > 0.0
    ensures var s := Ratchet(cache, Debuff, if input.pvp then 1.5 else 1.3);
            r == BasicDmgBuff(s.factor) && cache' == s.cache
    ensures OnlyTouches(cache, cache', {Key(Debuff)})
    ensures WellFormed(cache) ==> WellFormed(cache')
  {
    var desired := if input.pvp then 1.5 else 1.3;
    var debuff;
    debuff, cache' := GblDebuff(cache, desired);
    RatchetFrame(cache, Debuff, desired);
    r := BasicDmgBuff(debuff);
  }

  /** Felwinter's Helm: inert at rank 0; otherwise a 1.3 debuff in both modes. */
  method Felwinters(input: Input, cache: Cache) returns (r: DamageModifierResponse, cache': Cache)
    requires Current(cache, Debuff) > 0.0
    ensures input.value == 0 ==> r == DamageDefault && cache' == cache
    ensures input.value > 0 ==>
              var s := Ratchet(cache, Debuff, 1.3);
              r == BasicDmgBuff(s.factor) && cache' == s.cache
    ensures OnlyTouches(cache, cache', {Key(Debuff)})
    ensures WellFormed(cache) ==> WellFormed(cache')
  {
    if input.value > 0 {
      var debuff;
      debuff, cache' := GblDebuff(cache, 1.3);
      RatchetFrame(cache, Debuff, 1.3);
      r := BasicDmgBuff(debuff);
    } else {
      r, cache' := DamageDefault, cache;
    }
  }

  /** The Enhanced Scanner Augment PvE table, indexed by the rank clamped to 0..4. */
  function ScannerAugmentTable(value: nat): (r: real)
    ensures 1.08 <= r <= 1.2
    ensures value >= 4 ==> r == 1.2
  {
    [1.08, 1.137, 1.173, 1.193, 1.2][Clamp(value, 0, 4)]
  }

  lemma ScannerAugmentTableMonotone(v1: nat, v2: nat)
    requires v1 <= v2
    ensures ScannerAugmentTable(v1) <= ScannerAugmentTable(v2)
    ensures ScannerAugmentTable(0) == 1.08
  {
  }

  /** Enhanced Scanner Augment: the clamped PvE table on the debuff family, 1.0 in PvP. */
  method EnhancedScannerAugment(input: Input, cache: Cache) returns (r: DamageModifierResponse, cache': Cache)
    requires Current(cache, Debuff) > 0.0
    ensures var s := Ratchet(cache, Debuff, if input.pvp then 1.0 else ScannerAugmentTable(input.value));
            r == BasicDmgBuff(s.factor) && cache' == s.cache
    ensures input.pvp && WellFormed(cache) ==> r == BasicDmgBuff(1.0) && cache' == cache
    ensures OnlyTouches(cache, cache', {Key(Debuff)})
    ensures WellFormed(cache) ==> WellFormed(cache')
  {
    var desired := if input.pvp then 1.0 else ScannerAugmentTable(input.value);
    var debuff;
    debuff, cache' := GblDebuff(cache, desired);
    RatchetFrame(cache, Debuff, desired);
    if input.pvp && WellFormed(cache) {
      RatchetToOneIsNoop(cache, Debuff);
    }
    r := BasicDmgBuff(debuff);
  }

  // ---------------------------------------------------------------------
  // Surges
  // ---------------------------------------------------------------------

  /** Path of the Burning Steps: surge at the perk's own tier, Solar only, inert at rank 0. */
  method PathOfTheBurningSteps(input: Input, cache: Cache) returns (r: DamageModifierResponse, cache': Cache)
    requires Current(cache, Surge) > 0.0
    ensures input.value == 0 || input.damageType != Solar ==> r == DamageDefault && cache' == cache
    ensures input.value > 0 && input.damageType == Solar ==>
              var s := Ratchet(cache, Surge, SurgeTable(input.pvp, input.value));
              r == SurgeDmgBuff(s.factor) && cache' == s.cache
    ensures OnlyTouches(cache, cache', {Key(Surge)})
    ensures WellFormed(cache) ==> WellFormed(cache')
  {
    if input.value == 0 || input.damageType != Solar {
      return DamageDefault, cache;
    }
    var buff;
    buff, cache' := SurgeBuff(cache, input.value, input.pvp);
    RatchetFrame(cache, Surge, SurgeTable(input.pvp, input.value));
    r := SurgeDmgBuff(buff);
  }

  /**
   * The surge at the perk's own tier with no gate, shared by the surge
   * armor mod and Eternal Warrior: both run this same body. At rank 0 the
   * table asks for 1.0, so a well-formed cache is left as it was.
   */
  method OwnTierSurge(input: Input, cache: Cache) returns (r: DamageModifierResponse, cache': Cache)
    requires Current(cache, Surge) > 0.0
    ensures var s := Ratchet(cache, Surge, SurgeTable(input.pvp, input.value));
            r == SurgeDmgBuff(s.factor) && cache' == s.cache
    ensures input.value == 0 && WellFormed(cache) ==> r == SurgeDmgBuff(1.0) && cache' == cache
    ensures OnlyTouches(cache, cache', {Key(Surge)})
    ensures WellFormed(cache) ==> WellFormed(cache')
  {
    var buff;
    buff, cache' := SurgeBuff(cache, input.value, input.pvp);
    RatchetFrame(cache, Surge, SurgeTable(input.pvp, input.value));
    r := SurgeDmgBuff(buff);
  }

  /**
   * The top-tier surge behind a gate: Mantle of Battle Harmony (gate: rank
   * above 0) and Mask of Bakris (gate: rank above 0 and Stasis or Arc).
   * When the gate fails the response is the surge wrapper around 1.0 and
   * the cache is untouched.
   */
  method GatedTopSurge(gate: bool, pvp: bool, cache: Cache) returns (r: DamageModifierResponse, cache': Cache)
    requires Current(cache, Surge) > 0.0
    ensures !gate ==> r == SurgeDmgBuff(1.0) && cache' == cache
    ensures gate ==>
              var s := Ratchet(cache, Surge, if pvp then 1.060 else 1.25);
              r == SurgeDmgBuff(s.factor) && cache' == s.cache
    ensures gate ==> Current(cache', Surge) >= (if pvp then 1.060 else 1.25)
    ensures OnlyTouches(cache, cache', {Key(Surge)})
    ensures WellFormed(cache) ==> WellFormed(cache')
  {
    var buff := 1.0;
    cache' := cache;
    if gate {
      buff, cache' := SurgeBuff(cache, 4, pvp);
      RatchetFrame(cache, Surge, SurgeTable(pvp, 4));
    }
    r := SurgeDmgBuff(buff);
  }

  method MantleOfBattleHarmony(input: Input, cache: Cache) returns (r: DamageModifierResponse, cache': Cache)
    requires Current(cache, Surge) > 0.0
    ensures input.value == 0 ==> r == SurgeDmgBuff(1.0) && cache' == cache
    ensures input.value > 0 ==>
              var s := Ratchet(cache, Surge, if input.pvp then 1.060 else 1.25);
              r == SurgeDmgBuff(s.factor) && cache' == s.cache
    ensures OnlyTouches(cache, cache', {Key(Surge)})
    ensures WellFormed(cache) ==> WellFormed(cache')
  {
    r, cache' := GatedTopSurge(input.value > 0, input.pvp, cache);
  }

  method MaskOfBakris(input: Input, cache: Cache) returns (r: DamageModifierResponse, cache': Cache)
    requires Current(cache, Surge) > 0.0
    ensures !(input.value > 0 && input.damageType in {Stasis, Arc}) ==> r == SurgeDmgBuff(1.0) && cache' == cache
    ensures input.value > 0 && input.damageType in {Stasis, Arc} ==>
              var s := Ratchet(cache, Surge, if input.pvp then 1.060 else 1.25);
              r == SurgeDmgBuff(s.factor) && cache' == s.cache
    ensures OnlyTouches(cache, cache', {Key(Surge)})
    ensures WellFormed(cache) ==> WellFormed(cache')
  {
    r, cache' := GatedTopSurge(input.value > 0 && input.damageType in {Stasis, Arc}, input.pvp, cache);
  }

  /**
   * The top-tier surge behind a gate that falls back to the default
   * response: Sanguine Alchemy (not Kinetic), Foetracer (any damage type)
   * and Glacial Guard (Stasis only), each inert at rank 0.
   */
  method DefaultGatedTopSurge(gate: bool, pvp: bool, cache: Cache) returns (r: DamageModifierResponse, cache': Cache)
    requires Current(cache, Surge) > 0.0
    ensures !gate ==> r == DamageDefault && cache' == cache
    ensures gate ==>
              var s := Ratchet(cache, Surge, if pvp then 1.060 else 1.25);
              r == SurgeDmgBuff(s.factor) && cache' == s.cache
    ensures OnlyTouches(cache, cache', {Key(Surge)})
    ensures WellFormed(cache) ==> WellFormed(cache')
  {
    if !gate {
      return DamageDefault, cache;
    }
    var mult;
    mult, cache' := SurgeBuff(cache, 4, pvp);
    RatchetFrame(cache, Surge, SurgeTable(pvp, 4));
    r := SurgeDmgBuff(mult);
  }

  method SanguineAlchemy(input: Input, cache: Cache) returns (r: DamageModifierResponse, cache': Cache)
    requires Current(cache, Surge) > 0.0
    ensures input.value == 0 || input.damageType == Kinetic ==> r == DamageDefault && cache' == cache
    ensures input.value > 0 && input.damageType != Kinetic ==>
              var s := Ratchet(cache, Surge, if input.pvp then 1.060 else 1.25);
              r == SurgeDmgBuff(s.factor) && cache' == s.cache
    ensures OnlyTouches(cache, cache', {Key(Surge)})
    ensures WellFormed(cache) ==> WellFormed(cache')
  {
    r, cache' := DefaultGatedTopSurge(!(input.value == 0 || input.damageType == Kinetic), input.pvp, cache);
  }

  method Foetracers(input: Input, cache: Cache) returns (r: DamageModifierResponse, cache': Cache)
    requires Current(cache, Surge) > 0.0
    ensures input.value == 0 ==> r == DamageDefault && cache' == cache
    ensures input.value > 0 ==>
              var s := Ratchet(cache, Surge, if input.pvp then 1.060 else 1.25);
              r == SurgeDmgBuff(s.factor) && cache' == s.cache
    ensures OnlyTouches(cache, cache', {Key(Surge)})
    ensures WellFormed(cache) ==> WellFormed(cache')
  {
    r, cache' := DefaultGatedTopSurge(input.value != 0, input.pvp, cache);
  }

  method GlacialGuard(input: Input, cache: Cache) returns (r: DamageModifierResponse, cache': Cache)
    requires Current(cache, Surge) > 0.0
    ensures input.value == 0 || input.damageType != Stasis ==> r == DamageDefault && cache' == cache
    ensures input.value > 0 && input.damageType == Stasis ==>
              var s := Ratchet(cache, Surge, if input.pvp then 1.060 else 1.25);
              r == SurgeDmgBuff(s.factor) && cache' == s.cache
    ensures OnlyTouches(cache, cache', {Key(Surge)})
    ensures WellFormed(cache) ==> WellFormed(cache')
  {
    r, cache' := DefaultGatedTopSurge(!(input.value == 0 || input.damageType != Stasis), input.pvp, cache);
  }

  /**
   * Doom Fang Pauldron: Void only and inert at rank 0; otherwise both
   * damage scales take the surge factor at the perk's own tier.
   */
  method DoomFang(input: Input, cache: Cache) returns (r: DamageModifierResponse, cache': Cache)
    requires Current(cache, Surge) > 0.0
    ensures input.damageType != Void || input.value == 0 ==> r == DamageDefault && cache' == cache
    ensures input.damageType == Void && input.value > 0 ==>
              var s := Ratchet(cache, Surge, SurgeTable(input.pvp, input.value));
              r == DamageScales(s.factor, s.factor) && cache' == s.cache
    ensures OnlyTouches(cache, cache', {Key(Surge)})
    ensures WellFormed(cache) ==> WellFormed(cache')
  {
    if input.damageType != Void || input.value == 0 {
      return DamageDefault, cache;
    }
    var buff;
    buff, cache' := SurgeBuff(cache, input.value, input.pvp);
    RatchetFrame(cache, Surge, SurgeTable(input.pvp, input.value));
    r := DamageScales(buff, buff);
  }

  // ---------------------------------------------------------------------
  // Empowering buffs on damage scales
  // ---------------------------------------------------------------------

  /** No Backup Plans: Shotguns only, inert at rank 0; 1.10 (PvP) or 1.35 (PvE). */
  method NoBackupPlans(input: Input, cache: Cache) returns (r: DamageModifierResponse, cache': Cache)
    requires Current(cache, Empowering) > 0.0
    ensures input.weaponType != Shotgun || input.value == 0 ==> r == DamageDefault && cache' == cache
    ensures input.weaponType == Shotgun && input.value > 0 ==>
              var s := Ratchet(cache, Empowering, if input.pvp then 1.10 else 1.35);
              r == DamageScales(s.factor, s.factor) && cache' == s.cache
    ensures OnlyTouches(cache, cache', {Key(Empowering)})
    ensures WellFormed(cache) ==> WellFormed(cache')
  {
    if input.weaponType != Shotgun || input.value == 0 {
      return DamageDefault, cache;
    }
    var desired := if input.pvp then 1.10 else 1.35;
    var buff;
    buff, cache' := EmpBuff(cache, desired);
    RatchetFrame(cache, Empowering, desired);
    r := DamageScales(buff, buff);
  }

  /**
   * Burning Fists' table: (PvE, PvP) desired multipliers by stack count;
   * counts above 5 reuse the count-5 pair.
   */
  function BurningFistsTable(value: nat): (r: (real, real))
    ensures 1.0 <= r.1 <= r.0 <= 1.35
    ensures value >= 5 ==> r == (1.35, 1.25)
  {
    if value == 1 then (1.0, 1.0)
    else if value == 2 then (1.2, 1.0)
    else if value == 3 then (1.25, 1.2)
    else if value == 4 then (1.3, 1.25)
    else (1.35, 1.25)
  }

  /** More stacks never ask for less, in either mode. */
  lemma BurningFistsTableMonotone(v1: nat, v2: nat)
    requires 1 <= v1 <= v2
    ensures BurningFistsTable(v1).0 <= BurningFistsTable(v2).0
    ensures BurningFistsTable(v1).1 <= BurningFistsTable(v2).1
  {
  }

  /** Burning Fists: inert at rank 0; otherwise the table's PvP or PvE entry on both scales. */
  method BurningFists(input: Input, cache: Cache) returns (r: DamageModifierResponse, cache': Cache)
    requires Current(cache, Empowering) > 0.0
    ensures input.value == 0 ==> r == DamageDefault && cache' == cache
    ensures input.value > 0 ==>
              var t := BurningFistsTable(input.value);
              var s := Ratchet(cache, Empowering, if input.pvp then t.1 else t.0);
              r == DamageScales(s.factor, s.factor) && cache' == s.cache
    ensures input.value == 1 && WellFormed(cache) ==> r == DamageScales(1.0, 1.0) && cache' == cache
    ensures OnlyTouches(cache, cache', {Key(Empowering)})
    ensures WellFormed(cache) ==> WellFormed(cache')
  {
    if input.value == 0 {
      return DamageDefault, cache;
    }
    var buffs := BurningFistsTable(input.value);
    var desired := if input.pvp then buffs.1 else buffs.0;
    var weaponBuff;
    weaponBuff, cache' := EmpBuff(cache, desired);
    RatchetFrame(cache, Empowering, desired);
    if input.value == 1 && WellFormed(cache) {
      RatchetToOneIsNoop(cache, Empowering);
    }
    r := DamageScales(weaponBuff, weaponBuff);
  }

  // ---------------------------------------------------------------------
  // Stat, handling and reload formulas
  // ---------------------------------------------------------------------

  /**
   * Lucent Blades: Swords only, nothing at rank 0; otherwise a single
   * charge-rate bump of 30, 50 or 60 (rank 3 and above).
   */
  function LucentBlades(input: Input): (m: StatBumps)
    ensures input.weaponType != Sword || input.value == 0 <==> m == map[]
    ensures m != map[] ==> m.Keys == {ChargeRate} && 30 <= m[ChargeRate] <= 60
    ensures input.weaponType == Sword && input.value == 1 ==> m == map[ChargeRate := 30]
    ensures input.weaponType == Sword && input.value == 2 ==> m == map[ChargeRate := 50]
    ensures input.weaponType == Sword && input.value >= 3 ==> m == map[ChargeRate := 60]
  {
    if input.weaponType != Sword then map[]
    else if input.value == 0 then map[]
    else
      var statBump := if input.value == 1 then 30 else if input.value == 2 then 50 else 60;
      map[ChargeRate := statBump]
  }

  /** A higher rank never lowers Lucent Blades' charge-rate bump. */
  lemma LucentBladesMonotone(input: Input, higher: nat)
    requires input.weaponType == Sword && 1 <= input.value <= higher
    ensures LucentBlades(input)[ChargeRate] <= LucentBlades(input.(value := higher))[ChargeRate]
  {
  }

  /** Aeon Force's reload formula: +30 reload stat and a 0.85 time scale from rank 1. */
  function AeonForceReload(input: Input): (r: ReloadModifierResponse)
    ensures input.value == 0 <==> r == ReloadDefault
    ensures input.value > 0 ==> r.reloadStatAdd == 30 && r.reloadTimeScale == 0.85
  {
    if input.value == 0 then ReloadDefault else ReloadModifierResponse(30, 0.85)
  }

  /** Aeon Force's stat bumps: reload 30 and handling 40 from rank 1. */
  function AeonForceStats(input: Input): (m: StatBumps)
    ensures input.value == 0 ==> m == map[]
    ensures input.value > 0 ==> m.Keys == {Reload, Handling} && m[Reload] == 30 && m[Handling] == 40
  {
    if input.value == 0 then map[] else map[Reload := 30, Handling := 40]
  }

  /** Aeon Force's handling formula: +40 handling from rank 1, other fields at their defaults. */
  function AeonForceHandling(input: Input): (h: HandlingModifierResponse)
    ensures input.value == 0 <==> h == HandlingDefault
    ensures h == HandlingDefault.(statAdd := h.statAdd)
  {
    if input.value == 0 then HandlingDefault else HandlingDefault.(statAdd := 40)
  }

  /**
   * Aeon Force's three formulas agree: the stat map's reload and handling
   * bumps are the reload and handling formulas' stat additions, and all
   * three are inert together at rank 0.
   */
  lemma AeonForceConsistent(input: Input)
    ensures input.value > 0 ==>
              && AeonForceStats(input)[Reload] == AeonForceReload(input).reloadStatAdd
              && AeonForceStats(input)[Handling] == AeonForceHandling(input).statAdd
    ensures (AeonForceStats(input) == map[]) == (AeonForceReload(input) == ReloadDefault)
    ensures (AeonForceStats(input) == map[]) == (AeonForceHandling(input) == HandlingDefault)
  {
  }
}
