/**
 * End-to-end runs of several formulas against one calculation's cache,
 * starting from an empty cache, as a damage calculation would issue them.
 */
module Scenarios {
  import opened Types
  import opened Stacking
  import opened BuffPerks

  function PveInput(value: nat): Input {
    Input(value, false, AutoRifle, Kinetic, Primary, 0, map[])
  }

  function PvpInput(value: nat): Input {
    Input(value, true, AutoRifle, Kinetic, Primary, 0, map[])
  }

  /** PvE, one tier-2 surge on an empty cache: the full 1.17 is granted. */
  method SurgeOnce() returns (r: DamageModifierResponse, cache: Cache)
    ensures r == SurgeDmgBuff(1.17)
    ensures cache == map["surge" := 1.17]
  {
    r, cache := OwnTierSurge(PveInput(2), map[]);
  }

  /**
   * PvE, two tier-2 surges in a row: the second is already covered and
   * returns 1.0, so the combined surge stays 1.17.
   */
  method SurgeTwice() returns (r1: DamageModifierResponse, r2: DamageModifierResponse)
    ensures r1 == SurgeDmgBuff(1.17) && r2 == SurgeDmgBuff(1.0)
  {
    var cache;
    r1, cache := OwnTierSurge(PveInput(2), map[]);
    r2, cache := OwnTierSurge(PveInput(2), cache);
  }

  /**
   * PvP, Banner Shield (empowering 1.35) then Noble Rounds (empowering
   * 1.15): the weaker request is subsumed, so the combined factor is 1.35.
   */
  method EmpoweringSubsumed() returns (r1: DamageModifierResponse, r2: DamageModifierResponse, cache: Cache)
    ensures r1 == BasicDmgBuff(1.35) && r2 == BasicDmgBuff(1.0)
    ensures cache == map["empowering" := 1.35]
  {
    r1, cache := BannerShield(PvpInput(1), map[]);
    r2, cache := NobleRounds(PvpInput(1), cache);
  }

  /**
   * PvE, a weaker empowering buff first and a stronger one after: the
   * second call pays only the difference, 1.4 / 1.2, so the two factors
   * multiply to the stronger buff.
   */
  method EmpoweringUpgraded() returns (r1: DamageModifierResponse, r2: DamageModifierResponse)
    ensures r1 == BasicDmgBuff(1.2) && r2.BasicDmgBuff?
    ensures r1.buff * r2.buff == 1.4
  {
    var cache;
    r1, cache := EmpRift(PveInput(1), map[]);
    r2, cache := BannerShield(PveInput(1), cache);
  }

  /**
   * PvE, families side by side: a debuff, an empowering buff and a surge
   * are each granted in full, and a later Radiant is subsumed by Well of
   * Radiance while still recording its own "radiant" entry.
   */
  method FamiliesCompose() returns (d: DamageModifierResponse, e: DamageModifierResponse, s: DamageModifierResponse, rad: DamageModifierResponse, cache: Cache)
    ensures d == BasicDmgBuff(1.15) && e == BasicDmgBuff(1.25) && s == SurgeDmgBuff(1.25)
    ensures rad == BasicDmgBuff(1.0)
    ensures cache == map["debuff" := 1.15, "empowering" := 1.25, "surge" := 1.25, "radiant" := 1.0]
  {
    d, cache := Weaken(PveInput(1), map[]);
    e, cache := WellOfRadiance(PveInput(1), cache);
    s, cache := Foetracers(PveInput(1), cache);
    rad, cache := Radiant(PveInput(1), cache);
  }
}
