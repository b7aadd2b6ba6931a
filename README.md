# Perk modifier formulas of oracle_engine, in Dafny

This project models the per-perk modifier formulas of the oracle_engine
weapon calculator, `src/perks/buff_perks.rs` and `src/perks/exotic_armor.rs`.
It also proves properties of that model.

A formula receives an input and returns a modifier response for one outcome
category: damage, stat bumps, handling, reload, range or flinch. The input
holds:
- the perk's rank (`value`);
- the PvP flag;
- the weapon, damage and ammo type;
- the weapon's intrinsic hash;
- the ranks of all active perks.

Some buffs belong to a stacking family: empowering, surge or debuff. Within a
family, buffs do not multiply. The strongest one wins. Three resolvers enforce
this: `emp_buff`, `surge_buff` and `gbl_debuff`. Each keeps the family's
granted multiplier in a per-calculation cache (`map<string, real>`). A request
already covered by the stored value returns 1.0. Otherwise the resolver raises
the stored value to the request and returns the ratio still owed.

Files and modules:
- `types.dfy` (`Types`): the input, the response records with their identity
  defaults, the cache type, and `Clamp`.
- `stacking.dfy` (`Stacking`): the three resolvers.
  - Each resolver is a method proved equal to one specification function, `Ratchet`.
  - The file also holds lemmas about single calls, about runs of calls
    against one family, and about runs that interleave families.
- `buff_perks.dfy` (`BuffPerks`): the formulas of `buff_perks()`.
  - A formula that calls a resolver is a method. It takes the cache and returns
    the response together with the new cache.
  - The other formulas are functions.
- `exotic_armor.dfy` (`ExoticArmor`): the formulas of `exotic_armor()`. None
  of them writes the cache, so all are functions.
- `scenarios.dfy` (`Scenarios`): fixed runs of several formulas from an empty
  cache.

Modelling choices:
- `f64` is modelled as `real`.
- `u32` ranks are `nat`.
- `i32` stat bumps are `int`.
- The mutable cache is passed in and returned.
- The library helpers `basic_dmg_buff` and `surge_buff` of
  `DamageModifierResponse` are not part of this model. They stay symbolic as
  the constructors `BasicDmgBuff(buff)` and `SurgeDmgBuff(buff)`.
- A response built as a record literal with `..Default::default()` becomes
  the record with the other fields at their identity values.

Some closures in the source have identical bodies. For these closures the model uses one shared member:
- Tractor Cannon, Moebius Quiver and Deadfall all run `HeavyDebuff`.
- The surge mod and Eternal Warrior both run `OwnTierSurge`.

Other closures with identical bodies keep one member per closure, for example Well of Radiance and Ward of Dawn, and the Knucklehead Radar, Hallowfire Heart and Peregrine Greaves stat maps.

Mantle of Battle Harmony and Mask of Bakris share the gate shape of
`GatedTopSurge`. Sanguine Alchemy, Foetracer and Glacial Guard share that of
`DefaultGatedTopSurge`.

Rank 0 is not inert in every formula, and the model follows the code:
- These formulas ignore the rank completely:
  - Well of Radiance, Radiant, Banner Shield, Empowering Rift, Ward of Dawn and Gyrfalcon;
  - the three heavy debuffs and Weaken.
- In PvE at rank 0:
  - Umbral Sharpening still asks for 1.2;
  - Enhanced Scanner Augment still asks for 1.08.
- Mantle of Battle Harmony and Mask of Bakris return the surge wrapper
  around 1.0 rather than the default response.
- The surge mod and Eternal Warrior (`OwnTierSurge`) still call the surge
  resolver at rank 0 and return the surge wrapper around 1.0, not the
  default response.
- Peacekeepers' handling formula ignores the rank.
- Many stat-bump maps are rank-independent:
  - Knucklehead Radar, Hallowfire Heart, Lion Rampart, Peregrine Greaves and
    Eye of Another World;
  - the airborne entry of Astrocyte Verse;
  - all of Mechaneer's Tricksleeves' non-damage formulas;
  - Oathkeeper, No Backup Plans, Actium War Rig, Peacekeepers, Necrotic Grips,
    Boots of the Assembler and Rain of Fire.
- Speedloader Slacks at rank 0 returns a map holding three zero bumps, not an
  empty map.

The family keys are the strings "empowering", "surge" and "debuff", in the code and in the model.

## Model

| member | source | states |
|---|---|---|
| `Types.Clamp` | src/perks/buff_perks.rs:161 | the result lies in [lo, hi], is the input when the input is in range, and is the nearer bound otherwise |
| `Stacking.CurrentReadsKey` | src/perks/buff_perks.rs:16 | a family's stored multiplier is the cached value under its key, and 1.0 when the key is absent, in particular in the empty cache (also lines 38 and 48) |
| `Stacking.KeysDistinct` | src/perks/buff_perks.rs:15-55 | the three families use three different cache keys, so they never read or write one another's entry |
| `Stacking.Ratchet` | src/perks/buff_perks.rs:15-23 | specification of every resolver: the stored value becomes max(old value or 1.0, desired); the factor is at least 1.0, and is exactly 1.0 iff the request was already covered, in which case the cache is unchanged |
| `Stacking.RatchetFactor` | src/perks/buff_perks.rs:21 | the factor returned times the old stored value equals the new stored value |
| `Stacking.RatchetFrame` | src/perks/buff_perks.rs:20 | a call changes no key but its own family's and no other family's value; a cache whose family values are all at least 1.0 keeps that property |
| `Stacking.EmpBuff` | src/perks/buff_perks.rs:15-23 | `emp_buff` returns exactly the factor and cache of `Ratchet` on the empowering family |
| `Stacking.GblDebuff` | src/perks/buff_perks.rs:47-55 | `gbl_debuff` returns exactly the factor and cache of `Ratchet` on the debuff family |
| `Stacking.SurgeTable` | src/perks/buff_perks.rs:26-36 | the tier table lies between 1.0 and the mode's cap (1.060 PvP, 1.25 PvE), is 1.0 exactly at tier 0, and saturates at the cap from tier 4 |
| `Stacking.SurgeTableMonotone` | src/perks/buff_perks.rs:26-36 | a higher tier never asks for less |
| `Stacking.SurgeTablePvpBelowPve` | src/perks/buff_perks.rs:26-36 | at every tier the PvP value is at most the PvE value |
| `Stacking.SurgeBuff` | src/perks/buff_perks.rs:25-45 | `surge_buff` is `Ratchet` on the surge family at the table value; tier 0 on a cache whose surge value is at least 1.0 returns 1.0 and leaves the cache unchanged |
| `Stacking.RatchetToOneIsNoop` | src/perks/buff_perks.rs:16-18 | in a cache where every family value is at least 1.0, a request for 1.0 returns 1.0 and changes nothing |
| `Stacking.RatchetIdempotent` | src/perks/buff_perks.rs:15-23 | repeating a request right after it returns 1.0 and changes nothing |
| `Stacking.RatchetAllState` | src/perks/buff_perks.rs:16-21 | after any run of requests to one family its stored value is the running maximum of its start value and the requests, so it never decreases; no other key changes |
| `Stacking.MaxFromIsMax` | src/perks/buff_perks.rs:17-20 | the running maximum is at least the start and every request, and is the start or one of the requests |
| `Stacking.Telescoping` | src/perks/buff_perks.rs:15-23 | scaling the family's start value by every factor of a run gives the running maximum |
| `Stacking.FreshProductIsMax` | src/perks/buff_perks.rs:15-23 | from a cache without the family's key, the product of a run's factors is max(1.0, all requests): at least 1.0, at least every request, and equal to 1.0 or to one of the requests |
| `Stacking.OrderIndependent` | src/perks/buff_perks.rs:15-23 | two runs of the same requests in any order give the same product of factors and the same final stored value |
| `Stacking.RunRequestsPerFamily` | src/perks/buff_perks.rs:15-55 | in a run interleaving the families, each family ends at the running maximum of its own requests alone |
| `Stacking.ScalesFamilyProduct` | src/perks/buff_perks.rs:20-21 | a call that scales one family's value by its factor scales the product of the three family values by that factor |
| `Stacking.RunRequestsTelescoping` | src/perks/buff_perks.rs:15-55 | scaling the product of the three family values by every factor of an interleaved run gives the product of their final values |
| `Stacking.FreshRunIsProductOfFamilyMaxima` | src/perks/buff_perks.rs:15-55 | from a cache with none of the family keys, an interleaved run's product of factors is the product of the three final family values, each of which is max(1.0, that family's requests) |
| `BuffPerks.WellOfRadiance` | src/perks/buff_perks.rs:61-67 | empowering ratchet to 1.25 at every rank, wrapped as a basic buff; afterwards the empowering value is at least 1.25; only the empowering key changes; well-formedness kept |
| `BuffPerks.NobleRounds` | src/perks/buff_perks.rs:69-79 | rank 0 returns the default and leaves the cache; otherwise empowering ratchet to 1.15 (PvP) / 1.35 (PvE); only the empowering key changes |
| `BuffPerks.Radiant` | src/perks/buff_perks.rs:81-89 | empowering ratchet to 1.1 / 1.2, then "radiant" set to 1.0; only those two keys change and every family value is as after the ratchet |
| `BuffPerks.BannerShield` | src/perks/buff_perks.rs:102-109 | empowering ratchet to 1.35 / 1.4 at every rank; only the empowering key changes |
| `BuffPerks.EmpRift` | src/perks/buff_perks.rs:111-118 | empowering ratchet to 1.15 / 1.2 at every rank; only the empowering key changes |
| `BuffPerks.WardOfDawn` | src/perks/buff_perks.rs:120-126 | empowering ratchet to 1.25 at every rank; afterwards the empowering value is at least 1.25 |
| `BuffPerks.Gyrfalcon` | src/perks/buff_perks.rs:128-135 | empowering ratchet to 1.0 / 1.35; in PvP on a well-formed cache the buff is 1.0 and the cache is unchanged |
| `BuffPerks.AeonInsight` | src/perks/buff_perks.rs:137-152 | rank 0 is the default; otherwise both scales take the empowering factor for 1.0 / 1.35; in PvP on a well-formed cache the result is the default |
| `BuffPerks.UmbralSharpeningTable` | src/perks/buff_perks.rs:157-161 | the PvE request lies in [1.2, 1.4] and saturates at 1.4 from rank 3 |
| `BuffPerks.UmbralSharpeningTableMonotone` | src/perks/buff_perks.rs:157-161 | the request never decreases with the rank, and rank 0 already asks for 1.2 |
| `BuffPerks.UmbralSharpening` | src/perks/buff_perks.rs:154-166 | empowering ratchet to the clamped table (PvE) or 1.0 (PvP); in PvE the empowering value afterwards is at least 1.2, even at rank 0 |
| `BuffPerks.WormByproduct` | src/perks/buff_perks.rs:168-181 | the default exactly at rank 0; otherwise 1.15 on both scales, outside every family |
| `BuffPerks.Weaken` | src/perks/buff_perks.rs:187-194 | debuff ratchet to 1.075 / 1.15; only the debuff key changes |
| `BuffPerks.HeavyDebuff` | src/perks/buff_perks.rs:196-220 | Tractor Cannon, Moebius Quiver and Deadfall: debuff ratchet to 1.5 (PvP) / 1.3 (PvE); only the debuff key changes |
| `BuffPerks.Felwinters` | src/perks/buff_perks.rs:221-231 | rank 0 is the default with the cache unchanged; otherwise debuff ratchet to 1.3 |
| `BuffPerks.ScannerAugmentTable` | src/perks/buff_perks.rs:236-240 | the PvE request lies in [1.08, 1.2] and saturates at 1.2 from rank 4 |
| `BuffPerks.ScannerAugmentTableMonotone` | src/perks/buff_perks.rs:236-240 | the request never decreases with the rank; rank 0 asks for 1.08 |
| `BuffPerks.EnhancedScannerAugment` | src/perks/buff_perks.rs:233-245 | debuff ratchet to the clamped table (PvE) or 1.0 (PvP); PvP on a well-formed cache changes nothing |
| `BuffPerks.PathOfTheBurningSteps` | src/perks/buff_perks.rs:91-100 | rank 0 or non-Solar: default, cache unchanged; otherwise surge ratchet at the perk's tier |
| `BuffPerks.OwnTierSurge` | src/perks/buff_perks.rs:246-252 | the surge mod (and Eternal Warrior, lines 268-274): surge ratchet at the perk's tier; rank 0 on a well-formed cache gives a 1.0 surge and changes nothing |
| `BuffPerks.GatedTopSurge` | src/perks/buff_perks.rs:279-284 | a failed gate gives the surge wrapper around 1.0 and leaves the cache; a passed gate ratchets the surge family to the top tier |
| `BuffPerks.MantleOfBattleHarmony` | src/perks/buff_perks.rs:276-286 | rank 0 gives the surge wrapper around 1.0 with the cache unchanged; otherwise the top-tier surge ratchet |
| `BuffPerks.MaskOfBakris` | src/perks/buff_perks.rs:287-301 | the top-tier surge ratchet only from rank 1 on Stasis or Arc; otherwise the surge wrapper around 1.0 with the cache unchanged |
| `BuffPerks.DefaultGatedTopSurge` | src/perks/buff_perks.rs:305-311 | a failed gate gives the default with the cache unchanged; a passed gate ratchets the surge family to the top tier |
| `BuffPerks.SanguineAlchemy` | src/perks/buff_perks.rs:302-313 | rank 0 or Kinetic: default, cache unchanged; otherwise the top-tier surge ratchet |
| `BuffPerks.Foetracers` | src/perks/buff_perks.rs:314-323 | rank 0: default, cache unchanged; otherwise the top-tier surge ratchet |
| `BuffPerks.GlacialGuard` | src/perks/buff_perks.rs:324-333 | rank 0 or non-Stasis: default, cache unchanged; otherwise the top-tier surge ratchet |
| `BuffPerks.DoomFang` | src/perks/buff_perks.rs:387-400 | rank 0 or non-Void: default, cache unchanged; otherwise both scales take the surge factor at the perk's tier |
| `BuffPerks.NoBackupPlans` | src/perks/buff_perks.rs:334-348 | non-Shotgun or rank 0: default, cache unchanged; otherwise both scales take the empowering factor for 1.10 / 1.35 |
| `BuffPerks.BurningFistsTable` | src/perks/buff_perks.rs:407-414 | every pair satisfies 1.0 <= PvP <= PvE <= 1.35, and counts from 5 up give (1.35, 1.25) |
| `BuffPerks.BurningFistsTableMonotone` | src/perks/buff_perks.rs:407-414 | from count 1 up neither entry decreases with the count |
| `BuffPerks.BurningFists` | src/perks/buff_perks.rs:401-427 | rank 0 is the default; otherwise both scales take the empowering factor for the table's mode entry; one stack on a well-formed cache gives (1.0, 1.0) and changes nothing |
| `BuffPerks.LucentBlades` | src/perks/buff_perks.rs:253-267 | empty exactly for a non-Sword or rank 0; otherwise a single charge-rate bump of 30 at rank 1, 50 at rank 2 and 60 from rank 3 |
| `BuffPerks.LucentBladesMonotone` | src/perks/buff_perks.rs:259-264 | a higher rank never lowers the charge-rate bump |
| `BuffPerks.AeonForceReload` | src/perks/buff_perks.rs:349-360 | the default exactly at rank 0; otherwise +30 reload and a 0.85 time scale |
| `BuffPerks.AeonForceStats` | src/perks/buff_perks.rs:361-372 | empty at rank 0; otherwise exactly reload 30 and handling 40 |
| `BuffPerks.AeonForceHandling` | src/perks/buff_perks.rs:373-386 | the default exactly at rank 0; only the stat addition ever differs from the default |
| `BuffPerks.AeonForceConsistent` | src/perks/buff_perks.rs:349-386 | the stat map's reload and handling bumps equal the reload and handling formulas' additions, and all three are inert together |
| `ExoticArmor.BallindorseWrathweavers` | src/perks/exotic_armor.rs:20-31 | default unless Stasis from rank 1; then 1.05 (PvP) / 1.15 (PvE), above 1.0, on both scales |
| `ExoticArmor.PerkActive` | src/perks/exotic_armor.rs:39-40 | a perk counts as active exactly when the active-perk map holds it with a rank above 0; absent or rank 0 is inactive |
| `ExoticArmor.LuckyPantsStep` | src/perks/exotic_armor.rs:50-54 | the per-stack step lies between 0.3 (Special) and 0.45 |
| `ExoticArmor.LuckyPantsDamage` | src/perks/exotic_armor.rs:34-61 | default in PvP or with Paracausal Shot or Storm and Stress active; otherwise exactly impact 1.0 plus the step times the rank clamped to 10, explosive 1.0; the impact scale always lies in [1.0, 5.5] |
| `ExoticArmor.LuckyPantsSaturates` | src/perks/exotic_armor.rs:57 | ranks above 10 give the same response as rank 10 |
| `ExoticArmor.LuckyPantsMonotone` | src/perks/exotic_armor.rs:57 | a higher rank never lowers the impact scale |
| `ExoticArmor.LuckyPantsSpecialCap` | src/perks/exotic_armor.rs:50-57 | on Special ammo the impact scale never exceeds 4.0 |
| `ExoticArmor.HealthPercent` | src/perks/exotic_armor.rs:99 | the health fraction is the cached "health%" value, and 1.0 when absent |
| `ExoticArmor.KnuckleheadRadarDamage` | src/perks/exotic_armor.rs:96-106 | default exactly when "health%" (1.0 if absent) is at least 0.3 or rank is 0; otherwise a basic buff above 1.0 with buff + health = 1.3 |
| `ExoticArmor.KnuckleheadRadarDecreasing` | src/perks/exotic_armor.rs:99-104 | lower health gives a buff at least as large; with non-negative health the buff is at most 1.3 |
| `ExoticArmor.MechaneersTricksleevesDamage` | src/perks/exotic_armor.rs:154-168 | default exactly for rank 0 or a non-Sidearm; otherwise 1.10 (PvP) / 2.0 (PvE) on both scales |
| `ExoticArmor.SealedAhamkaraGraspsDamage` | src/perks/exotic_armor.rs:211-221 | default exactly at rank 0; otherwise a basic buff of 1.2 / 1.35 |
| `ExoticArmor.TomeOfDawnStats` | src/perks/exotic_armor.rs:63-74 | empty at rank 0; otherwise exactly airborne 50 |
| `ExoticArmor.TomeOfDawnFlinch` | src/perks/exotic_armor.rs:76-85 | default exactly at rank 0; from rank 1 the flinch scale is 0.80 |
| `ExoticArmor.TomeOfDawnConsistent` | src/perks/exotic_armor.rs:63-85 | the stat map is empty exactly when the flinch formula is the default |
| `ExoticArmor.KnuckleheadRadarStats` | src/perks/exotic_armor.rs:87-94 | exactly airborne 20 |
| `ExoticArmor.MechaneersTricksleevesStats` | src/perks/exotic_armor.rs:110-123 | empty off Sidearms; on Sidearms exactly airborne 50, handling 100, reload 100 |
| `ExoticArmor.MechaneersTricksleevesHandling` | src/perks/exotic_armor.rs:125-139 | default exactly off Sidearms; only the stat addition differs from the default |
| `ExoticArmor.MechaneersTricksleevesReload` | src/perks/exotic_armor.rs:140-152 | default exactly off Sidearms; the reload time scale is always 1.0 |
| `ExoticArmor.MechaneersSidearmOnly` | src/perks/exotic_armor.rs:110-168 | off Sidearms all four formulas are the identity of their category; on Sidearms the stat map's handling and reload bumps equal the handling and reload additions |
| `ExoticArmor.OathkeeperStats` | src/perks/exotic_armor.rs:170-182 | empty off Bows; on Bows exactly airborne 40 and draw time 10 |
| `ExoticArmor.SealedAhamkaraGraspsStats` | src/perks/exotic_armor.rs:198-209 | empty at rank 0; otherwise exactly airborne 50 |
| `ExoticArmor.LuckyPantsStats` | src/perks/exotic_armor.rs:226-238 | empty unless a Hand Cannon from rank 1; then exactly airborne 20 and handling 100 |
| `ExoticArmor.LuckyPantsHandling` | src/perks/exotic_armor.rs:240-254 | default exactly unless a Hand Cannon from rank 1; then draw +100 with draw scale 0.6 and the other fields at identity |
| `ExoticArmor.LuckyPantsStatsMatchHandling` | src/perks/exotic_armor.rs:226-254 | the stat map is empty exactly when the handling formula is the default |
| `ExoticArmor.NoBackupPlansStats` | src/perks/exotic_armor.rs:256-267 | empty off Shotguns; on Shotguns exactly airborne 30 |
| `ExoticArmor.ActiumWarRigStats` | src/perks/exotic_armor.rs:269-282 | empty off Auto Rifles and Machine Guns; on them exactly airborne 30 |
| `ExoticArmor.HallowfireHeartStats` | src/perks/exotic_armor.rs:286-293 | exactly airborne 20 |
| `ExoticArmor.LionRampartStats` | src/perks/exotic_armor.rs:295-302 | exactly airborne 50 |
| `ExoticArmor.PeacekeepersStats` | src/perks/exotic_armor.rs:304-316 | empty off Submachine Guns; on them exactly airborne 40 and handling 50 |
| `ExoticArmor.PeacekeepersHandling` | src/perks/exotic_armor.rs:318-334 | default exactly off Submachine Guns; on them +50 handling with draw and stow scaled to 0.8 |
| `ExoticArmor.PeacekeepersConsistent` | src/perks/exotic_armor.rs:304-334 | the stat map's handling bump equals the handling formula's addition, and both switch on together |
| `ExoticArmor.PeregrineGreavesStats` | src/perks/exotic_armor.rs:336-343 | exactly airborne 20 |
| `ExoticArmor.EyeOfAnotherWorldStats` | src/perks/exotic_armor.rs:345-352 | exactly airborne 15 |
| `ExoticArmor.AstrocyteVerseStats` | src/perks/exotic_armor.rs:354-366 | airborne 30 at every rank; handling 100 added from rank 1 |
| `ExoticArmor.AstrocyteVerseHandling` | src/perks/exotic_armor.rs:368-381 | default exactly at rank 0; from rank 1 exactly +100 draw with every other field at identity |
| `ExoticArmor.RankIndependentStats` | src/perks/exotic_armor.rs:87-366 | the fixed stat maps are the same non-empty map for any two inputs, so rank 0 is not inert for them; Astrocyte Verse's airborne bump is rank-independent |
| `ExoticArmor.NecroticGripsStats` | src/perks/exotic_armor.rs:383-399 | empty unless the intrinsic hash is one of the four listed; then exactly airborne 30 |
| `ExoticArmor.BootsOfTheAssemblerStats` | src/perks/exotic_armor.rs:401-413 | empty unless the intrinsic hash is 2144092201; then exactly airborne 30 |
| `ExoticArmor.RainOfFireStats` | src/perks/exotic_armor.rs:415-428 | empty off Fusion and Linear Fusion Rifles; on them exactly airborne 30 |
| `ExoticArmor.SpeedloaderSlacksStats` | src/perks/exotic_armor.rs:430-451 | always the three keys reload, handling, airborne; all zero exactly at rank 0; reload equals handling, at most 55; from rank 1 airborne lies between 30 and reload minus 5 |
| `ExoticArmor.SpeedloaderSlacksHandling` | src/perks/exotic_armor.rs:453-472 | only the stat addition differs from the default; the default exactly at rank 0; the addition lies in [0, 55] |
| `ExoticArmor.SpeedloaderSlacksReload` | src/perks/exotic_armor.rs:474-492 | the default exactly at rank 0; time scale in [0.89, 1.0]; stat addition in [0, 55] |
| `ExoticArmor.SpeedloaderSlacksConsistent` | src/perks/exotic_armor.rs:430-492 | at every rank the stat map's reload and handling bumps equal the reload and handling formulas' additions |
| `ExoticArmor.SpeedloaderSlacksSaturates` | src/perks/exotic_armor.rs:434-485 | ranks above 5 give exactly the rank-5 row in all three formulas |
| `ExoticArmor.SpeedloaderSlacksMonotone` | src/perks/exotic_armor.rs:434-485 | a higher rank never lowers a bump and never raises the reload time scale |
| `ExoticArmor.LunaFactionStats` | src/perks/exotic_armor.rs:494-505 | empty at rank 0; otherwise exactly reload 100 |
| `ExoticArmor.LunaFactionReload` | src/perks/exotic_armor.rs:507-519 | default exactly at rank 0; otherwise +100 reload with time scale 0.9 |
| `ExoticArmor.LunaFactionRange` | src/perks/exotic_armor.rs:521-532 | default exactly below rank 2; otherwise range scale 2.0 |
| `ExoticArmor.LunaFactionTiers` | src/perks/exotic_armor.rs:494-532 | at rank 1 reload is active while range is still the default; range active implies reload active; the stat map's reload bump equals the reload formula's addition |
| `ExoticArmor.TritonViceStats` | src/perks/exotic_armor.rs:533-542 | empty unless a Glaive from rank 1; then exactly reload 50 |
| `Scenarios.SurgeOnce` | src/perks/buff_perks.rs:246-252 | PvE, one tier-2 surge on an empty cache grants 1.17 and stores "surge" = 1.17 |
| `Scenarios.SurgeTwice` | src/perks/buff_perks.rs:38-43 | PvE, two tier-2 surges in a row: 1.17, then 1.0 |
| `Scenarios.EmpoweringSubsumed` | src/perks/buff_perks.rs:69-118 | PvP, empowering 1.35 then 1.15: 1.35, then 1.0; the cache holds only "empowering" = 1.35 |
| `Scenarios.EmpoweringUpgraded` | src/perks/buff_perks.rs:102-118 | PvE, empowering 1.2 then 1.4: the two factors multiply to 1.4 |
| `Scenarios.FamiliesCompose` | src/perks/buff_perks.rs:61-194 | PvE, debuff, empowering and surge are each granted in full; a later Radiant is subsumed yet records "radiant" = 1.0 |

## Left out

- The registration plumbing is not modelled. The `add_dmr`, `add_sbr`, `add_hmr`, `add_rsmr`, `add_rmr` and `add_flmr` functions and their global registry live in the parent module, which is not part of this model. Each closure is a named member instead.
- The composer that multiplies the responses of several perks is not part of this model. The scenarios multiply factors explicitly.
- IEEE-754 rounding is out of scope. This covers `desired / current`, `1.0 + mult * value` and every product of factors. Values are exact reals.
- Every resolver, and every formula that calls one, requires its family's stored value to be positive. The source would divide by a zero or negative stored value and get an infinite or negative factor. No cache built by the resolvers from an empty one holds such a value.
- The library constructors `basic_dmg_buff` and `surge_buff` are not part of this model. The model does not claim what damage scales they produce.
- The response fields the closures never set are not modelled. Responses carry only the fields these files set, with identity defaults.
- The perk, weapon and stat catalogues are reduced to the values these files name. `OtherWeapon` and `OtherPerk` stand for the rest. Hash conversions (`into()`) are not modelled.
- The commented-out Oathkeeper firing formula (`src/perks/exotic_armor.rs:184-196`) is not modelled.
- The commented-out Explosive Shadow check in Lucky Pants (line 44) is not modelled.
- The TODO notes about auto-reload are not modelled.
- `Stacking.FreshRunIsProductOfFamilyMaxima` states the composition as two facts: the run's product equals the product of the three final family values, and each final value is max(1.0, that family's requests). It does not state a single product-of-maxima equation.
