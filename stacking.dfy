/**
 * The three stacking resolvers (`emp_buff`, `surge_buff`, `gbl_debuff`).
 * Each reads its buff family's stored multiplier from the calculation's
 * cache (1.0 when absent), and either reports that the request is already
 * covered (factor 1.0, cache untouched) or ratchets the stored value up to
 * the request and returns the ratio still owed.
 *
 * The resolvers mutate the caller's cache in place; here the cache is
 * threaded through: each method takes the cache and returns the new one.
 */
module Stacking {
  import opened Types

  /** The mutually exclusive buff families, one cache key each. */
  datatype Family = Empowering | Surge | Debuff

  function Key(f: Family): (k: string)
    ensures |k| > 0
  {
    match f
    case Empowering => "empowering"
    case Surge => "surge"
    case Debuff => "debuff"
  }

  lemma KeysDistinct(f: Family, g: Family)
    ensures Key(f) == Key(g) <==> f == g
  {
  }

  /** The stored multiplier of a family; an absent key reads as 1.0. */
  function Current(cache: Cache, f: Family): real {
    if Key(f) in cache then cache[Key(f)] else 1.0
  }

  /** A family never written reads as 1.0; a written one reads its stored value. */
  lemma CurrentReadsKey(cache: Cache, f: Family)
    ensures Current(map[], f) == 1.0
    ensures Key(f) !in cache ==> Current(cache, f) == 1.0
    ensures Key(f) in cache ==> Current(cache, f) == cache[Key(f)]
  {
  }

  /**
   * Every family's stored multiplier is at least 1.0. The empty cache has
   * this property and every resolver keeps it.
   */
  ghost predicate WellFormed(cache: Cache) {
    forall f: Family :: Current(cache, f) >= 1.0
  }

  /** `cache'` agrees with `cache` everywhere outside `keys`. */
  ghost predicate OnlyTouches(cache: Cache, cache': Cache, keys: set<string>) {
    cache' - keys == cache - keys
  }

  /** The outcome of one resolver call: the factor returned and the cache after it. */
  datatype Step = Step(factor: real, cache: Cache)

  /**
   * Ratchet-to-desired on family `f`: the specification of all three
   * resolvers. The stored value becomes the larger of the old value and the
   * request, the returned factor is exactly what is needed to bring the old
   * value to the new one, and no other key of the cache changes.
   */
  function Ratchet(cache: Cache, f: Family, desired: real): (s: Step)
    requires Current(cache, f) > 0.0
    ensures Current(s.cache, f) == Max(Current(cache, f), desired)
    ensures s.factor >= 1.0
    ensures s.factor == 1.0 <==> desired <= Current(cache, f)
    ensures desired <= Current(cache, f) ==> s.cache == cache
  {
    var current := Current(cache, f);
    if current >= desired then Step(1.0, cache)
    else Step(desired / current, cache[Key(f) := desired])
  }

  /**
   * The factor returned is exactly the ratio of the new stored value to the
   * old one: a caller that multiplies it in ends up at the new value.
   */
  lemma RatchetFactor(cache: Cache, f: Family, desired: real)
    requires Current(cache, f) > 0.0
    ensures Ratchet(cache, f, desired).factor * Current(cache, f) == Current(Ratchet(cache, f, desired).cache, f)
  {
  }

  /**
   * A call writes at most its own family's key: every other key and every
   * other family's value is unchanged, and well-formedness is kept.
   */
  lemma RatchetFrame(cache: Cache, f: Family, desired: real)
    requires Current(cache, f) > 0.0
    ensures OnlyTouches(cache, Ratchet(cache, f, desired).cache, {Key(f)})
    ensures forall g :: g != f ==> Current(Ratchet(cache, f, desired).cache, g) == Current(cache, g)
    ensures WellFormed(cache) ==> WellFormed(Ratchet(cache, f, desired).cache)
  {
    var c' := Ratchet(cache, f, desired).cache;
    forall g | g != f ensures Current(c', g) == Current(cache, g) {
      KeysDistinct(f, g);
    }
  }

  /** `emp_buff`: ratchet the "empowering" family to `desired`. */
  method EmpBuff(cache: Cache, desired: real) returns (factor: real, cache': Cache)
    requires Current(cache, Empowering) > 0.0
    ensures Step(factor, cache') == Ratchet(cache, Empowering, desired)
  {
    var current := if "empowering" in cache then cache["empowering"] else 1.0;
    if current >= desired {
      factor, cache' := 1.0, cache;
    } else {
      cache' := cache["empowering" := desired];
      factor := desired / current;
    }
  }

  /** `gbl_debuff`: ratchet the "debuff" family to `desired`. */
  method GblDebuff(cache: Cache, desired: real) returns (factor: real, cache': Cache)
    requires Current(cache, Debuff) > 0.0
    ensures Step(factor, cache') == Ratchet(cache, Debuff, desired)
  {
    var current := if "debuff" in cache then cache["debuff"] else 1.0;
    if current >= desired {
      factor, cache' := 1.0, cache;
    } else {
      cache' := cache["debuff" := desired];
      factor := desired / current;
    }
  }

  /**
   * The surge tier table: tier 0 asks for nothing, tiers 4 and above
   * saturate, and PvP values are capped well below PvE values.
   */
  function SurgeTable(pvp: bool, tier: nat): (r: real)
    ensures 1.0 <= r <= (if pvp then 1.060 else 1.25)
    ensures r == 1.0 <==> tier == 0
    ensures tier >= 4 ==> r == (if pvp then 1.060 else 1.25)
  {
    if tier == 0 then 1.00
    else if pvp then
      (if tier == 1 then 1.03 else if tier == 2 then 1.045 else if tier == 3 then 1.055 else 1.060)
    else
      (if tier == 1 then 1.10 else if tier == 2 then 1.17 else if tier == 3 then 1.22 else 1.25)
  }

  lemma SurgeTableMonotone(pvp: bool, t1: nat, t2: nat)
    requires t1 <= t2
    ensures SurgeTable(pvp, t1) <= SurgeTable(pvp, t2)
  {
  }

  lemma SurgeTablePvpBelowPve(tier: nat)
    ensures SurgeTable(true, tier) <= SurgeTable(false, tier)
  {
  }

  /** `surge_buff`: look the tier up in the surge table, then ratchet the "surge" family. */
  method SurgeBuff(cache: Cache, value: nat, pvp: bool) returns (factor: real, cache': Cache)
    requires Current(cache, Surge) > 0.0
    ensures Step(factor, cache') == Ratchet(cache, Surge, SurgeTable(pvp, value))
    ensures value == 0 && Current(cache, Surge) >= 1.0 ==> factor == 1.0 && cache' == cache
  {
    var desired: real;
    if value == 0 {
      desired := 1.00;
    } else if pvp {
      desired := if value == 1 then 1.03 else if value == 2 then 1.045 else if value == 3 then 1.055 else 1.060;
    } else {
      desired := if value == 1 then 1.10 else if value == 2 then 1.17 else if value == 3 then 1.22 else 1.25;
    }
    var current := if "surge" in cache then cache["surge"] else 1.0;
    if current >= desired {
      factor, cache' := 1.0, cache;
    } else {
      cache' := cache["surge" := desired];
      factor := desired / current;
    }
  }

  /** A request for 1.0 is always already covered in a well-formed cache. */
  lemma RatchetToOneIsNoop(cache: Cache, f: Family)
    requires WellFormed(cache)
    ensures Ratchet(cache, f, 1.0) == Step(1.0, cache)
  {
    assert Current(cache, f) >= 1.0;
  }

  /** Asking twice for the same multiplier: the second call owes nothing. */
  lemma RatchetIdempotent(cache: Cache, f: Family, desired: real)
    requires Current(cache, f) > 0.0
    ensures var s := Ratchet(cache, f, desired);
            Ratchet(s.cache, f, desired) == Step(1.0, s.cache)
  {
  }

  // ---------------------------------------------------------------------
  // Sequences of requests against one family
  // ---------------------------------------------------------------------

  /**
   * `acc` multiplied by each factor in turn: how a caller folds the factors
   * it is handed into its running damage multiplier.
   */
  function Scale(acc: real, fs: seq<real>): real
    decreases |fs|
  {
    if fs == [] then acc else Scale(acc * fs[0], fs[1..])
  }

  /** The product of the factors. */
  function Product(fs: seq<real>): real {
    Scale(1.0, fs)
  }

  /** One step of the fold. */
  lemma {:induction false} ScaleCons(acc: real, fs: seq<real>)
    requires fs != []
    ensures Scale(acc, fs) == Scale(acc * fs[0], fs[1..])
  {
  }

  /** One step of the fold, with the new accumulator named. */
  lemma {:induction false} ScaleStep(c: real, x: real, c1: real, fs: seq<real>, rest: seq<real>)
    requires fs != [] && fs[0] == x && fs[1..] == rest
    requires x * c == c1
    ensures Scale(c, fs) == Scale(c1, rest)
  {
    assert c * x == c1;
    ScaleCons(c, fs);
  }

  /** Folding from `a * b` is folding from `b`, then scaling by `a`. */
  lemma {:induction false} ScaleFactorsOut(a: real, b: real, fs: seq<real>)
    ensures Scale(a * b, fs) == a * Scale(b, fs)
    decreases |fs|
  {
    if fs != [] {
      var y := b * fs[0];
      var ab := a * b;
      assert ab * fs[0] == a * y;
      ScaleCons(ab, fs);
      ScaleCons(b, fs);
      ScaleFactorsOut(a, y, fs[1..]);
    }
  }

  lemma {:induction false} ScaleIsProduct(acc: real, fs: seq<real>)
    ensures Scale(acc, fs) == acc * Product(fs)
  {
    var one := 1.0;
    var b := acc * one;
    assert b == acc;
    ScaleFactorsOut(acc, one, fs);
  }

  /** The running maximum: `init` raised by each request in turn. */
  function MaxFrom(init: real, ds: seq<real>): real
    decreases |ds|
  {
    if ds == [] then init else MaxFrom(Max(init, ds[0]), ds[1..])
  }

  /** The factors returned by successive calls, and the cache after the last one. */
  datatype Trace = Trace(factors: seq<real>, cache: Cache)

  /** Issue the requests `ds` to family `f`'s resolver, one after another. */
  function RatchetAll(cache: Cache, f: Family, ds: seq<real>): (t: Trace)
    requires Current(cache, f) > 0.0
    ensures |t.factors| == |ds|
    decreases |ds|
  {
    if ds == [] then Trace([], cache)
    else
      var s := Ratchet(cache, f, ds[0]);
      var rest := RatchetAll(s.cache, f, ds[1..]);
      Trace([s.factor] + rest.factors, rest.cache)
  }

  /**
   * The ratchet: after any run of requests the family's stored value is the
   * running maximum of its old value and the requests, so it never
   * decreases; no other key changes.
   */
  lemma {:induction false} RatchetAllState(cache: Cache, f: Family, ds: seq<real>)
    requires Current(cache, f) > 0.0
    ensures var t := RatchetAll(cache, f, ds);
            && Current(t.cache, f) == MaxFrom(Current(cache, f), ds)
            && OnlyTouches(cache, t.cache, {Key(f)})
    decreases |ds|
  {
    if ds != [] {
      var s := Ratchet(cache, f, ds[0]);
      var cache1, ds1 := s.cache, ds[1..];
      RatchetFrame(cache, f, ds[0]);
      RatchetAllState(cache1, f, ds1);
    }
  }

  /** The running maximum is the largest of `init` and the requests. */
  lemma {:induction false} MaxFromIsMax(init: real, ds: seq<real>)
    ensures MaxFrom(init, ds) >= init
    ensures forall i :: 0 <= i < |ds| ==> MaxFrom(init, ds) >= ds[i]
    ensures MaxFrom(init, ds) == init || MaxFrom(init, ds) in ds
    decreases |ds|
  {
    if ds != [] {
      MaxFromIsMax(Max(init, ds[0]), ds[1..]);
      forall i | 0 < i < |ds| ensures MaxFrom(init, ds) >= ds[i] {
        assert ds[i] == ds[1..][i - 1];
      }
    }
  }

  /**
   * Telescoping: scaling the family's starting value by every factor
   * returned gives the running maximum of the start and the requests.
   */
  lemma {:induction false} Telescoping(cache: Cache, f: Family, ds: seq<real>)
    requires Current(cache, f) > 0.0
    ensures Scale(Current(cache, f), RatchetAll(cache, f, ds).factors) == MaxFrom(Current(cache, f), ds)
    decreases |ds|
  {
    if ds != [] {
      var c := Current(cache, f);
      var s := Ratchet(cache, f, ds[0]);
      var x, cache1, ds1 := s.factor, s.cache, ds[1..];
      var c1 := Current(cache1, f);
      RatchetFactor(cache, f, ds[0]);
      assert MaxFrom(c, ds) == MaxFrom(c1, ds1);
      var rest := RatchetAll(cache1, f, ds1);
      var fs := RatchetAll(cache, f, ds).factors;
      ScaleStep(c, x, c1, fs, rest.factors);
      Telescoping(cache1, f, ds1);
    }
  }

  /**
   * From a cache where the family is absent, the product of the factors is
   * max(1.0, every request): the strongest request is granted exactly once.
   */
  lemma {:induction false} FreshProductIsMax(cache: Cache, f: Family, ds: seq<real>)
    requires Key(f) !in cache
    ensures var p := Product(RatchetAll(cache, f, ds).factors);
            && p == MaxFrom(1.0, ds)
            && p >= 1.0
            && (forall i :: 0 <= i < |ds| ==> p >= ds[i])
            && (p == 1.0 || p in ds)
  {
    Telescoping(cache, f, ds);
    MaxFromIsMax(1.0, ds);
  }

  lemma {:induction false} CancelScale(c: real, fs1: seq<real>, fs2: seq<real>)
    requires c > 0.0
    requires Scale(c, fs1) == Scale(c, fs2)
    ensures Product(fs1) == Product(fs2)
  {
    ScaleIsProduct(c, fs1);
    ScaleIsProduct(c, fs2);
    var p1, p2 := Product(fs1), Product(fs2);
    assert c * (p1 - p2) == 0.0;
  }

  /**
   * Order independence: two runs of the same requests in any order return
   * factors with the same product and leave the same stored value.
   */
  lemma {:induction false} OrderIndependent(cache: Cache, f: Family, ds1: seq<real>, ds2: seq<real>)
    requires Current(cache, f) > 0.0
    requires multiset(ds1) == multiset(ds2)
    ensures Product(RatchetAll(cache, f, ds1).factors) == Product(RatchetAll(cache, f, ds2).factors)
    ensures Current(RatchetAll(cache, f, ds1).cache, f) == Current(RatchetAll(cache, f, ds2).cache, f)
  {
    var c := Current(cache, f);
    Telescoping(cache, f, ds1);
    Telescoping(cache, f, ds2);
    MaxFromIsMax(c, ds1);
    MaxFromIsMax(c, ds2);
    var m1, m2 := MaxFrom(c, ds1), MaxFrom(c, ds2);
    assert m1 <= m2 by {
      if m1 != c {
        assert m1 in multiset(ds2);
        var i :| 0 <= i < |ds2| && ds2[i] == m1;
      }
    }
    assert m2 <= m1 by {
      if m2 != c {
        assert m2 in multiset(ds1);
        var i :| 0 <= i < |ds1| && ds1[i] == m2;
      }
    }
    CancelScale(c, RatchetAll(cache, f, ds1).factors, RatchetAll(cache, f, ds2).factors);
    RatchetAllState(cache, f, ds1);
    RatchetAllState(cache, f, ds2);
  }

  // ---------------------------------------------------------------------
  // Requests interleaved across families
  // ---------------------------------------------------------------------

  datatype Request = Request(family: Family, desired: real)

  ghost predicate Positive(cache: Cache) {
    forall f: Family :: Current(cache, f) > 0.0
  }

  lemma RatchetPositive(cache: Cache, f: Family, desired: real)
    requires Positive(cache)
    ensures Positive(Ratchet(cache, f, desired).cache)
  {
    RatchetFrame(cache, f, desired);
  }

  /** Issue the requests in order, each to its own family's resolver. */
  function RunRequests(cache: Cache, reqs: seq<Request>): (t: Trace)
    requires Positive(cache)
    ensures |t.factors| == |reqs|
    ensures Positive(t.cache)
    decreases |reqs|
  {
    if reqs == [] then Trace([], cache)
    else
      var s := Ratchet(cache, reqs[0].family, reqs[0].desired);
      RatchetPositive(cache, reqs[0].family, reqs[0].desired);
      var rest := RunRequests(s.cache, reqs[1..]);
      Trace([s.factor] + rest.factors, rest.cache)
  }

  /** The requests of `reqs` addressed to family `f`, in order. */
  function DesiredOf(reqs: seq<Request>, f: Family): (ds: seq<real>)
    ensures |ds| <= |reqs|
  {
    if reqs == [] then []
    else if reqs[0].family == f then [reqs[0].desired] + DesiredOf(reqs[1..], f)
    else DesiredOf(reqs[1..], f)
  }

  function FamilyProduct(cache: Cache): real {
    Current(cache, Empowering) * Current(cache, Surge) * Current(cache, Debuff)
  }

  lemma ScaleOneOfThree(e: real, u: real, d: real, e1: real, u1: real, d1: real, x: real)
    requires || (e1 == x * e && u1 == u && d1 == d)
             || (e1 == e && u1 == x * u && d1 == d)
             || (e1 == e && u1 == u && d1 == x * d)
    ensures x * (e * u * d) == e1 * u1 * d1
  {
  }

  /**
   * A call that scales one family's value by `x` and leaves the others alone
   * scales the product of the three family values by `x`.
   */
  lemma ScalesFamilyProduct(cache: Cache, cache1: Cache, f: Family, x: real)
    requires x * Current(cache, f) == Current(cache1, f)
    requires forall g :: g != f ==> Current(cache1, g) == Current(cache, g)
    ensures x * FamilyProduct(cache) == FamilyProduct(cache1)
  {
    var e, u, d := Current(cache, Empowering), Current(cache, Surge), Current(cache, Debuff);
    var e1, u1, d1 := Current(cache1, Empowering), Current(cache1, Surge), Current(cache1, Debuff);
    ScaleOneOfThree(e, u, d, e1, u1, d1, x);
  }

  lemma FamilyProductOf(cache: Cache, e: real, u: real, d: real)
    requires Current(cache, Empowering) == e && Current(cache, Surge) == u && Current(cache, Debuff) == d
    ensures FamilyProduct(cache) == e * u * d
  {
  }

  lemma {:induction false} FamilyScaleStep(cache: Cache, cache1: Cache, f: Family, x: real, fs: seq<real>, rest: seq<real>)
    requires fs != [] && fs[0] == x && fs[1..] == rest
    requires x * Current(cache, f) == Current(cache1, f)
    requires forall g :: g != f ==> Current(cache1, g) == Current(cache, g)
    ensures Scale(FamilyProduct(cache), fs) == Scale(FamilyProduct(cache1), rest)
  {
    var p, p1 := FamilyProduct(cache), FamilyProduct(cache1);
    ScalesFamilyProduct(cache, cache1, f, x);
    assert x * p == p1;
    ScaleStep(p, x, p1, fs, rest);
  }

  /**
   * Cross-family independence: in an interleaved run, each family ends at
   * the running maximum of its own requests, untouched by the others.
   */
  lemma {:induction false} RunRequestsPerFamily(cache: Cache, reqs: seq<Request>, f: Family)
    requires Positive(cache)
    ensures Current(RunRequests(cache, reqs).cache, f) == MaxFrom(Current(cache, f), DesiredOf(reqs, f))
    decreases |reqs|
  {
    if reqs != [] {
      var s := Ratchet(cache, reqs[0].family, reqs[0].desired);
      var cache1, reqs1 := s.cache, reqs[1..];
      RatchetFrame(cache, reqs[0].family, reqs[0].desired);
      RatchetPositive(cache, reqs[0].family, reqs[0].desired);
      RunRequestsPerFamily(cache1, reqs1, f);
    }
  }

  /**
   * Scaling the product of the three family values by every factor of an
   * interleaved run gives the product of their final values.
   */
  lemma {:induction false} RunRequestsTelescoping(cache: Cache, reqs: seq<Request>)
    requires Positive(cache)
    ensures Scale(FamilyProduct(cache), RunRequests(cache, reqs).factors) == FamilyProduct(RunRequests(cache, reqs).cache)
    decreases |reqs|
  {
    if reqs != [] {
      var s := Ratchet(cache, reqs[0].family, reqs[0].desired);
      var x, cache1, reqs1 := s.factor, s.cache, reqs[1..];
      RatchetFactor(cache, reqs[0].family, reqs[0].desired);
      RatchetFrame(cache, reqs[0].family, reqs[0].desired);
      RatchetPositive(cache, reqs[0].family, reqs[0].desired);
      var rest := RunRequests(cache1, reqs1);
      var fs := RunRequests(cache, reqs).factors;
      FamilyScaleStep(cache, cache1, reqs[0].family, x, fs, rest.factors);
      RunRequestsTelescoping(cache1, reqs1);
    }
  }

  /**
   * From a cache holding none of the family keys, an interleaved run's
   * product is the product of the three family values it leaves, and each
   * of those is max(1.0, that family's own requests): families compose by
   * straight multiplication and never suppress one another.
   */
  lemma {:induction false} FreshRunIsProductOfFamilyMaxima(cache: Cache, reqs: seq<Request>)
    requires Key(Empowering) !in cache && Key(Surge) !in cache && Key(Debuff) !in cache
    ensures var t := RunRequests(cache, reqs);
            && Product(t.factors) == FamilyProduct(t.cache)
            && forall f :: Current(t.cache, f) == MaxFrom(1.0, DesiredOf(reqs, f))
  {
    FamilyProductOf(cache, 1.0, 1.0, 1.0);
    RunRequestsTelescoping(cache, reqs);
    forall f ensures Current(RunRequests(cache, reqs).cache, f) == MaxFrom(1.0, DesiredOf(reqs, f)) {
      RunRequestsPerFamily(cache, reqs, f);
    }
  }
}
