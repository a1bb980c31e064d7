/** One simulated day of the single well-mixed box: the formulas of `stepOneDay`, as functions
    of the state they read, and what they guarantee. */
module Box {
  import opened Numeric
  import opened Policies

  /** A day's meteorology, the `env` record: mixing height (m), wind (m/s), relative
      humidity (%), rain flag and sunlight fraction. */
  datatype Env = Env(mh: real, wind: real, rh: real, rain: bool, sunlight: real)

  /** The four slider positions (traffic, kilns, open burning, road dust). */
  datatype Levers = Levers(traffic: int, kilns: int, burning: int, dust: int)

  /** Lever intensities after normalisation and policy damping. */
  datatype Intensities = Intensities(traffic: real, kilns: real, burning: real, dust: real)

  /** Emissions of one day: primary PM and the four precursors. */
  datatype Emissions = Emissions(primary: real, so2: real, nox: real, voc: real, nh3: real)

  /** The clamped meteorology scalars of one day. */
  datatype Met = Met(inv: real, humid: real, sun: real, wind: real, cold: real)

  /** The four precursor pools. */
  datatype Pools = Pools(so2: real, nox: real, voc: real, nh3: real)

  /** The four PM components: primary, sulfate, nitrate, secondary organic. */
  datatype Pm = Pm(primary: real, sulf: real, nit: real, soa: real)

  /** Secondary PM formed in one day from the updated pools. */
  datatype Formation = Formation(sulf: real, nit: real, soa: real)

  /** The part of the simulation state that a day transforms. */
  datatype Air = Air(pools: Pools, pm: Pm)

  /** The outcome of one day: the new air, the haze multiplier and the reported total. */
  datatype Day = Day(air: Air, hazeMult: real, total: real)

  /** A slider position: the range inputs run from 0 to 100. */
  predicate IsSliderValue(v: int) { 0 <= v <= 100 }

  predicate LeversInRange(l: Levers) {
    IsSliderValue(l.traffic) && IsSliderValue(l.kilns) && IsSliderValue(l.burning) && IsSliderValue(l.dust)
  }

  predicate IntensitiesInRange(x: Intensities) {
    0.0 <= x.traffic <= 1.0 && 0.0 <= x.kilns <= 1.0 && 0.0 <= x.burning <= 1.0 && 0.0 <= x.dust <= 1.0
  }

  predicate EmissionsNonNeg(em: Emissions) {
    em.primary >= 0.0 && em.so2 >= 0.0 && em.nox >= 0.0 && em.voc >= 0.0 && em.nh3 >= 0.0
  }

  /** Every meteorology scalar lies in its clamp range. */
  predicate MetInRange(m: Met) {
    0.6 <= m.inv <= 2.2 && 0.6 <= m.humid <= 1.35 && 0.2 <= m.sun <= 0.8 &&
    0.6 <= m.wind <= 3.0 && 0.2 <= m.cold <= 1.1
  }

  predicate PoolsNonNeg(p: Pools) { p.so2 >= 0.0 && p.nox >= 0.0 && p.voc >= 0.0 && p.nh3 >= 0.0 }

  predicate PmNonNeg(pm: Pm) { pm.primary >= 0.0 && pm.sulf >= 0.0 && pm.nit >= 0.0 && pm.soa >= 0.0 }

  predicate FormationNonNeg(f: Formation) { f.sulf >= 0.0 && f.nit >= 0.0 && f.soa >= 0.0 }

  predicate AirNonNeg(a: Air) { PoolsNonNeg(a.pools) && PmNonNeg(a.pm) }

  // ---------- Step 1: levers ----------

  /** A slider position as a fraction. */
  function Normalise(v: int): (r: real)
    ensures IsSliderValue(v) ==> 0.0 <= r <= 1.0
    ensures v > 0 ==> r > 0.0
  {
    v as real / 100.0
  }

  /** Policy damping: odd-even keeps 78% of traffic, the kiln ban 35% of kilns, the burning
      crackdown 70% of burning, road sweeping 70% of dust on dry days and 90% on rainy ones. */
  function Damp(l: Levers, p: Policy, rain: bool): (x: Intensities)
    ensures LeversInRange(l) ==> IntensitiesInRange(x)
    ensures LeversInRange(l) ==>
              x.traffic <= Normalise(l.traffic) && x.kilns <= Normalise(l.kilns) &&
              x.burning <= Normalise(l.burning) && x.dust <= Normalise(l.dust)
    ensures !p.oddEven ==> x.traffic == Normalise(l.traffic)
    ensures !p.kilnBan ==> x.kilns == Normalise(l.kilns)
    ensures !p.burningCrackdown ==> x.burning == Normalise(l.burning)
    ensures !p.roadSweep ==> x.dust == Normalise(l.dust)
  {
    Intensities(
      Normalise(l.traffic) * (if p.oddEven then 0.78 else 1.0),
      Normalise(l.kilns) * (if p.kilnBan then 0.35 else 1.0),
      Normalise(l.burning) * (if p.burningCrackdown then 0.70 else 1.0),
      Normalise(l.dust) * (if p.roadSweep then (if rain then 0.90 else 0.70) else 1.0))
  }

  /** Road sweeping removes more dust on a dry day than on a rainy one. */
  lemma RoadSweepStrongerWhenDry(l: Levers, p: Policy)
    requires p.roadSweep && l.dust > 0
    ensures Damp(l, p, false).dust < Damp(l, p, true).dust
  {
  }

  // ---------- Steps 2 and 3: emissions ----------

  /** Primary PM and precursor emissions of the damped levers; NH3 has a baseline of 6. */
  function Emit(x: Intensities): (em: Emissions)
    ensures IntensitiesInRange(x) ==> EmissionsNonNeg(em) && em.primary <= 90.0
    ensures em.nh3 >= 6.0 <== x.burning >= 0.0
  {
    Emissions(
      22.0 * x.traffic + 28.0 * x.kilns + 24.0 * x.burning + 16.0 * x.dust,
      18.0 * x.kilns + 2.0 * x.burning,
      16.0 * x.traffic + 3.0 * x.kilns,
      10.0 * x.traffic + 8.0 * x.burning,
      6.0 + 2.0 * x.burning)
  }

  /** With kilns running, a kiln ban strictly lowers both SO2 and primary PM emissions. */
  lemma KilnBanLowersEmissions(l: Levers, p: Policy, rain: bool)
    requires l.kilns > 0 && !p.kilnBan
    ensures Emit(Damp(l, p.(kilnBan := true), rain)).so2 < Emit(Damp(l, p, rain)).so2
    ensures Emit(Damp(l, p.(kilnBan := true), rain)).primary < Emit(Damp(l, p, rain)).primary
  {
  }

  // ---------- Step 4: meteorology ----------

  /** Inversion strength: 220 / mixing height, clamped to [0.6, 2.2]. A zero mixing height
      divides to +Infinity in JavaScript's double arithmetic and so clamps to the top of the range. */
  function InversionFactor(mh: real): (r: real)
    ensures 0.6 <= r <= 2.2
    ensures mh > 0.0 && 0.6 <= 220.0 / mh <= 2.2 ==> r == 220.0 / mh
  {
    if mh == 0.0 then 2.2 else Clamp(220.0 / mh, 0.6, 2.2)
  }

  /** A lower mixing height never traps less. */
  lemma InversionAntitone(mh1: real, mh2: real)
    requires 0.0 < mh1 <= mh2
    ensures InversionFactor(mh2) <= InversionFactor(mh1)
  {
    assert 220.0 / mh2 <= 220.0 / mh1 by {
      assert 220.0 / mh2 * mh2 == 220.0 == 220.0 / mh1 * mh1;
      if 220.0 / mh2 > 220.0 / mh1 {
        MulStrictRight(220.0 / mh1, 220.0 / mh2, mh1);
        MulMonotoneRight(mh1, mh2, 220.0 / mh2);
        assert false;
      }
    }
  }

  function HumidityFactor(rh: real): (r: real)
    ensures 0.6 <= r <= 1.35
  {
    Clamp(rh / 80.0, 0.6, 1.35)
  }

  function SunFactor(sunlight: real): (r: real)
    ensures 0.2 <= r <= 0.8
  {
    Clamp(sunlight, 0.2, 0.8)
  }

  function WindFactor(wind: real): (r: real)
    ensures 0.6 <= r <= 3.0
  {
    Clamp(wind, 0.6, 3.0)
  }

  /** Winter stability proxy: (260 - mixing height) / 200, clamped to [0.2, 1.1]. */
  function ColdFactor(mh: real): (r: real)
    ensures 0.2 <= r <= 1.1
    ensures mh >= 220.0 ==> r == 0.2
  {
    Clamp((260.0 - mh) / 200.0, 0.2, 1.1)
  }

  /** The clamped scalars of one day. */
  function MetOf(e: Env): (m: Met)
    ensures MetInRange(m)
  {
    Met(InversionFactor(e.mh), HumidityFactor(e.rh), SunFactor(e.sunlight), WindFactor(e.wind), ColdFactor(e.mh))
  }

  // ---------- Step 5: precursor pools ----------

  /** One explicit Euler step of a pool `v`: it gains its emission `e` and loses
      `rate * v * scale`, computed from its value before the update; floored at 0. */
  function EulerStep(v: real, e: real, rate: real, scale: real): real {
    Floor0(v + e - rate * v * scale)
  }

  /** The precursor pools after one day; each loss term reads only that pool's own old value. */
  function NextPools(q: Pools, em: Emissions, m: Met): (r: Pools)
    ensures PoolsNonNeg(r)
  {
    Pools(
      EulerStep(q.so2, em.so2, 0.12 * m.sun + 0.10 * m.wind, 0.15),
      EulerStep(q.nox, em.nox, 0.14 * m.sun + 0.08 * m.wind, 0.14),
      EulerStep(q.voc, em.voc, 0.10 * m.sun + 0.06 * m.wind, 0.12),
      EulerStep(q.nh3, em.nh3, 0.06 * m.wind, 0.08))
  }

  /** A step whose loss rate is at most 6% keeps at least 94% of the pool plus the emission,
      so the floor never bites. */
  lemma EulerStepRetains(v: real, e: real, rate: real, scale: real)
    requires v >= 0.0 && e >= 0.0 && rate >= 0.0 && scale >= 0.0 && rate * scale <= 0.06
    ensures EulerStep(v, e, rate, scale) >= 0.94 * v + e
  {
    assert rate * v * scale == (rate * scale) * v;
    MulMonotoneRight(rate * scale, 0.06, v);
  }

  /** The daily loss rate of each pool is below 6%, so from non-negative pools and emissions
      the floor never bites: each pool keeps at least 94% of its value plus its emission. */
  lemma PoolsRetained(q: Pools, em: Emissions, m: Met)
    requires PoolsNonNeg(q) && EmissionsNonNeg(em) && MetInRange(m)
    ensures NextPools(q, em, m).so2 >= 0.94 * q.so2 + em.so2
    ensures NextPools(q, em, m).nox >= 0.94 * q.nox + em.nox
    ensures NextPools(q, em, m).voc >= 0.94 * q.voc + em.voc
    ensures NextPools(q, em, m).nh3 >= 0.94 * q.nh3 + em.nh3
  {
    EulerStepRetains(q.so2, em.so2, 0.12 * m.sun + 0.10 * m.wind, 0.15);
    EulerStepRetains(q.nox, em.nox, 0.14 * m.sun + 0.08 * m.wind, 0.14);
    EulerStepRetains(q.voc, em.voc, 0.10 * m.sun + 0.06 * m.wind, 0.12);
    EulerStepRetains(q.nh3, em.nh3, 0.06 * m.wind, 0.08);
  }

  // ---------- Step 6: secondary formation ----------

  /** Sulfate from SO2, nitrate from NOx and NH3 together, secondary organics from VOC,
      all from the updated pools. */
  function Form(q: Pools, m: Met): (f: Formation)
    ensures PoolsNonNeg(q) && MetInRange(m) ==> FormationNonNeg(f)
  {
    Formation(
      0.22 * q.so2 * m.sun * m.humid,
      0.18 * q.nox * q.nh3 * 0.012 * m.cold * m.humid,
      0.16 * q.voc * m.sun * 0.9)
  }

  // ---------- Steps 7 and 8: removal and PM update ----------

  function DryLoss(wind: real): real { 0.06 + 0.03 * wind }

  function RainLoss(rain: bool): real { if rain then 0.35 else 0.0 }

  /** The fraction of PM that survives the day's deposition and washout. With the wind factor
      in its clamp range it lies in [0.5, 0.922], so removal never flips a sign. */
  function Retained(wind: real, rain: bool): (r: real)
    ensures 0.6 <= wind <= 3.0 ==> 0.5 <= r <= 0.922
  {
    1.0 - DryLoss(wind) - RainLoss(rain)
  }

  /** A PM component after one day: the stock plus the added mass amplified by the inversion
      factor (the stock itself is not amplified), times the retained fraction, floored at 0. */
  function Deposit(stock: real, added: real, inv: real, keep: real): real {
    Floor0((stock + added * inv) * keep)
  }

  /** The PM components after one day. */
  function NextPm(pm: Pm, primary: real, f: Formation, m: Met, rain: bool): (r: Pm)
    ensures PmNonNeg(r)
  {
    var keep := Retained(m.wind, rain);
    Pm(
      Deposit(pm.primary, primary, m.inv, keep),
      Deposit(pm.sulf, f.sulf, m.inv, keep),
      Deposit(pm.nit, f.nit, m.inv, keep),
      Deposit(pm.soa, f.soa, m.inv, keep))
  }

  /** With at least half retained, at least half of the stock survives and the floor never bites. */
  lemma DepositRetains(stock: real, added: real, inv: real, keep: real)
    requires stock >= 0.0 && added >= 0.0 && inv >= 0.0 && keep >= 0.5
    ensures Deposit(stock, added, inv, keep) >= 0.5 * stock
  {
    MulMonotoneRight(0.0, added, inv);
    MulMonotoneRight(0.5, keep, stock + added * inv);
  }

  /** More added mass gives strictly more of the component. */
  lemma DepositStrict(stock: real, added1: real, added2: real, inv: real, keep: real)
    requires stock >= 0.0 && 0.0 <= added1 < added2 && inv > 0.0 && keep > 0.0
    ensures Deposit(stock, added1, inv, keep) < Deposit(stock, added2, inv, keep)
  {
    var p1, p2 := added1 * inv, added2 * inv;
    MulStrictRight(added1, added2, inv);
    MulMonotoneRight(0.0, added1, inv);
    assert 0.0 <= p1 < p2;
    var lo, hi := stock + p1, stock + p2;
    assert 0.0 <= lo < hi;
    MulStrictRight(lo, hi, keep);
    MulMonotoneRight(0.0, lo, keep);
    var q1, q2 := lo * keep, hi * keep;
    assert 0.0 <= q1 < q2;
    assert Floor0(q1) < Floor0(q2);
    assert Deposit(stock, added1, inv, keep) == Floor0(lo * keep);
    assert Deposit(stock, added2, inv, keep) == Floor0(hi * keep);
  }

  /** From non-negative stock and additions at least half of every component survives the day
      and the floor never bites. */
  lemma PmRetained(pm: Pm, primary: real, f: Formation, m: Met, rain: bool)
    requires PmNonNeg(pm) && primary >= 0.0 && FormationNonNeg(f) && MetInRange(m)
    ensures NextPm(pm, primary, f, m, rain).primary >= 0.5 * pm.primary
    ensures NextPm(pm, primary, f, m, rain).sulf >= 0.5 * pm.sulf
    ensures NextPm(pm, primary, f, m, rain).nit >= 0.5 * pm.nit
    ensures NextPm(pm, primary, f, m, rain).soa >= 0.5 * pm.soa
  {
    var keep := Retained(m.wind, rain);
    DepositRetains(pm.primary, primary, m.inv, keep);
    DepositRetains(pm.sulf, f.sulf, m.inv, keep);
    DepositRetains(pm.nit, f.nit, m.inv, keep);
    DepositRetains(pm.soa, f.soa, m.inv, keep);
  }

  // ---------- Step 9: haze ----------

  /** The display-only haze multiplier: 1.18 from 78% humidity, 1.08 from 65%, else 1. */
  function HazeMult(rh: real): (r: real)
    ensures 1.0 <= r <= 1.18
  {
    if rh >= 78.0 then 1.18 else if rh >= 65.0 then 1.08 else 1.0
  }

  /** More humidity never shows less haze. */
  lemma HazeMonotone(rh1: real, rh2: real)
    requires rh1 <= rh2
    ensures HazeMult(rh1) <= HazeMult(rh2)
  {
  }

  function Mass(pm: Pm): real { pm.primary + pm.sulf + pm.nit + pm.soa }

  /** The reported total: the stored mass scaled by the haze multiplier. */
  function Reported(pm: Pm, rh: real): (r: real)
    ensures PmNonNeg(pm) ==> Mass(pm) <= r <= 1.18 * Mass(pm)
  {
    var r := Mass(pm) * HazeMult(rh);
    assert PmNonNeg(pm) ==> Mass(pm) <= r <= 1.18 * Mass(pm) by {
      if PmNonNeg(pm) {
        MulAtLeastOne(Mass(pm), HazeMult(rh));
        MulMonotoneLeft(Mass(pm), HazeMult(rh), 1.18);
      }
    }
    r
  }

  // ---------- The whole day ----------

  /** The stored state after one day. It sees the day's weather only through the rain flag
      and the clamped scalars; secondary formation reads the pools already updated. */
  function NextAir(a: Air, l: Levers, p: Policy, rain: bool, m: Met): (r: Air)
    ensures AirNonNeg(r)
  {
    var em := Emit(Damp(l, p, rain));
    var pools := NextPools(a.pools, em, m);
    Air(pools, NextPm(a.pm, em.primary, Form(pools, m), m, rain))
  }

  /** One day of `stepOneDay`. The reported total is the stored mass scaled by the haze
      multiplier, which never feeds back into the stored state. */
  function Step(a: Air, l: Levers, p: Policy, e: Env): (d: Day)
    ensures AirNonNeg(d.air)
    ensures 1.0 <= d.hazeMult && 0.0 <= Mass(d.air.pm) <= d.total
  {
    var air := NextAir(a, l, p, e.rain, MetOf(e));
    Day(air, HazeMult(e.rh), Reported(air.pm, e.rh))
  }

  /** Relative humidity enters the clamped scalars only through the humidity factor. */
  lemma MetSeesHumidityOnlyThroughFactor(e: Env, rh: real)
    requires HumidityFactor(rh) == HumidityFactor(e.rh)
    ensures MetOf(e.(rh := rh)) == MetOf(e)
  {
  }

  /** The haze multiplier is display-only: two days whose weather differs only in relative
      humidity, with the same humidity factor, store the same air, and each reports that
      air's mass under its own haze multiplier. For humidities in 0..100 those multipliers
      agree (`HazeFollowsHumidityFactor`): crossing the 65% or 78% haze thresholds always
      changes the humidity factor too, and with it the stored sulfate and nitrate. */
  lemma HazeIsDisplayOnly(a: Air, l: Levers, p: Policy, e: Env, rh: real)
    requires HumidityFactor(rh) == HumidityFactor(e.rh)
    ensures Step(a, l, p, e.(rh := rh)).air == Step(a, l, p, e).air
    ensures Step(a, l, p, e.(rh := rh)).total == Reported(Step(a, l, p, e).air.pm, rh)
  {
    MetSeesHumidityOnlyThroughFactor(e, rh);
  }

  /** Within 0..100% two humidities with the same humidity factor show the same haze: below
      48% the factor sits at its floor and the multiplier is 1, and from 48% up the factor is
      rh / 80, which determines rh. */
  lemma HazeFollowsHumidityFactor(rh1: real, rh2: real)
    requires 0.0 <= rh1 <= 100.0 && 0.0 <= rh2 <= 100.0
    requires HumidityFactor(rh1) == HumidityFactor(rh2)
    ensures HazeMult(rh1) == HazeMult(rh2)
  {
  }

  /** Less SO2 in the updated pool forms strictly less sulfate. */
  lemma SulfateFormationStrict(q0: Pools, q1: Pools, m: Met)
    requires 0.0 <= q1.so2 < q0.so2 && MetInRange(m)
    ensures 0.0 <= Form(q1, m).sulf < Form(q0, m).sulf
  {
    MulStrictRight(0.22 * q1.so2, 0.22 * q0.so2, m.sun);
    MulStrictRight(0.22 * q1.so2 * m.sun, 0.22 * q0.so2 * m.sun, m.humid);
    MulMonotoneRight(0.0, 0.22 * q1.so2, m.sun);
    MulMonotoneRight(0.0, 0.22 * q1.so2 * m.sun, m.humid);
  }

  /** A kiln ban, with kilns running, leaves strictly less SO2 in the pool, strictly less
      sulfate and strictly less primary PM than the same day without it. */
  lemma KilnBanLowersSulfate(a: Air, l: Levers, p: Policy, e: Env)
    requires AirNonNeg(a) && LeversInRange(l) && l.kilns > 0 && !p.kilnBan
    ensures Step(a, l, p.(kilnBan := true), e).air.pools.so2 < Step(a, l, p, e).air.pools.so2
    ensures Step(a, l, p.(kilnBan := true), e).air.pm.sulf < Step(a, l, p, e).air.pm.sulf
    ensures Step(a, l, p.(kilnBan := true), e).air.pm.primary < Step(a, l, p, e).air.pm.primary
  {
    KilnBanLowersNextAir(a, l, p, e.rain, MetOf(e));
  }

  lemma KilnBanLowersNextAir(a: Air, l: Levers, p: Policy, rain: bool, m: Met)
    requires AirNonNeg(a) && LeversInRange(l) && l.kilns > 0 && !p.kilnBan && MetInRange(m)
    ensures NextAir(a, l, p.(kilnBan := true), rain, m).pools.so2 < NextAir(a, l, p, rain, m).pools.so2
    ensures NextAir(a, l, p.(kilnBan := true), rain, m).pm.sulf < NextAir(a, l, p, rain, m).pm.sulf
    ensures NextAir(a, l, p.(kilnBan := true), rain, m).pm.primary < NextAir(a, l, p, rain, m).pm.primary
  {
    var keep := Retained(m.wind, rain);
    var em0, em1 := Emit(Damp(l, p, rain)), Emit(Damp(l, p.(kilnBan := true), rain));
    KilnBanLowersEmissions(l, p, rain);
    // SO2: the same loss from the same old pool, less emission in
    EulerStepRetains(a.pools.so2, em1.so2, 0.12 * m.sun + 0.10 * m.wind, 0.15);
    var q0, q1 := NextPools(a.pools, em0, m), NextPools(a.pools, em1, m);
    assert q1.so2 < q0.so2;
    // sulfate: less SO2 forms less sulfate, amplified and kept alike
    SulfateFormationStrict(q0, q1, m);
    DepositStrict(a.pm.sulf, Form(q1, m).sulf, Form(q0, m).sulf, m.inv, keep);
    // primary: less primary emission, amplified and kept alike
    DepositStrict(a.pm.primary, em1.primary, em0.primary, m.inv, keep);
  }

  // ---------- Arithmetic helpers ----------

  lemma MulStrictRight(x: real, y: real, c: real)
    requires x < y && c > 0.0
    ensures x * c < y * c
  {
  }

  lemma MulMonotoneRight(x: real, y: real, c: real)
    requires x <= y && c >= 0.0
    ensures x * c <= y * c
  {
  }

  lemma MulMonotoneLeft(c: real, x: real, y: real)
    requires c >= 0.0 && x <= y
    ensures c * x <= c * y
  {
  }

  lemma MulAtLeastOne(x: real, h: real)
    requires x >= 0.0 && h >= 1.0
    ensures x <= x * h
  {
  }
}
