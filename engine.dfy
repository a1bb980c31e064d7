/** The simulation state `S` and the handlers that change it: restart, the "next day" button,
    the action chips and the sliders. */
module Simulator {
  import opened Numeric
  import opened Policies
  import opened Box
  import opened Timeline
  import opened Evaluation

  datatype Option<T> = None | Some(value: T)

  /** The precursor pools and PM components of a fresh state. */
  const SeedPools := Pools(20.0, 18.0, 14.0, 16.0)
  const SeedPm := Pm(35.0, 10.0, 8.0, 7.0)

  /** The slider positions a restart sets: traffic 60, kilns 70, burning 55, dust 50. */
  const DefaultLevers := Levers(60, 70, 55, 50)

  class Engine {
    var day: int
    var episodeIndex: int
    var env: Env
    var policy: Policy
    var tradeoff: Tradeoff
    /** The precursor pools `so2`, `nox`, `voc`, `nh3`. */
    var pools: Pools
    /** The PM components `pm_primary`, `pm_sulf`, `pm_nit`, `pm_soa`. */
    var pm: Pm
    var history: seq<Entry>
    /** The four slider positions, read by every simulated day. */
    var levers: Levers

    /** What holds between any two handlers: sliders in range, the weather of the current
        episode, nothing negative in the box, each set flag charged exactly once, and a log of
        non-negative totals that starts with the seed entry. */
    ghost predicate Valid()
      reads this
    {
      LeversInRange(levers) &&
      0 <= episodeIndex < |Episodes| && env == Episodes[episodeIndex].env &&
      PoolsNonNeg(pools) && PmNonNeg(pm) &&
      Charged() &&
      day >= 1 && |history| >= 1 &&
      forall i :: 0 <= i < |history| ==> history[i].total >= 0.0
    }

    /** The scores are the price of the set flags: every policy has been charged once. */
    ghost predicate Charged()
      reads this`policy, this`tradeoff
    {
      tradeoff == Cost(policy)
    }

    /** The log holds one entry per day so far, the day-0 seed first, in day order. */
    ghost predicate Calendar()
      reads this
    {
      |history| == day && forall i :: 0 <= i < |history| ==> history[i].day == i
    }

    constructor ()
      ensures Valid() && Calendar()
      ensures day == 1 && episodeIndex == 0 && policy == NoPolicy && tradeoff == NoTradeoff
      ensures pools == SeedPools && pm == SeedPm && levers == DefaultLevers
      ensures env == Episodes[0].env && history == [Entry(0, 60.0, 1.0)]
    {
      new;
      Init();
    }

    /** The restart: a fresh state, the default sliders, the first episode, and the log seeded
        with a day-0 entry holding the unscaled seed mass. */
    method Init()
      modifies this
      ensures Valid() && Calendar()
      ensures day == 1 && episodeIndex == 0 && env == Episodes[0].env
      ensures policy == NoPolicy && tradeoff == NoTradeoff
      ensures pools == SeedPools && pm == SeedPm && levers == DefaultLevers
      ensures history == [Entry(0, Mass(SeedPm), 1.0)] && Mass(SeedPm) == 60.0
    {
      day, episodeIndex := 1, 0;
      env := Env(180.0, 1.2, 55.0, false, 0.55);
      policy, tradeoff := NoPolicy, NoTradeoff;
      pools := Pools(20.0, 18.0, 14.0, 16.0);
      pm := Pm(35.0, 10.0, 8.0, 7.0);
      history := [];
      levers := Levers(60, 70, 55, 50);
      ApplyEpisode();
      var startTotal := pm.primary + pm.sulf + pm.nit + pm.soa;
      history := [Entry(0, startTotal, 1.0)];
    }

    /** Entering the current episode: its weather replaces the old one and its nudge moves
        the sliders. */
    method ApplyEpisode()
      requires 0 <= episodeIndex < |Episodes| && LeversInRange(levers)
      modifies this`env, this`levers
      ensures env == Episodes[episodeIndex].env
      ensures levers == ApplyNudge(old(levers), Episodes[episodeIndex].nudge)
      ensures LeversInRange(levers)
    {
      var ep := Episodes[episodeIndex];
      env := ep.env;
      levers := ApplyNudge(levers, ep.nudge);
    }

    /** One simulated day: the pools are updated first, formation reads the updated pools,
        then the PM components are updated and the reported total is logged under the current
        day. It computes exactly `Step` on the stored state. */
    method StepOneDay() returns (total: real)
      requires Valid()
      modifies this`pools, this`pm, this`history
      ensures Valid()
      ensures Air(pools, pm) == Step(old(Air(pools, pm)), levers, policy, env).air
      ensures total == Reported(pm, env.rh)
      ensures history == old(history) + [Entry(day, total, HazeMult(env.rh))]
    {
      var e := env;
      // controls -> emission scaling, then the meteorology scalars
      var em := Emit(Damp(levers, policy, e.rain));
      var m := MetOf(e);
      // precursor pools: emission in, first-order loss out
      pools := NextPools(pools, em, m);
      // secondary formation from the updated pools; removal and inversion act on PM
      pm := NextPm(pm, em.primary, Form(pools, m), m, e.rain);
      // haze scales the reported total only
      var hazeMult := HazeMult(e.rh);
      total := Reported(pm, e.rh);
      history := history + [Entry(day, total, hazeMult)];
    }

    /** The "next day" button: simulate the current day, advance the day counter, then either
        enter the next episode or, on the last one, stay there and report the tier of the
        mean over the whole log. */
    method NextDay() returns (verdict: Option<Tier>)
      requires Valid() && Calendar()
      modifies this
      ensures Valid() && Calendar()
      ensures day == old(day) + 1
      ensures Air(pools, pm) == Step(old(Air(pools, pm)), old(levers), old(policy), old(env)).air
      ensures history == old(history) + [Entry(old(day), Reported(pm, old(env).rh), HazeMult(old(env).rh))]
      ensures policy == old(policy) && tradeoff == old(tradeoff)
      ensures old(episodeIndex) < LastEpisode ==>
                episodeIndex == old(episodeIndex) + 1 && env == Episodes[episodeIndex].env &&
                levers == ApplyNudge(old(levers), Episodes[episodeIndex].nudge) &&
                verdict == None
      ensures old(episodeIndex) == LastEpisode ==>
                episodeIndex == LastEpisode && env == old(env) && levers == old(levers) &&
                verdict == Some(Classify(MeanTotal(history)))
    {
      var total := StepOneDay();
      day := day + 1;
      if episodeIndex < |Episodes| - 1 {
        episodeIndex := episodeIndex + 1;
        ApplyEpisode();
        verdict := None;
      } else {
        var avg := SumTotals(history) / |history| as real;
        verdict := Some(Classify(avg));
      }
    }

    /** A click on an action chip: refused when its flag is already set, otherwise the flag
        is set and its price charged. The scores stay `Cost(policy)` (`Charged`, part of
        `Valid`), so by `CostOfEnact` a successful click adds exactly that action's price;
        `ClickIsApply` concludes that the new state is the one `Apply` describes. */
    method ApplyAction(a: Action) returns (applied: bool)
      requires Valid()
      modifies this`policy, this`tradeoff
      ensures Valid()
      ensures applied <==> !IsSet(old(policy), a)
      ensures policy == if applied then Enact(old(policy), a) else old(policy)
    {
      // the "already applied" guard, then the table entry: set the flag, charge the price
      applied := !IsSet(policy, a);
      if !applied {
        return;
      }
      match a {
        case KilnBan =>
          policy, tradeoff := policy.(kilnBan := true), tradeoff.(econ := tradeoff.econ + 8);
        case OddEven =>
          policy, tradeoff := policy.(oddEven := true), tradeoff.(mobility := tradeoff.mobility + 6);
        case BurningCrackdown =>
          policy, tradeoff := policy.(burningCrackdown := true), tradeoff.(social := tradeoff.social + 5);
        case RoadSweep =>
          policy, tradeoff := policy.(roadSweep := true), tradeoff.(cost := tradeoff.cost + 3);
        case PublicAlert =>
          policy := policy.(publicAlert := true);
      }
    }

    /** Dragging the sliders: the positions the range inputs report. */
    method SetSliders(l: Levers)
      requires LeversInRange(l)
      requires Valid()
      modifies this`levers
      ensures Valid() && levers == l
    {
      levers := l;
    }
  }

  /** A click on an engine's action chip does exactly what `Apply` describes on its flags and
      scores: a refusal changes nothing, an accepted click sets the flag and charges its price. */
  method ClickIsApply(e: Engine, a: Action) returns (applied: bool)
    requires e.Valid()
    modifies e`policy, e`tradeoff
    ensures e.Valid()
    ensures applied == !Apply(old(e.policy), old(e.tradeoff), a).already
    ensures e.policy == Apply(old(e.policy), old(e.tradeoff), a).policy
    ensures e.tradeoff == Apply(old(e.policy), old(e.tradeoff), a).tradeoff
  {
    ghost var p0 := e.policy;
    applied := e.ApplyAction(a);
    if applied {
      CostOfEnact(p0, a);
    }
  }

  /** The first simulated day after a restart: the 180 m mixing height amplifies additions by
      220/180, the default sliders emit 54 units of primary PM, and primary PM grows. */
  lemma FirstDay()
    ensures MetOf(Episodes[0].env).inv == 220.0 / 180.0
    ensures Emit(Damp(DefaultLevers, NoPolicy, false)).primary == 54.0
    ensures Step(Air(SeedPools, SeedPm), DefaultLevers, NoPolicy, Episodes[0].env).air.pm.primary > SeedPm.primary
  {
    var m := MetOf(Episodes[0].env);
    assert m.inv == 220.0 / 180.0;
    assert Retained(m.wind, false) == 0.904;
    var em := Emit(Damp(DefaultLevers, NoPolicy, false));
    assert em.primary == 54.0;
    assert Deposit(35.0, 54.0, 220.0 / 180.0, 0.904) > 35.0;
  }
}
