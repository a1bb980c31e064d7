/** The five one-shot policies (the ACTIONS table) and the tradeoff scores they cost. */
module Policies {

  /** The five policy flags of the simulation state; once set, a flag stays set until a restart. */
  datatype Policy = Policy(kilnBan: bool, oddEven: bool, burningCrackdown: bool, roadSweep: bool, publicAlert: bool)

  /** The four tradeoff accumulators. */
  datatype Tradeoff = Tradeoff(econ: int, mobility: int, social: int, cost: int)

  /** The keys of the ACTIONS table. */
  datatype Action = KilnBan | OddEven | BurningCrackdown | RoadSweep | PublicAlert

  const NoPolicy := Policy(false, false, false, false, false)

  const NoTradeoff := Tradeoff(0, 0, 0, 0)

  /** The "already applied" guard of the action handler. */
  predicate IsSet(p: Policy, a: Action) {
    match a
    case KilnBan => p.kilnBan
    case OddEven => p.oddEven
    case BurningCrackdown => p.burningCrackdown
    case RoadSweep => p.roadSweep
    case PublicAlert => p.publicAlert
  }

  /** The fixed price of one action: econ 8, mobility 6, social 5, cost 3, nothing for the alert. */
  function Increment(a: Action): Tradeoff {
    match a
    case KilnBan => Tradeoff(8, 0, 0, 0)
    case OddEven => Tradeoff(0, 6, 0, 0)
    case BurningCrackdown => Tradeoff(0, 0, 5, 0)
    case RoadSweep => Tradeoff(0, 0, 0, 3)
    case PublicAlert => NoTradeoff
  }

  function Total(t: Tradeoff): int { t.econ + t.mobility + t.social + t.cost }

  function Add(t: Tradeoff, u: Tradeoff): Tradeoff {
    Tradeoff(t.econ + u.econ, t.mobility + u.mobility, t.social + u.social, t.cost + u.cost)
  }

  /** Pointwise order on flags: every flag set in `p` is set in `q`. */
  predicate PolicyLe(p: Policy, q: Policy) {
    (p.kilnBan ==> q.kilnBan) && (p.oddEven ==> q.oddEven) &&
    (p.burningCrackdown ==> q.burningCrackdown) && (p.roadSweep ==> q.roadSweep) &&
    (p.publicAlert ==> q.publicAlert)
  }

  /** Pointwise order on scores. */
  predicate TradeoffLe(t: Tradeoff, u: Tradeoff) {
    t.econ <= u.econ && t.mobility <= u.mobility && t.social <= u.social && t.cost <= u.cost
  }

  /** The scores that the set flags of `p` have cost, each flag charged once. */
  function Cost(p: Policy): Tradeoff {
    Tradeoff(if p.kilnBan then 8 else 0, if p.oddEven then 6 else 0,
             if p.burningCrackdown then 5 else 0, if p.roadSweep then 3 else 0)
  }

  /** `p` with the flag of `a` set and every other flag as it was. */
  function Enact(p: Policy, a: Action): Policy {
    match a
    case KilnBan => p.(kilnBan := true)
    case OddEven => p.(oddEven := true)
    case BurningCrackdown => p.(burningCrackdown := true)
    case RoadSweep => p.(roadSweep := true)
    case PublicAlert => p.(publicAlert := true)
  }

  /** What a click on an action chip leaves behind. */
  datatype Applied = Applied(policy: Policy, tradeoff: Tradeoff, already: bool)

  /** A click on the chip of `a`: a no-op reported as "already applied" when the flag is set,
      otherwise the flag is set and its price is added to the scores. */
  function Apply(p: Policy, t: Tradeoff, a: Action): (r: Applied)
    ensures r.already <==> IsSet(p, a)
    ensures r.already ==> r.policy == p && r.tradeoff == t
    ensures IsSet(r.policy, a)
  {
    if IsSet(p, a) then Applied(p, t, true)
    else Applied(Enact(p, a), Add(t, Increment(a)), false)
  }

  /** A click never clears a flag and never lowers a score; a click that is not refused
      raises the summed scores by exactly the action's price. */
  lemma ApplyMonotone(p: Policy, t: Tradeoff, a: Action)
    ensures PolicyLe(p, Apply(p, t, a).policy) && TradeoffLe(t, Apply(p, t, a).tradeoff)
    ensures !IsSet(p, a) ==> Total(Apply(p, t, a).tradeoff) == Total(t) + Total(Increment(a))
  {
    match a
    case KilnBan =>
    case OddEven =>
    case BurningCrackdown =>
    case RoadSweep =>
    case PublicAlert =>
  }

  /** A click on a chip whose flag is clear charges exactly that action's price: econ 8 for
      the kiln ban, mobility 6 for odd-even, social 5 for the burning crackdown, cost 3 for road
      sweeping and nothing for the public alert. */
  lemma ApplyCharges(p: Policy, t: Tradeoff, a: Action)
    requires !IsSet(p, a)
    ensures a == KilnBan ==> Apply(p, t, a).tradeoff == t.(econ := t.econ + 8)
    ensures a == OddEven ==> Apply(p, t, a).tradeoff == t.(mobility := t.mobility + 6)
    ensures a == BurningCrackdown ==> Apply(p, t, a).tradeoff == t.(social := t.social + 5)
    ensures a == RoadSweep ==> Apply(p, t, a).tradeoff == t.(cost := t.cost + 3)
    ensures a == PublicAlert ==> Apply(p, t, a).tradeoff == t
  {
  }

  /** A click on one chip leaves every other flag as it was. */
  lemma ApplyKeepsOthers(p: Policy, t: Tradeoff, a: Action, b: Action)
    requires b != a
    ensures IsSet(Apply(p, t, a).policy, b) <==> IsSet(p, b)
  {
    match a
    case KilnBan => assert Apply(p, t, a).policy.kilnBan;
    case OddEven => assert Apply(p, t, a).policy.oddEven;
    case BurningCrackdown => assert Apply(p, t, a).policy.burningCrackdown;
    case RoadSweep => assert Apply(p, t, a).policy.roadSweep;
    case PublicAlert => assert Apply(p, t, a).policy.publicAlert;
  }

  /** Setting a flag that was not set adds exactly that flag's price to the cost. */
  lemma CostOfEnact(p: Policy, a: Action)
    requires !IsSet(p, a)
    ensures Cost(Enact(p, a)) == Add(Cost(p), Increment(a))
  {
    match a
    case KilnBan => assert Enact(p, a) == p.(kilnBan := true) && Increment(a) == Tradeoff(8, 0, 0, 0);
    case OddEven => assert Enact(p, a) == p.(oddEven := true) && Increment(a) == Tradeoff(0, 6, 0, 0);
    case BurningCrackdown =>
      assert Enact(p, a) == p.(burningCrackdown := true) && Increment(a) == Tradeoff(0, 0, 5, 0);
    case RoadSweep => assert Enact(p, a) == p.(roadSweep := true) && Increment(a) == Tradeoff(0, 0, 0, 3);
    case PublicAlert => assert Enact(p, a) == p.(publicAlert := true) && Increment(a) == NoTradeoff;
  }

  /** Clicks change the scores only by charging each newly set flag its price: when the scores
      are the cost of the flags before a click, they are the cost of the flags after it. */
  lemma ApplyKeepsCost(p: Policy, a: Action)
    ensures Apply(p, Cost(p), a).tradeoff == Cost(Apply(p, Cost(p), a).policy)
  {
    if !IsSet(p, a) {
      CostOfEnact(p, a);
    }
  }

  /** A second click on the same chip changes nothing and reports "already applied". */
  lemma ApplyIdempotent(p: Policy, t: Tradeoff, a: Action)
    ensures var once := Apply(p, t, a);
            var twice := Apply(once.policy, once.tradeoff, a);
            twice.already && twice.policy == once.policy && twice.tradeoff == once.tradeoff
  {
  }

  /** The state after a run of clicks, in order. */
  function ApplyAll(p: Policy, t: Tradeoff, acts: seq<Action>): (r: Applied)
    decreases |acts|
  {
    if acts == [] then Applied(p, t, false)
    else
      var last := Apply(p, t, acts[0]);
      ApplyAll(last.policy, last.tradeoff, acts[1..])
  }

  /** Over any run of clicks flags never clear and scores never decrease. */
  lemma {:induction false} ApplyAllMonotone(p: Policy, t: Tradeoff, acts: seq<Action>)
    ensures PolicyLe(p, ApplyAll(p, t, acts).policy)
    ensures TradeoffLe(t, ApplyAll(p, t, acts).tradeoff)
    decreases |acts|
  {
    if acts != [] {
      var next := Apply(p, t, acts[0]);
      ApplyMonotone(p, t, acts[0]);
      ApplyAllMonotone(next.policy, next.tradeoff, acts[1..]);
    }
  }

  /** After any run of clicks a flag is set exactly when it was set before or one of the
      clicks named it. */
  lemma {:induction false} ApplyAllFlags(p: Policy, t: Tradeoff, acts: seq<Action>, b: Action)
    ensures IsSet(ApplyAll(p, t, acts).policy, b) <==> IsSet(p, b) || b in acts
    decreases |acts|
  {
    if acts != [] {
      var next := Apply(p, t, acts[0]);
      ApplyAllFlags(next.policy, next.tradeoff, acts[1..], b);
      if b != acts[0] {
        ApplyKeepsOthers(p, t, acts[0], b);
      }
      assert acts == [acts[0]] + acts[1..];
    }
  }

  /** However many times the chips are clicked, the scores stay the cost of the set flags:
      each policy is charged once. */
  lemma {:induction false} ApplyAllCharged(p: Policy, acts: seq<Action>)
    ensures ApplyAll(p, Cost(p), acts).tradeoff == Cost(ApplyAll(p, Cost(p), acts).policy)
    decreases |acts|
  {
    if acts != [] {
      var next := Apply(p, Cost(p), acts[0]);
      ApplyKeepsCost(p, acts[0]);
      ApplyAllCharged(next.policy, acts[1..]);
    }
  }
}
