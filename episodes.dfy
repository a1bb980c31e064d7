/** The seven-day episode timeline: each day's weather and the one-time slider nudges. */
module Timeline {
  import opened Numeric
  import opened Box

  /** How far an episode pushes the traffic, kiln and burning sliders on arrival; 0 leaves a
      slider untouched. No episode moves the dust slider. */
  datatype Nudge = Nudge(traffic: int, kilns: int, burning: int)

  /** An episode as the engine sees it: its weather and its nudge (titles and text are left out). */
  datatype Episode = Episode(env: Env, nudge: Nudge)

  const NoNudge := Nudge(0, 0, 0)

  const Episodes: seq<Episode> := [
    Episode(Env(180.0, 1.2, 55.0, false, 0.55), NoNudge),        // winter starts
    Episode(Env(120.0, 0.8, 60.0, false, 0.50), NoNudge),        // inversion deepens
    Episode(Env(140.0, 0.9, 62.0, false, 0.52), Nudge(0, 10, 0)), // brick kiln push
    Episode(Env(150.0, 0.9, 82.0, false, 0.45), NoNudge),        // haze day
    Episode(Env(160.0, 1.0, 70.0, false, 0.50), Nudge(12, 0, 10)), // festival
    Episode(Env(260.0, 2.1, 58.0, false, 0.55), NoNudge),        // wind picks up
    Episode(Env(320.0, 2.4, 75.0, true, 0.30), NoNudge)          // light rain
  ]

  /** The index of the final episode, where the timeline stops advancing. */
  const LastEpisode: int := |Episodes| - 1

  /** One slider after a nudge: a nudged slider is moved and clamped back into 0..100. */
  function Bump(v: int, d: int): (r: int)
    ensures IsSliderValue(v) ==> IsSliderValue(r)
    ensures d == 0 ==> r == v
    ensures IsSliderValue(v) && d >= 0 ==> v <= r <= v + d
  {
    if d == 0 then v else ClampInt(v + d, 0, 100)
  }

  /** The sliders after an episode's nudge. */
  function ApplyNudge(l: Levers, n: Nudge): (r: Levers)
    ensures LeversInRange(l) ==> LeversInRange(r)
    ensures r.dust == l.dust
    ensures n == NoNudge ==> r == l
  {
    Levers(Bump(l.traffic, n.traffic), Bump(l.kilns, n.kilns), Bump(l.burning, n.burning), l.dust)
  }

  /** Every episode's weather is physical (positive mixing height, humidity a percentage,
      sunlight a fraction) and every nudge pushes sliders up, never down. */
  lemma EpisodesWellFormed(i: int)
    requires 0 <= i < |Episodes|
    ensures Episodes[i].env.mh > 0.0 && Episodes[i].env.wind >= 0.0
    ensures 0.0 <= Episodes[i].env.rh <= 100.0 && 0.0 <= Episodes[i].env.sunlight <= 1.0
    ensures Episodes[i].nudge.traffic >= 0 && Episodes[i].nudge.kilns >= 0 && Episodes[i].nudge.burning >= 0
  {
  }
}
