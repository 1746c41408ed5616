/**
 * `AutoScaler` (autoscaler.py): equity tiers that set the per-trade risk, the position cap and
 * the gross-exposure cap, applied only when forced or once the cooldown has elapsed.
 * The clock is the `now` parameter.
 */
module Scaling {
  import opened Common

  datatype Settings = Settings(riskPerTrade: real, maxPositions: int, maxGrossExposure: real)

  /** One row of the tier table: (min_equity, settings). */
  datatype Tier = Tier(minEquity: real, settings: Settings)

  const Tier0 := Settings(0.008, 3, 0.30)
  const Tier1 := Settings(0.010, 4, 0.35)
  const Tier2 := Settings(0.015, 6, 0.45)
  const Tier3 := Settings(0.020, 8, 0.55)

  /** The table `__init__` installs. */
  const DefaultTiers := [Tier(0.0, Tier0), Tier(5000.0, Tier1), Tier(20000.0, Tier2), Tier(100000.0, Tier3)]

  predicate SortedByMin(ts: seq<Tier>) {
    forall i, j :: 0 <= i < j < |ts| ==> ts[i].minEquity <= ts[j].minEquity
  }

  /** The `for` loop of `_get_tier_for` over a prefix: the last tier whose bound eq reaches wins. */
  function Scan(ts: seq<Tier>, eq: real, init: Settings): Settings
    decreases |ts|
  {
    if |ts| == 0 then init
    else
      var chosen := Scan(ts[..|ts| - 1], eq, init);
      if eq >= ts[|ts| - 1].minEquity then ts[|ts| - 1].settings else chosen
  }

  /** `_get_tier_for(equity)`: the scan with equity floored at 0, starting from tier 0. */
  function TierFor(ts: seq<Tier>, equity: real): Settings
    requires |ts| > 0
  {
    Scan(ts, Max(0.0, equity), ts[0].settings)
  }

  /** The scan returns the settings of the last qualifying tier, or its start value if none qualifies. */
  lemma {:induction false} ScanIsLastQualifying(ts: seq<Tier>, eq: real, init: Settings, j: int)
    requires -1 <= j < |ts|
    requires j >= 0 ==> ts[j].minEquity <= eq
    requires forall k :: j < k < |ts| ==> ts[k].minEquity > eq
    ensures Scan(ts, eq, init) == if j >= 0 then ts[j].settings else init
    decreases |ts|
  {
    if |ts| > 0 && j < |ts| - 1 {
      var pre := ts[..|ts| - 1];
      assert forall k :: j < k < |pre| ==> pre[k] == ts[k];
      ScanIsLastQualifying(pre, eq, init, j);
    }
  }

  /**
   * On a sorted table the chosen tier is the greatest lower bound: tier j is chosen when its
   * bound is reached and the next one is not.
   */
  lemma GreatestLowerBound(ts: seq<Tier>, equity: real, j: int)
    requires SortedByMin(ts) && 0 <= j < |ts|
    requires ts[j].minEquity <= Max(0.0, equity)
    requires j + 1 < |ts| ==> Max(0.0, equity) < ts[j + 1].minEquity
    ensures TierFor(ts, equity) == ts[j].settings
  {
    ScanIsLastQualifying(ts, Max(0.0, equity), ts[0].settings, j);
  }

  /** Negative equity counts as 0: with a bottom tier at 0, it picks the bottom tier's settings. */
  lemma NegativeEquityIsBottomTier(ts: seq<Tier>, equity: real)
    requires SortedByMin(ts) && |ts| > 0 && ts[0].minEquity == 0.0
    requires equity <= 0.0
    requires |ts| > 1 ==> ts[1].minEquity > 0.0
    ensures TierFor(ts, equity) == ts[0].settings
  {
    GreatestLowerBound(ts, equity, 0);
  }

  /** Equity 4000 selects tier 0 and 25000 selects tier 2 of the default table. */
  lemma DefaultTierExamples()
    ensures TierFor(DefaultTiers, 4000.0) == Settings(0.008, 3, 0.30)
    ensures TierFor(DefaultTiers, 25000.0) == Settings(0.015, 6, 0.45)
    ensures TierFor(DefaultTiers, -50.0) == Settings(0.008, 3, 0.30)
  {
    assert SortedByMin(DefaultTiers);
    GreatestLowerBound(DefaultTiers, 4000.0, 0);
    GreatestLowerBound(DefaultTiers, 25000.0, 2);
    GreatestLowerBound(DefaultTiers, -50.0, 0);
  }

  /** Stable insertion of t into a sorted table: after every tier whose bound is at most t's. */
  function Insert(s: seq<Tier>, t: Tier): seq<Tier>
    decreases |s|
  {
    if |s| == 0 then [t]
    else if s[|s| - 1].minEquity <= t.minEquity then s + [t]
    else Insert(s[..|s| - 1], t) + [s[|s| - 1]]
  }

  /** `sorted(tiers_list, key=lambda x: x[0])`, as a stable insertion sort. */
  function SortTiers(ts: seq<Tier>): seq<Tier>
    decreases |ts|
  {
    if |ts| == 0 then [] else Insert(SortTiers(ts[..|ts| - 1]), ts[|ts| - 1])
  }

  lemma {:induction false} InsertKeepsElements(s: seq<Tier>, t: Tier)
    ensures multiset(Insert(s, t)) == multiset(s) + multiset{t}
    ensures |Insert(s, t)| == |s| + 1
    decreases |s|
  {
    if |s| > 0 && s[|s| - 1].minEquity > t.minEquity {
      InsertKeepsElements(s[..|s| - 1], t);
      assert s == s[..|s| - 1] + [s[|s| - 1]];
    }
  }

  /** Inserting a tier under a common upper bound keeps every bound under it. */
  lemma {:induction false} InsertBounded(s: seq<Tier>, t: Tier, bound: real)
    requires forall k :: 0 <= k < |s| ==> s[k].minEquity <= bound
    requires t.minEquity <= bound
    ensures forall k :: 0 <= k < |Insert(s, t)| ==> Insert(s, t)[k].minEquity <= bound
    decreases |s|
  {
    if |s| > 0 && s[|s| - 1].minEquity > t.minEquity {
      InsertBounded(s[..|s| - 1], t, bound);
    }
  }

  lemma {:induction false} InsertSorted(s: seq<Tier>, t: Tier)
    requires SortedByMin(s)
    ensures SortedByMin(Insert(s, t))
    decreases |s|
  {
    if |s| > 0 && s[|s| - 1].minEquity > t.minEquity {
      var pre := s[..|s| - 1];
      var last := s[|s| - 1];
      InsertSorted(pre, t);
      InsertBounded(pre, t, last.minEquity);
      var r := Insert(pre, t);
      assert Insert(s, t) == r + [last];
    }
  }

  lemma {:induction false} SortTiersCorrect(ts: seq<Tier>)
    ensures SortedByMin(SortTiers(ts))
    ensures multiset(SortTiers(ts)) == multiset(ts)
    ensures |SortTiers(ts)| == |ts|
    decreases |ts|
  {
    if |ts| > 0 {
      var pre := ts[..|ts| - 1];
      SortTiersCorrect(pre);
      InsertSorted(SortTiers(pre), ts[|ts| - 1]);
      InsertKeepsElements(SortTiers(pre), ts[|ts| - 1]);
      assert ts == pre + [ts[|ts| - 1]];
    }
  }

  /** The first tier of a sorted table has the smallest bound of the table. */
  lemma SortedFirstIsLowest(ts: seq<Tier>, t: Tier)
    requires SortedByMin(ts) && t in multiset(ts)
    ensures ts[0].minEquity <= t.minEquity
  {
    var k :| 0 <= k < |ts| && ts[k] == t;
  }

  class AutoScaler {
    var tiers: seq<Tier>
    const cooldownSecs: real
    var lastApplyTime: real
    var currentSettings: Settings

    ghost predicate Valid()
      reads this
    {
      |tiers| > 0
    }

    /** `__init__`: the default table, tier 0 applied, last apply time 0. */
    constructor (cooldown: real)
      ensures Valid()
      ensures tiers == DefaultTiers && cooldownSecs == cooldown
      ensures lastApplyTime == 0.0 && currentSettings == Tier0
    {
      tiers := DefaultTiers;
      cooldownSecs := cooldown;
      lastApplyTime := 0.0;
      currentSettings := DefaultTiers[0].settings;
    }

    /** `_get_tier_for`: the loop over the table, keeping the last tier that equity reaches. */
    method GetTierFor(equity: real) returns (chosen: Settings)
      requires Valid()
      ensures chosen == TierFor(tiers, equity)
    {
      var eq := Max(0.0, equity);
      chosen := tiers[0].settings;
      var i := 0;
      while i < |tiers|
        invariant 0 <= i <= |tiers|
        invariant chosen == Scan(tiers[..i], eq, tiers[0].settings)
      {
        assert tiers[..i + 1][..i] == tiers[..i];
        if eq >= tiers[i].minEquity {
          chosen := tiers[i].settings;
        }
        i := i + 1;
      }
      assert tiers[..i] == tiers;
    }

    /**
     * `get_settings(equity, force)`: apply the desired tier when forced, or when it differs
     * from the current one and the cooldown has elapsed; return the settings now in force.
     */
    method GetSettings(equity: real, force: bool, now: real) returns (s: Settings)
      requires Valid()
      modifies this`currentSettings, this`lastApplyTime
      ensures Valid()
      ensures s == currentSettings
      ensures var desired := TierFor(tiers, equity);
        if force || (desired != old(currentSettings) && now - old(lastApplyTime) >= cooldownSecs)
        then currentSettings == desired && lastApplyTime == now
        else currentSettings == old(currentSettings) && lastApplyTime == old(lastApplyTime)
    {
      var desired := GetTierFor(equity);
      if force || (desired != currentSettings && now - lastApplyTime >= cooldownSecs) {
        currentSettings := desired;
        lastApplyTime := now;
      }
      s := currentSettings;
    }

    /** `set_tiers`: install the table sorted by bound and apply its lowest tier. */
    method SetTiers(newTiers: seq<Tier>)
      requires |newTiers| > 0
      modifies this`tiers, this`currentSettings
      ensures Valid()
      ensures tiers == SortTiers(newTiers)
      ensures SortedByMin(tiers) && multiset(tiers) == multiset(newTiers)
      ensures currentSettings == tiers[0].settings
      ensures forall k :: 0 <= k < |newTiers| ==> tiers[0].minEquity <= newTiers[k].minEquity
      ensures lastApplyTime == old(lastApplyTime)
    {
      SortTiersCorrect(newTiers);
      tiers := SortTiers(newTiers);
      currentSettings := tiers[0].settings;
      forall k | 0 <= k < |newTiers| ensures tiers[0].minEquity <= newTiers[k].minEquity {
        assert newTiers[k] in multiset(newTiers);
        SortedFirstIsLowest(tiers, newTiers[k]);
      }
    }
  }

  /**
   * A run of the default scaler with a one-hour cooldown: a forced call applies tier 2 at
   * 25000; a drop to 4000 inside the cooldown keeps tier 2; after the cooldown tier 0 applies.
   */
  method CooldownScenario() returns (s1: Settings, s2: Settings, s3: Settings)
    ensures s1 == Tier2 && s2 == Tier2 && s3 == Tier0
  {
    var a := new AutoScaler(3600.0);
    DefaultTierExamples();
    s1 := a.GetSettings(25000.0, true, 10000.0);
    assert s1 == Tier2 && a.lastApplyTime == 10000.0;
    s2 := a.GetSettings(4000.0, false, 12000.0);
    assert s2 == Tier2 && a.lastApplyTime == 10000.0;
    s3 := a.GetSettings(4000.0, false, 13600.0);
    assert s3 == Tier0 && a.lastApplyTime == 13600.0;
  }
}
