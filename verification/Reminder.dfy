/** The context-usage reminder of a resident child
    (packages/agent/subagent_factory.go:281-325): three bands, each announced at most
    once, in increasing order, by a closure that remembers the last one announced. */
module Reminder {
  import opened Transcript

  const BANDS: seq<int> := [85, 90, 95]

  /** Usage has reached `band` percent of the window. */
  predicate Reaches(used: int, window: int, band: int) {
    used * 100 >= window * band
  }

  /** The highest band reached, -1 below the first. */
  function Band(used: int, window: int): int {
    if window <= 0 then -1
    else if Reaches(used, window, 95) then 95
    else if Reaches(used, window, 90) then 90
    else if Reaches(used, window, 85) then 85
    else -1
  }

  /** Bands only stack up: what reaches one reaches those below it. */
  lemma BandIsHighest(used: int, window: int, band: int)
    requires window > 0 && band in BANDS
    ensures used * 100 >= window * band <==> band <= Band(used, window)
    ensures Band(used, window) == -1 || Band(used, window) in BANDS
  {
    assert band in {85, 90, 95};
    Order(used, window);
    assert BANDS[0] == 85 && BANDS[1] == 90 && BANDS[2] == 95;
  }

  lemma Order(used: int, window: int)
    requires window > 0
    ensures Reaches(used, window, 95) ==> Reaches(used, window, 90)
    ensures Reaches(used, window, 90) ==> Reaches(used, window, 85)
  {
  }

  method ResidentContextReminderBand(used: int, window: int) returns (band: int)
    ensures band == Band(used, window)
  {
    if window <= 0 {
      return -1;
    }
    band := -1;
    for i := 0 to |BANDS|
      invariant band == if i > 2 && Reaches(used, window, 95) then 95
                        else if i > 1 && Reaches(used, window, 90) then 90
                        else if i > 0 && Reaches(used, window, 85) then 85 else -1
    {
      if Reaches(used, window, BANDS[i]) {
        band := BANDS[i];
      }
    }
  }

  /** What the turns so far have announced, oldest first. */
  function Announced(window: int, usage: seq<int>): seq<int> {
    if usage == [] then []
    else
      var before := Announced(window, Init(usage));
      var band := Band(Last(usage), window);
      if band > Highest(window, Init(usage)) then before + [band] else before
  }

  /** The highest band any turn so far has reached. */
  function Highest(window: int, usage: seq<int>): int {
    if usage == [] then -1
    else
      var before := Highest(window, Init(usage));
      var band := Band(Last(usage), window);
      if band > before then band else before
  }

  /** Announced bands strictly increase, are bands, end with the highest one reached,
      and so number at most three. */
  lemma {:induction false} BandsIncrease(window: int, usage: seq<int>)
    ensures var bands := Announced(window, usage);
            && (forall i, j :: 0 <= i < j < |bands| ==> bands[i] < bands[j])
            && (forall i :: 0 <= i < |bands| ==> bands[i] in BANDS)
            && Highest(window, usage) == if bands == [] then -1 else Last(bands)
  {
    if usage != [] {
      BandsIncrease(window, Init(usage));
      var band := Band(Last(usage), window);
      assert BANDS[0] == 85 && BANDS[1] == 90 && BANDS[2] == 95;
    }
  }

  /** How many bands lie at or below one. */
  function Rank(band: int): nat {
    if band < 85 then 0 else if band < 90 then 1 else if band < 95 then 2 else 3
  }

  lemma {:induction false} AtMostThree(window: int, usage: seq<int>)
    ensures |Announced(window, usage)| <= Rank(Highest(window, usage)) <= 3
    ensures Highest(window, usage) == -1 || Highest(window, usage) in BANDS
  {
    if usage != [] {
      AtMostThree(window, Init(usage));
      assert BANDS[0] == 85 && BANDS[1] == 90 && BANDS[2] == 95;
    }
  }

  /** Turn i is the first to reach a band as high as this one, and reaches just it. */
  ghost predicate FirstReaches(window: int, usage: seq<int>, band: int, i: int) {
    && 0 <= i < |usage| && Band(usage[i], window) == band
    && forall j :: 0 <= j < i ==> Band(usage[j], window) < band
  }

  lemma {:induction false} HighestIsMaximum(window: int, usage: seq<int>)
    ensures forall i :: 0 <= i < |usage| ==> Band(usage[i], window) <= Highest(window, usage)
    ensures Highest(window, usage) == -1 || exists i :: 0 <= i < |usage| && Band(usage[i], window) == Highest(window, usage)
  {
    if usage != [] {
      var n := |usage| - 1;
      HighestIsMaximum(window, Init(usage));
      forall i | 0 <= i < n ensures Init(usage)[i] == usage[i] {
      }
      assert Band(usage[n], window) <= Highest(window, usage);
      if Highest(window, usage) != -1 && Highest(window, usage) == Highest(window, Init(usage)) {
        var i :| 0 <= i < n && Band(Init(usage)[i], window) == Highest(window, Init(usage));
        assert Band(usage[i], window) == Highest(window, usage);
      } else {
        assert Highest(window, usage) != -1 ==> Band(usage[n], window) == Highest(window, usage);
      }
    }
  }

  /** The turn that reaches it first is the last turn, or was one before. */
  lemma FirstReachesSnoc(window: int, usage: seq<int>, band: int)
    requires usage != []
    ensures (exists i :: FirstReaches(window, usage, band, i))
            <==> (exists i :: FirstReaches(window, Init(usage), band, i)) || FirstReaches(window, usage, band, |usage| - 1)
  {
    if i :| FirstReaches(window, usage, band, i) {
      assert i < |usage| - 1 ==> FirstReaches(window, Init(usage), band, i);
    }
    if i :| FirstReaches(window, Init(usage), band, i) {
      assert FirstReaches(window, usage, band, i);
    }
  }

  /** A band is announced if and only if some turn reaches it and every earlier turn's
      band is lower. A band skipped by a jump past it is never announced. */
  lemma {:induction false} AnnouncedIff(window: int, usage: seq<int>, band: int)
    ensures band in Announced(window, usage) <==> band != -1 && exists i :: FirstReaches(window, usage, band, i)
  {
    if usage != [] {
      var n := |usage| - 1;
      AnnouncedIff(window, Init(usage), band);
      FirstReachesSnoc(window, usage, band);
      HighestIsMaximum(window, Init(usage));
      forall j | 0 <= j < n ensures Init(usage)[j] == usage[j] {
      }
      if FirstReaches(window, usage, band, n) && band != -1 {
        if i :| 0 <= i < n && Band(Init(usage)[i], window) == Highest(window, Init(usage)) {
          assert Band(usage[i], window) < band;
        }
      }
    }
  }

  class ContextNudge {
    const contextMax: int
    var deliveredBand: int
    ghost var usage: seq<int>

    ghost predicate Valid()
      reads this
    {
      deliveredBand == Highest(contextMax, usage)
    }

    constructor (contextMax: int)
      ensures Valid() && usage == [] && this.contextMax == contextMax
    {
      this.contextMax := contextMax;
      deliveredBand, usage := -1, [];
    }

    /** The percentage to announce before a turn, if any. */
    method BeforeTurn(used: int) returns (percent: Option<int>)
      requires Valid()
      modifies this
      ensures Valid() && usage == old(usage) + [used]
      ensures percent.Some? <==> Announced(contextMax, usage) == Announced(contextMax, old(usage)) + [deliveredBand]
      ensures percent == None <==> Announced(contextMax, usage) == Announced(contextMax, old(usage))
      ensures percent.Some? ==> contextMax > 0 && percent.value == used * 100 / contextMax
    {
      assert Init(usage + [used]) == usage;
      usage := usage + [used];
      if contextMax <= 0 {
        return None;
      }
      var band := ResidentContextReminderBand(used, contextMax);
      if band <= deliveredBand {
        return None;
      }
      deliveredBand := band;
      return Some(used * 100 / contextMax);
    }
  }
}
