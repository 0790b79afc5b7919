/** Recording observations: what every bucket counts after any run, and when the counts are cumulative. */
module MetricsCollector {
  import opened Wrappers
  import opened Histogram

  datatype Measurement = Finite(ms: real) | NotFinite
  datatype Observation = Observation(name: string, value: Measurement, labels: Labels, buckets: seq<real>)

  datatype Sample = Sample(name: string, labels: Labels, buckets: seq<real>, counts: seq<nat>, count: nat, sum: real)

  predicate Accepted(o: Observation) {
    o.value.Finite? && o.value.ms >= 0.0
  }

  function KeyOf(o: Observation): string {
    HistogramKey(o.name, o.labels)
  }

  // ---- One recording -------------------------------------------------------------------------

  function Bumped(counts: seq<nat>, buckets: seq<real>, ms: real): seq<nat>
    requires |counts| == |buckets|
  {
    seq(|counts|, i requires 0 <= i < |counts| => if ms <= buckets[i] then counts[i] + 1 else counts[i])
  }

  function Empty(o: Observation): Sample {
    Sample(o.name, o.labels, o.buckets, seq(|o.buckets|, i => 0), 0, 0.0)
  }

  predicate Shaped(samples: map<string, Sample>) {
    forall k <- samples :: |samples[k].counts| == |samples[k].buckets|
  }

  /** Only the first observation of a key brings its buckets; later ones are counted in those. */
  function Record(samples: map<string, Sample>, o: Observation): (next: map<string, Sample>)
    requires Shaped(samples)
    ensures Shaped(next)
  {
    if !Accepted(o) then samples
    else
      var s := if KeyOf(o) in samples then samples[KeyOf(o)] else Empty(o);
      samples[KeyOf(o) := s.(counts := Bumped(s.counts, s.buckets, o.value.ms), count := s.count + 1,
                              sum := s.sum + o.value.ms)]
  }

  class MetricsCollector {
    var histograms: map<string, Sample>

    constructor ()
      ensures histograms == map[]
    {
      histograms := map[];
    }

    method RecordHistogram(o: Observation)
      requires Shaped(histograms)
      modifies this
      ensures histograms == Record(old(histograms), o)
    {
      if o.value.NotFinite? || o.value.ms < 0.0 {
        return;
      }
      var key := HistogramKey(o.name, o.labels);
      var sample := if key in histograms then histograms[key] else Empty(o);
      var counts := CountInto(sample.counts, sample.buckets, o.value.ms);
      sample := sample.(counts := counts, count := sample.count + 1, sum := sample.sum + o.value.ms);
      histograms := histograms[key := sample];
    }

    /** The bucket loop: every bucket whose bound the value does not exceed. */
    static method CountInto(before: seq<nat>, buckets: seq<real>, ms: real) returns (counts: seq<nat>)
      requires |before| == |buckets|
      ensures counts == Bumped(before, buckets, ms)
    {
      counts := before;
      for i := 0 to |counts|
        invariant |counts| == |before|
        invariant forall j | 0 <= j < i :: counts[j] == Bumped(before, buckets, ms)[j]
        invariant forall j | i <= j < |counts| :: counts[j] == before[j]
      {
        if ms <= buckets[i] {
          counts := counts[i := counts[i] + 1];
        }
      }
    }
  }

  // ---- Any run -------------------------------------------------------------------------------

  /** Latest observation last. */
  function Run(os: seq<Observation>): (samples: map<string, Sample>)
    ensures Shaped(samples)
  {
    if os == [] then map[] else Record(Run(os[..|os| - 1]), os[|os| - 1])
  }

  predicate Feeds(o: Observation, key: string) {
    Accepted(o) && KeyOf(o) == key
  }

  function ValuesOf(os: seq<Observation>, key: string): seq<real> {
    if os == [] then []
    else
      var o := os[|os| - 1];
      ValuesOf(os[..|os| - 1], key) + if Feeds(o, key) then [o.value.ms] else []
  }

  function FirstFor(os: seq<Observation>, key: string): Option<Observation> {
    if os == [] then None
    else if Feeds(os[0], key) then Some(os[0])
    else FirstFor(os[1..], key)
  }

  function CountUpTo(values: seq<real>, bound: real): nat {
    if values == [] then 0
    else CountUpTo(values[..|values| - 1], bound) + if values[|values| - 1] <= bound then 1 else 0
  }

  function Total(values: seq<real>): real {
    if values == [] then 0.0 else Total(values[..|values| - 1]) + values[|values| - 1]
  }

  function Summary(o: Observation, values: seq<real>): Sample {
    Sample(o.name, o.labels, o.buckets,
           seq(|o.buckets|, i requires 0 <= i < |o.buckets| => CountUpTo(values, o.buckets[i])),
           |values|, Total(values))
  }

  lemma {:induction false} FirstOfLonger(os: seq<Observation>, o: Observation, key: string)
    ensures FirstFor(os + [o], key) ==
      if FirstFor(os, key).Some? then FirstFor(os, key) else if Feeds(o, key) then Some(o) else None
    decreases |os|
  {
    if os == [] {
      assert os + [o] == [o] && [o][1..] == [];
    } else {
      assert (os + [o])[1..] == os[1..] + [o];
      FirstOfLonger(os[1..], o, key);
    }
  }

  lemma SummaryGrows(o: Observation, values: seq<real>, ms: real)
    ensures var s := Summary(o, values);
      Summary(o, values + [ms]) ==
        s.(counts := Bumped(s.counts, s.buckets, ms), count := s.count + 1, sum := s.sum + ms)
  {
  }

  lemma EmptySummary(o: Observation)
    ensures Summary(o, []) == Empty(o)
  {
  }

  /**
    After any run a key has a sample exactly when something was accepted for it, and the sample
    summarises all of that, bucket by bucket, in the first observation's buckets.
   */
  lemma {:induction false} SamplesSummarise(os: seq<Observation>, key: string)
    ensures key in Run(os) <==> ValuesOf(os, key) != []
    ensures key in Run(os) <==> FirstFor(os, key).Some?
    ensures key in Run(os) ==> Run(os)[key] == Summary(FirstFor(os, key).value, ValuesOf(os, key))
    decreases |os|
  {
    if os != [] {
      var o, before := os[|os| - 1], os[..|os| - 1];
      assert os == before + [o];
      SamplesSummarise(before, key);
      FirstOfLonger(before, o, key);
      if Feeds(o, key) {
        var first := if FirstFor(before, key).Some? then FirstFor(before, key).value else o;
        SummaryGrows(first, ValuesOf(before, key), o.value.ms);
        EmptySummary(first);
        hide Summary, Bumped;
      } else {
        assert ValuesOf(before, key) + [] == ValuesOf(before, key);
      }
    }
  }

  /** The observations of this key with a finite value that is not negative. */
  function Good(os: seq<Observation>, key: string): set<nat> {
    set i: nat | i < |os| && os[i].value.Finite? && os[i].value.ms >= 0.0
                 && HistogramKey(os[i].name, os[i].labels) == key
  }

  /** Every such observation is counted, and no other is. */
  lemma {:induction false} GoodValuesCount(os: seq<Observation>, key: string)
    ensures |ValuesOf(os, key)| == |Good(os, key)|
    ensures key in Run(os) ==> Run(os)[key].count == |Good(os, key)|
    ensures key !in Run(os) ==> Good(os, key) == {}
    decreases |os|
  {
    SamplesSummarise(os, key);
    ValuesAreGood(os, key);
    hide Run, Good;
  }

  lemma {:induction false} ValuesAreGood(os: seq<Observation>, key: string)
    ensures |ValuesOf(os, key)| == |Good(os, key)|
    ensures Good(os, key) != {} ==> |ValuesOf(os, key)| > 0
  {
    if os == [] {
      assert Good(os, key) == {};
    } else {
      var n := |os| - 1;
      ValuesAreGood(os[..n], key);
      GoodNext(os, key);
      hide Good, HistogramKey;
    }
  }

  lemma GoodNext(os: seq<Observation>, key: string)
    requires os != []
    ensures |Good(os, key)| == |Good(os[..|os| - 1], key)| + if Feeds(os[|os| - 1], key) then 1 else 0
    ensures Good(os, key) == {} <==> Good(os[..|os| - 1], key) == {} && !Feeds(os[|os| - 1], key)
  {
    hide HistogramKey;
    var n := |os| - 1;
    var before, now := Good(os[..n], key), Good(os, key);
    forall i ensures i in now <==> i in before || (i == n && Feeds(os[n], key)) {
    }
    assert n !in before && now == if Feeds(os[n], key) then before + {n} else before;
  }

  // ---- Cumulative buckets --------------------------------------------------------------------

  lemma {:induction false} WiderCountsMore(values: seq<real>, b1: real, b2: real)
    requires b1 <= b2 || (b1 < 0.0 && NonNegative(values))
    ensures CountUpTo(values, b1) <= CountUpTo(values, b2) <= |values|
    decreases |values|
  {
    if values != [] {
      WiderCountsMore(values[..|values| - 1], b1, b2);
    }
  }

  predicate Ascending(counts: seq<nat>) {
    forall i, j | 0 <= i < j < |counts| :: counts[i] <= counts[j]
  }

  predicate NonNegative(values: seq<real>) {
    forall i | 0 <= i < |values| :: values[i] >= 0.0
  }

  /**
    The counts never decrease from bucket to bucket, for every run of accepted values, exactly
    when no bound is followed by a smaller one (negative bounds count nothing and do not matter);
    and none exceeds the number of values.
   */
  lemma CumulativeIff(o: Observation)
    ensures (forall values | NonNegative(values) :: Ascending(Summary(o, values).counts))
       <==> forall i, j | 0 <= i < j < |o.buckets| :: o.buckets[i] < 0.0 || o.buckets[i] <= o.buckets[j]
    ensures forall values, i | 0 <= i < |o.buckets| :: Summary(o, values).counts[i] <= Summary(o, values).count
  {
    forall values, i | 0 <= i < |o.buckets|
      ensures Summary(o, values).counts[i] <= Summary(o, values).count
    {
      WiderCountsMore(values, o.buckets[i], o.buckets[i]);
    }
    if forall i, j | 0 <= i < j < |o.buckets| :: o.buckets[i] < 0.0 || o.buckets[i] <= o.buckets[j] {
      forall values, i, j | NonNegative(values) && 0 <= i < j < |o.buckets|
        ensures Summary(o, values).counts[i] <= Summary(o, values).counts[j]
      {
        WiderCountsMore(values, o.buckets[i], o.buckets[j]);
      }
    } else {
      var i, j :| 0 <= i < j < |o.buckets| && !(o.buckets[i] < 0.0 || o.buckets[i] <= o.buckets[j]);
      var values := [o.buckets[i]];
      assert values[..0] == [];
      assert CountUpTo(values, o.buckets[i]) == 1 && CountUpTo(values, o.buckets[j]) == 0;
      assert NonNegative(values) && Summary(o, values).counts[i] > Summary(o, values).counts[j];
    }
  }
}
