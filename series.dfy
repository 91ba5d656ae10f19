/** The five parallel series both scripts record (tempos, biomassa_v,
    temp_v, prec_v, vc_v) and the min/max reductions their plots use. */
module Series {

  /** One committed sample: the time, V, T, P and the carrying capacity. */
  datatype Sample = Sample(t: real, v: real, temp: real, prec: real, vc: real)

  /** The five lists, kept side by side. */
  datatype Record = Record(times: seq<real>, biomass: seq<real>, temperature: seq<real>,
                           precipitation: seq<real>, capacity: seq<real>)
  {
    /** All five lists have one entry per committed sample. */
    predicate Aligned() {
      |biomass| == |times| && |temperature| == |times| &&
      |precipitation| == |times| && |capacity| == |times|
    }

    function Length(): nat {
      |times|
    }

    /** The k-th entry of every list, read as one sample. */
    function SampleAt(k: nat): Sample
      requires Aligned() && k < Length()
    {
      Sample(times[k], biomass[k], temperature[k], precipitation[k], capacity[k])
    }

    /** The four plotted panels, in the order the scripts zip them with
        their axes: biomass, temperature, precipitation, carrying capacity,
        each with one value per sample. */
    function Panels(): (p: seq<seq<real>>)
      ensures |p| == 4
      ensures Aligned() ==> forall q :: 0 <= q < 4 ==> |p[q]| == Length()
    {
      [biomass, temperature, precipitation, capacity]
    }

    /** One `append` on each of the five lists: the lists stay aligned, grow
        by exactly one entry, end with the new sample and keep every earlier
        sample. */
    function Append(s: Sample): (r: Record)
      requires Aligned()
      ensures r.Aligned() && r.Length() == Length() + 1
      ensures r.SampleAt(Length()) == s
      ensures forall k :: 0 <= k < Length() ==> r.SampleAt(k) == SampleAt(k)
    {
      Record(times + [s.t], biomass + [s.v], temperature + [s.temp],
             precipitation + [s.prec], capacity + [s.vc])
    }
  }

  /** The k-th value of each panel is the matching field of the k-th sample. */
  lemma PanelsOfSamples(rec: Record, k: nat)
    requires rec.Aligned() && k < rec.Length()
    ensures var p, s := rec.Panels(), rec.SampleAt(k);
      p[0][k] == s.v && p[1][k] == s.temp && p[2][k] == s.prec && p[3][k] == s.vc
  {
  }

  /** An axis range, as set_xlim / set_ylim take it. */
  datatype Limits = Limits(lo: real, hi: real)

  /** Five empty lists. */
  const Empty: Record := Record([], [], [], [], [])

  /** Strictly increasing: the order of committed sample times. */
  predicate Increasing(s: seq<real>) {
    forall i, j :: 0 <= i < j < |s| ==> s[i] < s[j]
  }

  /** Appending a time later than every recorded one keeps the times strictly increasing. */
  lemma AppendLater(times: seq<real>, last: real, t: real)
    requires Increasing(times) && last < t
    requires forall j :: 0 <= j < |times| ==> times[j] <= last
    ensures Increasing(times + [t])
  {
  }

  predicate NonDecreasing(s: seq<real>) {
    forall i, j :: 0 <= i <= j < |s| ==> s[i] <= s[j]
  }

  /** Python's max() of a non-empty list: an element of it, at least every element. */
  function Max(s: seq<real>): (m: real)
    requires |s| > 0
    ensures m in s
    ensures forall i :: 0 <= i < |s| ==> s[i] <= m
  {
    if |s| == 1 then s[0]
    else
      var rest := Max(s[1..]);
      assert forall i :: 1 <= i < |s| ==> s[i] == s[1..][i - 1];
      if rest < s[0] then s[0] else rest
  }

  /** Python's min() of a non-empty list: an element of it, at most every element. */
  function Min(s: seq<real>): (m: real)
    requires |s| > 0
    ensures m in s
    ensures forall i :: 0 <= i < |s| ==> m <= s[i]
  {
    if |s| == 1 then s[0]
    else
      var rest := Min(s[1..]);
      assert forall i :: 1 <= i < |s| ==> s[i] == s[1..][i - 1];
      if s[0] < rest then s[0] else rest
  }

  /** A bound is at least every element exactly when it is at least the maximum. */
  lemma {:induction false} AtMostMax(s: seq<real>, bound: real)
    requires |s| > 0
    ensures (forall i :: 0 <= i < |s| ==> s[i] <= bound) <==> Max(s) <= bound
  {
    var i :| 0 <= i < |s| && s[i] == Max(s);
  }

  /** The minimum never exceeds the maximum. */
  lemma MinAtMostMax(s: seq<real>)
    requires |s| > 0
    ensures Min(s) <= Max(s)
  {
    assert s[0] <= Max(s);
  }
}
