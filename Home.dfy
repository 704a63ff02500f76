/** The summary cards of the dashboard's home page: the two per-day
    averages and the "Most Common Time" card, computed from the bathroom
    statistics the page holds. Every member is a function of the statistics
    value, so nothing here can change the page's `bathroomData`. */
module Home {
  import opened ArrayOps

  /** A JavaScript value that is either present or `undefined`. */
  datatype Option<T> = None | Some(value: T)

  /** One chart series: a count per day and that day's label. */
  datatype Series = Series(data: seq<nat>, labels: seq<string>)

  /** The two series of `bathroomData` the summary cards read. */
  datatype BathroomData = BathroomData(pee: Series, poop: Series)

  /** What the "Most Common Time" card shows; `time` is `None` where the
      page computes `undefined`. */
  datatype MostCommon = MostCommon(time: Option<string>, description: string)

  const NoData := MostCommon(Some("N/A"), "No data available")
  const ActivePrefix := "Most active on "

  /** `[...pee.data, ...poop.data]`: the pee counts followed by the poop counts. */
  function AllData(d: BathroomData): (all: seq<nat>)
    ensures |all| == |d.pee.data| + |d.poop.data|
    ensures forall i :: 0 <= i < |d.pee.data| ==> all[i] == d.pee.data[i]
    ensures forall j :: 0 <= j < |d.poop.data| ==> all[|d.pee.data| + j] == d.poop.data[j]
  {
    d.pee.data + d.poop.data
  }

  /** The joined counts add up to the pee total plus the poop total. */
  lemma AllDataTotal(d: BathroomData)
    ensures Sum(AllData(d)) == Sum(d.pee.data) + Sum(d.poop.data)
  {
    SumAppend(d.pee.data, d.poop.data);
  }

  /** The divisor of an average over `n` days: `n || 1` in the "Most Common
      Time" guard and `Math.max(1, n)` in the average cards, which agree on
      every length. */
  function Divisor(n: nat): (d: nat)
    ensures d >= 1
    ensures n > 0 ==> d == n
    ensures n == 0 ==> d == 1
  {
    if n == 0 then 1 else n
  }

  /** The exact average of a series before it is rounded for display: its
      total spread over `Divisor(|xs|)` days. It is never negative, it is
      zero exactly when the total is, and an empty series averages zero. */
  function Average(xs: seq<nat>): (avg: real)
    ensures avg >= 0.0
    ensures avg == 0.0 <==> Sum(xs) == 0
    ensures xs == [] ==> avg == 0.0
  {
    QuotientFacts(Sum(xs) as real, Divisor(|xs|) as real);
    (Sum(xs) as real) / (Divisor(|xs|) as real)
  }

  /** Dividing by at least one day keeps the sign and keeps zero apart. */
  lemma QuotientFacts(total: real, days: real)
    requires total >= 0.0 && days >= 1.0
    ensures total / days >= 0.0
    ensures total / days == 0.0 <==> total == 0.0
  {
  }

  /** `labels[i]`: the label at `i`, or `undefined` outside the array. */
  function Lookup(labels: seq<string>, i: int): (r: Option<string>)
    ensures r.Some? <==> 0 <= i < |labels|
    ensures r.Some? ==> r.value == labels[i]
  {
    if 0 <= i < |labels| then Some(labels[i]) else None
  }

  /** How a template literal renders a possibly `undefined` value: a string
      as itself and `undefined` as the word "undefined". */
  function Show(v: Option<string>): (s: string)
    ensures v.Some? ==> s == v.value
    ensures v.None? ==> s == "undefined"
  {
    match v
    case Some(s) => s
    case None => "undefined"
  }

  /** `getMostCommonTime`: "N/A" when no event was logged; otherwise the pee
      label at the first position of the largest count in the joined series,
      which is `undefined` when that position lies past the pee labels. */
  function MostCommonTime(d: BathroomData): (r: MostCommon)
    ensures r == NoData <==> Sum(AllData(d)) == 0
    ensures Sum(AllData(d)) != 0 ==>
      exists k: nat :: IsFirstPeak(AllData(d), k)
        && r.time == (if k < |d.pee.labels| then Some(d.pee.labels[k]) else None)
        && r.description == ActivePrefix + Show(r.time)
  {
    var all := AllData(d);
    if Average(all) == 0.0 then NoData
    else
      var maxIndex := IndexOf(all, Max(all));
      var time := Lookup(d.pee.labels, maxIndex);
      var r := MostCommon(time, ActivePrefix + Show(time));
      assert r.description[0] == 'M' != NoData.description[0];
      assert IsFirstPeak(all, PeakIndex(all));
      r
  }

  /** The card answers for the first peak of the joined series, whichever
      position that is: the pee label there when there is one, `undefined`
      otherwise, and the description names the same value. */
  lemma MostCommonTimeAt(d: BathroomData, k: nat)
    requires Sum(AllData(d)) != 0
    requires IsFirstPeak(AllData(d), k)
    ensures k < |d.pee.labels| ==>
      MostCommonTime(d) == MostCommon(Some(d.pee.labels[k]), ActivePrefix + d.pee.labels[k])
    ensures k >= |d.pee.labels| ==>
      MostCommonTime(d) == MostCommon(None, ActivePrefix + "undefined")
  {
    var all := AllData(d);
    assert Average(all) != 0.0;
    FirstPeakUnique(all, PeakIndex(all), k);
    assert MostCommonTime(d).time == Lookup(d.pee.labels, k);
  }

  /** The card shows "N/A" exactly when both exact averages (before the
      cards round them with `toFixed`) are zero. */
  lemma NoDataIffAveragesZero(d: BathroomData)
    ensures MostCommonTime(d) == NoData <==>
      Average(d.pee.data) == 0.0 && Average(d.poop.data) == 0.0
  {
    AllDataTotal(d);
  }

  /** When a poop count beats every pee count and the pee labels are no
      longer than the pee counts, the card's time is `undefined` and its
      description reads "Most active on undefined". */
  lemma PoopPeakHasNoLabel(d: BathroomData, j: nat)
    requires |d.pee.labels| <= |d.pee.data|
    requires j < |d.poop.data| && 0 < d.poop.data[j]
    requires forall i :: 0 <= i < |d.pee.data| ==> d.pee.data[i] < d.poop.data[j]
    ensures MostCommonTime(d) == MostCommon(None, ActivePrefix + "undefined")
  {
    var all := AllData(d);
    var n := |d.pee.data|;
    assert all[n + j] == d.poop.data[j];
    var k := PeakIndex(all);
    assert all[n + j] <= all[k];
    assert forall i :: 0 <= i < n ==> all[i] < all[k];
    assert k >= n;
    MostCommonTimeAt(d, k);
  }

  /** When the largest count first occurs in the pee series, no poop count
      exceeds it, and every pee day has a label, the card names that day. */
  lemma PeePeakIsLabelled(d: BathroomData, k: nat)
    requires |d.pee.data| <= |d.pee.labels|
    requires IsFirstPeak(d.pee.data, k) && 0 < d.pee.data[k]
    requires forall j :: 0 <= j < |d.poop.data| ==> d.poop.data[j] <= d.pee.data[k]
    ensures MostCommonTime(d) == MostCommon(Some(d.pee.labels[k]), ActivePrefix + d.pee.labels[k])
  {
    var all := AllData(d);
    var n := |d.pee.data|;
    forall i | 0 <= i < |all|
      ensures all[i] <= all[k]
    {
      if i >= n {
        assert all[n + (i - n)] == d.poop.data[i - n];
      }
    }
    assert Sum(all) != 0 by {
      assert all[k] != 0;
    }
    MostCommonTimeAt(d, k);
  }

  // Corrected label lookup (see Findings in README.md).

  /** The label of position `k` of the joined series, taken from the series
      that position belongs to. */
  function JoinedLabel(d: BathroomData, k: nat): (r: Option<string>)
    ensures k < |d.pee.data| ==> r == Lookup(d.pee.labels, k)
    ensures k >= |d.pee.data| ==> r == Lookup(d.poop.labels, k - |d.pee.data|)
  {
    if k < |d.pee.data| then Lookup(d.pee.labels, k)
    else Lookup(d.poop.labels, k - |d.pee.data|)
  }

  /** The "Most Common Time" card with the peak labelled from its own series:
      same guard and same peak as `MostCommonTime`; when each series has a
      label for every day, the time is always defined and is the label of the
      day holding the peak, in whichever series it lies. */
  function MostCommonTimeLabelled(d: BathroomData): (r: MostCommon)
    ensures r == NoData <==> Sum(AllData(d)) == 0
    ensures Sum(AllData(d)) != 0 ==>
      exists k: nat :: IsFirstPeak(AllData(d), k)
        && r.description == ActivePrefix + Show(r.time)
        && (k < |d.pee.data| && k < |d.pee.labels| ==> r.time == Some(d.pee.labels[k]))
        && (k >= |d.pee.data| && k - |d.pee.data| < |d.poop.labels| ==>
              r.time == Some(d.poop.labels[k - |d.pee.data|]))
    ensures Sum(AllData(d)) != 0 && |d.pee.data| <= |d.pee.labels| && |d.poop.data| <= |d.poop.labels|
      ==> r.time.Some?
  {
    var all := AllData(d);
    if Average(all) == 0.0 then NoData
    else
      var maxIndex := PeakIndex(all);
      var time := JoinedLabel(d, maxIndex);
      var r := MostCommon(time, ActivePrefix + Show(time));
      assert r.description[0] == 'M' != NoData.description[0];
      r
  }

  /** One day with only poop events: the card as written loses the label,
      the corrected card keeps it. */
  lemma PoopOnlyDayExample()
    ensures var d := BathroomData(Series([0], ["Mon"]), Series([3], ["Mon"]));
      && MostCommonTime(d) == MostCommon(None, ActivePrefix + "undefined")
      && MostCommonTimeLabelled(d) == MostCommon(Some("Mon"), ActivePrefix + "Mon")
  {
    var d := BathroomData(Series([0], ["Mon"]), Series([3], ["Mon"]));
    PoopPeakHasNoLabel(d, 0);
    var all := AllData(d);
    assert all == [0, 3];
    FirstPeakUnique(all, PeakIndex(all), 1);
  }
}
