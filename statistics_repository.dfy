/**
 * The two loops of internal/statistics/repository/statistics_repository.go
 * that compute something from query rows: the device-age buckets with the
 * average age (GetDeviceAgeStatistics), and the placeholder comparison rows
 * (GetComparison). The SQL that yields the ages is an input: one number of
 * days per device.
 */
module StatisticsRepository {
  import opened GoLib

  // ---------------------------------------------------------------------
  // GetDeviceAgeStatistics

  /** The four age buckets; `Label` gives the key the response map uses. */
  datatype AgeBucket = Under90 | From90 | From180 | Over365

  function Label(b: AgeBucket): string
  {
    match b
    case Under90 => "<90"
    case From90 => "90-180"
    case From180 => "180-365"
    case Over365 => ">365"
  }

  /** The labels tell the buckets apart. */
  lemma LabelsDistinct(a: AgeBucket, b: AgeBucket)
    ensures Label(a) == Label(b) <==> a == b
  {
  }

  const AllBuckets: set<AgeBucket> := {Under90, From90, From180, Over365}

  /** The bucket of an age in days: below 90, below 180, below 365, or more. */
  function BucketOf(days: int): (b: AgeBucket)
    ensures b == Under90 <==> days < 90
    ensures b == From90 <==> 90 <= days < 180
    ensures b == From180 <==> 180 <= days < 365
    ensures b == Over365 <==> days >= 365
  {
    if days < 90 then Under90 else if days < 180 then From90 else if days < 365 then From180 else Over365
  }

  /** How many of the ages fall into a bucket. */
  function CountIn(ages: seq<int>, b: AgeBucket): nat
  {
    if ages == [] then 0
    else CountIn(ages[..|ages| - 1], b) + if BucketOf(ages[|ages| - 1]) == b then 1 else 0
  }

  function SumDays(ages: seq<int>): int
  {
    if ages == [] then 0 else SumDays(ages[..|ages| - 1]) + ages[|ages| - 1]
  }

  /** Every age is in exactly one bucket, so the counts add up to the number of rows. */
  lemma {:induction false} BucketCountsAddUp(ages: seq<int>)
    ensures CountIn(ages, Under90) + CountIn(ages, From90) + CountIn(ages, From180) + CountIn(ages, Over365) == |ages|
  {
    if ages != [] {
      BucketCountsAddUp(ages[..|ages| - 1]);
    }
  }

  /** The average GetDeviceAgeStatistics reports: the total divided by the
      count with Go's truncating division, and 0 when there are no rows. */
  function AverageDays(ages: seq<int>): int
  {
    if |ages| > 0 then GoDiv(SumDays(ages), |ages|) else 0
  }

  /** For non-negative ages the average is the floor of the mean: between
      0 and the total, and avg * n <= total < (avg + 1) * n. */
  lemma AverageIsFloorOfMean(ages: seq<int>)
    requires |ages| > 0 && SumDays(ages) >= 0
    ensures var avg := AverageDays(ages);
      0 <= avg <= SumDays(ages) && avg * |ages| <= SumDays(ages) < avg * |ages| + |ages|
  {
    GoDivBounds(SumDays(ages), |ages|);
  }

  /** A negative total is truncated toward zero, not down: the average is
      the ceiling of the mean, between the total and 0, and one above the
      floor quotient whenever the count does not divide the total. */
  lemma AverageTruncatesTowardZero(ages: seq<int>)
    requires |ages| > 0 && SumDays(ages) < 0
    ensures var avg := AverageDays(ages);
      && SumDays(ages) <= avg <= 0
      && avg * |ages| - |ages| < SumDays(ages) <= avg * |ages|
      && (SumDays(ages) % |ages| != 0 ==> avg == SumDays(ages) / |ages| + 1)
      && (SumDays(ages) % |ages| == 0 ==> avg == SumDays(ages) / |ages|)
  {
    GoDivBounds(SumDays(ages), |ages|);
    GoDivNegative(SumDays(ages), |ages|);
  }

  /** The bucket loop of GetDeviceAgeStatistics. */
  method DeviceAgeStatistics(ages: seq<int>) returns (buckets: map<AgeBucket, nat>, avg: int)
    ensures buckets.Keys == AllBuckets
    ensures forall b :: b in buckets ==> buckets[b] == CountIn(ages, b)
    ensures avg == AverageDays(ages)
  {
    buckets := map[Under90 := 0, From90 := 0, From180 := 0, Over365 := 0];
    var sum := 0;
    var i := 0;
    while i < |ages|
      invariant 0 <= i <= |ages|
      invariant buckets.Keys == AllBuckets
      invariant forall b :: b in buckets ==> buckets[b] == CountIn(ages[..i], b)
      invariant sum == SumDays(ages[..i])
    {
      var days := ages[i];
      assert ages[..i + 1][..i] == ages[..i];
      sum := sum + days;
      if days < 90 {
        buckets := buckets[Under90 := buckets[Under90] + 1];
      } else if days < 180 {
        buckets := buckets[From90 := buckets[From90] + 1];
      } else if days < 365 {
        buckets := buckets[From180 := buckets[From180] + 1];
      } else {
        buckets := buckets[Over365 := buckets[Over365] + 1];
      }
      i := i + 1;
    }
    assert ages[..|ages|] == ages;
    avg := 0;
    if |ages| > 0 {
      avg := GoDiv(sum, |ages|);
    }
  }

  // ---------------------------------------------------------------------
  // GetComparison

  /** The row for one device: "device_id" holds its ID, then every metric
      is set to 0 in order, so a metric named "device_id" overwrites the ID. */
  function MetricRow(id: int, metrics: seq<string>): map<string, int>
  {
    if metrics == [] then map["device_id" := id]
    else MetricRow(id, metrics[..|metrics| - 1])[metrics[|metrics| - 1] := 0]
  }

  /** A row has a key for "device_id" and for each metric and no other;
      every metric is 0, and "device_id" is the ID unless a metric has that
      name. */
  lemma {:induction false} MetricRowLookup(id: int, metrics: seq<string>, k: string)
    ensures var row := MetricRow(id, metrics);
      (k in row <==> k == "device_id" || k in metrics)
      && (k in metrics ==> row[k] == 0)
      && (k == "device_id" && k !in metrics ==> row[k] == id)
  {
    if metrics != [] {
      var init := metrics[..|metrics| - 1];
      MetricRowLookup(id, init, k);
      assert metrics == init + [metrics[|metrics| - 1]];
    }
  }

  /** The row-building loop for one device. */
  method ComparisonRow(id: int, metrics: seq<string>) returns (row: map<string, int>)
    ensures row == MetricRow(id, metrics)
  {
    row := map["device_id" := id];
    var j := 0;
    while j < |metrics|
      invariant 0 <= j <= |metrics|
      invariant row == MetricRow(id, metrics[..j])
    {
      assert metrics[..j + 1][..j] == metrics[..j];
      row := row[metrics[j] := 0];
      j := j + 1;
    }
    assert metrics[..|metrics|] == metrics;
  }

  /** GetComparison: one row per device, in the order of the IDs. */
  method GetComparison(ids: seq<int>, metrics: seq<string>) returns (items: seq<map<string, int>>)
    ensures |items| == |ids|
    ensures forall i :: 0 <= i < |ids| ==> items[i] == MetricRow(ids[i], metrics)
  {
    items := [];
    var i := 0;
    while i < |ids|
      invariant 0 <= i <= |ids|
      invariant |items| == i
      invariant forall j :: 0 <= j < i ==> items[j] == MetricRow(ids[j], metrics)
    {
      var row := ComparisonRow(ids[i], metrics);
      items := items + [row];
      i := i + 1;
    }
  }
}
