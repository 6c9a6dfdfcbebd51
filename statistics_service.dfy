/**
 * The request handling of internal/statistics/service/statistics_service.go:
 * every entry point first rejects an unauthenticated caller, then fills in
 * the default parameters, parses the comma-separated device IDs of the
 * price-trend query, checks the export and heatmap requests and builds the
 * export download URL. What the repository returns is not modelled, only
 * whether its call fails (`failed`), except for the two computations of
 * StatisticsRepository, which are used as they are.
 */
module StatisticsService {
  import opened Common
  import opened GoLib
  import opened StatisticsRepository

  /** The check every handler makes first: a user ID that is not positive
      means the caller is not authenticated. */
  function Authenticate(userID: int): (e: Option<Error>)
    ensures e.Some? <==> userID <= 0
    ensures e.Some? ==> e.value.code == Auth
  {
    if userID <= 0 then Some(Error(Auth, "authentication failed")) else None
  }

  /** A request parameter with its default filled in when it is empty. */
  function Defaulted(value: string, default: string): (r: string)
    ensures value != "" ==> r == value
    ensures value == "" ==> r == default
  {
    if value == "" then default else value
  }

  /** The period and grouping a statistics query is run with. */
  datatype Query = Query(period: string, groupBy: string)

  /** GetDevicesStatistics: period "month" and grouping "category" by default. */
  function GetDevicesStatistics(userID: int, period: string, groupBy: string, failed: bool): (r: Result<Query>)
    ensures userID <= 0 ==> r == Err(Authenticate(userID).value)
    ensures userID > 0 && failed ==> r.Err? && r.error.code == Database
    ensures r.Ok? <==> userID > 0 && !failed
    ensures r.Ok? ==> r.value.period != "" && r.value.groupBy != ""
                      && (period != "" ==> r.value.period == period) && (period == "" ==> r.value.period == "month")
                      && (groupBy != "" ==> r.value.groupBy == groupBy) && (groupBy == "" ==> r.value.groupBy == "category")
  {
    if Authenticate(userID).Some? then Err(Authenticate(userID).value)
    else if failed then Fail(Database, "failed to load the statistics")
    else Ok(Query(Defaulted(period, "month"), Defaulted(groupBy, "category")))
  }

  /** GetValueAnalysis: period "month" by default; the repository's errors are ignored. */
  function GetValueAnalysis(userID: int, period: string): (r: Result<string>)
    ensures r.Err? <==> userID <= 0
    ensures r.Err? ==> r.error.code == Auth
    ensures r.Ok? ==> r.value == (if period == "" then "month" else period)
  {
    if Authenticate(userID).Some? then Err(Authenticate(userID).value)
    else Ok(Defaulted(period, "month"))
  }

  /** GetDepreciationStatistics: period "month" by default. */
  function GetDepreciationStatistics(userID: int, period: string, failed: bool): (r: Result<string>)
    ensures userID <= 0 ==> r.Err? && r.error.code == Auth
    ensures userID > 0 && failed ==> r.Err? && r.error.code == Database
    ensures r.Ok? <==> userID > 0 && !failed
    ensures r.Ok? ==> r.value == (if period == "" then "month" else period)
  {
    if Authenticate(userID).Some? then Err(Authenticate(userID).value)
    else if failed then Fail(Database, "failed to load the depreciation statistics")
    else Ok(Defaulted(period, "month"))
  }

  /** GetSpendingStatistics: period "year" and grouping "month" by default. */
  function GetSpendingStatistics(userID: int, period: string, groupBy: string, failed: bool): (r: Result<Query>)
    ensures userID <= 0 ==> r.Err? && r.error.code == Auth
    ensures userID > 0 && failed ==> r.Err? && r.error.code == Database
    ensures r.Ok? <==> userID > 0 && !failed
    ensures r.Ok? ==> (period != "" ==> r.value.period == period) && (period == "" ==> r.value.period == "year")
                      && (groupBy != "" ==> r.value.groupBy == groupBy) && (groupBy == "" ==> r.value.groupBy == "month")
  {
    if Authenticate(userID).Some? then Err(Authenticate(userID).value)
    else if failed then Fail(Database, "failed to load the spending statistics")
    else Ok(Query(Defaulted(period, "year"), Defaulted(groupBy, "month")))
  }

  /** GetInvestmentReturn: sold devices are included unless the request says otherwise. */
  function GetInvestmentReturn(userID: int, includeSold: Option<bool>, failed: bool): (r: Result<bool>)
    ensures userID <= 0 ==> r.Err? && r.error.code == Auth
    ensures r.Ok? <==> userID > 0 && !failed
    ensures r.Ok? ==> r.value == (includeSold.None? || includeSold.value)
  {
    if Authenticate(userID).Some? then Err(Authenticate(userID).value)
    else if failed then Fail(Database, "failed to load the investment return")
    else Ok(if includeSold.Some? then includeSold.value else true)
  }

  /** GetHeatmap: the heatmap type is required. */
  function GetHeatmap(userID: int, heatmapType: string, failed: bool): (r: Result<string>)
    ensures userID <= 0 ==> r.Err? && r.error.code == Auth
    ensures userID > 0 && heatmapType == "" ==> r.Err? && r.error.code == Param
    ensures r.Ok? <==> userID > 0 && heatmapType != "" && !failed
    ensures r.Ok? ==> r.value == heatmapType
  {
    if Authenticate(userID).Some? then Err(Authenticate(userID).value)
    else if heatmapType == "" then Fail(Param, "type is required")
    else if failed then Fail(Database, "failed to load the heatmap")
    else Ok(heatmapType)
  }

  // ---------------------------------------------------------------------
  // GetPriceTrends: the device_ids parameter

  /** The IDs among the pieces: each piece is trimmed, and the pieces that
      Atoi accepts are kept in order. */
  function ParsedIDs(pieces: seq<string>): seq<int>
  {
    if pieces == [] then []
    else
      var init := ParsedIDs(pieces[..|pieces| - 1]);
      match Atoi(TrimSpace(pieces[|pieces| - 1]))
      case Some(v) => init + [v]
      case None => init
  }

  lemma ParsedIDsStep(pieces: seq<string>, i: nat)
    requires i < |pieces|
    ensures var v := Atoi(TrimSpace(pieces[i]));
      ParsedIDs(pieces[..i + 1]) == ParsedIDs(pieces[..i]) + (if v.Some? then [v.value] else [])
  {
    assert pieces[..i + 1][..i] == pieces[..i];
  }

  /** The device IDs of a device_ids parameter: none for a blank string,
      otherwise those among its comma-separated pieces. */
  function DeviceIDsOf(s: string): seq<int>
  {
    if TrimSpace(s) == "" then [] else ParsedIDs(Split(s, ','))
  }

  /** The parsing loop of GetPriceTrends. */
  method ParseDeviceIDs(s: string) returns (ids: seq<int>)
    ensures ids == DeviceIDsOf(s)
  {
    ids := [];
    if TrimSpace(s) != "" {
      var pieces := Split(s, ',');
      var i := 0;
      while i < |pieces|
        invariant 0 <= i <= |pieces|
        invariant ids == ParsedIDs(pieces[..i])
      {
        ParsedIDsStep(pieces, i);
        var v := Atoi(TrimSpace(pieces[i]));
        if v.Some? {
          ids := ids + [v.value];
        }
        i := i + 1;
      }
      assert pieces[..|pieces|] == pieces;
    }
  }

  /** The decimal forms of a list of IDs. */
  function Decimals(ids: seq<int>): (pieces: seq<string>)
    ensures |pieces| == |ids|
    ensures forall i :: 0 <= i < |ids| ==> pieces[i] == FormatInt(ids[i])
  {
    if ids == [] then [] else Decimals(ids[..|ids| - 1]) + [FormatInt(ids[|ids| - 1])]
  }

  /** A decimal starts with a digit or '-', ends with a digit, and has no
      comma. */
  lemma FormatIntShape(n: int)
    ensures var s := FormatInt(n);
      s != [] && IsDigit(s[|s| - 1]) && (IsDigit(s[0]) || s[0] == '-') && ',' !in s
  {
    var d := NatToString(if n < 0 then -n else n);
    assert AllDigits(d);
    if n < 0 {
      assert FormatInt(n) == "-" + d;
      assert FormatInt(n)[|FormatInt(n)| - 1] == d[|d| - 1];
    }
  }

  /** TrimSpace leaves a decimal as it is. */
  lemma TrimFormatInt(n: int)
    ensures TrimSpace(FormatInt(n)) == FormatInt(n)
  {
    var s := FormatInt(n);
    FormatIntShape(n);
    assert TrimLeft(s) == s;
    assert TrimRight(s) == s;
  }

  /** Appending a piece that parses appends its value. */
  lemma ParsedIDsSnoc(pieces: seq<string>, piece: string, v: int)
    requires Atoi(TrimSpace(piece)) == Some(v)
    ensures ParsedIDs(pieces + [piece]) == ParsedIDs(pieces) + [v]
  {
    assert (pieces + [piece])[..|pieces|] == pieces;
  }

  lemma {:induction false} ParsedDecimals(ids: seq<int>)
    requires forall i :: 0 <= i < |ids| ==> MinInt64 <= ids[i] <= MaxInt64
    ensures ParsedIDs(Decimals(ids)) == ids
  {
    if ids != [] {
      var init := ids[..|ids| - 1];
      var last := ids[|ids| - 1];
      ParsedDecimals(init);
      assert Decimals(ids) == Decimals(init) + [FormatInt(last)];
      TrimFormatInt(last);
      AtoiFormatInt(last);
      ParsedIDsSnoc(Decimals(init), FormatInt(last), last);
      assert ids == init + [last];
    }
  }

  /** A device_ids parameter written as the comma-joined decimals of a
      non-empty list of int64 IDs is read back as that list. */
  lemma DeviceIDsRoundTrip(ids: seq<int>)
    requires |ids| > 0
    requires forall i :: 0 <= i < |ids| ==> MinInt64 <= ids[i] <= MaxInt64
    ensures DeviceIDsOf(Join(Decimals(ids), ',')) == ids
  {
    var pieces := Decimals(ids);
    var s := Join(pieces, ',');
    forall p | p in pieces
      ensures ',' !in p
    {
      var k :| 0 <= k < |pieces| && pieces[k] == p;
      FormatIntShape(ids[k]);
    }
    SplitJoin(pieces, ',');
    JoinStartsWith(pieces, ',');
    FormatIntShape(ids[0]);
    TrimSpaceEmptyIff(s);
    assert !IsSpace(s[0]);
    ParsedDecimals(ids);
  }

  /** A join of pieces whose first is not empty starts with that piece. */
  lemma JoinStartsWith(pieces: seq<string>, sep: char)
    requires |pieces| > 0
    ensures HasPrefix(Join(pieces, sep), pieces[0])
  {
  }

  /** A blank device_ids parameter selects no device. */
  lemma BlankDeviceIDs(s: string)
    requires forall k :: 0 <= k < |s| ==> IsSpace(s[k])
    ensures DeviceIDsOf(s) == []
  {
    TrimSpaceEmptyIff(s);
  }

  /** The query of GetPriceTrends: period "30d" by default, and the parsed IDs. */
  datatype TrendsQuery = TrendsQuery(period: string, ids: seq<int>)

  /** GetPriceTrends. */
  method GetPriceTrends(userID: int, period: string, deviceIDs: string, failed: bool) returns (r: Result<TrendsQuery>)
    ensures userID <= 0 ==> r.Err? && r.error.code == Auth
    ensures userID > 0 && failed ==> r.Err? && r.error.code == Database
    ensures r.Ok? <==> userID > 0 && !failed
    ensures r.Ok? ==> r.value == TrendsQuery(if period == "" then "30d" else period, DeviceIDsOf(deviceIDs))
  {
    if userID <= 0 {
      return Err(Authenticate(userID).value);
    }
    var p := period;
    if p == "" {
      p := "30d";
    }
    var ids := ParseDeviceIDs(deviceIDs);
    if failed {
      return Fail(Database, "failed to load the price trends");
    }
    return Ok(TrendsQuery(p, ids));
  }

  // ---------------------------------------------------------------------
  // GetDeviceAgeStatistics and PostComparison

  /** GetDeviceAgeStatistics over the ages the query returns. */
  method GetDeviceAgeStatistics(userID: int, ages: Result<seq<int>>) returns (r: Result<(map<AgeBucket, nat>, int)>)
    ensures userID <= 0 ==> r.Err? && r.error.code == Auth
    ensures userID > 0 && ages.Err? ==> r.Err? && r.error.code == Database
    ensures r.Ok? <==> userID > 0 && ages.Ok?
    ensures r.Ok? ==> r.value.0.Keys == AllBuckets && r.value.1 == AverageDays(ages.value)
                      && forall b :: b in r.value.0 ==> r.value.0[b] == CountIn(ages.value, b)
  {
    if userID <= 0 {
      return Err(Authenticate(userID).value);
    }
    if ages.Err? {
      return Fail(Database, "failed to load the device ages");
    }
    var buckets, avg := DeviceAgeStatistics(ages.value);
    return Ok((buckets, avg));
  }

  /** PostComparison. The repository's GetComparison builds its rows
      without a query and never reports an error, so the database branch
      of statistics_service.go:140 cannot be taken. */
  method PostComparison(userID: int, ids: seq<int>, metrics: seq<string>) returns (r: Result<seq<map<string, int>>>)
    ensures r.Err? <==> userID <= 0
    ensures r.Err? ==> r.error.code == Auth
    ensures r.Ok? ==> |r.value| == |ids| && forall i :: 0 <= i < |ids| ==> r.value[i] == MetricRow(ids[i], metrics)
  {
    if userID <= 0 {
      return Err(Authenticate(userID).value);
    }
    var items := GetComparison(ids, metrics);
    return Ok(items);
  }

  // ---------------------------------------------------------------------
  // PostExportReport

  const DownloadPrefix: string := "/downloads/stats_"

  /** PostExportReport: both the report type and the format are required;
      the link names a file after the Unix time `now` with the lower-cased
      format as its extension. */
  function PostExportReport(userID: int, reportType: string, format: string, now: int): (r: Result<string>)
    ensures userID <= 0 ==> r.Err? && r.error.code == Auth
    ensures userID > 0 && (reportType == "" || format == "") ==> r.Err? && r.error.code == Param
    ensures r.Ok? <==> userID > 0 && reportType != "" && format != ""
    ensures r.Ok? ==> HasPrefix(r.value, DownloadPrefix)
  {
    if Authenticate(userID).Some? then Err(Authenticate(userID).value)
    else if reportType == "" || format == "" then Fail(Param, "report_type and format are required")
    else Ok(DownloadPrefix + FormatInt(now) + "." + ToLower(format))
  }

  /** filepath.Ext of a name ending in "." and a suffix without dots or
      slashes is that dot and suffix. */
  lemma {:induction false} ExtOfSuffix(a: string, b: string)
    requires '.' !in b && '/' !in b
    ensures Ext(a + "." + b) == "." + b
  {
    if b != [] {
      var init := b[..|b| - 1];
      ExtOfSuffix(a, init);
      assert (a + "." + b)[..|a + "." + b| - 1] == a + "." + init;
    }
  }

  /** Lower-casing adds no dot and no slash. */
  lemma ToLowerKeepsSeparators(format: string)
    requires '.' !in format && '/' !in format
    ensures '.' !in ToLower(format) && '/' !in ToLower(format)
  {
    var lower := ToLower(format);
    forall k | 0 <= k < |lower|
      ensures lower[k] != '.' && lower[k] != '/'
    {
      assert lower[k] == LowerChar(format[k]);
      assert format[k] in format;
    }
  }

  /** A name made of a prefix, some text, a dot and a suffix without dots
      or slashes has that dot and suffix as its extension, and the text sits
      between the prefix and the extension. */
  lemma NameParts(prefix: string, text: string, suffix: string)
    requires '.' !in suffix && '/' !in suffix
    ensures var name := prefix + text + "." + suffix;
      && Ext(name) == "." + suffix
      && name[|prefix|..|name| - |"." + suffix|] == text
  {
    ExtOfSuffix(prefix + text, suffix);
    var name := prefix + text + "." + suffix;
    assert name == prefix + text + ("." + suffix);
  }

  /** The download link reads back: for a format without dots or slashes
      its extension is the lower-cased format, and for an int64 time the
      digits between the prefix and the extension are that time. */
  lemma ExportURLReadsBack(userID: int, reportType: string, format: string, now: int)
    requires userID > 0 && reportType != "" && format != ""
    requires '.' !in format && '/' !in format
    requires MinInt64 <= now <= MaxInt64
    ensures var url := PostExportReport(userID, reportType, format, now).value;
      var ext := Ext(url);
      && ext == "." + ToLower(format)
      && |DownloadPrefix| + |ext| <= |url|
      && Atoi(url[|DownloadPrefix|..|url| - |ext|]) == Some(now)
  {
    ToLowerKeepsSeparators(format);
    NameParts(DownloadPrefix, FormatInt(now), ToLower(format));
    AtoiFormatInt(now);
  }
}
