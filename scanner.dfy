/**
 * The scan loop of `run_scanner` (main.py, lines 25-36 and 62-103):
 * every ticker of the fixed list is screened in order, accepted ones are
 * enriched and appended, failures are skipped, and the report is either the
 * "no matches" page or a table of the results.
 */
module Scanner {
  import opened Wrappers
  import opened Signals
  import opened Screening
  import opened Enrichment

  /** The fixed universe of line 27. */
  const Tickers: seq<string> :=
    ["AAPL", "MSFT", "NVDA", "TSLA", "INTC", "PYPL", "DIS", "BA", "AVGO", "AMD", "META", "GOOGL", "AMZN", "NFLX"]

  /** What the market-data download yields for one ticker: it raised, or a frame of daily bars (possibly empty). */
  datatype Download = DownloadFailed | Frame(bars: seq<Bar>)

  /** One row of the results list (the dict of lines 64-72) before price and RVOL are formatted. */
  datatype Record = Record(
    ticker: string,
    price: real,
    kind: Kind,
    condition: Condition,
    rvol: real,
    insider: string,
    news: string)

  /** The page written to index.html. */
  datatype Report = NoMatches | Table(rows: seq<Record>)

  /** The "Type" and "Condition" strings of a row, as lines 67-68 write them. */
  function TypeColumn(r: Record): (s: string)
    ensures s == "\U{1F48E} RECOVERY" <==> r.kind == Recovery
    ensures r.kind == Standard ==> s == "Standard"
  {
    LabelsAreDistinct(r.kind, Recovery, NearMA50, NearMA50);
    KindLabel(r.kind)
  }

  function ConditionColumn(r: Record): (s: string)
    ensures s == "Near MA50" <==> r.condition == NearMA50
    ensures r.condition == NearMA150 ==> s == "Near MA150"
  {
    LabelsAreDistinct(Standard, Standard, r.condition, NearMA50);
    ConditionLabel(r.condition)
  }

  /** The ticker's bars screen to an accepted candidate (a failed download never does). */
  predicate Matches(t: string, download: string -> Download)
  {
    download(t).Frame? && Screen(download(t).bars).Accepted?
  }

  /** The row a matching ticker contributes: its candidate plus the enrichment pair. */
  function RecordOf(t: string, c: Candidate, l: Lookup): (r: Record)
    ensures r.ticker == t && r.price == c.price && r.rvol == c.rvol
    ensures r.kind == c.kind && r.condition == c.condition
    ensures (r.news, r.insider) == DetailedInfo(l)
  {
    var info := DetailedInfo(l);
    Record(t, c.price, c.kind, c.condition, c.rvol, info.1, info.0)
  }

  /** The body of the loop for one ticker (lines 33-75): the row it appends, if any. */
  function Process(t: string, download: string -> Download, lookup: string -> Lookup): (r: Option<Record>)
    ensures r.Some? <==> Matches(t, download)
    ensures r.Some? ==> r.value.ticker == t
    ensures r.Some? ==> r.value == RecordOf(t, Screen(download(t).bars).candidate, lookup(t))
  {
    match download(t)
    case DownloadFailed => None
    case Frame(bars) =>
      match Screen(bars)
      case Accepted(c) => Some(RecordOf(t, c, lookup(t)))
      case _ => None
  }

  function Row(download: string -> Download, lookup: string -> Lookup): string -> Option<Record>
  {
    t => Process(t, download, lookup)
  }

  function Accepts(download: string -> Download): string -> bool
  {
    t => Matches(t, download)
  }

  /** The results list after scanning `ts` in order. */
  function ScanAll(ts: seq<string>, download: string -> Download, lookup: string -> Lookup): (rs: seq<Record>)
    ensures |rs| <= |ts|
    ensures forall r :: r in rs ==> r.ticker in ts && Matches(r.ticker, download)
  {
    var row := Row(download, lookup);
    CollectLength(ts, row);
    CollectSound(ts, row);
    Collect(ts, row)
  }

  /** The tickers of `ts` that match, in list order: the reference the results are checked against. */
  function MatchingTickers(ts: seq<string>, download: string -> Download): seq<string>
  {
    Select(ts, Accepts(download))
  }

  /** The report choice of lines 78-103. */
  function Render(results: seq<Record>): (r: Report)
    ensures r == NoMatches <==> results == []
    ensures r.Table? ==> r.rows == results && |r.rows| > 0
  {
    if results == [] then NoMatches else Table(results)
  }

  /**
   * The loop of lines 32-75: each ticker is downloaded and screened in turn;
   * an accepted one is enriched and appended, any other is skipped.
   */
  method Scan(tickers: seq<string>, download: string -> Download, lookup: string -> Lookup) returns (results: seq<Record>)
    ensures results == ScanAll(tickers, download, lookup)
  {
    results := [];
    for i := 0 to |tickers|
      invariant results == ScanAll(tickers[..i], download, lookup)
    {
      var ticker := tickers[i];
      CollectAppend(tickers[..i], [ticker], Row(download, lookup));
      assert tickers[..i + 1] == tickers[..i] + [ticker];
      assert [ticker][1..] == [];
      var frame := download(ticker);
      if frame.DownloadFailed? {
        continue;
      }
      var outcome := Screen(frame.bars);
      if outcome.Accepted? {
        var news, insider := GetDetailedInfo(lookup(ticker));
        var c := outcome.candidate;
        results := results + [Record(ticker, c.price, c.kind, c.condition, c.rvol, insider, news)];
      }
    }
    assert tickers[..|tickers|] == tickers;
  }

  /** `run_scanner`: the scan of the fixed list, then the choice of page; `download` and `lookup` stand for the network calls. */
  method RunScanner(download: string -> Download, lookup: string -> Lookup) returns (results: seq<Record>, report: Report)
    ensures results == ScanAll(Tickers, download, lookup)
    ensures report == Render(results)
  {
    results := Scan(Tickers, download, lookup);
    if results != [] {
      report := Table(results);
    } else {
      report := NoMatches;
    }
  }

  // ---------------------------------------------------------------------
  // Collecting rows over a list, for any per-ticker step

  /** The rows `row` yields over `ts`, in list order, skipping the tickers that yield none. */
  function Collect(ts: seq<string>, row: string -> Option<Record>): seq<Record>
  {
    if ts == [] then []
    else (if row(ts[0]).Some? then [row(ts[0]).value] else []) + Collect(ts[1..], row)
  }

  /** The tickers of `ts` that `keep` holds of, in list order. */
  function Select(ts: seq<string>, keep: string -> bool): seq<string>
  {
    if ts == [] then []
    else (if keep(ts[0]) then [ts[0]] else []) + Select(ts[1..], keep)
  }

  function TickersOf(rs: seq<Record>): (r: seq<string>)
    ensures |r| == |rs|
    ensures forall k :: 0 <= k < |rs| ==> r[k] == rs[k].ticker
  {
    seq(|rs|, k requires 0 <= k < |rs| => rs[k].ticker)
  }

  predicate NoDuplicates(xs: seq<string>)
  {
    forall i, j :: 0 <= i < j < |xs| ==> xs[i] != xs[j]
  }

  /** Collecting over a list in two parts gives the two row lists one after the other. */
  lemma {:induction false} CollectAppend(a: seq<string>, b: seq<string>, row: string -> Option<Record>)
    ensures Collect(a + b, row) == Collect(a, row) + Collect(b, row)
  {
    if a != [] {
      assert (a + b)[1..] == a[1..] + b;
      assert (a + b)[0] == a[0];
      CollectAppend(a[1..], b, row);
    } else {
      assert a + b == b;
    }
  }

  /** There are never more rows than tickers. */
  lemma {:induction false} CollectLength(ts: seq<string>, row: string -> Option<Record>)
    ensures |Collect(ts, row)| <= |ts|
  {
    if ts != [] {
      CollectLength(ts[1..], row);
    }
  }

  /** Every row comes from a ticker of the list. */
  lemma {:induction false} CollectSound(ts: seq<string>, row: string -> Option<Record>)
    ensures forall r :: r in Collect(ts, row) ==> exists t :: t in ts && row(t) == Some(r)
  {
    if ts != [] {
      CollectSound(ts[1..], row);
      forall r | r in Collect(ts, row) ensures exists t :: t in ts && row(t) == Some(r) {
        if r !in Collect(ts[1..], row) {
          assert row(ts[0]) == Some(r);
        } else {
          var t :| t in ts[1..] && row(t) == Some(r);
          assert t in ts;
        }
      }
    }
  }

  /** Every ticker of the list that yields a row has it collected. */
  lemma {:induction false} CollectComplete(ts: seq<string>, row: string -> Option<Record>)
    ensures forall t :: t in ts && row(t).Some? ==> row(t).value in Collect(ts, row)
  {
    if ts != [] {
      CollectComplete(ts[1..], row);
      forall t | t in ts && row(t).Some? ensures row(t).value in Collect(ts, row) {
        if t != ts[0] {
          assert t in ts[1..];
        }
      }
    }
  }

  /** When each row names its own ticker and rows exist exactly where `keep` holds, the rows name the selected tickers in order. */
  lemma {:induction false} CollectOrder(ts: seq<string>, row: string -> Option<Record>, keep: string -> bool)
    requires forall t :: row(t).Some? == keep(t)
    requires forall t :: row(t).Some? ==> row(t).value.ticker == t
    ensures TickersOf(Collect(ts, row)) == Select(ts, keep)
  {
    if ts != [] {
      CollectOrder(ts[1..], row, keep);
      var t := ts[0];
      var head := if row(t).Some? then [row(t).value] else [];
      var rest := Collect(ts[1..], row);
      assert Collect(ts, row) == head + rest;
      assert TickersOf(head) == if keep(t) then [t] else [];
      assert TickersOf(head + rest) == TickersOf(head) + TickersOf(rest);
    }
  }

  /** Over a list without repeated symbols, selecting keeps them distinct. */
  lemma {:induction false} SelectDistinct(ts: seq<string>, keep: string -> bool)
    requires NoDuplicates(ts)
    ensures NoDuplicates(Select(ts, keep))
    ensures forall t :: t in Select(ts, keep) ==> t in ts
  {
    if ts != [] {
      var tail := ts[1..];
      assert NoDuplicates(tail) by {
        forall i, j | 0 <= i < j < |tail| ensures tail[i] != tail[j] {
          assert tail[i] == ts[i + 1] && tail[j] == ts[j + 1];
        }
      }
      SelectDistinct(tail, keep);
      assert ts[0] !in tail by {
        forall j | 0 <= j < |tail| ensures tail[j] != ts[0] {
          assert tail[j] == ts[j + 1];
        }
      }
      if keep(ts[0]) {
        NoDuplicatesCons(ts[0], Select(tail, keep));
      }
    }
  }

  lemma NoDuplicatesCons(x: string, ys: seq<string>)
    requires x !in ys && NoDuplicates(ys)
    ensures NoDuplicates([x] + ys)
  {
    var xs := [x] + ys;
    forall i, j | 0 <= i < j < |xs| ensures xs[i] != xs[j] {
      assert xs[j] == ys[j - 1];
      if i > 0 {
        assert xs[i] == ys[i - 1];
      }
    }
  }

  // ---------------------------------------------------------------------
  // Properties of the scan

  /** A ticker that is skipped, for whatever reason, does not stop the tickers after it. */
  lemma SkippedTickerDoesNotStopScan(a: seq<string>, t: string, b: seq<string>, download: string -> Download, lookup: string -> Lookup)
    requires !Matches(t, download)
    ensures ScanAll(a + [t] + b, download, lookup) == ScanAll(a, download, lookup) + ScanAll(b, download, lookup)
  {
    var row := Row(download, lookup);
    CollectAppend(a, [t], row);
    CollectAppend(a + [t], b, row);
    assert Collect([t], row) == [] by {
      assert [t][1..] == [];
      assert row(t) == None;
    }
    assert Collect(a, row) + [] == Collect(a, row);
  }

  /** The results name exactly the matching tickers, in the order of the list. */
  lemma ScanOrder(ts: seq<string>, download: string -> Download, lookup: string -> Lookup)
    ensures TickersOf(ScanAll(ts, download, lookup)) == MatchingTickers(ts, download)
  {
    CollectOrder(ts, Row(download, lookup), Accepts(download));
  }

  /** There are never more results than tickers. */
  lemma ScanAllLength(ts: seq<string>, download: string -> Download, lookup: string -> Lookup)
    ensures |ScanAll(ts, download, lookup)| <= |ts|
  {
    CollectLength(ts, Row(download, lookup));
  }

  /** Every result is the record of a matching ticker of the list, built from its own candidate and lookup. */
  lemma ScanAllSound(ts: seq<string>, download: string -> Download, lookup: string -> Lookup)
    ensures forall r :: r in ScanAll(ts, download, lookup) ==>
              && r.ticker in ts
              && Matches(r.ticker, download)
              && r == RecordOf(r.ticker, Screen(download(r.ticker).bars).candidate, lookup(r.ticker))
  {
    CollectSound(ts, Row(download, lookup));
  }

  /** Every matching ticker of the list has its record among the results. */
  lemma ScanAllComplete(ts: seq<string>, download: string -> Download, lookup: string -> Lookup)
    ensures forall t :: t in ts && Matches(t, download) ==>
              RecordOf(t, Screen(download(t).bars).candidate, lookup(t)) in ScanAll(ts, download, lookup)
  {
    var row := Row(download, lookup);
    CollectComplete(ts, row);
    forall t | t in ts && Matches(t, download)
      ensures RecordOf(t, Screen(download(t).bars).candidate, lookup(t)) in ScanAll(ts, download, lookup)
    {
      assert row(t).Some?;
    }
  }

  /** Over a list without repeated symbols, each ticker has at most one result. */
  lemma AtMostOneRecordPerTicker(ts: seq<string>, download: string -> Download, lookup: string -> Lookup)
    requires NoDuplicates(ts)
    ensures NoDuplicates(TickersOf(ScanAll(ts, download, lookup)))
  {
    ScanOrder(ts, download, lookup);
    SelectDistinct(ts, Accepts(download));
  }

  /** The fixed universe has no repeated symbol: length and first two letters already tell them apart. */
  lemma TickersAreDistinct()
    ensures NoDuplicates(Tickers)
  {
    var keys := seq(|Tickers|, i requires 0 <= i < |Tickers| => (|Tickers[i]|, Tickers[i][0], Tickers[i][1]));
    assert keys == [(4, 'A', 'A'), (4, 'M', 'S'), (4, 'N', 'V'), (4, 'T', 'S'), (4, 'I', 'N'), (4, 'P', 'Y'), (3, 'D', 'I'),
                    (2, 'B', 'A'), (4, 'A', 'V'), (3, 'A', 'M'), (4, 'M', 'E'), (5, 'G', 'O'), (4, 'A', 'M'), (4, 'N', 'F')];
    forall i, j | 0 <= i < j < |Tickers| ensures Tickers[i] != Tickers[j] {
      assert keys[i] != keys[j];
    }
  }

  /** The real scan yields at most one row per ticker. */
  lemma OneRowPerTicker(download: string -> Download, lookup: string -> Lookup)
    ensures NoDuplicates(TickersOf(ScanAll(Tickers, download, lookup)))
  {
    TickersAreDistinct();
    AtMostOneRecordPerTicker(Tickers, download, lookup);
  }

  /** Enrichment decides only the text columns: which tickers appear is the same whatever the lookups return. */
  lemma EnrichmentNeverDropsRecords(
    ts: seq<string>, download: string -> Download, lookup1: string -> Lookup, lookup2: string -> Lookup)
    ensures TickersOf(ScanAll(ts, download, lookup1)) == TickersOf(ScanAll(ts, download, lookup2))
  {
    ScanOrder(ts, download, lookup1);
    ScanOrder(ts, download, lookup2);
  }

  /** A series that is empty or shorter than 151 bars gives no result. */
  lemma ShortSeriesGivesNoRecord(t: string, download: string -> Download, lookup: string -> Lookup)
    requires download(t).Frame? && |download(t).bars| < MinBars
    ensures Process(t, download, lookup) == None
  {
  }
}
