/**
 * The per-ticker rule of `run_scanner`
 * (main.py, lines 35-36 and 55-68): the length guard, the proximity rule
 * and the Type / Condition labels.
 */
module Screening {
  import opened Signals

  /** A ticker is kept when price is strictly within this many percent of MA50 or MA150. */
  const ProximityPct: real := 5.0
  /** A six-month change strictly below this many percent labels a match as a recovery. */
  const RecoveryPct: real := -30.0

  /** The "Type" column: "💎 RECOVERY" or "Standard". */
  datatype Kind = Recovery | Standard
  /** The "Condition" column: "Near MA50" or "Near MA150". */
  datatype Condition = NearMA50 | NearMA150

  /** The Python float division that raises ZeroDivisionError, in the order the code evaluates them. */
  datatype ScanError =
    | ZeroHalfYearClose  // drop_6m divides by the close at iloc[-126] (line 56)
    | ZeroMA50           // d50 divides by MA50 (line 59)
    | ZeroMA150          // d150 divides by MA150 (line 60)

  /** The computed part of an accepted ticker's row. */
  datatype Candidate = Candidate(price: real, kind: Kind, condition: Condition, rvol: real)

  /** What happens to one downloaded series. */
  datatype Outcome =
    | TooShort                     // `continue` at line 36
    | Failed(error: ScanError)     // the exception caught at lines 73-75
    | Rejected                     // the `if` at line 62 does not hold
    | Accepted(candidate: Candidate)

  function KindLabel(k: Kind): (s: string)
    ensures s == "\U{1F48E} RECOVERY" || s == "Standard"
    ensures |s| > 0 && (s[0] == '\U{1F48E}' <==> k == Recovery)
  {
    match k
    case Recovery => "\U{1F48E} RECOVERY"
    case Standard => "Standard"
  }

  function ConditionLabel(c: Condition): (s: string)
    ensures s == "Near MA50" || s == "Near MA150"
    ensures |s| >= 7 && s[..7] == "Near MA"
    ensures |s| == 9 <==> c == NearMA50
  {
    match c
    case NearMA50 => "Near MA50"
    case NearMA150 => "Near MA150"
  }

  /** `price` lies strictly within ProximityPct percent of `ma`, stated without division. */
  predicate WithinBand(price: real, ma: real)
  {
    Abs(price - ma) * 100.0 < ProximityPct * Abs(ma)
  }

  /** The change from `base` to `price` is below RecoveryPct percent, stated without division. */
  predicate DeepDrop(price: real, base: real)
  {
    || (base > 0.0 && (price - base) * 100.0 < RecoveryPct * base)
    || (base < 0.0 && (price - base) * 100.0 > RecoveryPct * base)
  }

  /** Lines 55-68 applied to the signals of a series that passed the length guard. */
  function Classify(s: Snapshot): (r: Outcome)
    ensures !r.TooShort?
    ensures r.Failed? <==> s.halfYearClose == 0.0 || s.ma50 == 0.0 || s.ma150 == 0.0
    ensures r.Failed? && s.halfYearClose == 0.0 ==> r.error == ZeroHalfYearClose
    ensures r.Failed? && s.halfYearClose != 0.0 && s.ma50 == 0.0 ==> r.error == ZeroMA50
    ensures r.Failed? && s.halfYearClose != 0.0 && s.ma50 != 0.0 ==> r.error == ZeroMA150
    ensures r.Accepted? <==> !r.Failed? && (WithinBand(s.price, s.ma50) || WithinBand(s.price, s.ma150))
    ensures r.Accepted? ==> r.candidate.price == s.price && r.candidate.rvol == s.rvol
    ensures r.Accepted? ==> (r.candidate.condition == NearMA50 <==> WithinBand(s.price, s.ma50))
    ensures r.Accepted? ==> (r.candidate.kind == Recovery <==> DeepDrop(s.price, s.halfYearClose))
  {
    if s.halfYearClose == 0.0 then Failed(ZeroHalfYearClose)
    else
      var drop := Change(s.price, s.halfYearClose);
      if s.ma50 == 0.0 then Failed(ZeroMA50)
      else
        var d50 := Distance(s.price, s.ma50);
        if s.ma150 == 0.0 then Failed(ZeroMA150)
        else
          var d150 := Distance(s.price, s.ma150);
          ChangeBelow(s.price, s.halfYearClose, RecoveryPct);
          DistanceBelow(s.price, s.ma50, ProximityPct);
          DistanceBelow(s.price, s.ma150, ProximityPct);
          if d50 < ProximityPct || d150 < ProximityPct then
            Accepted(Candidate(
              s.price,
              if drop < RecoveryPct then Recovery else Standard,
              if d50 < ProximityPct then NearMA50 else NearMA150,
              s.rvol))
          else
            Rejected
  }

  /** Lines 35-68 for one series: the length guard, then the signals and the rule. */
  function Screen(bars: seq<Bar>): (r: Outcome)
    ensures r.TooShort? <==> |bars| < MinBars
    ensures r.Accepted? ==> r.candidate.price == bars[|bars| - 1].close
  {
    if |bars| == 0 || |bars| < MinBars then TooShort
    else Classify(ComputeSignals(bars))
  }

  // ---------------------------------------------------------------------
  // Properties of the rule

  /** The condition is "Near MA150" only when price is outside the MA50 band and inside the MA150 band. */
  lemma NearMA150OnlyOutsideMA50Band(s: Snapshot)
    requires Classify(s).Accepted?
    ensures Classify(s).candidate.condition == NearMA150 <==>
              !WithinBand(s.price, s.ma50) && WithinBand(s.price, s.ma150)
  {
  }

  /** The Type label never affects acceptance: any other non-zero six-month close gives the same verdict. */
  lemma KindDoesNotAffectAcceptance(s: Snapshot, otherClose: real)
    requires s.halfYearClose != 0.0 && otherClose != 0.0
    ensures Classify(s).Accepted? == Classify(s.(halfYearClose := otherClose)).Accepted?
    ensures Classify(s).Accepted? ==>
              Classify(s).candidate.condition == Classify(s.(halfYearClose := otherClose)).candidate.condition
  {
  }

  /** Accepting a series is the proximity band rule on its moving averages. */
  lemma ScreenAcceptsWithinBand(bars: seq<Bar>)
    requires |bars| >= MinBars
    ensures var price := bars[|bars| - 1].close;
            var ma50 := TrailingMean(Closes(bars), ShortWindow);
            var ma150 := TrailingMean(Closes(bars), LongWindow);
            Screen(bars).Accepted? <==>
              && bars[|bars| - HalfYearOffset].close != 0.0 && ma50 != 0.0 && ma150 != 0.0
              && (WithinBand(price, ma50) || WithinBand(price, ma150))
  {
  }

  /** Only the last 150 bars of a long enough series decide its outcome; older history is downloaded but unused. */
  lemma ScreenReadsOnlyLastBars(a: seq<Bar>, b: seq<Bar>)
    requires |a| >= MinBars && |b| >= MinBars
    requires a[|a| - LongWindow..] == b[|b| - LongWindow..]
    ensures Screen(a) == Screen(b)
  {
    SignalsReadOnlyLastBars(a, b);
  }

  /** When every close is positive no divisor can be zero, so the series is never skipped by an exception. */
  lemma PositiveClosesNeverFail(bars: seq<Bar>)
    requires forall i :: 0 <= i < |bars| ==> bars[i].close > 0.0
    ensures !Screen(bars).Failed?
  {
    if |bars| >= MinBars {
      var closes := Closes(bars);
      TrailingMeanPositive(closes, ShortWindow);
      TrailingMeanPositive(closes, LongWindow);
      assert closes[|closes| - HalfYearOffset] > 0.0;
    }
  }

  /**
   * A series whose last 150 closes all equal a non-zero `c` has both averages
   * equal to `c`, so it is always accepted, as "Near MA50".
   */
  lemma FlatSeriesIsNearMA50(bars: seq<Bar>, c: real)
    requires |bars| >= MinBars && c != 0.0
    requires forall i :: |bars| - LongWindow <= i < |bars| ==> bars[i].close == c
    ensures Screen(bars).Accepted? && Screen(bars).candidate.condition == NearMA50
  {
    var closes := Closes(bars);
    TrailingMeanBounds(closes, ShortWindow, c, c);
    TrailingMeanBounds(closes, LongWindow, c, c);
    assert closes[|closes| - HalfYearOffset] == c;
  }

  /** The column strings tell the labels apart, so the page shows each label as the code writes it. */
  lemma LabelsAreDistinct(k1: Kind, k2: Kind, c1: Condition, c2: Condition)
    ensures KindLabel(k1) == KindLabel(k2) <==> k1 == k2
    ensures ConditionLabel(c1) == ConditionLabel(c2) <==> c1 == c2
  {
    if k1 != k2 {
      assert KindLabel(k1)[0] != KindLabel(k2)[0];
    }
    if c1 != c2 {
      assert ConditionLabel(c1)[8] != ConditionLabel(c2)[8];
    }
  }

  // Worked cases of the rule

  /** Price 100 against MA50 98 and MA150 120: 2.04% from MA50, accepted as "Near MA50". */
  lemma CaseNearMA50()
    ensures var r := Classify(Snapshot(100.0, 98.0, 120.0, 1.0, 1.0, 90.0));
            r.Accepted? && r.candidate.condition == NearMA50 && r.candidate.kind == Standard
  {
  }

  /** Price 100 against MA50 90 and MA150 120: both distances are at least 5%, rejected. */
  lemma CaseBothFar()
    ensures Classify(Snapshot(100.0, 90.0, 120.0, 1.0, 1.0, 90.0)) == Rejected
  {
  }

  /** Price 100 against MA50 96 and MA150 97 is 4.17% and 3.09% away: both within 5%, accepted as "Near MA50". */
  lemma CaseBothNear()
    ensures var r := Classify(Snapshot(100.0, 96.0, 97.0, 1.0, 1.0, 90.0));
            r.Accepted? && r.candidate.condition == NearMA50
  {
  }

  /** A drop of exactly 30% is not below the threshold: the label is "Standard". */
  lemma CaseDropOfThirtyIsStandard()
    ensures var r := Classify(Snapshot(70.0, 70.0, 70.0, 1.0, 1.0, 100.0));
            r.Accepted? && r.candidate.kind == Standard
  {
  }

  /** A drop of 31% labels an accepted match as a recovery. */
  lemma CaseDeepDropIsRecovery()
    ensures var r := Classify(Snapshot(69.0, 70.0, 70.0, 1.0, 1.0, 100.0));
            r.Accepted? && r.candidate.kind == Recovery
  {
  }
}
