/**
 Figures derived from the history on every render: the treatment day and its
 phase, the weekly pain average and the seven-bar pain chart.
 */
module Metrics {

  import opened Numbers
  import opened Entries
  import opened LogStore

  /**
   The treatment day shown on the dashboard: one more than the number of stored
   entries, not of logged days. The two agree exactly when each day has one
   entry; a repeated day makes the treatment day run ahead of the days logged.
   */
  function TreatmentDay(history: seq<LogEntry>): (day: int)
    ensures day == |history| + 1
    ensures day >= |Dates(history)| + 1
    ensures DistinctDates(history) ==> day == |Dates(history)| + 1
    ensures !DistinctDates(history) ==> day > |Dates(history)| + 1
  {
    DistinctDatesCount(history);
    |history| + 1
  }

  /** The dashboard's treatment phase. */
  datatype Phase = Adaptation | Stabilization | Control {
    function Label(): string
    {
      match this
      case Adaptation => "Fase de Adaptação"
      case Stabilization => "Fase de Estabilização"
      case Control => "Fase de Controlo"
    }

    function Rank(): nat
    {
      match this
      case Adaptation => 0
      case Stabilization => 1
      case Control => 2
    }
  }

  /**
   Starts at adaptation and is overridden past day 30 and again past day 90:
   days 1..30 adapt, 31..90 stabilise, 91 on control.
   */
  function PhaseOf(day: int): (p: Phase)
    ensures p == Adaptation <==> day <= 30
    ensures p == Stabilization <==> 30 < day <= 90
    ensures p == Control <==> 90 < day
    ensures p.Label() == "Fase de Adaptação" <==> day <= 30
    ensures p.Label() == "Fase de Estabilização" <==> 30 < day <= 90
    ensures p.Label() == "Fase de Controlo" <==> 90 < day
  {
    var initial := Adaptation;
    var afterFirst := if day > 30 then Stabilization else initial;
    if day > 90 then Control else afterFirst
  }

  /** The phase never goes back as the treatment day grows. */
  lemma PhaseNeverRegresses(d1: int, d2: int)
    requires d1 <= d2
    ensures PhaseOf(d1).Rank() <= PhaseOf(d2).Rank()
  {
  }

  /** Sum of the pain levels of a sequence of entries. */
  function SumPain(s: seq<LogEntry>): int
    decreases |s|
  {
    if s == [] then 0 else s[0].pain + SumPain(s[1..])
  }

  /**
   The weekly pain average as an exact quotient `total / count`; `NoData` is the
   `-` shown for an empty history.
   */
  datatype Average = NoData | Mean(total: int, count: nat)

  /** The average over the most recent (at most seven) entries, never dividing by zero. */
  function WeeklyAverage(history: seq<LogEntry>): (a: Average)
    ensures a.NoData? <==> |history| == 0
    ensures a.Mean? ==> 1 <= a.count <= 7 && a.count <= |history|
    ensures a.Mean? ==> a.count == 7 || a.count == |history|
  {
    if |history| == 0 then NoData
    else
      var n := Min(|history|, 7);
      Mean(SumPain(history[..n]), n)
  }

  lemma {:induction false} SumPainWithinForm(s: seq<LogEntry>)
    requires forall i :: 0 <= i < |s| ==> ValidPain(s[i].pain)
    ensures 0 <= SumPain(s) <= 8 * |s|
    decreases |s|
  {
    if s != [] {
      assert forall i :: 0 <= i < |s[1..]| ==> s[1..][i] == s[i + 1];
      SumPainWithinForm(s[1..]);
    }
  }

  /**
   For entries built by the form the weekly total is the sum of the recent
   pains and the mean lies between 0 and 8.
   */
  lemma WeeklyAverageWithinForm(history: seq<LogEntry>)
    requires forall i :: 0 <= i < |history| ==> ValidPain(history[i].pain)
    ensures WeeklyAverage(history).Mean? ==>
      && WeeklyAverage(history).total == SumPain(history[..WeeklyAverage(history).count])
      && 0 <= WeeklyAverage(history).total <= 8 * WeeklyAverage(history).count
  {
    if |history| > 0 {
      var n := Min(|history|, 7);
      assert forall i :: 0 <= i < n ==> history[..n][i] == history[i];
      SumPainWithinForm(history[..n]);
    }
  }

  /** One bar of the pain chart: a real entry or a zero-pain placeholder. */
  datatype Bar = Logged(entry: LogEntry) | Placeholder

  /** The bar height, `val.pain || 0`. */
  function BarPain(b: Bar): int
  {
    match b
    case Logged(e) => e.pain
    case Placeholder => 0
  }

  /** The entries of `s` as bars, last entry first. */
  function ReversedBars(s: seq<LogEntry>): (r: seq<Bar>)
    ensures |r| == |s|
    ensures forall i :: 0 <= i < |s| ==> r[i] == Logged(s[|s| - 1 - i])
    decreases |s|
  {
    if s == [] then [] else ReversedBars(s[1..]) + [Logged(s[0])]
  }

  /**
   The seven-bar chart: the most recent (at most seven) entries oldest first,
   then placeholders up to seven bars.
   */
  function ChartSeries(history: seq<LogEntry>): (bars: seq<Bar>)
    ensures |bars| == 7
    ensures forall i :: 0 <= i < Min(|history|, 7) ==> bars[i] == Logged(history[Min(|history|, 7) - 1 - i])
    ensures forall i :: Min(|history|, 7) <= i < 7 ==> bars[i] == Placeholder
  {
    ReversedBars(history[..Min(|history|, 7)]) + seq(Max(0, 7 - |history|), _ => Placeholder)
  }

  function SumBars(bars: seq<Bar>): int
    decreases |bars|
  {
    if bars == [] then 0 else BarPain(bars[0]) + SumBars(bars[1..])
  }

  lemma {:induction false} SumBarsAppend(a: seq<Bar>, b: seq<Bar>)
    ensures SumBars(a + b) == SumBars(a) + SumBars(b)
    decreases |a|
  {
    if a == [] {
      assert a + b == b;
    } else {
      assert (a + b)[1..] == a[1..] + b;
      SumBarsAppend(a[1..], b);
    }
  }

  lemma {:induction false} SumReversedBars(s: seq<LogEntry>)
    ensures SumBars(ReversedBars(s)) == SumPain(s)
    decreases |s|
  {
    if s != [] {
      SumReversedBars(s[1..]);
      SumBarsAppend(ReversedBars(s[1..]), [Logged(s[0])]);
    }
  }

  lemma {:induction false} SumPlaceholders(n: nat)
    ensures SumBars(seq(n, _ => Placeholder)) == 0
    decreases n
  {
    if n > 0 {
      assert seq(n, _ => Placeholder)[1..] == seq(n - 1, _ => Placeholder);
      SumPlaceholders(n - 1);
    }
  }

  /**
   The chart and the weekly average describe the same week: the bar heights add
   up to the average's total, and to 0 for an empty history.
   */
  lemma ChartAgreesWithAverage(history: seq<LogEntry>)
    ensures SumBars(ChartSeries(history)) ==
      match WeeklyAverage(history)
      case NoData => 0
      case Mean(total, _) => total
  {
    var n := Min(|history|, 7);
    SumBarsAppend(ReversedBars(history[..n]), seq(Max(0, 7 - |history|), _ => Placeholder));
    SumReversedBars(history[..n]);
    SumPlaceholders(Max(0, 7 - |history|));
  }

  /**
   A history never has more days than entries, and has as many exactly when no
   day repeats.
   */
  lemma {:induction false} DistinctDatesCount(s: seq<LogEntry>)
    ensures |Dates(s)| <= |s|
    ensures |Dates(s)| == |s| <==> DistinctDates(s)
    decreases |s|
  {
    if s != [] {
      var t := s[1..];
      assert s == [s[0]] + t;
      ConsDates(s[0], t);
      DistinctDatesCount(t);
      if DistinctDates(s) {
        assert DistinctDates(t);
        assert s[0].dateISO !in Dates(t);
      } else if DistinctDates(t) && s[0].dateISO !in Dates(t) {
        ConsDistinct(s[0], t);
        assert false;
      }
    }
  }

  /**
   On the local path the treatment day counts logged days: with one entry per
   day, it is the number of distinct days plus one, before and after a save.
   */
  lemma TreatmentDayCountsDays(stored: seq<LogEntry>, entry: LogEntry)
    requires DistinctDates(stored)
    ensures TreatmentDay(UpsertLocal(stored, entry)) == |Dates(stored) + {entry.dateISO}| + 1
  {
    UpsertKeepsDatesDistinct(stored, entry);
  }
}
