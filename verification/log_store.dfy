/**
 The history of log entries: ordering by timestamp (most recent first), the
 local-storage save that replaces today's entry, and the lookup by date.
 */
module LogStore {

  import opened Wrappers
  import opened Entries
  import Digits

  /** `timestamp.seconds`, with a missing timestamp counting as 0. */
  function SortKey(e: LogEntry): int
  {
    match e.timestamp
    case Some(s) => s
    case None => 0
  }

  /** Most recent first: keys never increase along the sequence. */
  predicate SortedDesc(s: seq<LogEntry>)
  {
    forall i, j :: 0 <= i < j < |s| ==> SortKey(s[i]) >= SortKey(s[j])
  }

  /** Places `x` before the first entry whose key is not larger than its own. */
  function Insert(x: LogEntry, s: seq<LogEntry>): (r: seq<LogEntry>)
    ensures |r| == |s| + 1
    ensures multiset(r) == multiset(s) + multiset{x}
    decreases |s|
  {
    if s == [] || SortKey(x) >= SortKey(s[0]) then [x] + s
    else
      assert s == [s[0]] + s[1..];
      [s[0]] + Insert(x, s[1..])
  }

  lemma {:induction false} InsertKeepsSorted(x: LogEntry, s: seq<LogEntry>)
    requires SortedDesc(s)
    ensures SortedDesc(Insert(x, s))
    decreases |s|
  {
    if s == [] || SortKey(x) >= SortKey(s[0]) {
    } else {
      var t := Insert(x, s[1..]);
      InsertKeepsSorted(x, s[1..]);
      forall j | 0 <= j < |t|
        ensures SortKey(s[0]) >= SortKey(t[j])
      {
        assert t[j] in multiset(t);
        if t[j] != x {
          assert t[j] in multiset(s[1..]);
        }
      }
    }
  }

  /**
   The comparator `(a, b) => key(b) - key(a)` under a stable sort: a sorted
   rearrangement of the input, entries with equal keys kept in input order.
   */
  function SortByTimestamp(s: seq<LogEntry>): (r: seq<LogEntry>)
    ensures multiset(r) == multiset(s)
    ensures SortedDesc(r)
    decreases |s|
  {
    if s == [] then []
    else
      var t := SortByTimestamp(s[1..]);
      InsertKeepsSorted(s[0], t);
      assert s == [s[0]] + s[1..];
      Insert(s[0], t)
  }

  /** `s.filter(l => l.dateISO !== d)`. */
  function WithoutDate(s: seq<LogEntry>, d: string): (r: seq<LogEntry>)
    ensures forall e {:trigger multiset(r)[e]} ::
      multiset(r)[e] == if e.dateISO == d then 0 else multiset(s)[e]
    ensures forall e :: e in r <==> e in s && e.dateISO != d
    decreases |s|
  {
    if s == [] then []
    else
      assert s == [s[0]] + s[1..];
      if s[0].dateISO == d then WithoutDate(s[1..], d)
      else [s[0]] + WithoutDate(s[1..], d)
  }

  /**
   The local save: drop every stored entry of the new entry's day, put the new
   entry in front and sort most recent first.
   */
  function UpsertLocal(stored: seq<LogEntry>, entry: LogEntry): (r: seq<LogEntry>)
    ensures SortedDesc(r)
    ensures multiset(r) == multiset{entry} + multiset(WithoutDate(stored, entry.dateISO))
    ensures entry in r && multiset(r)[entry] == 1
    ensures forall i :: 0 <= i < |r| && r[i].dateISO == entry.dateISO ==> r[i] == entry
    ensures forall e :: e in stored && e.dateISO != entry.dateISO ==> e in r
    ensures forall e :: e in r ==> e == entry || (e in stored && e.dateISO != entry.dateISO)
  {
    var f := WithoutDate(stored, entry.dateISO);
    var r := SortByTimestamp([entry] + f);
    assert multiset([entry] + f) == multiset{entry} + multiset(f);
    OneNewEntry(entry, f, r);
    r
  }

  /** A list made of a new entry and entries of other days holds the new entry once, alone for its day. */
  lemma OneNewEntry(entry: LogEntry, f: seq<LogEntry>, r: seq<LogEntry>)
    requires forall e :: e in f ==> e.dateISO != entry.dateISO
    requires multiset(r) == multiset{entry} + multiset(f)
    ensures entry in r && multiset(r)[entry] == 1
    ensures forall e :: e in r <==> e == entry || e in f
    ensures forall i :: 0 <= i < |r| && r[i].dateISO == entry.dateISO ==> r[i] == entry
  {
    assert entry !in multiset(f);
    assert forall e :: e in r <==> e in multiset(r);
    assert forall e :: e in f <==> e in multiset(f);
  }

  /** An element that sits at two positions is counted twice. */
  lemma TwoPositionsCountTwice(s: seq<LogEntry>, i: int, j: int)
    requires 0 <= i < j < |s| && s[i] == s[j]
    ensures multiset(s)[s[i]] >= 2
  {
    assert s == s[..j] + s[j..];
    assert s[..j][i] == s[i];
    assert s[j..][0] == s[j];
    assert s[i] in multiset(s[..j]);
    assert s[j] in multiset(s[j..]);
  }

  /** After a local save, exactly one position holds an entry of the saved day. */
  lemma ExactlyOneEntryForDay(stored: seq<LogEntry>, entry: LogEntry)
    ensures var r := UpsertLocal(stored, entry);
      forall i, j :: 0 <= i < |r| && 0 <= j < |r| && r[i].dateISO == entry.dateISO && r[j].dateISO == entry.dateISO ==> i == j
  {
    var r := UpsertLocal(stored, entry);
    forall i, j | 0 <= i < |r| && 0 <= j < |r| && r[i].dateISO == entry.dateISO && r[j].dateISO == entry.dateISO
      ensures i == j
    {
      if i < j {
        TwoPositionsCountTwice(r, i, j);
      } else if j < i {
        TwoPositionsCountTwice(r, j, i);
      }
    }
  }

  /** `history.find(l => l.dateISO === d)`: the first entry of that day, if any. */
  function FindByDate(history: seq<LogEntry>, d: string): (r: Option<LogEntry>)
    ensures r.None? <==> forall i :: 0 <= i < |history| ==> history[i].dateISO != d
    ensures r.Some? ==> exists i :: 0 <= i < |history| && history[i] == r.value && history[i].dateISO == d &&
                                   forall j :: 0 <= j < i ==> history[j].dateISO != d
    decreases |history|
  {
    if history == [] then None
    else if history[0].dateISO == d then Some(history[0])
    else
      var r := FindByDate(history[1..], d);
      assert forall i :: 1 <= i < |history| ==> history[i] == history[1..][i - 1];
      r
  }

  /** After a local save, looking up the saved day finds the new entry. */
  lemma FindSavedEntry(stored: seq<LogEntry>, entry: LogEntry)
    ensures FindByDate(UpsertLocal(stored, entry), entry.dateISO) == Some(entry)
  {
    var r := UpsertLocal(stored, entry);
    var k :| 0 <= k < |r| && r[k] == entry;
  }

  /**
   The local save of a form: builds the entry, with `Date.now().toString()` of
   a second clock reading as its id, then replaces the day's entry with it.
   */
  function SaveLocal(stored: seq<LogEntry>, draft: Draft, todayISO: string, dateLabel: string,
                     nowMillis: nat, idMillis: nat): (r: seq<LogEntry>)
    ensures SortedDesc(r)
    ensures FindByDate(r, todayISO) == Some(NewLog(draft, todayISO, dateLabel, nowMillis, Digits.Decimal(idMillis)))
    ensures Digits.DigitsValue(FindByDate(r, todayISO).value.id) == idMillis
    ensures forall e :: e in stored && e.dateISO != todayISO ==> e in r
  {
    var entry := NewLog(draft, todayISO, dateLabel, nowMillis, Digits.Decimal(idMillis));
    FindSavedEntry(stored, entry);
    UpsertLocal(stored, entry)
  }

  /** The set of days that have an entry. */
  function Dates(s: seq<LogEntry>): set<string>
  {
    set e | e in s :: e.dateISO
  }

  /** No two positions hold entries of the same day. */
  predicate DistinctDates(s: seq<LogEntry>)
  {
    forall i, j :: 0 <= i < j < |s| ==> s[i].dateISO != s[j].dateISO
  }

  lemma ConsDates(y: LogEntry, t: seq<LogEntry>)
    ensures Dates([y] + t) == {y.dateISO} + Dates(t)
  {
    assert forall e :: e in [y] + t <==> e == y || e in t;
  }

  lemma ConsDistinct(y: LogEntry, t: seq<LogEntry>)
    requires DistinctDates(t) && y.dateISO !in Dates(t)
    ensures DistinctDates([y] + t)
  {
    var s := [y] + t;
    forall i, j | 0 <= i < j < |s|
      ensures s[i].dateISO != s[j].dateISO
    {
      assert s[j] == t[j - 1];
      if i > 0 {
        assert s[i] == t[i - 1];
      } else {
        assert t[j - 1] in t;
      }
    }
  }

  lemma SameElementsSameDates(a: seq<LogEntry>, b: seq<LogEntry>)
    requires multiset(a) == multiset(b)
    ensures Dates(a) == Dates(b)
  {
    assert forall e :: e in a <==> e in multiset(a);
    assert forall e :: e in b <==> e in multiset(b);
  }

  lemma {:induction false} InsertKeepsDistinct(x: LogEntry, s: seq<LogEntry>)
    requires DistinctDates(s) && x.dateISO !in Dates(s)
    ensures DistinctDates(Insert(x, s))
    ensures Dates(Insert(x, s)) == Dates(s) + {x.dateISO}
    decreases |s|
  {
    SameElementsSameDates(Insert(x, s), [x] + s);
    ConsDates(x, s);
    if s == [] || SortKey(x) >= SortKey(s[0]) {
      ConsDistinct(x, s);
    } else {
      var t := s[1..];
      assert s == [s[0]] + t;
      ConsDates(s[0], t);
      assert DistinctDates(t);
      assert s[0].dateISO !in Dates(t);
      InsertKeepsDistinct(x, t);
      ConsDistinct(s[0], Insert(x, t));
    }
  }

  lemma {:induction false} SortKeepsDistinct(s: seq<LogEntry>)
    requires DistinctDates(s)
    ensures DistinctDates(SortByTimestamp(s))
    decreases |s|
  {
    if s != [] {
      var t := s[1..];
      assert s == [s[0]] + t;
      ConsDates(s[0], t);
      assert DistinctDates(t);
      assert s[0].dateISO !in Dates(t);
      SortKeepsDistinct(t);
      SameElementsSameDates(SortByTimestamp(t), t);
      InsertKeepsDistinct(s[0], SortByTimestamp(t));
    }
  }

  lemma {:induction false} WithoutDateKeepsDistinct(s: seq<LogEntry>, d: string)
    requires DistinctDates(s)
    ensures DistinctDates(WithoutDate(s, d))
    decreases |s|
  {
    if s != [] {
      var t := s[1..];
      assert DistinctDates(t);
      WithoutDateKeepsDistinct(t, d);
      if s[0].dateISO != d {
        assert s[0].dateISO !in Dates(WithoutDate(t, d));
        ConsDistinct(s[0], WithoutDate(t, d));
      }
    }
  }

  /**
   A local save keeps the history one-entry-per-day: if the stored days were
   distinct they stay distinct, and the days are the old ones plus today.
   */
  lemma UpsertKeepsDatesDistinct(stored: seq<LogEntry>, entry: LogEntry)
    requires DistinctDates(stored)
    ensures DistinctDates(UpsertLocal(stored, entry))
    ensures Dates(UpsertLocal(stored, entry)) == Dates(stored) + {entry.dateISO}
  {
    var f := WithoutDate(stored, entry.dateISO);
    WithoutDateKeepsDistinct(stored, entry.dateISO);
    ConsDates(entry, f);
    ConsDistinct(entry, f);
    SortKeepsDistinct([entry] + f);
    SameElementsSameDates(UpsertLocal(stored, entry), [entry] + f);
    assert Dates(stored) + {entry.dateISO} == Dates(f) + {entry.dateISO} by {
      forall x | x in Dates(stored) ensures x in Dates(f) + {entry.dateISO} {
        var e :| e in stored && e.dateISO == x;
        if x != entry.dateISO {
          assert e in f;
        }
      }
    }
  }

  /** With one entry per day, the lookup finds exactly the entry of that day. */
  lemma FindUnique(s: seq<LogEntry>, e: LogEntry)
    requires DistinctDates(s) && e in s
    ensures FindByDate(s, e.dateISO) == Some(e)
  {
    var k :| 0 <= k < |s| && s[k] == e;
  }

  /**
   A local save does not change what the lookup returns for any other day,
   provided the history held one entry per day.
   */
  lemma UpsertKeepsOtherDays(stored: seq<LogEntry>, entry: LogEntry, d: string)
    requires DistinctDates(stored) && d != entry.dateISO
    ensures FindByDate(UpsertLocal(stored, entry), d) == FindByDate(stored, d)
  {
    var r := UpsertLocal(stored, entry);
    UpsertKeepsDatesDistinct(stored, entry);
    match FindByDate(stored, d)
    case Some(e) =>
      FindUnique(stored, e);
      FindUnique(r, e);
    case None =>
      forall i | 0 <= i < |r| ensures r[i].dateISO != d {
        assert r[i] in r;
      }
  }

  /**
   Saving twice on the same day leaves one entry for the day, the one built
   from the second form.
   */
  lemma ResubmitReplaces(stored: seq<LogEntry>, first: Draft, second: Draft, today: string,
                         label1: string, label2: string, t1: nat, id1: nat, t2: nat, id2: nat)
    ensures var r := SaveLocal(SaveLocal(stored, first, today, label1, t1, id1), second, today, label2, t2, id2);
      var e := NewLog(second, today, label2, t2, Digits.Decimal(id2));
      && FindByDate(r, today) == Some(e)
      && forall i :: 0 <= i < |r| && r[i].dateISO == today ==> r[i] == e
  {
  }

  /** A same-day re-save: strong cramps logged on 2024-03-01, then spotting logged on that day. */
  lemma SameDayScenario(stored: seq<LogEntry>, t1: nat, t2: nat)
    ensures var first := Draft(None, [StrongCramps], Took, "");
      var second := Draft(None, [SpottingSymptom], Took, "");
      var r1 := SaveLocal(stored, first, "2024-03-01", "01 mar.", t1, t1);
      var r2 := SaveLocal(r1, second, "2024-03-01", "01 mar.", t2, t2);
      && FindByDate(r1, "2024-03-01").Some?
      && FindByDate(r1, "2024-03-01").value.pain == 8
      && FindByDate(r1, "2024-03-01").value.bleeding == NoBleeding
      && FindByDate(r2, "2024-03-01").Some?
      && FindByDate(r2, "2024-03-01").value.pain == 0
      && FindByDate(r2, "2024-03-01").value.bleeding == Spotting
  {
    assert StrongCramps in [StrongCramps];
    assert SpottingSymptom !in [StrongCramps] && HeavyFlowSymptom !in [StrongCramps];
    assert SpottingSymptom in [SpottingSymptom];
    assert StrongCramps !in [SpottingSymptom] && MildCramps !in [SpottingSymptom];
  }
}
