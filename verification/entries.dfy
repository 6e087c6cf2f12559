/**
 The daily log entry and the rules that derive it from the log form: the pain
 level and bleeding status chosen from the picked symptoms, the symptom toggle,
 and the entry built when the user saves.
 */
module Entries {

  import opened Wrappers

  /** Quick-feeling tags of the form: `cramps`, `low_energy`, `irritable`, `comfort`. */
  datatype Feeling = Cramps | LowEnergy | Irritable | Comfort

  /** The daily-treatment choice: `took` or `missed`. */
  datatype MedStatus = Took | Missed

  /** Bleeding status of an entry: `none`, `spotting` or `heavy`. */
  datatype Bleeding = NoBleeding | Spotting | Heavy

  const StrongCramps: string := "Cólicas Fortes"
  const MildCramps: string := "Cólicas Leves"
  const SpottingSymptom: string := "Escape (Spotting)"
  const HeavyFlowSymptom: string := "Fluxo Intenso"

  /** The form as it stands when the user presses save. */
  datatype Draft = Draft(feeling: Option<Feeling>, symptoms: seq<string>, med: MedStatus, sos: string)

  /**
   A stored log. `timestamp` holds `timestamp.seconds`; it is `None` for a
   remote document whose server timestamp is not yet set.
   */
  datatype LogEntry = LogEntry(
    id: string,
    dateISO: string,
    dateLabel: string,
    pain: int,
    bleeding: Bleeding,
    daily: bool,
    feeling: Option<Feeling>,
    symptoms: seq<string>,
    sos: Option<string>,
    timestamp: Option<int>)

  /** The pain levels the form can produce. */
  predicate ValidPain(p: int)
  {
    p == 0 || p == 4 || p == 6 || p == 8
  }

  /**
   Pain level of a submission: strong cramps win over mild cramps, which win
   over the `cramps` quick feeling; otherwise no pain.
   */
  function PainLevel(symptoms: seq<string>, feeling: Option<Feeling>): (p: int)
    ensures ValidPain(p)
    ensures p == 8 <==> StrongCramps in symptoms
    ensures p == 4 <==> StrongCramps !in symptoms && MildCramps in symptoms
    ensures p == 6 <==> StrongCramps !in symptoms && MildCramps !in symptoms && feeling == Some(Cramps)
    ensures p == 0 <==> StrongCramps !in symptoms && MildCramps !in symptoms && feeling != Some(Cramps)
  {
    if StrongCramps in symptoms then 8
    else if MildCramps in symptoms then 4
    else if feeling == Some(Cramps) then 6
    else 0
  }

  /** Bleeding status of a submission: spotting wins over heavy flow. */
  function BleedingOf(symptoms: seq<string>): (b: Bleeding)
    ensures b == Spotting <==> SpottingSymptom in symptoms
    ensures b == Heavy <==> SpottingSymptom !in symptoms && HeavyFlowSymptom in symptoms
    ensures b == NoBleeding <==> SpottingSymptom !in symptoms && HeavyFlowSymptom !in symptoms
  {
    if SpottingSymptom in symptoms then Spotting
    else if HeavyFlowSymptom in symptoms then Heavy
    else NoBleeding
  }

  /** Both derivations look only at which symptoms are picked, not at their order or repetition. */
  lemma DerivationIgnoresOrder(a: seq<string>, b: seq<string>, feeling: Option<Feeling>)
    requires forall x :: x in a <==> x in b
    ensures PainLevel(a, feeling) == PainLevel(b, feeling)
    ensures BleedingOf(a) == BleedingOf(b)
  {
  }

  predicate NoDuplicates(s: seq<string>)
  {
    forall i, j :: 0 <= i < j < |s| ==> s[i] != s[j]
  }

  /** `s.filter(y => y !== x)`: every occurrence of `x` dropped, the rest in order. */
  function RemoveAll(s: seq<string>, x: string): (r: seq<string>)
    ensures forall y :: y in r <==> y in s && y != x
    ensures multiset(r)[x] == 0
    ensures forall y :: y != x ==> multiset(r)[y] == multiset(s)[y]
    ensures x !in s ==> r == s
    ensures |r| <= |s|
    ensures NoDuplicates(s) ==> NoDuplicates(r)
    decreases |s|
  {
    if s == [] then []
    else
      assert s == [s[0]] + s[1..];
      if s[0] == x then RemoveAll(s[1..], x)
      else
        var t := RemoveAll(s[1..], x);
        assert NoDuplicates(s) ==> s[0] !in s[1..];
        [s[0]] + t
  }

  /**
   The filter works element by element, keeping the order: filtering a
   concatenation filters each part, and a single symptom stays exactly when it
   is not the removed one.
   */
  lemma RemoveAllAppend(a: seq<string>, b: seq<string>, x: string)
    ensures RemoveAll(a + b, x) == RemoveAll(a, x) + RemoveAll(b, x)
    ensures forall y :: RemoveAll([y], x) == if y == x then [] else [y]
  {
    RemoveAllConcat(a, b, x);
    forall y
      ensures RemoveAll([y], x) == if y == x then [] else [y]
    {
      assert [y][1..] == [];
    }
  }

  lemma {:induction false} RemoveAllConcat(a: seq<string>, b: seq<string>, x: string)
    ensures RemoveAll(a + b, x) == RemoveAll(a, x) + RemoveAll(b, x)
    decreases |a|
  {
    if a == [] {
      assert a + b == b;
    } else {
      assert (a + b)[0] == a[0];
      assert (a + b)[1..] == a[1..] + b;
      RemoveAllConcat(a[1..], b, x);
    }
  }

  /** Picking a symptom chip: adds it when absent, removes it when present. */
  function ToggleSymptom(selected: seq<string>, sym: string): (r: seq<string>)
    ensures sym in r <==> sym !in selected
    ensures forall y :: y != sym ==> (y in r <==> y in selected)
    ensures forall y :: y != sym ==> multiset(r)[y] == multiset(selected)[y]
    ensures sym in selected ==> multiset(r)[sym] == 0
    ensures sym !in selected ==> r == selected + [sym]
    ensures NoDuplicates(selected) ==> NoDuplicates(r)
  {
    if sym in selected then RemoveAll(selected, sym) else selected + [sym]
  }

  /** Removing a symptom that was just appended to a list without it gives the list back. */
  lemma {:induction false} RemoveAppended(s: seq<string>, x: string)
    requires x !in s
    ensures RemoveAll(s + [x], x) == s
    decreases |s|
  {
    if s == [] {
      assert [] + [x] == [x];
      assert [x][1..] == [];
    } else {
      assert (s + [x])[0] == s[0];
      assert (s + [x])[1..] == s[1..] + [x];
      RemoveAppended(s[1..], x);
    }
  }

  /**
   Toggling the same symptom twice restores which symptoms are picked; when the
   symptom was not picked the list comes back exactly.
   */
  lemma ToggleTwice(s: seq<string>, x: string)
    ensures forall y :: y in ToggleSymptom(ToggleSymptom(s, x), x) <==> y in s
    ensures x !in s ==> ToggleSymptom(ToggleSymptom(s, x), x) == s
  {
    if x !in s {
      RemoveAppended(s, x);
    }
  }

  /**
   The entry a save builds: date and label from the caller's clock, pain and
   bleeding derived from the picks, the treatment flag, the SOS text (`null`
   when empty) and `timestamp.seconds` as the milliseconds rounded down to
   whole seconds. The `id` is supplied by the storage path.
   */
  function NewLog(draft: Draft, todayISO: string, dateLabel: string, nowMillis: nat, id: string): (e: LogEntry)
    ensures e.id == id && e.dateISO == todayISO && e.dateLabel == dateLabel
    ensures e.pain == PainLevel(draft.symptoms, draft.feeling) && ValidPain(e.pain)
    ensures e.bleeding == BleedingOf(draft.symptoms)
    ensures e.daily <==> draft.med == Took
    ensures e.feeling == draft.feeling && e.symptoms == draft.symptoms
    ensures e.sos.None? <==> draft.sos == ""
    ensures e.sos.Some? ==> e.sos.value == draft.sos
    ensures e.timestamp.Some?
    ensures e.timestamp.value * 1000 <= nowMillis < e.timestamp.value * 1000 + 1000
  {
    LogEntry(
      id := id,
      dateISO := todayISO,
      dateLabel := dateLabel,
      pain := PainLevel(draft.symptoms, draft.feeling),
      bleeding := BleedingOf(draft.symptoms),
      daily := draft.med == Took,
      feeling := draft.feeling,
      symptoms := draft.symptoms,
      sos := if draft.sos == "" then None else Some(draft.sos),
      timestamp := Some(nowMillis / 1000))
  }
}
