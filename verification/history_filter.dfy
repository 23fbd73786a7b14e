/** The surgery-history filter (app/dashboard/history/page.tsx,
    `filteredHistory`): four criteria over the list of past surgeries, with
    "All ..." sentinels for the room and doctor selectors, an optional date
    already formatted as "yyyy-MM-dd", and a case-insensitive substring
    search over patient, procedure and notes. Case folding is ASCII. */
module HistoryFilter {
  import opened Outcome

  datatype Surgery = Surgery(
    id: int,
    date: string,
    startTime: string,
    endTime: string,
    room: string,
    patient: string,
    doctor: string,
    procedure: string,
    duration: string,
    notes: string,
    status: string
  )

  /** The page's filter state. */
  datatype Filters = Filters(room: string, doctor: string, date: Option<string>, query: string)

  const AllRooms := "All Rooms"
  const AllDoctors := "All Doctors"

  /** The filter state the page starts with. */
  const Default := Filters(AllRooms, AllDoctors, None, "")

  function LowerChar(c: char): char
  {
    if 'A' <= c <= 'Z' then (c as int + 32) as char else c
  }

  /** `toLowerCase()` on ASCII letters; every other character is kept. */
  function Lower(s: string): (r: string)
    ensures |r| == |s|
    ensures forall i :: 0 <= i < |s| ==> r[i] == LowerChar(s[i])
  {
    seq(|s|, i requires 0 <= i < |s| => LowerChar(s[i]))
  }

  /** `needle` occurs in `hay` starting at position i. */
  predicate MatchAt(hay: string, needle: string, i: int)
  {
    0 <= i && i + |needle| <= |hay| && hay[i..i + |needle|] == needle
  }

  /** `hay.includes(needle)`. */
  predicate Includes(hay: string, needle: string)
  {
    exists i :: 0 <= i <= |hay| - |needle| && MatchAt(hay, needle, i)
  }

  /** A left-to-right scan for `needle`, stopping at the first match. */
  method FindIncludes(hay: string, needle: string) returns (found: bool)
    ensures found <==> Includes(hay, needle)
  {
    if |needle| > |hay| {
      return false;
    }
    var i := 0;
    while i <= |hay| - |needle|
      invariant 0 <= i <= |hay| - |needle| + 1
      invariant forall j :: 0 <= j < i ==> !MatchAt(hay, needle, j)
      decreases |hay| - |needle| + 1 - i
    {
      if hay[i..i + |needle|] == needle {
        assert MatchAt(hay, needle, i);
        return true;
      }
      i := i + 1;
    }
    return false;
  }

  predicate MatchesRoom(f: Filters, s: Surgery)
  {
    f.room == AllRooms || s.room == f.room
  }

  predicate MatchesDoctor(f: Filters, s: Surgery)
  {
    f.doctor == AllDoctors || s.doctor == f.doctor
  }

  predicate MatchesDate(f: Filters, s: Surgery)
  {
    f.date.None? || s.date == f.date.value
  }

  /** The search criterion: an empty query matches; otherwise the lower-cased
      query must occur in the lower-cased patient, procedure or notes. */
  predicate MatchesSearch(query: string, s: Surgery)
  {
    var q := Lower(query);
    query == "" || Includes(Lower(s.patient), q) || Includes(Lower(s.procedure), q) || Includes(Lower(s.notes), q)
  }

  /** The search criterion computed with the scan: the three fields are
      tried in the source's order and the first match settles it. */
  method SearchMatches(query: string, s: Surgery) returns (found: bool)
    ensures found <==> MatchesSearch(query, s)
  {
    if query == "" {
      return true;
    }
    var q := Lower(query);
    found := FindIncludes(Lower(s.patient), q);
    if !found {
      found := FindIncludes(Lower(s.procedure), q);
    }
    if !found {
      found := FindIncludes(Lower(s.notes), q);
    }
  }

  /** The filter callback: all four criteria hold. */
  predicate Keep(f: Filters, s: Surgery)
  {
    MatchesRoom(f, s) && MatchesDoctor(f, s) && MatchesDate(f, s) && MatchesSearch(f.query, s)
  }

  /** `a` is `b` with some elements left out, the rest in their order. */
  predicate IsSubsequence<T(==)>(a: seq<T>, b: seq<T>)
    decreases |b|
  {
    if |a| == 0 then true
    else if |b| == 0 then false
    else if a[0] == b[0] then IsSubsequence(a[1..], b[1..])
    else IsSubsequence(a, b[1..])
  }

  /** `surgeryHistory.filter(...)`: exactly the records meeting all four
      criteria, in their original order. */
  function FilterHistory(history: seq<Surgery>, f: Filters): (r: seq<Surgery>)
    ensures |r| <= |history|
    ensures IsSubsequence(r, history)
    ensures forall s :: s in r <==> s in history && Keep(f, s)
    decreases |history|
  {
    if |history| == 0 then []
    else
      var rest := FilterHistory(history[1..], f);
      if Keep(f, history[0]) then [history[0]] + rest else rest
  }

  /** The filter keeps duplicates: a kept record appears as often as in the
      history, and a rejected one not at all. */
  lemma {:induction false} FilterKeepsMultiplicity(history: seq<Surgery>, f: Filters)
    ensures forall s :: multiset(FilterHistory(history, f))[s] == if Keep(f, s) then multiset(history)[s] else 0
    decreases |history|
  {
    if |history| > 0 {
      FilterKeepsMultiplicity(history[1..], f);
      assert history == [history[0]] + history[1..];
    }
  }

  /** A selected room, doctor or date is matched exactly by every record
      shown; the "All ..." sentinels and an unset date impose nothing, so a
      record meeting the search alone is then shown. */
  lemma {:induction false} SelectorCriteria(history: seq<Surgery>, f: Filters, s: Surgery)
    ensures s in FilterHistory(history, f) && f.room != AllRooms ==> s.room == f.room
    ensures s in FilterHistory(history, f) && f.doctor != AllDoctors ==> s.doctor == f.doctor
    ensures s in FilterHistory(history, f) && f.date.Some? ==> s.date == f.date.value
    ensures s in history && f.room == AllRooms && f.doctor == AllDoctors && f.date.None? && MatchesSearch(f.query, s)
      ==> s in FilterHistory(history, f)
  {
  }

  /** The initial filter state shows the whole list. */
  lemma {:induction false} DefaultShowsAll(history: seq<Surgery>)
    ensures FilterHistory(history, Default) == history
    decreases |history|
  {
    if |history| > 0 {
      DefaultShowsAll(history[1..]);
      assert Keep(Default, history[0]);
    }
  }

  /** Filtering an already filtered list changes nothing. */
  lemma {:induction false} FilterIdempotent(history: seq<Surgery>, f: Filters)
    ensures FilterHistory(FilterHistory(history, f), f) == FilterHistory(history, f)
    decreases |history|
  {
    if |history| > 0 {
      FilterIdempotent(history[1..], f);
      var rest := FilterHistory(history[1..], f);
      if Keep(f, history[0]) {
        assert ([history[0]] + rest)[1..] == rest;
      }
    }
  }

  /** The search never looks at the doctor or the room. */
  lemma SearchIgnoresDoctorAndRoom(query: string, s: Surgery, doctor: string, room: string)
    ensures MatchesSearch(query, s) == MatchesSearch(query, s.(doctor := doctor, room := room))
  {
  }

  /** The search is case-insensitive in the query: queries that fold to the
      same text select the same records. */
  lemma SearchCaseInsensitive(q1: string, q2: string, s: Surgery)
    requires Lower(q1) == Lower(q2)
    ensures MatchesSearch(q1, s) == MatchesSearch(q2, s)
  {
    assert |q1| == |Lower(q1)|;
  }

  /** A query that is a part of the patient's name finds the record, whatever
      its capitalisation. */
  lemma PatientSubstringFound(s: Surgery, i: int, n: nat)
    requires 0 <= i && i + n <= |s.patient| && n > 0
    ensures MatchesSearch(s.patient[i..i + n], s)
  {
    var q := s.patient[i..i + n];
    assert Lower(s.patient)[i..i + n] == Lower(q);
    assert MatchAt(Lower(s.patient), Lower(q), i);
  }

  /** The records the page is built with. */
  const SampleHistory := [
    Surgery(1, "2025-02-23", "14:30", "15:30", "Operating Room 1", "Jan Kowalski", "Mateusz Kowal",
      "Appendectomy", "1h", "Successful procedure with no complications", "Completed"),
    Surgery(2, "2025-02-23", "11:00", "13:15", "Operating Room 3", "Jane Smith", "Michael Brown",
      "Knee Arthroscopy", "2h 15min", "Patient responded well to anesthesia", "Completed")
  ]

  /** The doctor selector's options as written. */
  const Doctors := ["All Doctors", "Mateusz Kowal", "Dr. Michael Brown", "Dr. Emily Jones", "Dr. David Wilson"]

  /** The selector with the option spelled as the record spells its doctor. */
  const CorrectedDoctors := ["All Doctors", "Mateusz Kowal", "Michael Brown", "Dr. Emily Jones", "Dr. David Wilson"]

  function ByDoctor(doctor: string): Filters
  {
    Default.(doctor := doctor)
  }

  /** As written, no doctor option but "All Doctors" shows the second sample
      record: its doctor "Michael Brown" is offered only as "Dr. Michael
      Brown", which exact equality never matches. */
  lemma SecondRecordUnreachableByDoctor()
    ensures SampleHistory[1].doctor !in Doctors
    ensures forall i :: 1 <= i < |Doctors| ==> SampleHistory[1] !in FilterHistory(SampleHistory, ByDoctor(Doctors[i]))
  {
    forall i | 1 <= i < |Doctors|
      ensures SampleHistory[1] !in FilterHistory(SampleHistory, ByDoctor(Doctors[i]))
    {
      assert !MatchesDoctor(ByDoctor(Doctors[i]), SampleHistory[1]);
    }
  }

  /** With the corrected options every sample record is shown by selecting
      its own doctor. */
  lemma EveryRecordReachableByDoctor()
    ensures forall k :: 0 <= k < |SampleHistory| ==> SampleHistory[k].doctor in CorrectedDoctors
    ensures forall k :: 0 <= k < |SampleHistory| ==>
      SampleHistory[k] in FilterHistory(SampleHistory, ByDoctor(SampleHistory[k].doctor))
  {
    forall k | 0 <= k < |SampleHistory|
      ensures SampleHistory[k] in FilterHistory(SampleHistory, ByDoctor(SampleHistory[k].doctor))
    {
      assert Keep(ByDoctor(SampleHistory[k].doctor), SampleHistory[k]);
    }
  }
}
