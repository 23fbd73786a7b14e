/** The report back end (backends/utils/report_generator.py, `create_report`):
    the collection of events out of an agent transcript, the output file
    name, and the event table with its row backgrounds.

    Parsed JSON is given as data: a tool call's `params_as_json` is either
    absent (the source substitutes `'{}'`), an already-parsed string map, or
    text that `json.loads` rejects. Document layout, fonts and RGB colours
    are not modelled; the backgrounds are an enumeration. */
module ReportGenerator {
  import opened Outcome

  /** The `params_as_json` entry of a tool call. */
  datatype Params =
    | Absent
    | Parsed(fields: map<string, string>)
    | Malformed

  datatype ToolCall = ToolCall(toolName: Option<string>, params: Params)

  /** A transcript element; `None` stands for a missing or falsy
      `tool_calls` entry. */
  datatype Element = Element(toolCalls: Option<seq<ToolCall>>)

  /** One table row: event type first, then event value. */
  datatype EventRow = EventRow(eventType: string, eventValue: string)

  datatype SurgeryDetails = SurgeryDetails(firstName: string, lastName: string, procedure: string, patientId: string)

  const DisplayEventTool := "displayEvent"
  const TypeKey := "eventType"
  const ValueKey := "eventValue"

  predicate IsDisplayEvent(c: ToolCall)
  {
    c.toolName == Some(DisplayEventTool)
  }

  /** Processing this call throws: it is a `displayEvent` call whose params
      do not parse. Params of other tools are never parsed. */
  predicate Raises(c: ToolCall)
  {
    IsDisplayEvent(c) && c.params.Malformed?
  }

  /** The parsed params dictionary, or `None` when parsing throws. */
  function ParamsOf(c: ToolCall): (r: Option<map<string, string>>)
    ensures r.None? <==> c.params.Malformed?
    ensures c.params.Absent? ==> r == Some(map[])
    ensures c.params.Parsed? ==> r == Some(c.params.fields)
  {
    match c.params
    case Absent => Some(map[])
    case Parsed(m) => Some(m)
    case Malformed => None
  }

  /** The call earns a row: a `displayEvent` call whose params parse to a
      dictionary holding both keys. */
  predicate Qualifies(c: ToolCall)
  {
    IsDisplayEvent(c) && c.params.Parsed? && TypeKey in c.params.fields && ValueKey in c.params.fields
  }

  /** The row one non-throwing call contributes, if any. */
  function RowOf(c: ToolCall): (r: seq<EventRow>)
    ensures |r| <= 1
    ensures |r| == 1 <==> Qualifies(c)
    ensures |r| == 1 ==> r[0] == EventRow(c.params.fields[TypeKey], c.params.fields[ValueKey])
  {
    if !IsDisplayEvent(c) then []
    else match ParamsOf(c)
      case Some(m) => if TypeKey in m && ValueKey in m then [EventRow(m[TypeKey], m[ValueKey])] else []
      case None => []
  }

  /** The rows a list of calls contributes when none of them throws: the
      reference filter-and-map, in call order. */
  function FilterMap(calls: seq<ToolCall>): seq<EventRow>
    decreases |calls|
  {
    if |calls| == 0 then [] else RowOf(calls[0]) + FilterMap(calls[1..])
  }

  /** Index of the first call that throws, or the number of calls. */
  function FirstRaise(calls: seq<ToolCall>): (k: nat)
    ensures k <= |calls|
    ensures forall i :: 0 <= i < k ==> !Raises(calls[i])
    ensures k < |calls| ==> Raises(calls[k])
    decreases |calls|
  {
    if |calls| == 0 then 0
    else if Raises(calls[0]) then 0
    else 1 + FirstRaise(calls[1..])
  }

  /** The rows one element contributes: the rows of its calls up to the
      first one that throws; the rest of the element is dropped. */
  function ElementRows(e: Element): seq<EventRow>
  {
    match e.toolCalls
    case None => []
    case Some(calls) => FilterMap(calls[..FirstRaise(calls)])
  }

  /** The rows of a whole transcript, element after element. */
  function Events(transcript: seq<Element>): seq<EventRow>
    decreases |transcript|
  {
    if |transcript| == 0 then [] else ElementRows(transcript[0]) + Events(transcript[1..])
  }

  lemma {:induction false} FilterMapConcat(a: seq<ToolCall>, b: seq<ToolCall>)
    ensures FilterMap(a + b) == FilterMap(a) + FilterMap(b)
    decreases |a|
  {
    if |a| == 0 {
      assert a + b == b;
    } else {
      assert (a + b)[1..] == a[1..] + b;
      FilterMapConcat(a[1..], b);
    }
  }

  lemma {:induction false} EventsConcat(a: seq<Element>, b: seq<Element>)
    ensures Events(a + b) == Events(a) + Events(b)
    decreases |a|
  {
    if |a| == 0 {
      assert a + b == b;
    } else {
      assert (a + b)[1..] == a[1..] + b;
      EventsConcat(a[1..], b);
    }
  }

  /** One more call extends the rows of a prefix by that call's row. */
  lemma {:induction false} FilterMapSnoc(calls: seq<ToolCall>, j: int)
    requires 0 <= j < |calls|
    ensures FilterMap(calls[..j + 1]) == FilterMap(calls[..j]) + RowOf(calls[j])
  {
    FilterMapConcat(calls[..j], [calls[j]]);
    assert calls[..j + 1] == calls[..j] + [calls[j]];
    assert [calls[j]][1..] == [];
  }

  /** The body of the `try` for one element: walk its tool calls in order,
      skipping other tools, parsing params, keeping the calls that carry both
      keys, and stopping at the first throw with the rows so far kept. */
  method CollectElement(e: Element) returns (rows: seq<EventRow>, raised: bool)
    ensures rows == ElementRows(e)
    ensures raised <==> e.toolCalls.Some? && FirstRaise(e.toolCalls.value) < |e.toolCalls.value|
    ensures e.toolCalls.None? || e.toolCalls == Some([]) ==> rows == []
  {
    rows := [];
    raised := false;
    if e.toolCalls.None? || |e.toolCalls.value| == 0 {
      return;
    }
    var calls := e.toolCalls.value;
    var j := 0;
    while j < |calls|
      invariant 0 <= j <= FirstRaise(calls)
      invariant rows == FilterMap(calls[..j])
      invariant !raised
      decreases |calls| - j
    {
      var c := calls[j];
      FilterMapSnoc(calls, j);
      if c.toolName != Some(DisplayEventTool) {
        j := j + 1;
        continue;
      }
      var parsed := ParamsOf(c);
      if parsed.None? {
        raised := true;
        break;
      }
      var m := parsed.value;
      if TypeKey in m && ValueKey in m {
        rows := rows + [EventRow(m[TypeKey], m[ValueKey])];
      }
      j := j + 1;
    }
  }

  /** The event-collection loop of `create_report`: every element is tried in
      turn and a throw inside one element does not stop the next. */
  method CollectEvents(transcript: seq<Element>) returns (events: seq<EventRow>)
    ensures events == Events(transcript)
  {
    events := [];
    var k := 0;
    while k < |transcript|
      invariant 0 <= k <= |transcript|
      invariant events == Events(transcript[..k])
      decreases |transcript| - k
    {
      var rows, _ := CollectElement(transcript[k]);
      EventsConcat(transcript[..k], [transcript[k]]);
      assert transcript[..k + 1] == transcript[..k] + [transcript[k]];
      assert Events([transcript[k]]) == rows by {
        assert [transcript[k]][1..] == [];
      }
      events := events + rows;
      k := k + 1;
    }
    assert transcript[..k] == transcript;
  }

  /** Every collected row comes from a `displayEvent` call whose parsed
      params hold both keys, with the two columns taken from those keys. */
  lemma {:induction false} FilterMapSound(calls: seq<ToolCall>, k: int)
    requires 0 <= k < |FilterMap(calls)|
    ensures exists j :: 0 <= j < |calls| && |RowOf(calls[j])| == 1 && RowOf(calls[j])[0] == FilterMap(calls)[k]
    decreases |calls|
  {
    var head := RowOf(calls[0]);
    if k < |head| {
      assert |RowOf(calls[0])| == 1 && RowOf(calls[0])[0] == FilterMap(calls)[k];
    } else {
      FilterMapSound(calls[1..], k - |head|);
      var j :| 0 <= j < |calls[1..]| && |RowOf(calls[1..][j])| == 1 && RowOf(calls[1..][j])[0] == FilterMap(calls[1..])[k - |head|];
      assert calls[1..][j] == calls[j + 1];
    }
  }

  /** The number of calls that qualify for a row. */
  function CountQualifying(calls: seq<ToolCall>): (n: nat)
    ensures n <= |calls|
    decreases |calls|
  {
    if |calls| == 0 then 0 else (if Qualifies(calls[0]) then 1 else 0) + CountQualifying(calls[1..])
  }

  /** Conversely every qualifying call yields a row: the number of rows is
      exactly the number of qualifying calls, so none is lost or doubled. */
  lemma {:induction false} FilterMapCount(calls: seq<ToolCall>)
    ensures |FilterMap(calls)| == CountQualifying(calls)
    decreases |calls|
  {
    if |calls| > 0 {
      FilterMapCount(calls[1..]);
    }
  }

  /** Calls of other tools contribute nothing, whatever their params. */
  lemma {:induction false} OtherToolsIgnored(calls: seq<ToolCall>)
    requires forall i :: 0 <= i < |calls| ==> !IsDisplayEvent(calls[i])
    ensures FilterMap(calls) == []
    decreases |calls|
  {
    if |calls| > 0 {
      assert !IsDisplayEvent(calls[0]);
      assert forall i :: 0 <= i < |calls[1..]| ==> !IsDisplayEvent(calls[1..][i]) by {
        forall i | 0 <= i < |calls[1..]|
          ensures !IsDisplayEvent(calls[1..][i])
        {
          assert calls[1..][i] == calls[i + 1];
        }
      }
      OtherToolsIgnored(calls[1..]);
    }
  }

  /** An element whose calls never throw contributes all its qualifying rows,
      in call order. */
  lemma {:induction false} CleanElementKeepsAll(calls: seq<ToolCall>)
    requires forall i :: 0 <= i < |calls| ==> !Raises(calls[i])
    ensures ElementRows(Element(Some(calls))) == FilterMap(calls)
  {
    assert calls[..FirstRaise(calls)] == calls;
  }

  /** A throw in one element drops that element's remaining calls, keeps its
      earlier rows, and leaves the rows of all other elements untouched. */
  lemma {:induction false} ThrowIsLocal(before: seq<Element>, calls: seq<ToolCall>, k: nat, after: seq<Element>)
    requires k < |calls| && Raises(calls[k])
    requires forall i :: 0 <= i < k ==> !Raises(calls[i])
    ensures Events(before + [Element(Some(calls))] + after)
      == Events(before) + FilterMap(calls[..k]) + Events(after)
  {
    var e := Element(Some(calls));
    assert FirstRaise(calls) == k;
    var middle := Events([e]);
    assert middle == ElementRows(e) by {
      assert [e][1..] == [];
      assert Events([e]) == ElementRows([e][0]) + Events([e][1..]);
    }
    assert ElementRows(e) == FilterMap(calls[..k]);
    EventsConcat(before + [e], after);
    EventsConcat(before, [e]);
  }

  /** `f"{firstName}_{lastName}_{procedure}_{patientId}.pdf"` */
  function OutputFilename(d: SurgeryDetails): (name: string)
    ensures |name| >= 4 && name[|name| - 4..] == ".pdf"
    ensures |name| > |d.firstName| && name[..|d.firstName| + 1] == d.firstName + "_"
  {
    d.firstName + "_" + d.lastName + "_" + d.procedure + "_" + d.patientId + ".pdf"
  }

  /** Split at every occurrence of `sep`, as Python's `str.split(sep)`. */
  function Split(s: string, sep: char): (parts: seq<string>)
    ensures |parts| >= 1
    decreases |s|
  {
    if |s| == 0 then [""]
    else
      var rest := Split(s[1..], sep);
      if s[0] == sep then [""] + rest else [[s[0]] + rest[0]] + rest[1..]
  }

  lemma {:induction false} SplitJoin(a: string, sep: char, b: string)
    requires sep !in a
    ensures Split(a + [sep] + b, sep) == [a] + Split(b, sep)
    decreases |a|
  {
    if |a| == 0 {
      assert a + [sep] + b == [sep] + b;
      assert ([sep] + b)[1..] == b;
    } else {
      assert (a + [sep] + b)[1..] == a[1..] + [sep] + b;
      SplitJoin(a[1..], sep, b);
      assert [a[0]] + a[1..] == a;
    }
  }

  lemma {:induction false} SplitNoSep(a: string, sep: char)
    requires sep !in a
    ensures Split(a, sep) == [a]
    decreases |a|
  {
    if |a| > 0 {
      SplitNoSep(a[1..], sep);
      assert [a[0]] + a[1..] == a;
    }
  }

  /** When no detail contains an underscore, the file name determines the
      details: dropping ".pdf" and splitting at '_' gives them back. */
  lemma FilenameRoundTrip(d: SurgeryDetails)
    requires '_' !in d.firstName && '_' !in d.lastName && '_' !in d.procedure && '_' !in d.patientId
    ensures var name := OutputFilename(d);
      Split(name[..|name| - 4], '_') == [d.firstName, d.lastName, d.procedure, d.patientId]
  {
    var name := OutputFilename(d);
    var stem := d.firstName + "_" + d.lastName + "_" + d.procedure + "_" + d.patientId;
    assert name[..|name| - 4] == stem;
    var t3 := d.procedure + "_" + d.patientId;
    var t2 := d.lastName + "_" + t3;
    assert stem == d.firstName + ['_'] + t2;
    assert t2 == d.lastName + ['_'] + t3;
    assert t3 == d.procedure + ['_'] + d.patientId;
    SplitNoSep(d.patientId, '_');
    SplitJoin(d.procedure, '_', d.patientId);
    SplitJoin(d.lastName, '_', t3);
    SplitJoin(d.firstName, '_', t2);
  }

  /** A row of the PDF table. */
  datatype TableRow = HeaderRow | DataRow(row: EventRow)

  datatype Background = DarkGrey | LightGrey | White

  /** The events table: the header row followed by one row per event. */
  function TableData(events: seq<EventRow>): (table: seq<TableRow>)
    ensures |table| == |events| + 1
    ensures table[0] == HeaderRow
    ensures forall i :: 0 <= i < |events| ==> table[i + 1] == DataRow(events[i])
  {
    [HeaderRow] + seq(|events|, i requires 0 <= i < |events| => DataRow(events[i]))
  }

  /** The background of table row i: dark grey for the header, then very
      light grey on even and white on odd row indices. */
  function BackgroundAt(i: nat): Background
  {
    if i == 0 then DarkGrey else if i % 2 == 0 then LightGrey else White
  }

  /** Data rows alternate, starting with white directly under the header. */
  lemma AlternatingRows(i: nat)
    requires i >= 1
    ensures BackgroundAt(1) == White
    ensures BackgroundAt(i) != BackgroundAt(i + 1)
    ensures BackgroundAt(i) == BackgroundAt(i + 2)
    ensures BackgroundAt(i) != DarkGrey
  {
  }

  /** The style loop `for i in range(1, len(table_data))` after the header
      style: one background per table row. */
  method RowBackgrounds(table: seq<TableRow>) returns (bg: seq<Background>)
    requires |table| >= 1
    ensures |bg| == |table|
    ensures forall i :: 0 <= i < |table| ==> bg[i] == BackgroundAt(i)
  {
    bg := [DarkGrey];
    var i := 1;
    while i < |table|
      invariant 1 <= i <= |table|
      invariant |bg| == i
      invariant forall k :: 0 <= k < i ==> bg[k] == BackgroundAt(k)
      decreases |table| - i
    {
      if i % 2 == 0 {
        bg := bg + [LightGrey];
      } else {
        bg := bg + [White];
      }
      i := i + 1;
    }
  }

  datatype Report = Report(filename: string, events: seq<EventRow>, table: seq<TableRow>, backgrounds: seq<Background>)

  /** `create_report`: collect the events, name the file after the surgery
      details, lay out the table, and return the events. */
  method CreateReport(transcript: seq<Element>, details: SurgeryDetails) returns (r: Report)
    ensures r.events == Events(transcript)
    ensures r.filename == OutputFilename(details)
    ensures |r.table| == |r.events| + 1 && r.table[0] == HeaderRow
    ensures forall i :: 0 <= i < |r.events| ==> r.table[i + 1] == DataRow(r.events[i])
    ensures |r.backgrounds| == |r.table|
    ensures forall i :: 0 <= i < |r.backgrounds| ==> r.backgrounds[i] == BackgroundAt(i)
    ensures |r.events| > 0 ==> r.backgrounds[1] == White
  {
    var events := CollectEvents(transcript);
    var table := TableData(events);
    var bg := RowBackgrounds(table);
    r := Report(OutputFilename(details), events, table, bg);
  }
}
