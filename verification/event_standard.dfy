/**
  The event-stream reader beside the parser of section 9.2.6 of the HTML Living Standard,
  on lines that hold no line ends: exactly when the two print the same messages.
*/
module EventStandard {
  import opened Basics
  import opened EventStream

  // ------------------------------------------------- the standard's parser

  /** Its buffers for the event type and the data, and the messages dispatched so far. */
  datatype Standard = Standard(event: string, data: string, out: seq<string>)

  const FIRST := Standard("", "", [])

  function IndexOfColon(line: string): (i: nat)
    ensures i <= |line| && (i < |line| ==> line[i] == ':') && forall k :: 0 <= k < i ==> line[k] != ':'
  {
    if line == "" || line[0] == ':' then 0 else 1 + IndexOfColon(line[1..])
  }

  function FieldName(line: string): string {
    line[..IndexOfColon(line)]
  }

  predicate HasColon(line: string) {
    IndexOfColon(line) < |line|
  }

  /** What follows the colon, as it stands. */
  function AfterColon(line: string): string {
    if HasColon(line) then line[IndexOfColon(line) + 1..] else ""
  }

  /** The field's value: one leading space does not belong to it. */
  function FieldValue(line: string): string {
    TrimPrefix(AfterColon(line), " ")
  }

  function Dispatch(p: Standard): Standard {
    if p.data == "" then Standard("", "", p.out)
    else
      var kind := if p.event == "" then "message" else p.event;
      Standard("", "", if kind == "message" then p.out + [TrimSuffix(p.data)] else p.out)
  }

  function AcceptField(p: Standard, line: string): Standard {
    if line == "" then Dispatch(p)
    else if line[0] == ':' then p
    else if FieldName(line) == "event" then p.(event := FieldValue(line))
    else if FieldName(line) == "data" then p.(data := p.data + FieldValue(line) + "\n")
    else p
  }

  /** At the end of the stream the standard dispatches nothing more. */
  function FeedStandard(p: Standard, lines: seq<string>): Standard {
    if lines == [] then p else AcceptField(FeedStandard(p, lines[..|lines| - 1]), lines[|lines| - 1])
  }

  // ------------------------------------------------ the fields of one event

  datatype Field = Event(raw: string, colon: bool) | Data(raw: string, colon: bool) | Ignored

  predicate Plain(line: string) {
    forall c :: c in line ==> c != '\r' && c != '\n'
  }

  predicate AllPlain(lines: seq<string>) {
    forall l :: l in lines ==> Plain(l)
  }

  function FieldOf(line: string): Field {
    if FieldName(line) == "event" then Event(AfterColon(line), HasColon(line))
    else if FieldName(line) == "data" then Data(AfterColon(line), HasColon(line))
    else Ignored
  }

  /** The fields since the last blank line. */
  function Fields(lines: seq<string>): seq<Field> {
    if lines == [] || lines[|lines| - 1] == "" then []
    else Fields(lines[..|lines| - 1]) + [FieldOf(lines[|lines| - 1])]
  }

  /** The reader joins the trimmed names of all event fields. */
  function JoinedName(fs: seq<Field>): string {
    if fs == [] then ""
    else
      var last := fs[|fs| - 1];
      JoinedName(fs[..|fs| - 1]) + (if last.Event? && last.colon then TrimSpace(last.raw) else "")
  }

  /** The standard takes the last event field's value. */
  function LastName(fs: seq<Field>): string {
    if fs == [] then ""
    else
      var last := fs[|fs| - 1];
      if last.Event? then TrimPrefix(last.raw, " ") else LastName(fs[..|fs| - 1])
  }

  /** The values of the data fields: all of them, or those with a colon. */
  function Values(fs: seq<Field>, bare: bool): seq<string> {
    if fs == [] then []
    else
      var last := fs[|fs| - 1];
      Values(fs[..|fs| - 1], bare) + (if last.Data? && (bare || last.colon) then [TrimPrefix(last.raw, " ")] else [])
  }

  predicate IsMessage(name: string) {
    name == "" || name == "message"
  }

  predicate SomeText(values: seq<string>) {
    exists i :: 0 <= i < |values| && values[i] != ""
  }

  /** The reader prints the event, and so does the standard. */
  predicate ReaderPrints(fs: seq<Field>) {
    IsMessage(JoinedName(fs)) && SomeText(Values(fs, false))
  }

  predicate StandardPrints(fs: seq<Field>) {
    IsMessage(LastName(fs)) && Values(fs, true) != []
  }

  /** Every data field has a colon, and neither the first nor the last is empty. */
  predicate CleanData(fs: seq<Field>) {
    var values := Values(fs, false);
    && values == Values(fs, true)
    && values != [] && values[0] != "" && values[|values| - 1] != ""
  }

  /** The two print the same of one event. */
  predicate Alike(fs: seq<Field>) {
    && (ReaderPrints(fs) <==> StandardPrints(fs))
    && (ReaderPrints(fs) ==> CleanData(fs))
  }

  // ----------------------------------------------- what the buffers hold

  lemma PlainIsClean(line: string)
    requires Plain(line)
    ensures Clean(line) == line
  {
    if line != "" {
      assert line[|line| - 1] in line;
    }
  }

  /** A prefix with its colon is a field name. */
  lemma NameIs(line: string, name: string)
    requires ':' !in name
    ensures name + ":" <= line <==> FieldName(line) == name && HasColon(line)
    ensures name + ":" <= line ==> AfterColon(line) == line[|name| + 1..]
  {
    if name + ":" <= line {
      assert line[|name|] == ':';
      assert forall k :: 0 <= k < |name| ==> line[k] == name[k] && name[k] in name;
      assert IndexOfColon(line) == |name|;
    }
    if FieldName(line) == name && HasColon(line) {
      assert line[..|name| + 1] == name + ":";
    }
  }

  /** The data buffer of the standard after these values. */
  function Lined(values: seq<string>): string {
    if values == [] then "" else Lined(values[..|values| - 1]) + values[|values| - 1] + "\n"
  }

  lemma {:induction false} LinedIsJoin(values: seq<string>)
    requires values != []
    ensures Lined(values) == Join(values) + "\n" && TrimSuffix(Lined(values)) == Join(values)
  {
    var n := |values| - 1;
    if n == 0 {
      assert values[..0] == [] && "" + values[0] == values[0];
    } else {
      LinedIsJoin(values[..n]);
      assert Join(values[..n]) + "\n" + values[n] + "\n" == Join(values) + "\n";
    }
  }

  /** One more field, in each reading. */
  lemma OneMore(fs: seq<Field>, f: Field, bare: bool)
    ensures Values(fs + [f], bare)
         == if f.Data? && (bare || f.colon) then Values(fs, bare) + [TrimPrefix(f.raw, " ")] else Values(fs, bare)
    ensures JoinedName(fs + [f])
         == if f.Event? && f.colon then JoinedName(fs) + TrimSpace(f.raw) else JoinedName(fs)
    ensures LastName(fs + [f]) == if f.Event? then TrimPrefix(f.raw, " ") else LastName(fs)
  {
    assert (fs + [f])[..|fs|] == fs;
    assert Values(fs, bare) + [] == Values(fs, bare) && JoinedName(fs) + "" == JoinedName(fs);
  }

  lemma ValueIsPlain(line: string)
    requires Plain(line)
    ensures Plain(AfterColon(line)) && Plain(FieldValue(line)) && Clean(FieldValue(line)) == FieldValue(line)
  {
    assert forall c :: c in AfterColon(line) ==> c in line;
    assert forall c :: c in FieldValue(line) ==> c in AfterColon(line);
    PlainIsClean(FieldValue(line));
  }

  /** One more value in the reader's data buffer. */
  lemma AssembledMore(values: seq<string>, v: string)
    requires Clean(v) == v
    ensures Assembled(values + [v]) == if Assembled(values) != "" then Assembled(values) + "\n" + v else v
  {
    assert (values + [v])[..|values|] == values;
  }

  /** How the reader takes a line that is not blank, field by field. */
  lemma ReaderTakesField(p: Parser, line: string)
    requires line != ""
    ensures
      var q, f := Accept(p, line), FieldOf(line);
      && q.out == p.out
      && q.event == (if f.Event? && f.colon then p.event + TrimSpace(f.raw) else p.event)
      && q.data == (if f.Data? && f.colon then
                      if p.data != "" then p.data + "\n" + FieldValue(line) else FieldValue(line)
                    else p.data)
  {
    NameIs(line, "event");
    NameIs(line, "data");
    assert "event:" == "event" + ":" && "data:" == "data" + ":";
    assert "event:" <= line ==> line[0] == 'e' && TrimPrefix(line, "event:") == AfterColon(line);
    assert "data:" <= line ==> line[0] == 'd' && TrimPrefix(line, "data:") == AfterColon(line);
    assert ":" <= line <==> line[0] == ':';
    assert line[0] == ':' ==> FieldName(line) == "";
    hide TrimSpace, IndexOfColon;
  }

  /** The reader's buffers are what it makes of the fields, after one more line that is not blank. */
  lemma ReaderTakes(p: Parser, fs: seq<Field>, line: string)
    requires line != "" && Plain(line)
    requires p.event == JoinedName(fs) && p.data == Assembled(Values(fs, false))
    ensures
      var q := Accept(p, line);
      var fs' := fs + [FieldOf(line)];
      q.event == JoinedName(fs') && q.data == Assembled(Values(fs', false)) && q.out == p.out
  {
    hide Accept, Assembled, Clean, JoinedName, Values, TrimSpace, TrimPrefix, IndexOfColon;
    ReaderTakesField(p, line);
    OneMore(fs, FieldOf(line), false);
    ValueIsPlain(line);
    AssembledMore(Values(fs, false), FieldValue(line));
  }

  lemma StandardTakes(p: Standard, fs: seq<Field>, line: string)
    requires line != ""
    requires p.event == LastName(fs) && p.data == Lined(Values(fs, true))
    ensures
      var q := AcceptField(p, line);
      var fs' := fs + [FieldOf(line)];
      q.event == LastName(fs') && q.data == Lined(Values(fs', true)) && q.out == p.out
  {
    OneMore(fs, FieldOf(line), true);
    var values := Values(fs, true);
    hide Values, LastName, TrimPrefix;
    assert (values + [FieldValue(line)])[..|values|] == values;
    assert line[0] == ':' ==> FieldName(line) == "";
  }

  lemma {:induction false} ReaderHolds(lines: seq<string>)
    requires AllPlain(lines)
    ensures Feed(START, lines).event == JoinedName(Fields(lines))
    ensures Feed(START, lines).data == Assembled(Values(Fields(lines), false))
  {
    if lines != [] {
      var n := |lines| - 1;
      ReaderHolds(lines[..n]);
      assert lines[n] in lines;
      PlainIsClean(lines[n]);
      if lines[n] != "" {
        ReaderTakes(Feed(START, lines[..n]), Fields(lines[..n]), lines[n]);
      }
    }
  }

  lemma {:induction false} StandardHolds(lines: seq<string>)
    ensures FeedStandard(FIRST, lines).event == LastName(Fields(lines))
    ensures FeedStandard(FIRST, lines).data == Lined(Values(Fields(lines), true))
  {
    if lines != [] {
      var n := |lines| - 1;
      StandardHolds(lines[..n]);
      if lines[n] != "" {
        StandardTakes(FeedStandard(FIRST, lines[..n]), Fields(lines[..n]), lines[n]);
      }
    }
  }

  // ------------------------------------------------- what one event prints

  function ReaderOut(fs: seq<Field>): seq<string> {
    if ReaderPrints(fs) then [TrimSuffix(Assembled(Values(fs, false)))] else []
  }

  function StandardOut(fs: seq<Field>): seq<string> {
    if StandardPrints(fs) then [Join(Values(fs, true))] else []
  }

  /** Fields as they come from lines: plain, and with nothing after a colon that is not there. */
  ghost predicate FromLines(fs: seq<Field>) {
    forall f :: f in fs ==> f.Ignored? || (Plain(f.raw) && (f.colon || f.raw == ""))
  }

  lemma {:induction false} FieldsFromLines(lines: seq<string>)
    requires AllPlain(lines)
    ensures FromLines(Fields(lines))
  {
    if lines != [] && lines[|lines| - 1] != "" {
      FieldsFromLines(lines[..|lines| - 1]);
      assert lines[|lines| - 1] in lines;
      ValueIsPlain(lines[|lines| - 1]);
    }
  }

  lemma {:induction false} ValuesArePlain(fs: seq<Field>, bare: bool)
    requires FromLines(fs)
    ensures AllPlain(Values(fs, bare))
  {
    if fs != [] {
      var n := |fs| - 1;
      ValuesArePlain(fs[..n], bare);
      assert fs[n] in fs;
      if fs[n].Data? {
        assert forall c :: c in TrimPrefix(fs[n].raw, " ") ==> c in fs[n].raw;
      }
    }
  }

  lemma {:induction false} AssembledText(values: seq<string>)
    requires AllPlain(values)
    ensures Assembled(values) != "" <==> SomeText(values)
  {
    if values != [] {
      var n := |values| - 1;
      AssembledText(values[..n]);
      assert values[n] in values;
      PlainIsClean(values[n]);
      if SomeText(values[..n]) {
        var i :| 0 <= i < n && values[..n][i] != "";
        assert values[i] != "";
      }
    }
  }

  lemma ReaderBlank(lines: seq<string>)
    requires AllPlain(lines)
    ensures Flush(Feed(START, lines)).out == Feed(START, lines).out + ReaderOut(Fields(lines))
  {
    ReaderHolds(lines);
    FieldsFromLines(lines);
    ValuesArePlain(Fields(lines), false);
    AssembledText(Values(Fields(lines), false));
    hide Fields, Values, JoinedName, Assembled, SomeText;
  }

  lemma StandardBlank(lines: seq<string>)
    ensures Dispatch(FeedStandard(FIRST, lines)).out == FeedStandard(FIRST, lines).out + StandardOut(Fields(lines))
  {
    StandardHolds(lines);
    var values := Values(Fields(lines), true);
    if values == [] {
      assert Lined(values) == "";
    } else {
      LinedIsJoin(values);
    }
    hide Fields, Values, LastName, Lined;
  }

  // ------------------------------------------------------- lengths compared

  function Total(values: seq<string>): nat {
    if values == [] then 0 else Total(values[..|values| - 1]) + |values[|values| - 1]|
  }

  lemma {:induction false} JoinLength(values: seq<string>)
    requires values != []
    ensures |Join(values)| == Total(values) + |values| - 1
  {
    if |values| > 1 {
      JoinLength(values[..|values| - 1]);
    } else {
      assert values[..0] == [];
    }
  }

  /** A data field without a colon adds an empty value for the standard, and nothing for the reader. */
  lemma {:induction false} BareAddsLines(fs: seq<Field>)
    requires FromLines(fs)
    ensures Total(Values(fs, true)) == Total(Values(fs, false)) && |Values(fs, false)| <= |Values(fs, true)|
    ensures |Values(fs, false)| == |Values(fs, true)| ==> Values(fs, false) == Values(fs, true)
  {
    if fs != [] {
      var n := |fs| - 1;
      BareAddsLines(fs[..n]);
      assert fs[n] in fs;
      var v := if fs[n].Ignored? then "" else TrimPrefix(fs[n].raw, " ");
      TotalMore(Values(fs[..n], true), v);
      TotalMore(Values(fs[..n], false), v);
      assert Values(fs[..n], true) + [] == Values(fs[..n], true) && Values(fs[..n], false) + [] == Values(fs[..n], false);
    }
  }

  lemma TotalMore(values: seq<string>, v: string)
    ensures Total(values + [v]) == Total(values) + |v|
  {
    assert (values + [v])[..|values|] == values;
  }

  /** Text after a line feed keeps it from being the end. */
  lemma EndsPlain(a: string, last: string)
    requires Plain(last)
    ensures TrimSuffix(a + last) == a + last <==> last != "" || TrimSuffix(a) == a
  {
    if last == "" {
      assert a + last == a;
    } else {
      assert (a + last)[|a + last| - 1] == last[|last| - 1];
      assert last[|last| - 1] in last;
    }
  }

  lemma AfterFeed(front: string, last: string)
    requires Plain(last)
    ensures TrimSuffix(front + "\n" + last) == front + "\n" + last <==> last != ""
  {
    EndsInFeed(front);
    EndsPlain(front + "\n", last);
    hide TrimSuffix, Plain;
  }

  /** Joined plain lines end in a line feed exactly when the last of several is empty. */
  lemma JoinEnds(values: seq<string>)
    requires values != [] && AllPlain(values)
    ensures TrimSuffix(Join(values)) == Join(values) <==> |values| == 1 || values[|values| - 1] != ""
  {
    var n := |values| - 1;
    assert Plain(values[n]);
    hide TrimSuffix, Plain;
    if n > 0 {
      AfterFeed(Join(values[..n]), values[n]);
    } else {
      EndsPlain("", values[0]);
      assert "" + values[0] == values[0];
      EmptyEnds();
    }
  }

  lemma EmptyEnds()
    ensures TrimSuffix("") == ""
  {
  }

  lemma EndsInFeed(a: string)
    ensures TrimSuffix(a + "\n") == a && a + "\n" != a
  {
    assert |a + "\n"| == |a| + 1;
  }

  lemma NoLineEnds(values: seq<string>)
    requires AllPlain(values)
    ensures forall v :: v in values ==> '\n' !in v && !EndsInReturn(v)
  {
    forall v | v in values ensures '\n' !in v && !EndsInReturn(v) {
      assert Plain(v);
      assert v != "" ==> v[|v| - 1] in v;
    }
  }

  /** Data comes through unchanged exactly when neither its first nor its last line is empty. */
  lemma DataSurvives(values: seq<string>)
    requires AllPlain(values) && values != [] && Assembled(values) != ""
    ensures TrimSuffix(Assembled(values)) == Join(values) <==> values[0] != "" && values[|values| - 1] != ""
  {
    NoLineEnds(values);
    AssembledLength(values);
    JoinEnds(values);
    hide Assembled, AllPlain;
    if |values| == 1 {
      assert Join(values) == values[0];
    }
  }

  /** One event prints the same for both exactly when it is alike. */
  lemma AlikeExactly(fs: seq<Field>)
    requires FromLines(fs)
    ensures ReaderOut(fs) == StandardOut(fs) <==> Alike(fs)
  {
    var mine, all := Values(fs, false), Values(fs, true);
    ValuesArePlain(fs, false);
    AssembledText(mine);
    hide Values, IsMessage, JoinedName, LastName, FromLines;
    if ReaderPrints(fs) && StandardPrints(fs) {
      assert mine != [];
      DataSurvives(mine);
      if mine != all {
        BareAddsLines(fs);
        JoinLength(mine);
        JoinLength(all);
        AssembledShort(mine);
      }
    }
  }

  lemma AssembledShort(values: seq<string>)
    requires AllPlain(values) && values != []
    ensures |TrimSuffix(Assembled(values))| <= |Join(values)|
  {
    forall v | v in values ensures '\n' !in v {
      assert Plain(v);
    }
    AssembledLength(values);
  }

  // ------------------------------------------------------------ main result

  predicate SameSoFar(lines: seq<string>, n: nat)
    requires n <= |lines|
  {
    Feed(START, lines[..n]).out == FeedStandard(FIRST, lines[..n]).out
  }

  /** The event that the blank line `n` ends is alike. */
  predicate AlikeAt(lines: seq<string>, n: nat)
    requires n < |lines|
  {
    lines[n] == "" ==> Alike(Fields(lines[..n]))
  }

  lemma FieldOn(front: seq<string>, line: string)
    requires AllPlain(front) && Plain(line) && line != ""
    ensures Accept(Feed(START, front), Clean(line)).out == Feed(START, front).out
    ensures AcceptField(FeedStandard(FIRST, front), line).out == FeedStandard(FIRST, front).out
  {
    PlainIsClean(line);
    ReaderHolds(front);
    StandardHolds(front);
    hide Accept, AcceptField, Feed, FeedStandard;
    ReaderTakes(Feed(START, front), Fields(front), line);
    StandardTakes(FeedStandard(FIRST, front), Fields(front), line);
  }

  lemma BlankOn(front: seq<string>)
    requires AllPlain(front) && Feed(START, front).out == FeedStandard(FIRST, front).out
    ensures Flush(Feed(START, front)).out == Dispatch(FeedStandard(FIRST, front)).out <==> Alike(Fields(front))
  {
    ReaderBlank(front);
    StandardBlank(front);
    FieldsFromLines(front);
    AlikeExactly(Fields(front));
    hide Alike, ReaderOut, StandardOut, Fields, Feed, FeedStandard, Flush, Dispatch;
    var out := Feed(START, front).out;
    assert (out + ReaderOut(Fields(front)))[|out|..] == ReaderOut(Fields(front));
    assert (out + StandardOut(Fields(front)))[|out|..] == StandardOut(Fields(front));
  }

  lemma FeedOne(lines: seq<string>, n: nat)
    requires n < |lines|
    ensures Feed(START, lines[..n + 1]) == Accept(Feed(START, lines[..n]), Clean(lines[n]))
    ensures FeedStandard(FIRST, lines[..n + 1]) == AcceptField(FeedStandard(FIRST, lines[..n]), lines[n])
  {
    assert lines[..n + 1][..n] == lines[..n];
    hide Accept, AcceptField, Clean;
  }

  /** One line on, the two still agree exactly when no event that is not alike has just ended. */
  lemma OneLineOn(lines: seq<string>, n: nat)
    requires AllPlain(lines) && n < |lines| && SameSoFar(lines, n)
    ensures SameSoFar(lines, n + 1) <==> AlikeAt(lines, n)
  {
    hide Alike, Feed, FeedStandard, Fields;
    FeedOne(lines, n);
    assert lines[n] in lines;
    if lines[n] == "" {
      BlankOn(lines[..n]);
    } else {
      FieldOn(lines[..n], lines[n]);
    }
  }

  lemma {:induction false} AgreesUpTo(lines: seq<string>, n: nat)
    requires AllPlain(lines) && n <= |lines| && forall k :: 0 <= k < n ==> AlikeAt(lines, k)
    ensures SameSoFar(lines, n)
  {
    if n > 0 {
      AgreesUpTo(lines, n - 1);
      OneLineOn(lines, n - 1);
    } else {
      assert lines[..0] == [];
    }
  }

  /** On any lines, the reader and the standard have printed the same after every line exactly when
      every event ended by a blank line is alike. */
  lemma SameMessagesExactly(lines: seq<string>)
    requires AllPlain(lines)
    ensures (forall n :: 0 <= n <= |lines| ==> SameSoFar(lines, n))
       <==> (forall n :: 0 <= n < |lines| ==> AlikeAt(lines, n))
  {
    hide AlikeAt;
    if forall n :: 0 <= n < |lines| ==> AlikeAt(lines, n) {
      forall n | 0 <= n <= |lines| ensures SameSoFar(lines, n) {
        AgreesUpTo(lines, n);
      }
    } else {
      var n :| 0 <= n < |lines| && !AlikeAt(lines, n);
      if SameSoFar(lines, n) {
        OneLineOn(lines, n);
      }
    }
  }

  /** And they still have at the end of the stream exactly when the event it cuts off prints nothing. */
  lemma SameStreamExactly(lines: seq<string>, eol: string)
    requires AllPlain(lines) && IsEol(eol)
    ensures (forall n :: 0 <= n <= |lines| ==> SameSoFar(lines, n))
            && Read(Text(lines, eol)).out == FeedStandard(FIRST, lines).out
       <==> (forall n :: 0 <= n < |lines| ==> AlikeAt(lines, n)) && !ReaderPrints(Fields(lines))
  {
    SameMessagesExactly(lines);
    forall l | l in lines ensures '\n' !in l {
      assert Plain(l);
    }
    ScanText(lines, eol);
    FeedEnded(START, lines, eol);
    ReaderBlank(lines);
    hide AlikeAt, ReaderPrints, Fields;
    if forall n :: 0 <= n <= |lines| ==> SameSoFar(lines, n) {
      assert SameSoFar(lines, |lines|) && lines[..|lines|] == lines;
    }
  }

  // ------------------------------------------------- where the two part ways

  /** An event of plain lines, ended by a blank one. */
  lemma {:induction false} NothingYet(lines: seq<string>)
    requires AllPlain(lines) && "" !in lines
    ensures Feed(START, lines).out == [] && FeedStandard(FIRST, lines).out == []
  {
    if lines != [] {
      var n := |lines| - 1;
      NothingYet(lines[..n]);
      assert lines[n] in lines;
      FieldOn(lines[..n], lines[n]);
    }
  }

  lemma OneEvent(lines: seq<string>)
    requires AllPlain(lines) && "" !in lines
    ensures Feed(START, lines + [""]).out == ReaderOut(Fields(lines))
    ensures FeedStandard(FIRST, lines + [""]).out == StandardOut(Fields(lines))
  {
    NothingYet(lines);
    ReaderBlank(lines);
    StandardBlank(lines);
    assert (lines + [""])[..|lines|] == lines;
    hide Feed, FeedStandard, Flush, Dispatch, Fields;
    assert [] + ReaderOut(Fields(lines)) == ReaderOut(Fields(lines));
    assert [] + StandardOut(Fields(lines)) == StandardOut(Fields(lines));
  }

  /** A line that carries the field. */
  function LineOf(f: Field): string {
    match f
    case Event(raw, colon) => if colon then "event:" + raw else "event"
    case Data(raw, colon) => if colon then "data:" + raw else "data"
    case Ignored => ":"
  }

  function LinesOf(fs: seq<Field>): seq<string> {
    if fs == [] then [] else LinesOf(fs[..|fs| - 1]) + [LineOf(fs[|fs| - 1])]
  }

  lemma NoColon(name: string)
    requires ':' !in name
    ensures IndexOfColon(name) == |name| && FieldName(name) == name && !HasColon(name) && AfterColon(name) == ""
  {
    assert name[..|name|] == name;
  }

  lemma ColonCarries(name: string, raw: string)
    requires ':' !in name && Plain(name) && Plain(raw)
    ensures var line := name + ":" + raw;
      FieldName(line) == name && HasColon(line) && AfterColon(line) == raw && Plain(line)
  {
    var line := name + ":" + raw;
    NameIs(line, name);
    assert line[|name| + 1..] == raw;
  }

  lemma LineCarries(f: Field)
    requires f.Ignored? || (Plain(f.raw) && (f.colon || f.raw == ""))
    ensures LineOf(f) != "" && Plain(LineOf(f)) && FieldOf(LineOf(f)) == f
  {
    if f.Ignored? {
      assert FieldName(":") == "";
    } else {
      var name := if f.Event? then "event" else "data";
      NoColon(name);
      ColonCarries(name, f.raw);
      assert "event" + ":" == "event:" && "data" + ":" == "data:";
      hide FieldName, HasColon, AfterColon;
      assert "event" != "data";
    }
  }

  /** Any fields come from some lines. */
  lemma {:induction false} LinesCarry(fs: seq<Field>)
    requires FromLines(fs)
    ensures AllPlain(LinesOf(fs)) && "" !in LinesOf(fs) && Fields(LinesOf(fs)) == fs
  {
    if fs != [] {
      var n := |fs| - 1;
      LinesCarry(fs[..n]);
      assert fs[n] in fs;
      LineCarries(fs[n]);
      FieldsMore(LinesOf(fs[..n]), LineOf(fs[n]));
      hide FieldOf, LineOf, Plain;
    }
  }

  /** What the two print of a stream with just this event. */
  lemma Prints(fs: seq<Field>)
    requires FromLines(fs)
    ensures Feed(START, LinesOf(fs) + [""]).out == ReaderOut(fs)
    ensures FeedStandard(FIRST, LinesOf(fs) + [""]).out == StandardOut(fs)
  {
    LinesCarry(fs);
    hide Feed, FeedStandard, Fields;
    OneEvent(LinesOf(fs));
  }

  lemma {:induction false} FieldsMore(lines: seq<string>, line: string)
    requires line != ""
    ensures Fields(lines + [line]) == Fields(lines) + [FieldOf(line)]
  {
    assert (lines + [line])[..|lines|] == lines;
  }

  lemma OneValue(v: string)
    requires Plain(v) && v != ""
    ensures TrimSuffix(Assembled([v])) == v && Join([v]) == v && SomeText([v])
  {
    PlainIsClean(v);
    assert [v][..0] == [] && [v][0] == v;
    assert v[|v| - 1] in v;
  }

  lemma NoTrim(s: string)
    requires s != "" && !IsSpace(s[0]) && !IsSpace(s[|s| - 1])
    ensures TrimSpace(s) == s
  {
  }

  /** Text that no trimming touches. */
  predicate Solid(x: string) {
    x != "" && Plain(x) && forall c :: c in x ==> !IsSpace(c)
  }

  lemma SolidStays(x: string)
    requires Solid(x)
    ensures TrimPrefix(x, " ") == x && TrimSpace(x) == x && TrimPrefix("", " ") == ""
  {
    assert x[0] in x && x[|x| - 1] in x;
    NoTrim(x);
  }

  lemma TwoValues(a: string, b: string)
    requires Plain(a) && Plain(b)
    ensures Assembled([a, b]) == (if a != "" then a + "\n" + b else b) && Join([a, b]) == a + "\n" + b
  {
    PlainIsClean(a);
    PlainIsClean(b);
    assert [a, b][..1] == [a] && [a][..0] == [] && Assembled([]) == "";
    assert Assembled([a]) == a && Join([a]) == a;
  }

  /** The readings of an event with two data fields and no name. */
  lemma TwoData(a: Field, b: Field, bare: bool)
    requires a.Data? && b.Data? && b.colon
    ensures JoinedName([a, b]) == "" && LastName([a, b]) == ""
    ensures Values([a, b], bare) == (if bare || a.colon then [TrimPrefix(a.raw, " ")] else []) + [TrimPrefix(b.raw, " ")]
  {
    assert [a, b] == [] + [a] + [b];
    OneMore([], a, bare);
    OneMore([] + [a], b, bare);
    hide TrimPrefix;
    assert [] + [TrimPrefix(a.raw, " ")] == [TrimPrefix(a.raw, " ")];
  }

  /** A repeated event field: the reader joins the names, the standard takes the last. */
  lemma RepeatedEvent(a: string, b: string, x: string)
    requires Solid(a) && Solid(b) && Solid(x) && a + b == "message"
    ensures var lines := LinesOf([Event(a, true), Event(b, true), Data(x, true)]) + [""];
      Feed(START, lines).out == [x] && FeedStandard(FIRST, lines).out == []
  {
    var e, f, d := Event(a, true), Event(b, true), Data(x, true);
    hide Feed, FeedStandard, LinesOf, Assembled, Join, SomeText, Plain, IsSpace, TrimSpace, TrimPrefix;
    Prints([e, f, d]);
    SolidStays(a);
    SolidStays(b);
    SolidStays(x);
    NamedTwice(e, f, d);
    OneValue(x);
    hide Values, JoinedName, LastName;
    assert |a + b| == |"message"|;
  }

  lemma NamedTwice(e: Field, f: Field, d: Field)
    requires e.Event? && f.Event? && d.Data? && e.colon && f.colon && d.colon
    ensures JoinedName([e, f, d]) == TrimSpace(e.raw) + TrimSpace(f.raw)
    ensures LastName([e, f, d]) == TrimPrefix(f.raw, " ")
    ensures Values([e, f, d], true) == Values([e, f, d], false) == [TrimPrefix(d.raw, " ")]
  {
    assert [e, f, d] == [] + [e] + [f] + [d];
    OneMore([], e, false);
    OneMore([] + [e], f, false);
    OneMore([] + [e] + [f], d, false);
    OneMore([], e, true);
    OneMore([] + [e], f, true);
    OneMore([] + [e] + [f], d, true);
    hide TrimSpace, TrimPrefix;
    assert "" + TrimSpace(e.raw) == TrimSpace(e.raw);
    assert [] + [TrimPrefix(d.raw, " ")] == [TrimPrefix(d.raw, " ")];
  }

  /** A leading empty data line, with its colon or without, vanishes from what the reader prints. */
  lemma LeadingEmpty(x: string, colon: bool)
    requires Solid(x)
    ensures var lines := LinesOf([Data("", colon), Data(x, true)]) + [""];
      Feed(START, lines).out == [x] && FeedStandard(FIRST, lines).out == ["" + "\n" + x]
  {
    var a, b := Data("", colon), Data(x, true);
    hide Feed, FeedStandard, LinesOf, Assembled, Join, IsSpace, TrimSpace, TrimPrefix, Values, JoinedName, LastName;
    Prints([a, b]);
    TwoData(a, b, false);
    TwoData(a, b, true);
    SolidStays(x);
    TwoValues("", x);
    OneValue(x);
    assert [] + [x] == [x] && ["", x][1] == x;
    UnendedStays(x);
    assert [""] + [x] == ["", x];
  }

  lemma UnendedStays(x: string)
    requires Plain(x)
    ensures TrimSuffix(x) == x && TrimSuffix(x + "\n" + "") == x
  {
    if x != "" {
      assert x[|x| - 1] in x;
    }
    assert x + "\n" + "" == x + "\n";
  }

  /** A trailing one is trimmed off. */
  lemma TrailingEmpty(x: string)
    requires Solid(x)
    ensures var lines := LinesOf([Data(x, true), Data("", true)]) + [""];
      Feed(START, lines).out == [x] && FeedStandard(FIRST, lines).out == [x + "\n" + ""]
  {
    var a, b := Data(x, true), Data("", true);
    hide Feed, FeedStandard, LinesOf, Assembled, Join, IsSpace, TrimSpace, TrimPrefix, Values, JoinedName, LastName;
    Prints([a, b]);
    TwoData(a, b, false);
    TwoData(a, b, true);
    SolidStays(x);
    TwoValues(x, "");
    UnendedStays(x);
    assert [x] + [""] == [x, ""] && [x, ""][0] == x;
  }

  lemma OneDataField(x: string)
    requires Solid(x)
    ensures ReaderOut([Data(x, true)]) == [x]
  {
    hide Assembled, Join, IsSpace, TrimSpace, TrimPrefix, SomeText, Plain;
    assert [] + [Data(x, true)] == [Data(x, true)];
    OneMore([], Data(x, true), false);
    SolidStays(x);
    OneValue(x);
    assert [] + [x] == [x];
  }

  /** An event cut off by the end of the stream: the reader prints it, the standard drops it. */
  lemma CutOffEvent(x: string, eol: string)
    requires Solid(x) && IsEol(eol)
    ensures Read(Text(LinesOf([Data(x, true)]), eol)).out == [x]
    ensures FeedStandard(FIRST, LinesOf([Data(x, true)])).out == []
  {
    var fs := [Data(x, true)];
    var lines := LinesOf(fs);
    hide Feed, FeedStandard, LinesOf, Scan, Text, Flush, Fields, Values, Plain, IsSpace;
    assert FromLines(fs);
    LinesCarry(fs);
    NothingYet(lines);
    ReaderBlank(lines);
    NoLineEnds(lines);
    ScanText(lines, eol);
    FeedEnded(START, lines, eol);
    OneDataField(x);
    hide ReaderOut, IsEol;
    assert [] + [x] == [x];
  }
}
