/**
  The launcher's reader of the daemon's event stream: lines are collected into
  events, message payloads are printed, and the first endpoint is handed over.
*/
module EventStream {
  import opened Wrappers
  import opened Basics

  // ---------------------------------------------------------- text helpers

  /** The text without its trailing carriage returns and line feeds. */
  function Clean(s: string): string {
    if s != "" && (s[|s| - 1] == '\r' || s[|s| - 1] == '\n') then Clean(s[..|s| - 1]) else s
  }

  predicate IsSpace(c: char): (space: bool)
    ensures c == ' ' || c == '\t' || c == '\n' || c == '\r' ==> space
    ensures '!' <= c <= '~' ==> !space
  {
    || '\t' <= c <= '\r' || c == ' '
    || c == '\U{0085}' || c == '\U{00A0}' || c == '\U{1680}' || '\U{2000}' <= c <= '\U{200A}'
    || c == '\U{2028}' || c == '\U{2029}' || c == '\U{202F}' || c == '\U{205F}' || c == '\U{3000}'
  }

  function TrimLeft(s: string): string {
    if s != "" && IsSpace(s[0]) then TrimLeft(s[1..]) else s
  }

  function TrimSpace(s: string): string {
    if s != "" && IsSpace(s[|s| - 1]) then TrimSpace(s[..|s| - 1]) else TrimLeft(s)
  }

  /** `out` is `s` from `from` on, and what is left off at either end is space while its own ends are not. */
  predicate Trimmed(s: string, from: nat, out: string) {
    && from + |out| <= |s| && out == s[from..from + |out|]
    && (forall i :: 0 <= i < |s| && !(from <= i < from + |out|) ==> IsSpace(s[i]))
    && (out != "" ==> !IsSpace(out[0]) && !IsSpace(out[|out| - 1]))
  }

  lemma {:induction false} LeftTrimmed(s: string) returns (from: nat)
    ensures from <= |s| && TrimLeft(s) == s[from..]
    ensures (forall i :: 0 <= i < from ==> IsSpace(s[i])) && (from < |s| ==> !IsSpace(s[from]))
  {
    from := 0;
    if s != "" && IsSpace(s[0]) {
      var n := LeftTrimmed(s[1..]);
      from := n + 1;
      forall i | 0 <= i < from ensures IsSpace(s[i]) {
        assert i > 0 ==> s[i] == s[1..][i - 1];
      }
      assert s[1..][n..] == s[from..];
      assert from < |s| ==> s[from] == s[1..][n];
    }
  }

  /** Trimming leaves what is between the first character that is not space and the last. */
  lemma {:induction false} SpaceTrimmed(s: string) returns (from: nat)
    ensures Trimmed(s, from, TrimSpace(s))
  {
    if s != "" && IsSpace(s[|s| - 1]) {
      var front := s[..|s| - 1];
      from := SpaceTrimmed(front);
      var to := from + |TrimSpace(front)|;
      assert s[from..to] == front[from..to] == TrimSpace(front);
      forall i | 0 <= i < |s| && !(from <= i < to) ensures IsSpace(s[i]) {
        assert i < |front| ==> s[i] == front[i];
      }
    } else {
      from := LeftTrimmed(s);
    }
  }

  /** Cleaning takes off carriage returns and line feeds at the end, and all of them. */
  lemma {:induction false} CleanedExactly(s: string)
    ensures Clean(s) <= s
    ensures forall i :: |Clean(s)| <= i < |s| ==> s[i] == '\r' || s[i] == '\n'
    ensures Clean(s) != "" ==> var last := Clean(s)[|Clean(s)| - 1]; last != '\r' && last != '\n'
  {
    if s != "" && (s[|s| - 1] == '\r' || s[|s| - 1] == '\n') {
      CleanedExactly(s[..|s| - 1]);
    }
  }

  function TrimSuffix(s: string): string {
    if s != "" && s[|s| - 1] == '\n' then s[..|s| - 1] else s
  }

  // ------------------------------------------------------------ the parser

  datatype Parser = Parser(event: string, data: string, out: seq<string>, endpoint: Option<string>)

  const START := Parser("", "", [], None)

  function Flush(p: Parser): Parser {
    if p.data == "" then p.(event := "")
    else if p.event == "endpoint" then
      Parser("", "", p.out, if p.endpoint.None? then Some(TrimSpace(p.data)) else p.endpoint)
    else if p.event == "message" || p.event == "" then
      Parser("", "", p.out + [TrimSuffix(p.data)], p.endpoint)
    else Parser("", "", p.out, p.endpoint)
  }

  function Accept(p: Parser, line: string): Parser {
    if line == "" then Flush(p)
    else if ":" <= line then p
    else if "event:" <= line then p.(event := p.event + TrimSpace(TrimPrefix(line, "event:")))
    else if "data:" <= line then
      var payload := TrimPrefix(TrimPrefix(line, "data:"), " ");
      p.(data := if p.data != "" then p.data + "\n" + payload else payload)
    else p
  }

  function Feed(p: Parser, lines: seq<string>): Parser {
    if lines == [] then p else Accept(Feed(p, lines[..|lines| - 1]), Clean(lines[|lines| - 1]))
  }

  /** The terminated lines of `body`, and the unterminated rest. */
  function Scan(body: string): (seq<string>, string) {
    if body == "" then ([], "")
    else
      var (lines, rest) := Scan(body[..|body| - 1]);
      var c := body[|body| - 1];
      if c == '\n' then (lines + [rest + "\n"], "") else (lines, rest + [c])
  }

  /** A stream that ends is flushed, whatever the reason; its unterminated line is dropped. */
  function Read(body: string): Parser {
    Flush(Feed(START, Scan(body).0))
  }

  lemma FeedMore(p: Parser, lines: seq<string>, line: string)
    ensures Feed(p, lines + [line]) == Accept(Feed(p, lines), Clean(line))
  {
    assert (lines + [line])[..|lines|] == lines;
  }

  datatype Ending = StreamEnded | Failed

  method ReadStream(body: string, failed: bool)
    returns (stdout: seq<string>, endpoint: Option<string>, ending: Ending)
    ensures stdout == Read(body).out
    ensures endpoint == Read(body).endpoint
    ensures ending == if failed then Failed else StreamEnded
  {
    stdout, endpoint := [], None;
    var event, data := "", "";
    var i := 0;
    assert Scan(body[..i]) == ([], "") && Feed(START, []) == START;
    hide Scan, Feed, Flush, Clean, TrimSpace;
    while true
      invariant 0 <= i <= |body|
      invariant Scan(body[..i]).1 == ""
      invariant Parser(event, data, stdout, endpoint) == Feed(START, Scan(body[..i]).0)
      decreases |body| - i
    {
      ghost var done := Scan(body[..i]).0;
      var line, next, ended := ReadString(body, i);
      i := next;
      if !ended {
        stdout, endpoint := FlushTo(event, data, stdout, endpoint);
        ending := if failed then Failed else StreamEnded;
        return;
      }
      FeedMore(START, done, line);
      line := TrimEnd(line);
      if line == "" {
        stdout, endpoint := FlushTo(event, data, stdout, endpoint);
        event, data := "", "";
        continue;
      }
      if ":" <= line {
        continue;
      }
      if "event:" <= line {
        event := event + TrimSpace(TrimPrefix(line, "event:"));
        continue;
      }
      if "data:" <= line {
        var payload := TrimPrefix(line, "data:");
        payload := TrimPrefix(payload, " ");
        if |data| > 0 {
          data := data + "\n";
        }
        data := data + payload;
        continue;
      }
    }
  }

  /** Reads from `start` to the next line feed, or to the end. */
  method ReadString(body: string, start: nat) returns (line: string, next: nat, ended: bool)
    requires start <= |body| && Scan(body[..start]).1 == ""
    ensures start <= next <= |body| && (ended ==> start < next)
    ensures ended ==> Scan(body[..next]) == (Scan(body[..start]).0 + [line], "")
    ensures !ended ==> Scan(body) == (Scan(body[..start]).0, line)
  {
    ghost var done := Scan(body[..start]).0;
    line, next, ended := "", start, false;
    while next < |body| && !ended
      invariant start <= next <= |body| && (ended ==> start < next)
      invariant Scan(body[..next]) == if ended then (done + [line], "") else (done, line)
    {
      assert body[..next + 1][..next] == body[..next];
      line, ended, next := line + [body[next]], body[next] == '\n', next + 1;
    }
    assert body[..|body|] == body;
  }

  /** The closure that ends an event. */
  method FlushTo(event: string, data: string, stdout: seq<string>, endpoint: Option<string>)
    returns (stdout': seq<string>, endpoint': Option<string>)
    ensures Parser("", "", stdout', endpoint') == Flush(Parser(event, data, stdout, endpoint))
  {
    stdout', endpoint' := stdout, endpoint;
    if |data| == 0 {
      return;
    }
    if event == "endpoint" {
      if endpoint.None? {
        endpoint' := Some(TrimSpace(data));
      }
    } else if event == "message" || event == "" {
      stdout' := stdout + [TrimSuffix(data)];
    }
  }

  method TrimEnd(line: string) returns (r: string)
    ensures r == Clean(line)
  {
    r := line;
    while r != "" && (r[|r| - 1] == '\r' || r[|r| - 1] == '\n')
      invariant Clean(r) == Clean(line)
      decreases |r|
    {
      r := r[..|r| - 1];
    }
  }

  // -------------------------------------------------------- what is written

  datatype Item = Message(payload: string, named: bool) | Endpoint(url: string)

  /** The pieces of `s` between line feeds. */
  function Split(s: string): seq<string> {
    if s == "" then [""]
    else
      var pieces := Split(s[..|s| - 1]);
      var c := s[|s| - 1];
      if c == '\n' then pieces + [""] else pieces[..|pieces| - 1] + [pieces[|pieces| - 1] + [c]]
  }

  function DataLines(pieces: seq<string>): seq<string> {
    seq(|pieces|, i requires 0 <= i < |pieces| => "data: " + pieces[i])
  }

  /** One event: its name if it has one, its data line by line, and the blank line that ends it. */
  function EventLines(name: string, pieces: seq<string>): seq<string> {
    (if name == "" then [] else ["event: " + name]) + DataLines(pieces) + [""]
  }

  function Lines(item: Item): seq<string> {
    match item
    case Message(payload, named) => EventLines(if named then "message" else "", Split(payload))
    case Endpoint(url) => EventLines("endpoint", [url])
  }

  function AllLines(items: seq<Item>): seq<string> {
    if items == [] then [] else AllLines(items[..|items| - 1]) + Lines(items[|items| - 1])
  }

  /** The text of `lines`, each ended by `eol`. */
  function Text(lines: seq<string>, eol: string): string {
    if lines == [] then "" else Text(lines[..|lines| - 1], eol) + lines[|lines| - 1] + eol
  }

  // ----------------------------------------------- one payload, line by line

  /** The data buffer after the lines of one event. */
  function Assembled(pieces: seq<string>): string {
    if pieces == [] then ""
    else
      var data := Assembled(pieces[..|pieces| - 1]);
      var piece := Clean(pieces[|pieces| - 1]);
      if data != "" then data + "\n" + piece else piece
  }

  function Join(pieces: seq<string>): string {
    if pieces == [] then ""
    else if |pieces| == 1 then pieces[0]
    else Join(pieces[..|pieces| - 1]) + "\n" + pieces[|pieces| - 1]
  }

  lemma {:induction false} PiecesOfSplit(s: string)
    ensures Split(s) != []
    ensures forall p :: p in Split(s) ==> '\n' !in p
  {
    if s != "" {
      PiecesOfSplit(s[..|s| - 1]);
      var pieces := Split(s[..|s| - 1]);
      assert pieces[|pieces| - 1] in pieces;
    }
  }

  lemma {:induction false} JoinOfSplit(s: string)
    ensures Split(s) != [] && Join(Split(s)) == s
  {
    if s != "" {
      JoinOfSplit(s[..|s| - 1]);
      var pieces := Split(s[..|s| - 1]);
      var n, c := |pieces| - 1, s[|s| - 1];
      assert s == s[..|s| - 1] + [c];
      if c == '\n' {
        assert (pieces + [""])[..|pieces|] == pieces;
      } else {
        assert (pieces[..n] + [pieces[n] + [c]])[..n] == pieces[..n];
      }
    }
  }

  lemma {:induction false} CleanShortens(s: string)
    ensures |Clean(s)| < |s| || Clean(s) == s
    ensures Clean(s) == s <==> s == "" || (s[|s| - 1] != '\r' && s[|s| - 1] != '\n')
  {
    if s != "" && (s[|s| - 1] == '\r' || s[|s| - 1] == '\n') {
      CleanShortens(s[..|s| - 1]);
    }
  }

  predicate EndsInReturn(p: string) {
    p != "" && p[|p| - 1] == '\r'
  }

  /** Assembling loses characters exactly when a line ends in a carriage return or the first is empty. */
  lemma {:induction false} AssembledLength(pieces: seq<string>)
    requires pieces != [] && forall p :: p in pieces ==> '\n' !in p
    ensures |Assembled(pieces)| <= |Join(pieces)|
    ensures |Assembled(pieces)| == |Join(pieces)| ==>
      Assembled(pieces) == Join(pieces) && forall p :: p in pieces ==> !EndsInReturn(p)
    ensures |pieces| > 1 && pieces[0] == "" ==> |Assembled(pieces)| < |Join(pieces)|
    ensures pieces[0] != "" && (forall p :: p in pieces ==> !EndsInReturn(p)) ==>
      Assembled(pieces) == Join(pieces) != ""
  {
    var n := |pieces| - 1;
    var last := pieces[n];
    CleanShortens(last);
    assert last in pieces;
    if n > 0 {
      AssembledLength(pieces[..n]);
      assert pieces == pieces[..n] + [last];
    } else {
      assert Assembled(pieces[..0]) == "";
    }
  }

  /** The payloads that one event carries unchanged. */
  predicate Faithful(payload: string) {
    && payload != ""
    && Split(payload)[0] != ""
    && payload[|payload| - 1] != '\n'
    && forall p :: p in Split(payload) ==> !EndsInReturn(p)
  }

  // --------------------------------------------------------- feeding lines

  lemma {:induction false} FeedConcat(p: Parser, a: seq<string>, b: seq<string>)
    ensures Feed(p, a + b) == Feed(Feed(p, a), b)
  {
    if b == [] {
      assert a + b == a;
    } else {
      FeedConcat(p, a, b[..|b| - 1]);
      assert (a + b)[..|a + b| - 1] == a + b[..|b| - 1];
    }
  }

  lemma {:induction false} CleanAfter(a: string, b: string)
    requires a != "" && a[|a| - 1] != '\r' && a[|a| - 1] != '\n'
    ensures Clean(a + b) == a + Clean(b)
  {
    if b == "" {
      assert a + b == a;
    } else {
      CleanAfter(a, b[..|b| - 1]);
      assert (a + b)[..|a + b| - 1] == a + b[..|b| - 1];
    }
  }

  predicate IsEol(eol: string) {
    eol == "\n" || eol == "\r\n"
  }

  function Ended(lines: seq<string>, eol: string): seq<string> {
    seq(|lines|, i requires 0 <= i < |lines| => lines[i] + eol)
  }

  lemma CleanEol(line: string, eol: string)
    requires IsEol(eol)
    ensures Clean(line + eol) == Clean(line)
  {
    assert (line + eol)[..|line + eol| - 1] == line + eol[..|eol| - 1];
    if eol == "\n" {
      assert line + eol[..|eol| - 1] == line;
    } else {
      assert (line + "\r")[..|line|] == line;
    }
  }

  lemma {:induction false} FeedEnded(p: Parser, lines: seq<string>, eol: string)
    requires IsEol(eol)
    ensures Feed(p, Ended(lines, eol)) == Feed(p, lines)
  {
    if lines != [] {
      var n := |lines| - 1;
      FeedEnded(p, lines[..n], eol);
      CleanEol(lines[n], eol);
      assert Ended(lines, eol)[..n] == Ended(lines[..n], eol);
    }
  }

  lemma {:induction false} ScanAppend(body: string, line: string)
    requires '\n' !in line
    ensures Scan(body + line) == (Scan(body).0, Scan(body).1 + line)
  {
    if line == "" {
      assert body + line == body && Scan(body).1 + line == Scan(body).1;
    } else {
      ScanAppend(body, line[..|line| - 1]);
      assert line[|line| - 1] in line && line == line[..|line| - 1] + [line[|line| - 1]];
      assert (body + line)[..|body + line| - 1] == body + line[..|line| - 1];
      assert Scan(body).1 + line[..|line| - 1] + [line[|line| - 1]] == Scan(body).1 + line;
    }
  }

  /** Reading finds the lines that were written. */
  lemma {:induction false} ScanText(lines: seq<string>, eol: string)
    requires IsEol(eol) && forall l :: l in lines ==> '\n' !in l
    ensures Scan(Text(lines, eol)) == (Ended(lines, eol), "")
  {
    if lines == [] {
      assert Ended(lines, eol) == [];
    } else {
      var n := |lines| - 1;
      ScanText(lines[..n], eol);
      ScanLine(Text(lines[..n], eol), lines[n], eol);
      assert Ended(lines, eol) == Ended(lines[..n], eol) + [lines[n] + eol];
    }
  }

  lemma ScanLine(front: string, line: string, eol: string)
    requires IsEol(eol) && '\n' !in line && Scan(front).1 == ""
    ensures Scan(front + line + eol) == (Scan(front).0 + [line + eol], "")
  {
    hide Scan;
    if eol == "\n" {
      ScanRaw(front, line);
    } else {
      Regroup(front, line, "\r", "\n");
      Regroup("", line, "\r", "\n");
      assert eol == "\r" + "\n";
      ScanRaw(front, line + "\r");
    }
  }

  lemma ScanRaw(front: string, raw: string)
    requires '\n' !in raw && Scan(front).1 == ""
    ensures Scan(front + raw + "\n") == (Scan(front).0 + [raw + "\n"], "")
  {
    ScanAppend(front, raw);
    ScanEnd(front + raw);
    hide Scan;
    assert "" + raw == raw;
  }

  lemma Regroup(a: string, b: string, c: string, d: string)
    ensures a + b + (c + d) == a + (b + c) + d && "" + b + (c + d) == b + (c + d) && "" + (b + c) == b + c
  {
  }

  lemma ScanEnd(body: string)
    ensures Scan(body + "\n") == (Scan(body).0 + [Scan(body).1 + "\n"], "")
  {
    assert (body + "\n")[..|body|] == body;
  }

  // ------------------------------------------------------------ main results

  /** A comment, or a field the reader does not know. */
  predicate Ignorable(line: string) {
    var l := Clean(line);
    l != "" && (":" <= l || !("event:" <= l || "data:" <= l))
  }

  function Denoise(lines: seq<string>): seq<string> {
    if lines == [] then []
    else
      var last := lines[|lines| - 1];
      Denoise(lines[..|lines| - 1]) + (if Ignorable(last) then [] else [last])
  }

  /** Comments and unknown fields change nothing, wherever they stand. */
  lemma {:induction false} NoiseIgnored(p: Parser, lines: seq<string>)
    ensures Feed(p, lines) == Feed(p, Denoise(lines))
  {
    if lines != [] {
      var n := |lines| - 1;
      NoiseIgnored(p, lines[..n]);
      if Ignorable(lines[n]) {
        assert Denoise(lines) == Denoise(lines[..n]);
      } else {
        assert (Denoise(lines[..n]) + [lines[n]])[..|Denoise(lines[..n])|] == Denoise(lines[..n]);
      }
    }
  }

  /** What was printed stays printed, and an endpoint once delivered is never replaced. */
  lemma {:induction false} OnlyFirstEndpoint(p: Parser, lines: seq<string>)
    ensures p.out <= Feed(p, lines).out
    ensures p.endpoint.Some? ==> Feed(p, lines).endpoint == p.endpoint
  {
    if lines != [] {
      OnlyFirstEndpoint(p, lines[..|lines| - 1]);
    }
  }

  lemma BlankFed(p: Parser, lines: seq<string>)
    ensures Feed(p, lines + [""]) == Flush(Feed(p, lines))
  {
    assert (lines + [""])[..|lines|] == lines;
  }

  lemma OneFed(p: Parser, line: string)
    ensures Feed(p, [line]) == Accept(p, Clean(line))
  {
    assert [line][..0] == [];
  }

  lemma DataLine(p: Parser, piece: string)
    ensures Accept(p, Clean("data: " + piece))
         == p.(data := if p.data != "" then p.data + "\n" + Clean(piece) else Clean(piece))
  {
    CleanAfter("data: ", piece);
    DataPayload(Clean(piece));
    hide Clean, TrimPrefix;
  }

  lemma DataPayload(payload: string)
    ensures
      var line := "data: " + payload;
      && line != "" && !(":" <= line) && !("event:" <= line) && "data:" <= line
      && TrimPrefix(TrimPrefix(line, "data:"), " ") == payload
  {
    var line := "data: " + payload;
    assert line[0] == 'd' && line[1] == 'a';
    assert line[..5] == "data:" && line[5..] == " " + payload;
    assert (" " + payload)[1..] == payload;
  }

  lemma {:induction false} DataFed(p: Parser, pieces: seq<string>)
    requires p.data == ""
    ensures Feed(p, DataLines(pieces)) == p.(data := Assembled(pieces))
  {
    if pieces != [] {
      var n := |pieces| - 1;
      DataFed(p, pieces[..n]);
      assert DataLines(pieces)[..n] == DataLines(pieces[..n]);
      DataLine(p.(data := Assembled(pieces[..n])), pieces[n]);
    }
  }

  lemma EventLine(p: Parser, name: string)
    requires p.event == "" && (name == "message" || name == "endpoint")
    ensures Feed(p, ["event: " + name]) == p.(event := name)
  {
    var line := "event: " + name;
    assert Clean(line) == line;
    NameTrimmed(name);
    EventName(name);
    hide Clean, TrimPrefix, TrimSpace;
    OneFed(p, line);
  }

  lemma NameTrimmed(name: string)
    requires name == "message" || name == "endpoint"
    ensures TrimSpace(" " + name) == name
  {
    assert (" " + name)[|name|] == name[|name| - 1];
    assert (" " + name)[1..] == name && TrimLeft(name) == name;
  }

  lemma EventName(name: string)
    ensures
      var line := "event: " + name;
      line != "" && !(":" <= line) && "event:" <= line && TrimPrefix(line, "event:") == " " + name
  {
    var line := "event: " + name;
    assert line[0] == 'e';
    assert line[..6] == "event:" && line[6..] == " " + name;
  }

  /** An event collects its name and its data, and its blank line ends it. */
  lemma EventFed(p: Parser, name: string, pieces: seq<string>)
    requires p.event == "" && p.data == "" && name in {"", "message", "endpoint"}
    ensures Feed(p, EventLines(name, pieces)) == Flush(p.(event := name, data := Assembled(pieces)))
  {
    var head, body := if name == "" then [] else ["event: " + name], DataLines(pieces);
    if name != "" {
      EventLine(p, name);
    }
    FeedConcat(p, head, body);
    DataFed(p.(event := name), pieces);
    BlankFed(p, head + body);
  }

  /** What one event prints: its assembled data, less one final line feed. */
  lemma MessageFed(p: Parser, payload: string, named: bool)
    requires p.event == "" && p.data == ""
    ensures Feed(p, Lines(Message(payload, named))) ==
      var data := Assembled(Split(payload));
      if data == "" then p else p.(out := p.out + [TrimSuffix(data)])
  {
    var name := if named then "message" else "";
    EventFed(p, name, Split(payload));
    MessageFlushed(p, Assembled(Split(payload)), name);
  }

  lemma MessageFlushed(p: Parser, data: string, name: string)
    requires p.event == "" && p.data == "" && (name == "message" || name == "")
    ensures Flush(p.(event := name, data := data)) == if data == "" then p else p.(out := p.out + [TrimSuffix(data)])
  {
    assert "message"[0] != "endpoint"[0];
  }

  lemma AssembledFaithfully(payload: string)
    ensures Assembled(Split(payload)) != "" && TrimSuffix(Assembled(Split(payload))) == payload <==> Faithful(payload)
  {
    var pieces := Split(payload);
    var data := Assembled(pieces);
    PiecesOfSplit(payload);
    JoinOfSplit(payload);
    AssembledLength(pieces);
    if data != "" && TrimSuffix(data) == payload {
      assert |data| == |payload|;
      if |pieces| == 1 {
        assert pieces[0] == payload;
      }
      assert pieces[0] != "";
    }
  }

  /** One message comes out unchanged exactly when its first line is not empty, no line ends
      in a carriage return, and it does not end in a line feed. */
  lemma MessageUnchanged(payload: string, named: bool)
    ensures Feed(START, Lines(Message(payload, named))).out == [payload] <==> Faithful(payload)
  {
    MessageFed(START, payload, named);
    AssembledFaithfully(payload);
    assert [] + [TrimSuffix(Assembled(Split(payload)))] == [TrimSuffix(Assembled(Split(payload)))];
  }

  lemma {:induction false} TrimOfClean(s: string)
    ensures TrimSpace(Clean(s)) == TrimSpace(s)
  {
    if s != "" && (s[|s| - 1] == '\r' || s[|s| - 1] == '\n') {
      TrimOfClean(s[..|s| - 1]);
    }
  }

  lemma EndpointFed(p: Parser, url: string)
    requires p.event == "" && p.data == "" && Clean(url) != ""
    ensures Feed(p, Lines(Endpoint(url))) == p.(endpoint := if p.endpoint.None? then Some(TrimSpace(url)) else p.endpoint)
  {
    EventFed(p, "endpoint", [url]);
    assert [url][..0] == [] && Assembled([url]) == Clean(url);
    TrimOfClean(url);
  }

  predicate Sound(item: Item) {
    match item
    case Message(payload, _) => Faithful(payload)
    case Endpoint(url) => Clean(url) != ""
  }

  function Payloads(items: seq<Item>): seq<string> {
    if items == [] then []
    else
      var last := items[|items| - 1];
      Payloads(items[..|items| - 1]) + (if last.Message? then [last.payload] else [])
  }

  function FirstEndpoint(items: seq<Item>): Option<string> {
    if items == [] then None
    else
      var first, last := FirstEndpoint(items[..|items| - 1]), items[|items| - 1];
      if first.None? && last.Endpoint? then Some(TrimSpace(last.url)) else first
  }

  lemma {:induction false} ItemsFed(items: seq<Item>)
    requires forall i :: i in items ==> Sound(i)
    ensures Feed(START, AllLines(items)) == Parser("", "", Payloads(items), FirstEndpoint(items))
  {
    if items != [] {
      var n := |items| - 1;
      ItemsFed(items[..n]);
      var p := Parser("", "", Payloads(items[..n]), FirstEndpoint(items[..n]));
      FeedConcat(START, AllLines(items[..n]), Lines(items[n]));
      assert items[n] in items;
      match items[n] {
        case Message(payload, named) =>
          MessageFed(p, payload, named);
          AssembledFaithfully(payload);
        case Endpoint(url) =>
          EndpointFed(p, url);
      }
    }
  }

  /** Round trip: whatever noise is mixed in and however lines end, a stream of sound events
      prints exactly the payloads in order and delivers the first endpoint. */
  lemma RoundTrip(items: seq<Item>, lines: seq<string>, eol: string, tail: string)
    requires forall i :: i in items ==> Sound(i)
    requires Denoise(lines) == AllLines(items)
    requires IsEol(eol) && '\n' !in tail && forall l :: l in lines ==> '\n' !in l
    ensures Read(Text(lines, eol) + tail).out == Payloads(items)
    ensures Read(Text(lines, eol) + tail).endpoint == FirstEndpoint(items)
  {
    ScanText(lines, eol);
    ScanAppend(Text(lines, eol), tail);
    FeedEnded(START, lines, eol);
    NoiseIgnored(START, lines);
    ItemsFed(items);
  }
}
