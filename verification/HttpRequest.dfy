/** Whole HTTP requests: a text made of a method, a path, headers and a body, and the request that the
    parser makes of it. */
module HttpRequests {
  import opened Commons
  import opened HttpParsers
  import J = Jsons

  /** A header as it is sent: spaces may stand before the colon and before the value. */
  datatype Field = Field(key: string, gap: nat, lead: nat, value: string)

  /** Request line and headers. `verb` is the method's name in any case, `version` all behind the path. */
  datatype Head = Head(verb: string, path: string, version: string, fields: seq<Field>)

  function Spaces(n: nat): (s: string)
    ensures |s| == n && forall i :: 0 <= i < n ==> s[i] == ' '
  {
    seq(n, _ => ' ')
  }

  function FieldLine(h: Field): string { h.key + Spaces(h.gap) + ":" + Spaces(h.lead) + h.value }

  function RequestLine(h: Head): string { h.verb + " " + h.path + " " + h.version }

  /** The lines of the headers in front of `rest`. */
  function FieldsText(fields: seq<Field>, rest: string): string {
    if fields == [] then rest else FieldLine(fields[0]) + "\r\n" + FieldsText(fields[1..], rest)
  }

  /** The lines of a head that goes on with `rest`. */
  function LinesText(h: Head, rest: string): string { RequestLine(h) + "\r\n" + FieldsText(h.fields, rest) }

  /** A head, the empty line that ends it, and what is behind. */
  function HeadText(h: Head, after: string): string { LinesText(h, "" + "\r\n" + after) }

  // ---- what is well formed ----

  predicate Without(s: string, c: char) { forall i :: 0 <= i < |s| ==> s[i] != c }

  /** No line end inside. */
  predicate OneLine(s: string) { forall i :: 0 <= i < |s| - 1 ==> !(s[i] == '\r' && s[i + 1] == '\n') }

  predicate GoodField(h: Field) {
    && h.key != "" && Without(h.key, ':') && (|h.key| > 1 ==> h.key[|h.key| - 1] != ' ')
    && (h.value != "" ==> h.value[0] != ' ')
  }

  /** The names of the methods. */
  function NameOf(m: Method): string {
    match m
    case Get => "get"
    case Post => "post"
    case Put => "put"
    case Delete => "delete"
    case Unset => ""
  }

  /** A method in any case, up to a NUL if there is one, and two blanks. */
  predicate ProperLine(h: Head, m: Method) {
    Shaped(h) && m != Unset && LowerAll(CStr(h.verb)) == NameOf(m)
  }

  /** The first two blanks of the line are around the path, and it is not too short. */
  predicate Shaped(h: Head) { Without(h.verb, ' ') && Without(h.path, ' ') && |RequestLine(h)| >= 14 }

  predicate GoodHead(h: Head, m: Method) {
    && ProperLine(h, m) && OneLine(RequestLine(h))
    && forall i :: 0 <= i < |h.fields| ==> GoodField(h.fields[i]) && OneLine(FieldLine(h.fields[i]))
  }

  /** The headers as the application sees them, on top of `m`: by the key in lower case, and the last value
      of a key counts. */
  function Collected(m: map<string, string>, fields: seq<Field>): map<string, string>
    decreases |fields|
  {
    if fields == [] then m else Collected(m[LowerAll(fields[0].key) := fields[0].value], fields[1..])
  }

  /** A body of the announced length, one in chunks, or none because of a transfer encoding that the parser
      does not know, in which case it ignores a length too. */
  datatype Body = Plain(data: string) | Chunked(chunks: seq<string>) | Unread

  function BodyText(b: Body): string {
    match b case Plain(data) => data case Chunked(chunks) => Encode(chunks) case Unread => ""
  }

  function BodyData(b: Body): string {
    match b case Plain(data) => data case Chunked(chunks) => Concat(chunks) case Unread => ""
  }

  /** What the parser leaves of the body. */
  function BodyLeft(b: Body): string { if b.Chunked? then LastChunk() else "" }

  /** The headers announce the body. */
  predicate Announced(m: map<string, string>, b: Body) {
    var encoding, length := ValueOf(m, "transfer-encoding"), ValueOf(m, "content-length");
    match b
    case Plain(data) =>
      && encoding == "" && |data| < 0x8000_0000
      && (if length == "" then data == "" else length == J.Decimal(|data|))
    case Chunked(chunks) => LowerAll(encoding) == "chunked" && Encodable(chunks)
    case Unread => encoding != "" && Without(encoding, '\0') && LowerAll(encoding) != "chunked"
  }

  function ValueOf(m: map<string, string>, key: string): string { if key in m then m[key] else "" }

  /** Letters lose their case and nothing else changes. */
  lemma LowerIs(c: char)
    ensures var upper, lower := "ABCDEFGHIJKLMNOPQRSTUVWXYZ", "abcdefghijklmnopqrstuvwxyz";
            (forall i :: 0 <= i < 26 ==> Lower(upper[i]) == lower[i]) && (c !in upper ==> Lower(c) == c)
  {
    var upper := "ABCDEFGHIJKLMNOPQRSTUVWXYZ";
    if 'A' <= c <= 'Z' {
      assert upper[(c - 'A') as int] == c;
    }
  }

  // ---- one line ----

  lemma LineFound(line: string, after: string)
    requires OneLine(line)
    ensures var c := line + "\r\n" + after;
            LineEnd(c) == |line| < |c| && c[..|line|] == line && c[|line| + 2..] == after
  {
    var c := line + "\r\n" + after;
    assert c[|line|] == '\r' && c[|line| + 1] == '\n';
    assert forall i :: 0 <= i < |line| ==> c[i] == line[i];
  }

  /** The name of a method is recognised in any case, and nothing else is. */
  lemma VerbReads(verb: string, m: Method)
    ensures MethodOf(verb) == m && m != Unset <==> LowerAll(CStr(verb)) == NameOf(m) && m != Unset
  {
    WholeNames();
  }

  lemma WholeNames()
    ensures LowerAll(CStr("GET")) == "get" && LowerAll(CStr("POST")) == "post"
    ensures LowerAll(CStr("PUT")) == "put" && LowerAll(CStr("DELETE")) == "delete"
  {
    WholeCStr("GET");
    WholeCStr("POST");
    WholeCStr("PUT");
    WholeCStr("DELETE");
  }

  lemma LineSlices(h: Head)
    ensures var line := RequestLine(h); var a := |h.verb|; var b := a + 1 + |h.path|;
            && a < b < |line| && line[..a] == h.verb && line[a + 1..b] == h.path && line[a] == ' ' && line[b] == ' '
            && (forall i :: 0 <= i < a ==> line[i] == h.verb[i]) && (forall i :: a < i < b ==> line[i] == h.path[i - a - 1])
  {
    assert RequestLine(h) == h.verb + (" " + (h.path + (" " + h.version)));
  }

  lemma LineAt(h: Head)
    requires Without(h.verb, ' ') && Without(h.path, ' ')
    ensures var line := RequestLine(h); var a := |h.verb|; var b := a + 1 + |h.path|;
            && a < b < |line| && line[..a] == h.verb && line[a + 1..b] == h.path
            && IndexOf(line, ' ', 0) == a && IndexOf(line, ' ', a + 1) == b
  {
    LineSlices(h);
    SpacesOf(RequestLine(h), |h.verb|, |h.verb| + 1 + |h.path|);
  }

  /** The name of a method is not how a response begins. */
  lemma VerbIsNoResponse(h: Head, m: Method)
    requires ProperLine(h, m)
    ensures LowerAll(CStr(RequestLine(h)[..7])) != "http/1."
  {
    var s, name := RequestLine(h)[..7], CStr(h.verb);
    assert LowerAll(name)[0] == NameOf(m)[0];
    assert name[0] == h.verb[0] == s[0];
    assert CStr(s) == "" || CStr(s)[0] == s[0];
  }

  lemma ResponseName()
    ensures LowerAll(CStr("HTTP/1.")) == "http/1."
  {
    WholeCStr("HTTP/1.");
  }

  /** What a line with two blanks is read as: the beginning of a response is no request, an unknown method
      is refused with the request made so far, and all others are accepted with method and path. */
  lemma ShapedLineReads(h: Head)
    requires Shaped(h)
    ensures OnFirstLine(0, RequestLine(h))
         == if LowerAll(CStr(RequestLine(h)[..7])) == "http/1." then Reject(None)
            else if MethodOf(h.verb) == Unset then Reject(Some(Request(Unset, h.path, map[], "")))
            else Accept(Headers, 0, Request(MethodOf(h.verb), h.path, map[], ""))
  {
    ResponseName();
    if LowerAll(CStr(RequestLine(h)[..7])) == "http/1." {
      ResponseIsNone(RequestLine(h));
    } else {
      ShapedIs(h);
    }
  }

  lemma ResponseIsNone(line: string)
    requires |line| >= 14 && SameIgnoringCase("HTTP/1.", line[..7])
    ensures RequestOf(line) == None
  {
  }

  lemma ShapedIs(h: Head)
    requires Shaped(h) && !SameIgnoringCase("HTTP/1.", RequestLine(h)[..7])
    ensures RequestOf(RequestLine(h)) == Some(Request(MethodOf(h.verb), h.path, map[], ""))
  {
    LineAt(h);
    RequestIs(RequestLine(h), |h.verb|, |h.verb| + 1 + |h.path|);
  }

  /** The request line is read as its method and its path. */
  lemma LineReads(h: Head, m: Method)
    requires ProperLine(h, m)
    ensures OnFirstLine(0, RequestLine(h)) == Accept(Headers, 0, Request(m, h.path, map[], ""))
  {
    VerbReads(h.verb, m);
    VerbIsNoResponse(h, m);
    ShapedLineReads(h);
  }

  /** A line of fewer than 14 bytes, or without two blanks, is no request. */
  lemma UnshapedLineReads(line: string)
    requires forall h: Head :: Shaped(h) ==> RequestLine(h) != line
    ensures OnFirstLine(0, line) == Reject(None)
  {
    var a := IndexOf(line, ' ', 0);
    if |line| >= 14 && a < |line| {
      var b := IndexOf(line, ' ', a + 1);
      if b < |line| {
        assert Shaped(SplitLine(line, a, b));
      }
    }
  }

  /** The parts of a line around two blanks. */
  function SplitLine(line: string, a: nat, b: nat): (h: Head)
    requires a < b < |line| && line[a] == ' ' && line[b] == ' '
    ensures RequestLine(h) == line
  {
    Around(line, a, b);
    Head(line[..a], line[a + 1..b], line[b + 1..], [])
  }

  lemma Around(line: string, a: nat, b: nat)
    requires a < b < |line| && line[a] == ' ' && line[b] == ' '
    ensures line[..a] + " " + line[a + 1..b] + " " + line[b + 1..] == line
  {
  }

  /** So a request line is accepted if and only if it is a good one. */
  lemma AcceptedLine(line: string)
    ensures OnFirstLine(0, line).Accept? <==> exists h: Head, m :: ProperLine(h, m) && RequestLine(h) == line
  {
    if exists h: Head, m :: ProperLine(h, m) && RequestLine(h) == line {
      var h: Head, m :| ProperLine(h, m) && RequestLine(h) == line;
      LineReads(h, m);
    }
    if OnFirstLine(0, line).Accept? {
      if forall h: Head :: Shaped(h) ==> RequestLine(h) != line {
        UnshapedLineReads(line);
      } else {
        var h: Head :| Shaped(h) && RequestLine(h) == line;
        ShapedLineReads(h);
        VerbReads(h.verb, MethodOf(h.verb));
        assert ProperLine(h, MethodOf(h.verb));
      }
    }
  }

  lemma FieldAt(h: Field)
    requires GoodField(h)
    ensures var line := FieldLine(h); var mid := |h.key| + h.gap;
            && mid < |line| && IndexOf(line, ':', 0) == mid
            && line[..mid] == h.key + Spaces(h.gap) && line[mid + 1..] == Spaces(h.lead) + h.value
  {
    var line := FieldLine(h);
    var mid := |h.key| + h.gap;
    assert line == (h.key + Spaces(h.gap)) + (":" + (Spaces(h.lead) + h.value));
    assert forall i :: 0 <= i < mid ==> line[i] == (h.key + Spaces(h.gap))[i];
    IndexIs(line, ':', 0, mid);
  }

  lemma {:induction false} TrimsRight(s: string, n: nat, i: nat)
    requires s != "" && (|s| > 1 ==> s[|s| - 1] != ' ') && |s| - 1 <= i < |s| + n
    ensures LastNonSpace(s + Spaces(n), i) == |s| - 1
    decreases i
  {
    if i >= |s| {
      TrimsRight(s, n, i - 1);
    }
  }

  lemma {:induction false} TrimsLeft(n: nat, s: string)
    requires s != "" ==> s[0] != ' '
    ensures LeadingSpaces(Spaces(n) + s) == n && (Spaces(n) + s)[n..] == s
  {
    if n > 0 {
      TrimsLeft(n - 1, s);
      assert (Spaces(n) + s)[1..] == Spaces(n - 1) + s;
    }
  }

  /** A header is read as its key in lower case and its value. */
  lemma FieldReads(h: Field)
    requires GoodField(h)
    ensures HeaderOf(FieldLine(h)) == Some((LowerAll(h.key), h.value)) && FieldLine(h) != ""
  {
    var key := h.key + Spaces(h.gap);
    FieldAt(h);
    TrimsRight(h.key, h.gap, |key| - 1);
    TrimsLeft(h.lead, h.value);
    assert key[..|h.key|] == h.key;
  }

  lemma SpacesBetween(s: string, n: nat)
    requires n <= |s| && forall i :: n <= i < |s| ==> s[i] == ' '
    ensures s == s[..n] + Spaces(|s| - n)
  {
  }

  /** A header line is accepted if and only if it is a good one: it has a colon, and not in front. */
  lemma AcceptedField(line: string)
    ensures HeaderOf(line).Some? <==> exists h: Field :: GoodField(h) && FieldLine(h) == line
  {
    if exists h: Field :: GoodField(h) && FieldLine(h) == line {
      var h: Field :| GoodField(h) && FieldLine(h) == line;
      FieldReads(h);
    }
    if HeaderOf(line).Some? {
      var h := FieldOf(line);
      assert GoodField(h) && FieldLine(h) == line;
    }
  }

  /** The parts of a line with a colon. */
  lemma FieldOf(line: string) returns (h: Field)
    requires HeaderOf(line).Some?
    ensures GoodField(h) && FieldLine(h) == line
  {
    var mid := IndexOf(line, ':', 0);
    var key, value := line[..mid], line[mid + 1..];
    var k, n := LastNonSpace(key, mid - 1) + 1, LeadingSpaces(value);
    h := Field(key[..k], mid - k, n, value[n..]);
    SpacesBetween(key, k);
    SpacesInFront(value, n);
    Regroup(line, mid, key[..k], Spaces(mid - k), Spaces(n), value[n..]);
  }

  lemma SpacesInFront(s: string, n: nat)
    requires n <= |s| && forall i :: 0 <= i < n ==> s[i] == ' '
    ensures s == Spaces(n) + s[n..]
  {
  }

  lemma Regroup(line: string, mid: nat, a: string, b: string, c: string, d: string)
    requires mid < |line| && line[mid] == ':' && line[..mid] == a + b && line[mid + 1..] == c + d
    ensures a + b + ":" + c + d == line
  {
    assert line == line[..mid] + ":" + line[mid + 1..];
    assert (a + b) + ":" + (c + d) == a + b + ":" + c + d;
  }

  // ---- the head ----

  /** One line taken: the rest decides, and it fits if the line does. */
  lemma Takes(s: State, s': State)
    requires HttpParsers.Valid(s) && Step(HTTP, s) == Next(s') && s.phase != LengthBody
    ensures HttpParsers.Valid(s') && Drive(HTTP, s) == Drive(HTTP, s')
    ensures LineEnd(s.cache) < Limit(s.phase) && Fits(HTTP, s') ==> Fits(HTTP, s)
  {
  }

  lemma FieldStep(h: Field, more: string, r: Request)
    requires GoodField(h) && OneLine(FieldLine(h))
    ensures var s := State(Headers, FieldLine(h) + "\r\n" + more, 0, Some(r));
            && Step(HTTP, s) == Next(State(Headers, more, 0, Some(r.(headers := r.headers[LowerAll(h.key) := h.value]))))
            && LineEnd(s.cache) == |FieldLine(h)|
  {
    var s := State(Headers, FieldLine(h) + "\r\n" + more, 0, Some(r));
    FieldReads(h);
    LineFound(FieldLine(h), more);
    LineStep(HTTP, s);
  }

  /** All lines of the head are shorter than the limit. */
  predicate Short(fields: seq<Field>) { forall i :: 0 <= i < |fields| ==> |FieldLine(fields[i])| < 1024 }

  /** The headers are collected one after the other. */
  lemma {:induction false} FieldsRead(fields: seq<Field>, rest: string, r: Request)
    requires forall i :: 0 <= i < |fields| ==> GoodField(fields[i]) && OneLine(FieldLine(fields[i]))
    ensures var s := State(Headers, FieldsText(fields, rest), 0, Some(r));
            var s' := State(Headers, rest, 0, Some(r.(headers := Collected(r.headers, fields))));
            Drive(HTTP, s) == Drive(HTTP, s') && (Short(fields) && Fits(HTTP, s') ==> Fits(HTTP, s))
    decreases |fields|
  {
    if fields != [] {
      var h, more := fields[0], FieldsText(fields[1..], rest);
      var r' := r.(headers := r.headers[LowerAll(h.key) := h.value]);
      FieldStep(h, more, r);
      Takes(State(Headers, FieldLine(h) + "\r\n" + more, 0, Some(r)), State(Headers, more, 0, Some(r')));
      FieldsRead(fields[1..], rest, r');
    }
  }

  lemma EmptyStep(after: string, r: Request, phase: Phase, length: nat)
    requires EndOfHeaders(r, 0) == Accept(phase, length, r)
    ensures var s := State(Headers, "" + "\r\n" + after, 0, Some(r));
            Step(HTTP, s) == Next(State(phase, after, length, Some(r))) && LineEnd(s.cache) == 0
  {
    LineFound("", after);
    LineStep(HTTP, State(Headers, "" + "\r\n" + after, 0, Some(r)));
  }

  lemma FirstLineStep(h: Head, m: Method, more: string)
    requires GoodHead(h, m)
    ensures var s := INITIAL.(cache := RequestLine(h) + "\r\n" + more);
            && Step(HTTP, s) == Next(State(Headers, more, 0, Some(Request(m, h.path, map[], ""))))
            && LineEnd(s.cache) == |RequestLine(h)|
  {
    LineReads(h, m);
    LineFound(RequestLine(h), more);
    FirstStep(HTTP, INITIAL.(cache := RequestLine(h) + "\r\n" + more), |RequestLine(h)|, Request(m, h.path, map[], ""));
  }

  /** The request that the head alone makes. */
  function HeadOf(h: Head, m: Method): Request { Request(m, h.path, Collected(map[], h.fields), "") }

  predicate ShortHead(h: Head) { |RequestLine(h)| < 1024 && Short(h.fields) }

  /** The lines of the head are taken one after the other. */
  lemma LinesRead(h: Head, m: Method, rest: string)
    requires GoodHead(h, m)
    ensures var s := INITIAL.(cache := LinesText(h, rest)); var s' := State(Headers, rest, 0, Some(HeadOf(h, m)));
            Drive(HTTP, s) == Drive(HTTP, s') && (ShortHead(h) && Fits(HTTP, s') ==> Fits(HTTP, s))
  {
    var r := Request(m, h.path, map[], "");
    var more := FieldsText(h.fields, rest);
    FirstLineStep(h, m, more);
    Takes(INITIAL.(cache := LinesText(h, rest)), State(Headers, more, 0, Some(r)));
    FieldsRead(h.fields, rest, r);
  }

  /** The head brings a new parser to the body, with the method, path and headers sent. */
  lemma HeadReads(h: Head, m: Method, after: string, phase: Phase, length: nat)
    requires GoodHead(h, m) && EndOfHeaders(HeadOf(h, m), 0) == Accept(phase, length, HeadOf(h, m))
    ensures var s := INITIAL.(cache := HeadText(h, after)); var s' := State(phase, after, length, Some(HeadOf(h, m)));
            Drive(HTTP, s) == Drive(HTTP, s') && (ShortHead(h) && Fits(HTTP, s') ==> Fits(HTTP, s))
  {
    LinesRead(h, m, "" + "\r\n" + after);
    EmptyStep(after, HeadOf(h, m), phase, length);
    Takes(State(Headers, "" + "\r\n" + after, 0, Some(HeadOf(h, m))), State(phase, after, length, Some(HeadOf(h, m))));
  }

  /** A line that ends a parse at once. */
  lemma BadLineStops(s: State, line: string, after: string, left: Option<Request>)
    requires HttpParsers.Valid(s) && (s.phase == FirstLine || s.phase == Headers) && OneLine(line) && s.cache == line + "\r\n" + after
    requires (if s.phase == FirstLine then OnFirstLine(s.length, line) else OnHeaderLine(s.req.value, s.length, line)) == Reject(left)
    ensures Drive(HTTP, s).0 == Bad && Drive(HTTP, s).1.req == (if left.Some? then left else s.req)
  {
    LineFound(line, after);
    LineStep(HTTP, s);
  }

  /** A text whose first line is no request line fails, however it is cut. */
  lemma BadRequestLine(line: string, after: string, cuts: seq<string>)
    requires OneLine(line) && (forall h: Head, m :: ProperLine(h, m) ==> RequestLine(h) != line)
    requires Concat(cuts) == line + "\r\n" + after
    ensures Answer(FeedAll(HTTP, INITIAL, cuts).0) == Failure
  {
    AcceptedLine(line);
    var left := OnFirstLine(0, line).left;
    EmptyPlus(INITIAL, Concat(cuts));
    BadLineStops(INITIAL.(cache := Concat(cuts)), line, after, left);
    FitsOrFailsAgrees(HTTP, Concat(cuts), cuts);
  }

  /** So does one with a good head and then a line that is no header. */
  lemma BadHeaderLine(h: Head, m: Method, line: string, after: string, cuts: seq<string>)
    requires GoodHead(h, m) && OneLine(line) && line != "" && (forall f: Field :: GoodField(f) ==> FieldLine(f) != line)
    requires Concat(cuts) == LinesText(h, line + "\r\n" + after)
    ensures Answer(FeedAll(HTTP, INITIAL, cuts).0) == Failure
  {
    AcceptedField(line);
    LinesRead(h, m, line + "\r\n" + after);
    EmptyPlus(INITIAL, Concat(cuts));
    BadLineStops(State(Headers, line + "\r\n" + after, 0, Some(HeadOf(h, m))), line, after, Some(HeadOf(h, m)));
    FitsOrFailsAgrees(HTTP, Concat(cuts), cuts);
  }

  // ---- the body ----

  lemma {:induction false} DecimalSnoc(a: string, c: char, acc: nat)
    requires forall i :: 0 <= i < |a| ==> DigitValue(a[i]) < 10
    requires DigitValue(c) < 10
    ensures Digits(a + [c], 10, acc) == 10 * Digits(a, 10, acc) + DigitValue(c)
    decreases |a|
  {
    if a == "" {
      assert (a + [c])[1..] == "";
    } else {
      DecimalSnoc(a[1..], c, 10 * acc + DigitValue(a[0]));
      assert (a + [c])[1..] == a[1..] + [c];
    }
  }

  lemma {:induction false} DecimalDigits(n: nat)
    ensures Digits(J.Decimal(n), 10, 0) == n && forall i :: 0 <= i < |J.Decimal(n)| ==> '0' <= J.Decimal(n)[i] <= '9'
  {
    var s := J.Decimal(n);
    if n < 10 {
      assert s[1..] == "";
    } else {
      DecimalDigits(n / 10);
      DecimalSnoc(J.Decimal(n / 10), J.DigitChar(n % 10), 0);
    }
  }

  /** A length written in decimal is read back. */
  lemma LengthReads(n: nat)
    requires n < 0x8000_0000
    ensures ToSize(StrToL(J.Decimal(n), 10)) == n
  {
    var s := J.Decimal(n);
    DecimalDigits(n);
    WholeCStr(s);
    assert SkipSpaces(s) == s;
  }

  /** The phase that the announced body is read in. */
  lemma AnnouncedPhase(r: Request, b: Body)
    requires Announced(r.headers, b)
    ensures EndOfHeaders(r, 0) == Accept(if b.Chunked? then ChunkBody else LengthBody, if b.Plain? then |b.data| else 0, r)
  {
    var encoding := ValueOf(r.headers, "transfer-encoding");
    if b.Plain? {
      LengthReads(|b.data|);
    } else {
      if b.Chunked? {
        assert forall i :: 0 <= i < |encoding| ==> Lower(encoding[i]) == "chunked"[i];
      }
      WholeCStr(encoding);
      ChunkedName();
    }
  }

  lemma ChunkedName()
    ensures LowerAll(CStr("CHUNKED")) == "chunked"
  {
    WholeCStr("CHUNKED");
  }

  /** The body is taken whole, and what follows is left. */
  lemma BodyReads(r: Request, b: Body, tail: string)
    requires Announced(r.headers, b) && r.body == ""
    ensures var s := State(if b.Chunked? then ChunkBody else LengthBody, BodyText(b) + tail, if b.Plain? then |b.data| else 0, Some(r));
            && Fits(HTTP, s) && Drive(HTTP, s).0 == Done
            && Drive(HTTP, s).1.req == Some(r.(body := BodyData(b))) && Drive(HTTP, s).1.cache == BodyLeft(b) + tail
  {
    var s := State(if b.Chunked? then ChunkBody else LengthBody, "", if b.Plain? then |b.data| else 0, Some(r));
    if b.Chunked? {
      WholeBody(s, b.chunks, tail);
      assert "" + Concat(b.chunks) == Concat(b.chunks);
    } else {
      var c := BodyText(b) + tail;
      assert c[..s.length] == BodyData(b) && c[s.length..] == tail && "" + tail == tail;
    }
  }

  // ---- the whole request ----

  /** In one call: done, with exactly the method, path, headers and body sent. */
  lemma RequestReads(h: Head, m: Method, b: Body, tail: string)
    requires GoodHead(h, m) && Announced(Collected(map[], h.fields), b)
    ensures var (o, s) := OneShot(HTTP, HeadText(h, BodyText(b) + tail));
            && o == Done && s.cache == BodyLeft(b) + tail
            && s.req == Some(Request(m, h.path, Collected(map[], h.fields), BodyData(b)))
    ensures ShortHead(h) ==> Fits(HTTP, Plus(INITIAL, HeadText(h, BodyText(b) + tail)))
  {
    var r := HeadOf(h, m);
    var text := HeadText(h, BodyText(b) + tail);
    EmptyPlus(INITIAL, text);
    AnnouncedPhase(r, b);
    HeadReads(h, m, BodyText(b) + tail, if b.Chunked? then ChunkBody else LengthBody, if b.Plain? then |b.data| else 0);
    BodyReads(r, b, tail);
  }

  /** However it is cut, if its lines are shorter than the limit. */
  lemma WholeRequest(h: Head, m: Method, b: Body, tail: string, cuts: seq<string>)
    requires GoodHead(h, m) && ShortHead(h) && Announced(Collected(map[], h.fields), b)
    requires Concat(cuts) == HeadText(h, BodyText(b) + tail)
    ensures var (o, s, rest) := FeedAll(HTTP, INITIAL, cuts);
            && o == Done && s.req == Some(Request(m, h.path, Collected(map[], h.fields), BodyData(b)))
            && s.cache + Concat(rest) == BodyLeft(b) + tail
  {
    RequestReads(h, m, b, tail);
    CutAgrees(HTTP, INITIAL, cuts);
  }

  /** Without chunks such requests can follow one another. */
  lemma RequestIsComplete(h: Head, m: Method, b: Body)
    requires GoodHead(h, m) && ShortHead(h) && Announced(Collected(map[], h.fields), b) && !b.Chunked?
    ensures Complete(HTTP, HeadText(h, BodyText(b)))
    ensures Alone(HTTP, HeadText(h, BodyText(b))) == Request(m, h.path, Collected(map[], h.fields), BodyData(b))
  {
    RequestReads(h, m, b, "");
    assert BodyText(b) + "" == BodyText(b);
  }

  // ---- numbers in general ----

  predicate White(s: string) { forall i :: 0 <= i < |s| ==> s[i] in [' ', '\t', '\n', 11 as char, 12 as char, '\r'] }

  /** A numeral: in base 16 it may carry a prefix. */
  predicate Numeral(d: string, n: nat, base: nat) {
    if base == 10 then d == J.Decimal(n) else d == Hex(n) || d == "0x" + Hex(n) || d == "0X" + Hex(n)
  }

  /** A value that does not fit 64 bits becomes the nearest one that does. */
  function Clipped(n: int): int {
    if n < -0x8000_0000_0000_0000 then -0x8000_0000_0000_0000 else if n > 0x7FFF_FFFF_FFFF_FFFF then 0x7FFF_FFFF_FFFF_FFFF else n
  }

  function Signed(sign: string, n: int): int { if sign == "-" then -n else n }

  lemma {:induction false} DigitsStop(a: string, junk: string, base: nat, acc: nat)
    requires base == 10 || base == 16
    requires (forall i :: 0 <= i < |a| ==> DigitValue(a[i]) < base) && (junk != "" ==> DigitValue(junk[0]) >= base)
    ensures Digits(a + junk, base, acc) == Digits(a, base, acc)
    decreases |a|
  {
    if a == "" {
      assert a + junk == junk;
    } else {
      assert (a + junk)[1..] == a[1..] + junk && (a + junk)[0] == a[0];
      DigitsStop(a[1..], junk, base, (if base == 16 then 16 * acc else 10 * acc) + DigitValue(a[0]));
    }
  }

  lemma {:induction false} SkipsWhite(white: string, t: string)
    requires White(white) && (t != "" ==> !IsSpace(t[0]))
    ensures SkipSpaces(white + t) == t
    decreases |white|
  {
    if white == "" {
      assert white + t == t;
    } else {
      assert (white + t)[1..] == white[1..] + t && (white + t)[0] == white[0];
      SkipsWhite(white[1..], t);
    }
  }

  lemma CStrKeeps(a: string, junk: string)
    requires Without(a, '\0')
    ensures CStr(a + junk) == a + CStr(junk)
  {
    var t, k := a + junk, IndexOf(junk, '\0', 0);
    assert forall i :: 0 <= i < |a| ==> t[i] == a[i];
    assert forall i :: 0 <= i < |junk| ==> t[|a| + i] == junk[i];
    if k < |junk| {
      IndexIs(t, '\0', 0, |a| + k);
    } else {
      WholeCStr(junk);
      WholeCStr(t);
    }
    assert t[..|a| + k] == a + junk[..k];
  }

  /** The digits of a numeral behind its prefix. */
  function Bare(d: string, base: nat): string { if base == 16 && |d| > 2 && (d[1] == 'x' || d[1] == 'X') then d[2..] else d }

  lemma NumeralDigits(d: string, n: nat, base: nat)
    requires (base == 10 || base == 16) && Numeral(d, n, base)
    ensures var b := Bare(d, base);
            && d != "" && b != "" && Digits(b, base, 0) == n && (forall i :: 0 <= i < |b| ==> DigitValue(b[i]) < base)
            && (d == b || (|d| == |b| + 2 && d[0] == '0' && (d[1] == 'x' || d[1] == 'X')))
            && (base == 16 && d == b && b[0] == '0' ==> n == 0 && |b| == 1)
            && DigitValue(d[0]) < 10 + (if base == 16 then 6 else 0)
  {
    if base == 10 {
      DecimalDigits(n);
    } else {
      HexValue(n);
      assert ("0x" + Hex(n))[2..] == Hex(n) && ("0X" + Hex(n))[2..] == Hex(n);
    }
  }

  lemma FirstIsPlain(c: char)
    requires DigitValue(c) < 16
    ensures c != '\0' && !IsSpace(c) && c != '-' && c != '+'
  {
    DigitIsPlain(c);
  }

  /** The digits that `strtol` reads behind the sign. */
  function DigitsOf(u: string, base: nat): string {
    if base == 16 && |u| > 2 && u[0] == '0' && (u[1] == 'x' || u[1] == 'X') && DigitValue(u[2]) < 16 then u[2..] else u
  }

  lemma PrefixReads(d: string, junk: string, n: nat, base: nat)
    requires (base == 10 || base == 16) && Numeral(d, n, base) && (junk != "" ==> DigitValue(junk[0]) >= base)
    requires base == 16 && n == 0 && junk != "" ==> junk[0] != 'x' && junk[0] != 'X'
    ensures Digits(DigitsOf(d + junk, base), base, 0) == n
  {
    var u, b := d + junk, Bare(d, base);
    NumeralDigits(d, n, base);
    DigitsStop(b, junk, base, 0);
    if d == b {
      assert |d| > 1 ==> DigitValue(u[1]) < base;
    } else {
      assert u[2] == b[0] && u[2..] == b + junk;
    }
  }

  lemma SignReads(t: string, sign: string, u: string, base: nat)
    requires (base == 10 || base == 16) && sign in ["", "+", "-"] && SkipSpaces(CStr(t)) == sign + u
    requires u != "" && u[0] != '-' && u[0] != '+'
    ensures StrToL(t, base) == Clipped(Signed(sign, Digits(DigitsOf(u, base), base, 0)))
  {
    var w := sign + u;
    if sign == "" {
      assert w == u;
    } else {
      assert w[0] == sign[0] && w[1..] == u;
    }
  }

  lemma SignedRead(sign: string, d: string, junk: string, n: nat, base: nat, t: string)
    requires (base == 10 || base == 16) && Numeral(d, n, base) && (junk != "" ==> DigitValue(junk[0]) >= base)
    requires base == 16 && n == 0 && junk != "" ==> junk[0] != 'x' && junk[0] != 'X'
    requires sign in ["", "+", "-"] && SkipSpaces(CStr(t)) == sign + (d + junk)
    ensures StrToL(t, base) == Clipped(Signed(sign, n))
  {
    NumeralDigits(d, n, base);
    FirstIsPlain(d[0]);
    PrefixReads(d, junk, n, base);
    SignReads(t, sign, d + junk, base);
  }

  /** `strtol` on white space, a sign, a numeral and anything behind it: the signed value, clipped. */
  lemma StrToLReads(white: string, sign: string, d: string, junk: string, n: nat, base: nat)
    requires (base == 10 || base == 16) && Numeral(d, n, base) && (junk != "" ==> DigitValue(junk[0]) >= base)
    requires base == 16 && n == 0 && junk != "" ==> junk[0] != 'x' && junk[0] != 'X'
    requires White(white) && sign in ["", "+", "-"]
    ensures StrToL(white + (sign + (d + junk)), base) == Clipped(Signed(sign, n))
  {
    NumeralDigits(d, n, base);
    FirstIsPlain(d[0]);
    NumeralIsPlain(d, n, base);
    var rest := CStr(junk);
    FrontIsPlain(white, sign, d);
    CStrKeeps(white + (sign + d), junk);
    Reassociate(white, sign, d, junk);
    Reassociate(white, sign, d, rest);
    NoSpaceNext(sign, d, rest);
    SkipsWhite(white, sign + (d + rest));
    SignedRead(sign, d, rest, n, base, white + (sign + (d + junk)));
  }

  lemma NoSpaceNext(sign: string, d: string, rest: string)
    requires sign in ["", "+", "-"] && d != "" && !IsSpace(d[0])
    ensures var t := sign + (d + rest); t != "" && !IsSpace(t[0])
  {
    assert (sign + (d + rest))[0] == if sign == "" then d[0] else sign[0];
  }

  lemma FrontIsPlain(white: string, sign: string, d: string)
    requires White(white) && sign in ["", "+", "-"] && Without(d, '\0')
    ensures Without(white + (sign + d), '\0')
  {
  }

  lemma Reassociate(a: string, b: string, c: string, d: string)
    ensures (a + (b + c)) + d == a + (b + (c + d))
  {
  }

  lemma NumeralIsPlain(d: string, n: nat, base: nat)
    requires (base == 10 || base == 16) && Numeral(d, n, base)
    ensures Without(d, '\0')
  {
    if base == 10 {
      DecimalDigits(n);
    }
  }

  /** The `int` that a size is cut down to: congruent modulo 2^32, and widened with its sign. */
  lemma ToSizeIs(n: int)
    ensures ToSize(n) % 0x1_0000_0000 == n % 0x1_0000_0000
    ensures ToSize(n) < 0x8000_0000 || 0xFFFF_FFFF_8000_0000 <= ToSize(n) < WORD
  {
  }

  // ---- lines and sizes at the limit ----

  /** Without a line end the parser waits up to 1024 bytes, and up to 10 for the size of a chunk. */
  lemma LongestWait(rd: Reader, s: State)
    requires HttpParsers.Valid(s) && s.phase != LengthBody && !HasLine(s.cache)
    ensures Drive(rd, s) == (if |s.cache| <= (if s.phase == ChunkBody then 10 else 1024) then More else Overlong, s)
  {
  }

  lemma HugeSize(n: nat)
    requires 0x8000_0000 <= n < 0x1_0000_0000
    ensures ChunkSize(Hex(n)) == WORD - 0x1_0000_0000 + n
  {
    assert "" + ("" + (Hex(n) + "")) == Hex(n);
    StrToLReads("", "", Hex(n), "", n, 16);
  }

  lemma SizeLineStep(s: State, n: nat, after: string)
    requires s.phase == ChunkBody && s.req.Some? && s.cache == Hex(n) + "\r\n" + after
    ensures LineEnd(s.cache) == |Hex(n)| && Step(HTTP, s) == StepChunk(s, |Hex(n)|, ChunkSize(Hex(n)))
  {
    LineOf(Hex(n), after);
    assert s.cache[..|Hex(n)|] == Hex(n);
  }

  /** A chunk size of 2^31 or more is negative as an `int`. From FFFFFFFC on the sum with the line ends
      wraps around to almost nothing, and `append` throws; below that the parser waits for ever. */
  lemma HugeChunk(s: State, n: nat, after: string)
    requires s.phase == ChunkBody && s.req.Some? && s.cache == Hex(n) + "\r\n" + after
    requires 0x8000_0000 <= n < 0x1_0000_0000 && |after| < 0x8000_0000
    ensures Drive(HTTP, s).0 == if n < 0xFFFF_FFFC || |after| + 2 < n - 0xFFFF_FFFC then More else Raised
  {
    SizeLineStep(s, n, after);
    HugeSize(n);
    HugeStep(s, |Hex(n)|, n, |after|);
  }

  lemma HugeStep(s: State, pos: nat, n: nat, more: nat)
    requires s.req.Some? && |s.cache| == pos + 2 + more
    requires 0x8000_0000 <= n < 0x1_0000_0000 && more < 0x8000_0000
    ensures var m := StepChunk(s, pos, WORD - 0x1_0000_0000 + n);
            m.Stop? && m.o == if n < 0xFFFF_FFFC || more + 2 < n - 0xFFFF_FFFC then More else Raised
  {
    var len := WORD - 0x1_0000_0000 + n;
    assert (len + 4) % WORD == if n < 0xFFFF_FFFC then len + 4 else n - 0xFFFF_FFFC;
  }
}
