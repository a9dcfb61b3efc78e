/** The incremental HTTP request parser: a resumable machine over a growing buffer. */
module HttpParsers {
  import opened Commons

  /** The three answers of the parser, and the exception an absurd chunk size raises. */
  datatype Verdict = Success | Failure | Indeterminate | Thrown

  datatype Method = Unset | Put | Get | Post | Delete

  datatype Request = Request(verb: Method, path: string, headers: map<string, string>, body: string)

  datatype Phase = FirstLine | Headers | LengthBody | ChunkBody

  datatype State = State(phase: Phase, cache: string, length: nat, req: Option<Request>)

  /** Why the machine stopped. `Overlong` and `Bad` are both reported as failure: the first because
      no line end came within the limit, the second because of what was read. */
  datatype Outcome = Done | Bad | Overlong | More | Raised

  function Answer(o: Outcome): Verdict {
    match o
    case Done => Success
    case Bad => Failure
    case Overlong => Failure
    case More => Indeterminate
    case Raised => Thrown
  }

  const INITIAL: State := State(FirstLine, "", 0, None)

  const MAX_LINE: nat := 1024
  const MAX_CHUNK_LINE: nat := 10
  const MIN_FIRST_LINE: nat := 14

  // ---- text ----

  /** Position of the first line end, or the length of the text. */
  function LineEnd(s: string): (pos: nat)
    ensures pos <= |s|
    ensures pos < |s| ==> pos + 1 < |s| && s[pos] == '\r' && s[pos + 1] == '\n'
    ensures forall i :: 0 <= i < pos && i + 1 < |s| ==> !(s[i] == '\r' && s[i + 1] == '\n')
  {
    if |s| < 2 then |s|
    else if s[0] == '\r' && s[1] == '\n' then 0
    else 1 + LineEnd(s[1..])
  }

  predicate HasLine(s: string) { LineEnd(s) < |s| }

  /** Position of a character at or after `from`, or the length of the text. */
  function IndexOf(s: string, c: char, from: nat): (pos: nat)
    requires from <= |s|
    ensures from <= pos <= |s|
    ensures pos < |s| ==> s[pos] == c
    ensures forall i :: from <= i < pos ==> s[i] != c
    decreases |s| - from
  {
    if from == |s| || s[from] == c then from else IndexOf(s, c, from + 1)
  }

  function Lower(c: char): char {
    if 'A' <= c <= 'Z' then c - 'A' + 'a' else c
  }

  function LowerAll(s: string): (r: string)
    ensures |r| == |s| && forall i :: 0 <= i < |s| ==> r[i] == Lower(s[i])
  {
    if s == "" then "" else [Lower(s[0])] + LowerAll(s[1..])
  }

  /** What a C string function sees of a string. */
  function CStr(s: string): string { s[..IndexOf(s, '\0', 0)] }

  predicate SameIgnoringCase(a: string, b: string) { LowerAll(CStr(a)) == LowerAll(CStr(b)) }

  /** Length of the leading run of spaces. */
  function LeadingSpaces(s: string): (n: nat)
    ensures n <= |s| && (forall i :: 0 <= i < n ==> s[i] == ' ') && (n < |s| ==> s[n] != ' ')
  {
    if s == "" || s[0] != ' ' then 0 else 1 + LeadingSpaces(s[1..])
  }

  /** The last index that is not a space; index 0 is never looked at. */
  function LastNonSpace(s: string, i: nat): (r: nat)
    requires i < |s|
    ensures r <= i && (r > 0 ==> s[r] != ' ') && forall j :: r < j <= i ==> s[j] == ' '
  {
    if i == 0 || s[i] != ' ' then i else LastNonSpace(s, i - 1)
  }

  // ---- numbers ----

  function DigitValue(c: char): nat {
    if '0' <= c <= '9' then (c - '0') as nat
    else if 'a' <= c <= 'z' then (c - 'a') as nat + 10
    else if 'A' <= c <= 'Z' then (c - 'A') as nat + 10
    else 36
  }

  /** The value of the longest run of digits of the base, after `acc`. */
  function Digits(s: string, base: nat, acc: nat): nat
    requires base == 10 || base == 16
  {
    if s == "" || DigitValue(s[0]) >= base then acc else Digits(s[1..], base, (if base == 16 then 16 * acc else 10 * acc) + DigitValue(s[0]))
  }

  predicate IsSpace(c: char) { c == ' ' || '\t' <= c <= '\r' }

  function SkipSpaces(s: string): string {
    if s != "" && IsSpace(s[0]) then SkipSpaces(s[1..]) else s
  }

  /** `strtol`: white space, a sign, `0x` in base 16, digits, saturated to 64 bits. */
  function StrToL(s: string, base: nat): int
    requires base == 10 || base == 16
  {
    var t := SkipSpaces(CStr(s));
    var negative := t != "" && t[0] == '-';
    var u := if t != "" && (t[0] == '-' || t[0] == '+') then t[1..] else t;
    var d := if base == 16 && |u| > 2 && u[0] == '0' && (u[1] == 'x' || u[1] == 'X') && DigitValue(u[2]) < 16
             then u[2..] else u;
    var n: int := Digits(d, base, 0);
    if negative then (if n > 0x8000_0000_0000_0000 then -0x8000_0000_0000_0000 else -n)
    else if n > 0x7FFF_FFFF_FFFF_FFFF then 0x7FFF_FFFF_FFFF_FFFF else n
  }

  /** A `long` cut down to `int` and then widened to `size_t`. */
  function ToSize(n: int): nat {
    var low := n % 0x1_0000_0000;
    if low >= 0x8000_0000 then low + 0xFFFF_FFFF_0000_0000 else low
  }

  const WORD: nat := 0x1_0000_0000_0000_0000

  // ---- the machine ----

  function Header(r: Request, key: string): string {
    if key in r.headers then r.headers[key] else ""
  }

  function MethodOf(s: string): Method {
    if SameIgnoringCase("GET", s) then Get
    else if SameIgnoringCase("POST", s) then Post
    else if SameIgnoringCase("PUT", s) then Put
    else if SameIgnoringCase("DELETE", s) then Delete
    else Unset
  }

  /** The request a first line starts, if it has the shape of one; its method may be unknown. */
  function RequestOf(line: string): Option<Request> {
    if |line| < MIN_FIRST_LINE || SameIgnoringCase("HTTP/1.", line[..7]) then None
    else
      var first := IndexOf(line, ' ', 0);
      if first == |line| then None
      else
        var second := IndexOf(line, ' ', first + 1);
        if second == |line| then None
        else Some(Request(MethodOf(line[..first]), line[first + 1..second], map[], ""))
  }

  /** The key and value of a header line, if it has both. */
  function HeaderOf(line: string): Option<(string, string)> {
    var mid := IndexOf(line, ':', 0);
    if mid == |line| || mid == 0 then None
    else
      var key := line[..mid];
      var value := line[mid + 1..];
      Some((LowerAll(key[..LastNonSpace(key, mid - 1) + 1]), value[LeadingSpaces(value)..]))
  }

  /** What a first line or a header line does to the parser. */
  datatype LineMove = Reject(left: Option<Request>) | Accept(phase: Phase, length: nat, req: Request)

  function OnFirstLine(length: nat, line: string): LineMove {
    match RequestOf(line)
    case None => Reject(None)
    case Some(r) => if r.verb == Unset then Reject(Some(r)) else Accept(Headers, length, r)
  }

  function OnHeaderLine(r: Request, length: nat, line: string): LineMove {
    if line == "" then EndOfHeaders(r, length)
    else
      match HeaderOf(line)
      case None => Reject(Some(r))
      case Some((key, value)) => Accept(Headers, length, r.(headers := r.headers[key := value]))
  }

  /** How the body will be read. A body of length zero is complete at once, and empty. */
  function EndOfHeaders(r: Request, length: nat): LineMove {
    var encoding := Header(r, "transfer-encoding");
    if encoding != "" then
      Accept(if SameIgnoringCase("CHUNKED", encoding) then ChunkBody else LengthBody, length, r)
    else
      var given := Header(r, "content-length");
      Accept(LengthBody, if given == "" then 0 else ToSize(StrToL(given, 10)), r)
  }

  function ChunkSize(line: string): nat { ToSize(StrToL(line, 16)) }

  /** How lines are read. What follows about cutting the bytes holds for any such reading. */
  datatype Reader = Reader(
    first: (nat, string) -> LineMove, header: (Request, nat, string) -> LineMove, size: string -> nat)

  const HTTP: Reader := Reader(OnFirstLine, OnHeaderLine, ChunkSize)

  /** Past the first line there is a request. */
  predicate Valid(s: State) { s.phase != FirstLine ==> s.req.Some? }

  /** The machine stops with an outcome, or goes on after taking a line or a chunk. */
  datatype Move = Stop(o: Outcome, s: State) | Next(s: State)

  function Limit(phase: Phase): nat {
    if phase == ChunkBody then MAX_CHUNK_LINE else MAX_LINE
  }

  function Step(rd: Reader, s: State): (m: Move)
    requires Valid(s)
    ensures Valid(m.s) && (m.Next? ==> |m.s.cache| < |s.cache|)
  {
    if s.phase == LengthBody then StepLength(s)
    else
      var pos := LineEnd(s.cache);
      if pos == |s.cache| then Stop(if |s.cache| > Limit(s.phase) then Overlong else More, s)
      else
        var line := s.cache[..pos];
        if s.phase == ChunkBody then StepChunk(s, pos, rd.size(line))
        else
          var move := if s.phase == FirstLine then rd.first(s.length, line) else rd.header(s.req.value, s.length, line);
          StepLine(s, s.cache[pos + 2..], move)
  }

  function StepLine(s: State, rest: string, move: LineMove): Move
    requires Valid(s)
  {
    match move
    case Accept(phase, length, r) => Next(State(phase, rest, length, Some(r)))
    case Reject(req) => Stop(Bad, s.(cache := rest, req := if req.Some? then req else s.req))
  }

  function StepLength(s: State): Move
    requires s.req.Some?
  {
    if |s.cache| >= s.length then
      Stop(Done, s.(req := Some(s.req.value.(body := s.cache[..s.length])), cache := s.cache[s.length..]))
    else Stop(More, s)
  }

  /** The buffer holds the size line, the chunk and its line end; the sum wraps as the source's does. */
  predicate Arrived(s: State, pos: nat, len: nat) {
    |s.cache| - pos >= (len + 4) % WORD
  }

  function StepChunk(s: State, pos: nat, len: nat): Move
    requires s.req.Some? && pos + 2 <= |s.cache|
  {
    if len == 0 then Stop(Done, s)
    else if !Arrived(s, pos, len) then Stop(More, s)
    else if len + 4 >= WORD then Stop(Raised, s.(cache := s.cache[pos + 2..]))
    else
      assert (len + 4) % WORD == len + 4;
      Next(s.(cache := s.cache[pos + len + 4..],
              req := Some(s.req.value.(body := s.req.value.body + s.cache[pos + 2..pos + 2 + len]))))
  }

  function Drive(rd: Reader, s: State): (r: (Outcome, State))
    requires Valid(s)
    ensures Valid(r.1)
    decreases |s.cache|
  {
    match Step(rd, s)
    case Stop(o, s') => (o, s')
    case Next(s') => Drive(rd, s')
  }

  /** One call of `parse`. */
  function Feed(rd: Reader, s: State, data: string): (r: (Outcome, State))
    requires Valid(s)
    ensures Valid(r.1)
  {
    Drive(rd, Plus(s, data))
  }

  /** The step on a first line or a header line. */
  lemma LineStep(rd: Reader, s: State)
    requires Valid(s) && (s.phase == FirstLine || s.phase == Headers) && LineEnd(s.cache) < |s.cache|
    ensures var pos := LineEnd(s.cache); var line := s.cache[..pos];
            Step(rd, s) == StepLine(s, s.cache[pos + 2..],
              if s.phase == FirstLine then rd.first(s.length, line) else rd.header(s.req.value, s.length, line))
  {
  }

  // ---- more bytes ----

  function Plus(s: State, x: string): State { s.(cache := s.cache + x) }

  lemma PlusPlus(s: State, a: string, b: string)
    ensures Plus(Plus(s, a), b) == Plus(s, a + b)
  {
    assert (s.cache + a) + b == s.cache + (a + b);
  }

  lemma LineStays(s: string, x: string)
    requires HasLine(s)
    ensures LineEnd(s + x) == LineEnd(s)
  {
    var pos := LineEnd(s);
    var far := LineEnd(s + x);
    assert (s + x)[pos] == '\r' && (s + x)[pos + 1] == '\n';
    assert forall i :: 0 <= i < |s| ==> (s + x)[i] == s[i];
  }

  lemma LineComesLate(s: string, x: string)
    requires !HasLine(s)
    ensures LineEnd(s + x) + 1 >= |s|
  {
    assert forall i :: 0 <= i < |s| ==> (s + x)[i] == s[i];
  }

  lemma CutPlus(c: string, x: string, a: nat, b: nat)
    requires a <= b <= |c|
    ensures (c + x)[a..b] == c[a..b] && (c + x)[b..] == c[b..] + x
  {
  }

  /** With a line in the buffer, more bytes leave the step as it was. */
  lemma LinePlus(s: State, x: string)
    requires Valid(s) && s.phase != LengthBody && HasLine(s.cache)
    ensures HasLine((s.cache + x)) && LineEnd(s.cache + x) == LineEnd(s.cache)
    ensures var pos := LineEnd(s.cache);
            (s.cache + x)[..pos] == s.cache[..pos] && (s.cache + x)[pos + 2..] == s.cache[pos + 2..] + x
  {
    LineStays(s.cache, x);
    CutPlus(s.cache, x, 0, LineEnd(s.cache));
    CutPlus(s.cache, x, 0, LineEnd(s.cache) + 2);
  }

  /** A move already made is made again with more bytes behind it; a machine that asked for more has
      not moved. Only `Overlong` can be taken back. */
  predicate MovePlus(s: State, m: Move, x: string, m': Move) {
    match m
    case Next(s') => m' == Next(Plus(s', x))
    case Stop(More, s') => s' == s
    case Stop(Overlong, s') => s' == s && s.phase != LengthBody && !HasLine(s.cache) && |s.cache| > Limit(s.phase)
    case Stop(o, s') => m' == Stop(o, Plus(s', x))
  }

  lemma StepPlus(rd: Reader, s: State, x: string)
    requires Valid(s)
    ensures MovePlus(s, Step(rd, s), x, Step(rd, Plus(s, x)))
  {
    if s.phase == LengthBody {
      StepLengthPlus(s, x);
    } else if HasLine(s.cache) {
      StepLinePlus(rd, s, x);
    }
  }

  lemma StepLengthPlus(s: State, x: string)
    requires s.req.Some?
    ensures MovePlus(s, StepLength(s), x, StepLength(Plus(s, x)))
  {
    if |s.cache| >= s.length { CutPlus(s.cache, x, 0, s.length); }
  }

  lemma StepLinePlus(rd: Reader, s: State, x: string)
    requires Valid(s) && s.phase != LengthBody && HasLine(s.cache)
    ensures MovePlus(s, Step(rd, s), x, Step(rd, Plus(s, x)))
  {
    LinePlus(s, x);
    if s.phase == ChunkBody {
      var pos := LineEnd(s.cache);
      StepChunkPlus(s, x, pos, rd.size(s.cache[..pos]));
    }
  }

  lemma StepChunkPlus(s: State, x: string, pos: nat, len: nat)
    requires s.req.Some? && pos + 2 <= |s.cache|
    ensures MovePlus(s, StepChunk(s, pos, len), x, StepChunk(Plus(s, x), pos, len))
  {
    CutPlus(s.cache, x, 0, pos + 2);
    if len != 0 && Arrived(s, pos, len) && len + 4 < WORD {
      CutPlus(s.cache, x, pos + 2, pos + 2 + len);
      CutPlus(s.cache, x, 0, pos + len + 4);
    }
  }

  /** A parser that answered "indeterminate" goes on as if all bytes had come at once, and any other
      answer stands, unless it was that a line is too long. */
  lemma {:induction false} DrivePlus(rd: Reader, s: State, x: string)
    requires Valid(s)
    ensures var (o, s') := Drive(rd, s);
            match o
            case More => Drive(rd, Plus(s, x)) == Drive(rd, Plus(s', x))
            case Overlong => true
            case _ => Drive(rd, Plus(s, x)) == (o, Plus(s', x))
    decreases |s.cache|
  {
    StepPlus(rd, s, x);
    match Step(rd, s)
    case Next(s') => DrivePlus(rd, s', x);
    case Stop(_, _) =>
  }

  // ---- every way of cutting the bytes ----

  function Concat(chunks: seq<string>): string {
    if chunks == [] then "" else chunks[0] + Concat(chunks[1..])
  }

  /** Calls of `parse` up to the first definite answer, with the data not yet handed over. */
  function FeedAll(rd: Reader, s: State, chunks: seq<string>): (Outcome, State, seq<string>)
    requires Valid(s)
    decreases |chunks|
  {
    if chunks == [] then (More, s, [])
    else
      var (o, s') := Feed(rd, s, chunks[0]);
      if o == More then FeedAll(rd, s', chunks[1..]) else (o, s', chunks[1..])
  }

  /** The machine is waiting: driving it without new bytes changes nothing. */
  predicate Waiting(rd: Reader, s: State) { Valid(s) && Drive(rd, s) == (More, s) }

  lemma {:induction false} MoreIsWaiting(rd: Reader, s: State)
    requires Valid(s) && Drive(rd, s).0 == More
    ensures Waiting(rd, Drive(rd, s).1)
    decreases |s.cache|
  {
    StepPlus(rd, s, "");
    match Step(rd, s)
    case Next(s') => MoreIsWaiting(rd, s');
    case Stop(_, _) =>
  }

  /** Any cut gives the answer of the whole, or fails on a long line. */
  lemma {:induction false} CutAgreesOrOverlong(rd: Reader, s: State, chunks: seq<string>)
    requires Waiting(rd, s)
    ensures var (o, s', rest) := FeedAll(rd, s, chunks);
            o == Overlong || Feed(rd, s, Concat(chunks)) == (o, Plus(s', Concat(rest)))
    decreases |chunks|
  {
    if chunks == [] {
      assert Plus(s, "") == s;
    } else {
      var later := Concat(chunks[1..]);
      FeedTwice(rd, s, chunks[0], later);
      var (o, s') := Feed(rd, s, chunks[0]);
      if o == More {
        CutAgreesOrOverlong(rd, s', chunks[1..]);
      }
    }
  }

  /** Two calls against one. */
  lemma FeedTwice(rd: Reader, s: State, a: string, b: string)
    requires Valid(s)
    ensures var (o, s') := Feed(rd, s, a);
            match o
            case More => Waiting(rd, s') && Feed(rd, s, a + b) == Feed(rd, s', b)
            case Overlong => true
            case _ => Feed(rd, s, a + b) == (o, Plus(s', b))
  {
    PlusPlus(s, a, b);
    DrivePlus(rd, Plus(s, a), b);
    if Feed(rd, s, a).0 == More {
      MoreIsWaiting(rd, Plus(s, a));
    }
  }

  // ---- exactly when every cut agrees ----

  /** Every line that the machine takes from this buffer ends within its limit: 1023 bytes for the
      first line and the headers, 9 for a chunk size. */
  predicate Fits(rd: Reader, s: State)
    requires Valid(s)
    decreases |s.cache|
  {
    && (s.phase != LengthBody && HasLine(s.cache) ==> LineEnd(s.cache) < Limit(s.phase))
    && (Step(rd, s).Next? ==> Fits(rd, Step(rd, s).s))
  }

  /** A line that is too long for now is too long for ever if all lines fit. */
  lemma {:induction false} OverlongStands(rd: Reader, s: State, x: string)
    requires Valid(s) && Drive(rd, s).0 == Overlong && Fits(rd, Plus(s, x))
    ensures Drive(rd, Plus(s, x)).0 == Overlong
    decreases |s.cache|
  {
    StepPlus(rd, s, x);
    match Step(rd, s)
    case Next(s') => OverlongStands(rd, s', x);
    case Stop(_, _) => LineComesLate(s.cache, x);
  }

  lemma {:induction false} CutAgrees(rd: Reader, s: State, chunks: seq<string>)
    requires Waiting(rd, s) && Fits(rd, Plus(s, Concat(chunks)))
    ensures var (o, s', rest) := FeedAll(rd, s, chunks);
            var (o1, s1) := Feed(rd, s, Concat(chunks));
            o == o1 && (o != Overlong ==> s1 == Plus(s', Concat(rest)))
    decreases |chunks|
  {
    if chunks == [] {
      assert Plus(s, "") == s;
    } else {
      var later := Concat(chunks[1..]);
      FeedTwice(rd, s, chunks[0], later);
      PlusPlus(s, chunks[0], later);
      var (o, s') := Feed(rd, s, chunks[0]);
      if o == More {
        FitsLater(rd, Plus(s, chunks[0]), later);
        CutAgrees(rd, s', chunks[1..]);
      } else if o == Overlong {
        OverlongStands(rd, Plus(s, chunks[0]), later);
      }
    }
  }

  lemma {:induction false} FitsLater(rd: Reader, s: State, x: string)
    requires Valid(s) && Drive(rd, s).0 == More && Fits(rd, Plus(s, x))
    ensures Fits(rd, Plus(Drive(rd, s).1, x))
    decreases |s.cache|
  {
    StepPlus(rd, s, x);
    match Step(rd, s)
    case Next(s') => FitsLater(rd, s', x);
    case Stop(_, _) =>
  }

  /** Just before the line feed that ends the first line too long. */
  function BadCut(rd: Reader, s: State): (k: nat)
    requires Valid(s) && !Fits(rd, s)
    ensures k <= |s.cache|
    decreases |s.cache|
  {
    if s.phase != LengthBody && HasLine(s.cache) && LineEnd(s.cache) >= Limit(s.phase) then LineEnd(s.cache) + 1
    else |s.cache| - |Step(rd, s).s.cache| + BadCut(rd, Step(rd, s).s)
  }

  function Cut(s: State, k: nat): State
    requires k <= |s.cache|
  {
    s.(cache := s.cache[..k])
  }

  lemma LineInCut(c: string, m: nat)
    requires HasLine(c) && LineEnd(c) + 2 <= m <= |c|
    ensures LineEnd(c[..m]) == LineEnd(c)
  {
    LineThere(c[..m], LineEnd(c));
    assert c[..m] + c[m..] == c;
    LineStays(c[..m], c[m..]);
  }

  lemma LineThere(c: string, pos: nat)
    requires pos + 1 < |c| && c[pos] == '\r' && c[pos + 1] == '\n'
    ensures HasLine(c)
  {
  }

  /** How many bytes a step that goes on consumes. */
  lemma Consumes(rd: Reader, s: State)
    requires Valid(s) && Step(rd, s).Next?
    ensures s.phase != LengthBody && HasLine(s.cache)
    ensures var pos := LineEnd(s.cache);
            |s.cache| - |Step(rd, s).s.cache|
            == if s.phase == ChunkBody then pos + 4 + rd.size(s.cache[..pos]) else pos + 2
  {
  }

  lemma StepMovesInCut(rd: Reader, s: State, m: nat)
    requires Valid(s) && Step(rd, s).Next? && m <= |s.cache|
    requires |s.cache| - |Step(rd, s).s.cache| <= m
    ensures Step(rd, Cut(s, m)).Next?
  {
    Consumes(rd, s);
    LineInCut(s.cache, m);
    assert s.cache[..m][..LineEnd(s.cache)] == s.cache[..LineEnd(s.cache)];
  }

  /** A step is made as soon as the bytes it consumes are there. */
  lemma StepInCut(rd: Reader, s: State, m: nat)
    requires Valid(s) && Step(rd, s).Next? && m <= |s.cache|
    requires |s.cache| - |Step(rd, s).s.cache| <= m
    ensures var s' := Step(rd, s).s;
            Step(rd, Cut(s, m)) == Next(Cut(s', m - (|s.cache| - |s'.cache|)))
  {
    StepMovesInCut(rd, s, m);
    var x := s.cache[m..];
    StepPlus(rd, Cut(s, m), x);
    assert Plus(Cut(s, m), x) == s by {
      assert s.cache[..m] + x == s.cache;
    }
    var u := Step(rd, Cut(s, m)).s;
    assert u.cache == (u.cache + x)[..|u.cache|];
  }

  lemma {:induction false} BadCutFails(rd: Reader, s: State)
    requires Valid(s) && !Fits(rd, s)
    ensures Drive(rd, Cut(s, BadCut(rd, s))).0 == Overlong
    decreases |s.cache|
  {
    var pos := LineEnd(s.cache);
    if s.phase != LengthBody && HasLine(s.cache) && pos >= Limit(s.phase) {
      assert forall i :: 0 <= i <= pos ==> s.cache[..pos + 1][i] == s.cache[i];
      assert !HasLine(s.cache[..pos + 1]);
    } else {
      var s' := Step(rd, s).s;
      StepInCut(rd, s, BadCut(rd, s));
      BadCutFails(rd, s');
    }
  }

  /** The whole byte stream in one call. */
  function OneShot(rd: Reader, bytes: string): (Outcome, State) {
    Feed(rd, INITIAL, bytes)
  }

  /** The first definite answer does not depend on how the bytes are cut into calls. */
  ghost predicate SplitIndependent(rd: Reader, bytes: string) {
    forall chunks: seq<string> :: Concat(chunks) == bytes ==>
      Answer(FeedAll(rd, INITIAL, chunks).0) == Answer(OneShot(rd, bytes).0)
  }

  lemma FitsOrFailsAgrees(rd: Reader, bytes: string, chunks: seq<string>)
    requires Concat(chunks) == bytes
    requires Fits(rd, Plus(INITIAL, bytes)) || Answer(OneShot(rd, bytes).0) == Failure
    ensures Answer(FeedAll(rd, INITIAL, chunks).0) == Answer(OneShot(rd, bytes).0)
  {
    if Fits(rd, Plus(INITIAL, bytes)) {
      CutAgrees(rd, INITIAL, chunks);
    } else {
      CutAgreesOrOverlong(rd, INITIAL, chunks);
    }
  }

  lemma ConcatTwo(a: string, b: string)
    ensures Concat([a, b]) == a + b
  {
    assert [a, b][1..] == [b] && [b][1..] == [];
    assert Concat([b]) == b;
  }

  lemma InTwo(bytes: string, k: nat)
    requires k <= |bytes|
    ensures Concat([bytes[..k], bytes[k..]]) == bytes
  {
    ConcatTwo(bytes[..k], bytes[k..]);
    assert bytes[..k] + bytes[k..] == bytes;
  }

  lemma FirstCallDecides(rd: Reader, s: State, a: string, b: string)
    requires Valid(s) && Feed(rd, s, a).0 == Overlong
    ensures FeedAll(rd, s, [a, b]).0 == Overlong
  {
  }

  lemma EmptyPlus(s: State, bytes: string)
    requires s.cache == ""
    ensures Plus(s, bytes) == s.(cache := bytes)
  {
    assert "" + bytes == bytes;
  }

  lemma BadCutFeeds(rd: Reader, s: State, bytes: string) returns (k: nat)
    requires Valid(s) && s.cache == "" && !Fits(rd, Plus(s, bytes))
    ensures k <= |bytes| && Feed(rd, s, bytes[..k]).0 == Overlong
  {
    EmptyPlus(s, bytes);
    k := BadCut(rd, Plus(s, bytes));
    BadCutFails(rd, Plus(s, bytes));
    EmptyPlus(s, bytes[..k]);
  }

  /** Some cut fails on a line that is too long. */
  lemma OverlongFails(rd: Reader, s: State, bytes: string) returns (chunks: seq<string>)
    requires Valid(s) && s.cache == "" && !Fits(rd, Plus(s, bytes))
    ensures Concat(chunks) == bytes && Answer(FeedAll(rd, s, chunks).0) == Failure
  {
    var k := BadCutFeeds(rd, s, bytes);
    FirstCallDecides(rd, s, bytes[..k], bytes[k..]);
    InTwo(bytes, k);
    chunks := [bytes[..k], bytes[k..]];
  }

  /** Split independence holds exactly when every line fits or the whole fails anyway. */
  lemma SplitIndependence(rd: Reader, bytes: string)
    ensures SplitIndependent(rd, bytes) <==> Fits(rd, Plus(INITIAL, bytes)) || Answer(OneShot(rd, bytes).0) == Failure
  {
    if Fits(rd, Plus(INITIAL, bytes)) || Answer(OneShot(rd, bytes).0) == Failure {
      forall chunks: seq<string> | Concat(chunks) == bytes
        ensures Answer(FeedAll(rd, INITIAL, chunks).0) == Answer(OneShot(rd, bytes).0)
      {
        FitsOrFailsAgrees(rd, bytes, chunks);
      }
    } else {
      var chunks := OverlongFails(rd, INITIAL, bytes);
    }
  }

  /** When the lines fit, a request parsed in pieces is the request parsed at once: same method, path,
      headers and body, and the bytes behind it are the ones not used. */
  lemma SameRequest(rd: Reader, chunks: seq<string>)
    requires Fits(rd, Plus(INITIAL, Concat(chunks)))
    ensures var (o, s, rest) := FeedAll(rd, INITIAL, chunks);
            var (o1, s1) := OneShot(rd, Concat(chunks));
            o == o1 && (o != Overlong ==> s1 == Plus(s, Concat(rest)) && s1.req == s.req)
  {
    CutAgrees(rd, INITIAL, chunks);
  }

  // ---- a chunked body is the concatenation of its chunks ----

  function HexDigit(d: nat): (c: char)
    requires d < 16
    ensures DigitValue(c) == d && c != '\r' && c != '\0' && !IsSpace(c) && c != '-' && c != '+' && (d > 0 ==> c != '0')
  {
    if d < 10 then '0' + d as char else 'a' + (d - 10) as char
  }

  function Hex(n: nat): (s: string)
    ensures s != "" && (n > 0 ==> s[0] != '0')
    ensures forall i :: 0 <= i < |s| ==> DigitValue(s[i]) < 16 && PlainDigit(s[i])
  {
    if n < 16 then [HexDigit(n)] else Hex(n / 16) + [HexDigit(n % 16)]
  }

  predicate PlainDigit(c: char) {
    c != '\r' && c != '\0' && !IsSpace(c) && c != '-' && c != '+'
  }

  lemma {:induction false} DigitsSnoc(a: string, c: char, acc: nat)
    requires forall i :: 0 <= i < |a| ==> DigitValue(a[i]) < 16
    requires DigitValue(c) < 16
    ensures Digits(a + [c], 16, acc) == 16 * Digits(a, 16, acc) + DigitValue(c)
    decreases |a|
  {
    if a == "" {
      assert (a + [c])[1..] == "";
    } else {
      DigitsSnoc(a[1..], c, 16 * acc + DigitValue(a[0]));
      assert (a + [c])[1..] == a[1..] + [c];
    }
  }

  lemma {:induction false} HexValue(n: nat)
    ensures Digits(Hex(n), 16, 0) == n
  {
    if n < 16 {
      assert Hex(n)[1..] == "";
    } else {
      HexValue(n / 16);
      DigitsSnoc(Hex(n / 16), HexDigit(n % 16), 0);
    }
  }

  lemma SmallSize(h: string, n: nat)
    requires StrToL(h, 16) == n < 0x8000_0000
    ensures ChunkSize(h) == n
  {
  }

  lemma DigitIsPlain(c: char)
    requires DigitValue(c) < 16
    ensures c != '\0' && !IsSpace(c) && c != '-' && c != '+'
  {
  }

  lemma WholeCStr(h: string)
    requires forall i :: 0 <= i < |h| ==> h[i] != '\0'
    ensures CStr(h) == h
  {
    assert IndexOf(h, '\0', 0) == |h|;
  }

  lemma PlainStrToL(h: string)
    requires CStr(h) == h && h != "" && !IsSpace(h[0]) && h[0] != '-' && h[0] != '+' && (h[0] == '0' ==> |h| == 1)
    requires Digits(h, 16, 0) < 0x8000_0000
    ensures StrToL(h, 16) == Digits(h, 16, 0)
  {
    assert SkipSpaces(h) == h;
  }

  /** Nothing but digits, and no `0x`. */
  lemma PlainHex(h: string, n: nat)
    requires h != "" && (forall i :: 0 <= i < |h| ==> DigitValue(h[i]) < 16) && (h[0] == '0' ==> |h| == 1)
    requires n < 0x8000_0000 && Digits(h, 16, 0) == n
    ensures StrToL(h, 16) == n
  {
    forall i | 0 <= i < |h| ensures h[i] != '\0' {
      DigitIsPlain(h[i]);
    }
    DigitIsPlain(h[0]);
    WholeCStr(h);
    PlainStrToL(h);
  }

  /** A chunk size written in hexadecimal is read back. */
  lemma HexSize(n: nat)
    requires n < 0x8000_0000
    ensures ChunkSize(Hex(n)) == n
  {
    HexValue(n);
    PlainHex(Hex(n), n);
    SmallSize(Hex(n), n);
  }

  lemma {:induction false} HexLength(n: nat, k: nat)
    requires n < Pow16(k) && k > 0
    ensures |Hex(n)| <= k
  {
    if n >= 16 {
      HexLength(n / 16, k - 1);
    }
  }

  function Pow16(k: nat): nat { if k == 0 then 1 else 16 * Pow16(k - 1) }

  lemma LineOf(line: string, after: string)
    requires forall i :: 0 <= i < |line| ==> line[i] != '\r'
    ensures LineEnd(line + "\r\n" + after) == |line|
  {
    var c := line + "\r\n" + after;
    assert c[|line|] == '\r' && c[|line| + 1] == '\n';
    assert forall i :: 0 <= i < |line| ==> c[i] == line[i];
  }

  function LastChunk(): string { Hex(0) + "\r\n" + "\r\n" }

  /** Section 7.1 of RFC 9112: size line, data, line end, and a last chunk of size zero. */
  function Encode(chunks: seq<string>): string {
    if chunks == [] then LastChunk()
    else Hex(|chunks[0]|) + "\r\n" + chunks[0] + "\r\n" + Encode(chunks[1..])
  }

  predicate Encodable(chunks: seq<string>) {
    forall i :: 0 <= i < |chunks| ==> 0 < |chunks[i]| < 0x8000_0000
  }

  ghost predicate ReadsSizes(rd: Reader) {
    forall n: nat :: n < 0x8000_0000 ==> rd.size(Hex(n)) == n
  }

  lemma EncodedSlices(line: string, data: string, after: string)
    ensures var t := line + "\r\n" + data + "\r\n" + after; var pos := |line|;
            && t == line + "\r\n" + (data + "\r\n" + after) && t[..pos] == line
            && t[pos + 2..pos + 2 + |data|] == data && t[pos + |data| + 4..] == after
  {
  }

  /** One encoded chunk is one step, which appends its data to the body. */
  lemma StepEncoded(rd: Reader, s: State, data: string, after: string)
    requires ReadsSizes(rd) && s.phase == ChunkBody && s.req.Some? && 0 < |data| < 0x8000_0000
    requires s.cache == Hex(|data|) + "\r\n" + data + "\r\n" + after
    ensures LineEnd(s.cache) == |Hex(|data|)|
    ensures Step(rd, s) == Next(AppendBody(s, after, data))
  {
    var line := Hex(|data|);
    LineOf(line, data + "\r\n" + after);
    EncodedSlices(line, data, after);
    ChunkStep(rd, s, data, after);
  }

  /** The step on a size line, the data and its line end. */
  lemma ChunkStep(rd: Reader, s: State, data: string, after: string)
    requires s.phase == ChunkBody && s.req.Some? && 0 < |data| < 0x8000_0000
    requires var pos := LineEnd(s.cache);
             && pos + |data| + 4 <= |s.cache| && rd.size(s.cache[..pos]) == |data|
             && s.cache[pos + 2..pos + 2 + |data|] == data && s.cache[pos + |data| + 4..] == after
    ensures Step(rd, s) == Next(AppendBody(s, after, data))
  {
    var pos := LineEnd(s.cache);
    assert Step(rd, s) == StepChunk(s, pos, |data|);
  }

  lemma StepLastChunk(rd: Reader, s: State, tail: string)
    requires ReadsSizes(rd) && s.phase == ChunkBody && s.req.Some?
    requires s.cache == LastChunk() + tail
    ensures LineEnd(s.cache) == 1
    ensures Step(rd, s) == Stop(Done, s)
  {
    LineOf(Hex(0), "\r\n" + tail);
    assert s.cache == Hex(0) + "\r\n" + ("\r\n" + tail);
    assert s.cache[..1] == Hex(0);
  }

  lemma AddBody(s: State, cache: string, a: string, b: string)
    requires s.req.Some?
    ensures AppendBody(AppendBody(s, "", a), cache, b) == AppendBody(s, cache, a + b)
  {
    var body := s.req.value.body;
    assert (body + a) + b == body + (a + b);
  }

  function AppendBody(s: State, cache: string, data: string): (r: State)
    requires s.req.Some?
    ensures r.req.Some?
  {
    s.(cache := cache, req := Some(s.req.value.(body := s.req.value.body + data)))
  }

  /** The body of a chunked request is the concatenation of its chunks, and its lines fit. */
  lemma {:induction false} ChunkedBody(rd: Reader, s: State, chunks: seq<string>, tail: string)
    requires ReadsSizes(rd) && s.phase == ChunkBody && s.req.Some? && Encodable(chunks)
    requires s.cache == Encode(chunks) + tail
    ensures Drive(rd, s) == (Done, AppendBody(s, LastChunk() + tail, Concat(chunks)))
    ensures Fits(rd, s)
    decreases |chunks|
  {
    if chunks == [] {
      StepLastChunk(rd, s, tail);
      assert s.req.value.body + "" == s.req.value.body;
    } else {
      var data, after := chunks[0], Encode(chunks[1..]) + tail;
      assert s.cache == Hex(|data|) + "\r\n" + data + "\r\n" + after;
      StepEncoded(rd, s, data, after);
      assert Pow16(8) == 0x1_0000_0000;
      HexLength(|data|, 8);
      var s' := AppendBody(s, after, data);
      assert Step(rd, s) == Next(s');
      ChunkedBody(rd, s', chunks[1..], tail);
      AddBody(s, LastChunk() + tail, data, Concat(chunks[1..]));
    }
  }

  lemma HttpReadsSizes()
    ensures ReadsSizes(HTTP)
  {
    forall n: nat | n < 0x8000_0000 ensures HTTP.size(Hex(n)) == n {
      HexSize(n);
    }
  }

  /** A parser that has read the headers of a chunked request reads the body as the concatenation of
      its chunks, however the encoded bytes are cut, and leaves what follows. */
  lemma ChunkedBodyInPieces(s: State, chunks: seq<string>, tail: string, cuts: seq<string>)
    requires s.phase == ChunkBody && s.req.Some? && s.cache == "" && Encodable(chunks)
    requires Concat(cuts) == Encode(chunks) + tail
    ensures var (o, s', rest) := FeedAll(HTTP, s, cuts);
            && o == Done && s'.req == Some(s.req.value.(body := s.req.value.body + Concat(chunks)))
            && s'.cache + Concat(rest) == LastChunk() + tail
  {
    EmptyPlus(s, Concat(cuts));
    WholeBody(s, chunks, tail);
    WaitsForChunk(s);
    CutAgrees(HTTP, s, cuts);
  }

  lemma WholeBody(s: State, chunks: seq<string>, tail: string)
    requires s.phase == ChunkBody && s.req.Some? && Encodable(chunks)
    ensures var whole := s.(cache := Encode(chunks) + tail);
            Fits(HTTP, whole) && Drive(HTTP, whole) == (Done, AppendBody(s, LastChunk() + tail, Concat(chunks)))
  {
    HttpReadsSizes();
    ChunkedBody(HTTP, s.(cache := Encode(chunks) + tail), chunks, tail);
  }

  lemma WaitsForChunk(s: State)
    requires s.phase == ChunkBody && s.req.Some? && s.cache == ""
    ensures Waiting(HTTP, s)
  {
  }

  lemma {:induction false} FitsEarlier(rd: Reader, s: State, x: string)
    requires Valid(s) && Fits(rd, s) && Drive(rd, s).0 == More && Fits(rd, Plus(Drive(rd, s).1, x))
    ensures Fits(rd, Plus(s, x))
    decreases |s.cache|
  {
    StepPlus(rd, s, x);
    match Step(rd, s)
    case Next(s') =>
      FitsEarlier(rd, s', x);
      if s.phase != LengthBody {
        LineStays(s.cache, x);
      }
    case Stop(_, _) =>
  }

  /** A whole chunked request: if its head, in lines that fit, brings a new parser to the body, then
      however head and body are cut the request is done, with the head's method, path and headers and
      with the chunks for a body. */
  lemma ChunkedRequest(head: string, s: State, chunks: seq<string>, tail: string, cuts: seq<string>)
    requires Feed(HTTP, INITIAL, head) == (More, s) && Fits(HTTP, Plus(INITIAL, head))
    requires s.phase == ChunkBody && s.req.Some? && s.cache == "" && Encodable(chunks)
    requires Concat(cuts) == head + (Encode(chunks) + tail)
    ensures var (o, s', rest) := FeedAll(HTTP, INITIAL, cuts);
            && o == Done && s'.req == Some(s.req.value.(body := s.req.value.body + Concat(chunks)))
            && s'.cache + Concat(rest) == LastChunk() + tail
  {
    WholeBody(s, chunks, tail);
    HeadThenBody(head, s, Encode(chunks) + tail);
    CutAgrees(HTTP, INITIAL, cuts);
  }

  lemma HeadThenBody(head: string, s: State, body: string)
    requires Feed(HTTP, INITIAL, head) == (More, s) && Fits(HTTP, Plus(INITIAL, head)) && s.cache == ""
    requires Fits(HTTP, s.(cache := body))
    ensures Feed(HTTP, INITIAL, head + body) == Drive(HTTP, s.(cache := body)) && Fits(HTTP, Plus(INITIAL, head + body))
  {
    EmptyPlus(s, body);
    FeedTwice(HTTP, INITIAL, head, body);
    PlusPlus(INITIAL, head, body);
    FitsEarlier(HTTP, Plus(INITIAL, head), body);
  }

  // ---- one request after the other ----

  /** A new start on the bytes that are left. */
  function Again(s: State): State { INITIAL.(cache := s.cache) }

  /** Whoever starts on a first line is not done before that line is taken. */
  lemma {:induction false} DoneConsumes(rd: Reader, s: State)
    requires Valid(s)
    ensures |Drive(rd, s).1.cache| <= |s.cache|
    ensures Drive(rd, s).0 == Done ==> Drive(rd, s).1.req.Some?
    ensures s.phase == FirstLine && Drive(rd, s).0 == Done ==>
      HasLine(s.cache) && |Drive(rd, s).1.cache| + LineEnd(s.cache) + 2 <= |s.cache|
    decreases |s.cache|
  {
    match Step(rd, s)
    case Next(s') =>
      Consumes(rd, s);
      DoneConsumes(rd, s');
    case Stop(_, _) =>
  }

  /** What a caller gets who starts again after every request that is done. */
  datatype Service = Service(requests: seq<Request>, outcome: Outcome, state: State)

  function Behind(before: seq<Request>, v: Service): Service { v.(requests := before + v.requests) }

  /** The requests in the buffer, and how the last call ended. */
  function Serve(rd: Reader, s: State): (v: Service)
    requires Valid(s)
    ensures Valid(v.state) && v.outcome != Done
    decreases |s.cache|, if s.phase == FirstLine then 0 else 1
  {
    var (o, s') := Drive(rd, s);
    if o == Done then
      DoneConsumes(rd, s);
      Behind([s'.req.value], Serve(rd, Again(s')))
    else Service([], o, s')
  }

  /** Calls on the pieces as they come, up to the first answer that ends the connection. */
  function ServeAll(rd: Reader, s: State, chunks: seq<string>): (Service, seq<string>)
    requires Valid(s)
    decreases |chunks|
  {
    if chunks == [] then (Service([], More, s), [])
    else
      var v := Serve(rd, Plus(s, chunks[0]));
      if v.outcome == More then
        var (w, rest) := ServeAll(rd, v.state, chunks[1..]);
        (Behind(v.requests, w), rest)
      else (v, chunks[1..])
  }

  /** Every line of a request that is done fits, and so do the lines behind the last such request, unless
      the whole fails there anyway. */
  predicate Steady(rd: Reader, s: State)
    requires Valid(s)
    decreases |s.cache|, if s.phase == FirstLine then 0 else 1
  {
    var (o, s') := Drive(rd, s);
    if o == Done then
      DoneConsumes(rd, s);
      Fits(rd, s) && Steady(rd, Again(s'))
    else Fits(rd, s) || Answer(o) == Failure
  }

  /** One request of the buffer. */
  lemma ServeOne(rd: Reader, s: State)
    requires Valid(s) && Drive(rd, s).0 == Done
    ensures var s' := Drive(rd, s).1;
            s'.req.Some? && Serve(rd, s) == Behind([s'.req.value], Serve(rd, Again(s')))
  {
    DoneConsumes(rd, s);
  }

  lemma BehindBoth(a: seq<Request>, b: seq<Request>, v: Service)
    ensures Behind(a, Behind(b, v)) == Behind(a + b, v)
  {
    assert a + (b + v.requests) == (a + b) + v.requests;
  }

  lemma AgainPlus(s: State, x: string)
    ensures Again(Plus(s, x)) == Plus(Again(s), x)
  {
  }

  /** `w` is what becomes of `v` with more bytes behind it, unless that ended on a long line. */
  predicate ServicePlus(rd: Reader, v: Service, x: string, w: Service)
    requires Valid(v.state)
  {
    if v.outcome == More then w == Behind(v.requests, Serve(rd, Plus(v.state, x)))
    else v.outcome == Overlong || w == v.(state := Plus(v.state, x))
  }

  lemma BehindPlus(rd: Reader, r: Request, v: Service, x: string, w: Service)
    requires Valid(v.state) && ServicePlus(rd, v, x, w)
    ensures ServicePlus(rd, Behind([r], v), x, Behind([r], w))
  {
    BehindBoth([r], v.requests, Serve(rd, Plus(v.state, x)));
  }

  /** What was served is served again. */
  lemma {:induction false} ServePlus(rd: Reader, s: State, x: string)
    requires Valid(s)
    ensures ServicePlus(rd, Serve(rd, s), x, Serve(rd, Plus(s, x)))
    decreases |s.cache|, if s.phase == FirstLine then 0 else 1
  {
    var (o, s') := Drive(rd, s);
    if o == Done {
      DoneConsumes(rd, s);
      ServeOne(rd, s);
      ServeOnePlus(rd, s, x);
      ServePlus(rd, Again(s'), x);
      BehindPlus(rd, s'.req.value, Serve(rd, Again(s')), x, Serve(rd, Plus(Again(s'), x)));
    } else {
      DrivePlus(rd, s, x);
    }
  }

  lemma ServeOnePlus(rd: Reader, s: State, x: string)
    requires Valid(s) && Drive(rd, s).0 == Done
    ensures var s' := Drive(rd, s).1;
            s'.req.Some? && Serve(rd, Plus(s, x)) == Behind([s'.req.value], Serve(rd, Plus(Again(s'), x)))
  {
    DrivePlus(rd, s, x);
    AgainPlus(Drive(rd, s).1, x);
    ServeOne(rd, Plus(s, x));
  }

  lemma {:induction false} ServeIsWaiting(rd: Reader, s: State)
    requires Valid(s) && Serve(rd, s).outcome == More
    ensures Waiting(rd, Serve(rd, s).state)
    decreases |s.cache|, if s.phase == FirstLine then 0 else 1
  {
    var (o, s') := Drive(rd, s);
    if o == Done {
      DoneConsumes(rd, s);
      ServeIsWaiting(rd, Again(s'));
    } else {
      MoreIsWaiting(rd, s);
    }
  }

  lemma {:induction false} SteadyLater(rd: Reader, s: State, x: string)
    requires Valid(s) && Serve(rd, s).outcome == More && Steady(rd, Plus(s, x))
    ensures Steady(rd, Plus(Serve(rd, s).state, x))
    decreases |s.cache|, if s.phase == FirstLine then 0 else 1
  {
    DrivePlus(rd, s, x);
    var (o, s') := Drive(rd, s);
    if o == Done {
      DoneConsumes(rd, s);
      AgainPlus(s', x);
      SteadyLater(rd, Again(s'), x);
    } else if Fits(rd, Plus(s, x)) {
      FitsLater(rd, s, x);
    }
  }

  /** A failure on a long line is the failure of the whole, after the same requests. */
  lemma {:induction false} SteadyOverlong(rd: Reader, s: State, x: string)
    requires Valid(s) && Serve(rd, s).outcome == Overlong && Steady(rd, Plus(s, x))
    ensures Serve(rd, Plus(s, x)).requests == Serve(rd, s).requests
    ensures Answer(Serve(rd, Plus(s, x)).outcome) == Failure
    decreases |s.cache|, if s.phase == FirstLine then 0 else 1
  {
    DrivePlus(rd, s, x);
    var (o, s') := Drive(rd, s);
    if o == Done {
      DoneConsumes(rd, s);
      AgainPlus(s', x);
      SteadyOverlong(rd, Again(s'), x);
    } else if Fits(rd, Plus(s, x)) {
      OverlongStands(rd, s, x);
    }
  }

  /** The requests, and whether the connection goes on, fails or throws. */
  function Verdicts(v: Service): (seq<Request>, Verdict) { (v.requests, Answer(v.outcome)) }

  /** However the bytes are cut, the same requests come out in the same order, with the same answer at the
      end; and if that is not a failure on a long line, the bytes left are those not used. */
  lemma {:induction false} ServeAgrees(rd: Reader, s: State, chunks: seq<string>)
    requires Waiting(rd, s) && Steady(rd, Plus(s, Concat(chunks)))
    ensures var (v, rest) := ServeAll(rd, s, chunks);
            var whole := Serve(rd, Plus(s, Concat(chunks)));
            && Verdicts(v) == Verdicts(whole)
            && (v.outcome != Overlong ==> whole.outcome == v.outcome && whole.state == Plus(v.state, Concat(rest)))
    decreases |chunks|
  {
    if chunks == [] {
      assert Plus(s, "") == s;
    } else {
      var t, later := Plus(s, chunks[0]), Concat(chunks[1..]);
      PlusPlus(s, chunks[0], later);
      ServePlus(rd, t, later);
      var v := Serve(rd, t);
      if v.outcome == More {
        ServeIsWaiting(rd, t);
        SteadyLater(rd, t, later);
        ServeAgrees(rd, v.state, chunks[1..]);
      } else if v.outcome == Overlong {
        SteadyOverlong(rd, t, later);
      }
    }
  }

  /** The first `k` bytes hold the first line, if that fits. */
  predicate Reaches(c: string, k: nat) {
    k <= |c| && (HasLine(c) && LineEnd(c) < MAX_LINE ==> LineEnd(c) + 2 <= k)
  }

  /** A request that is done is done as soon as its bytes are there, and the last chunk if there is one. */
  lemma {:induction false} DoneInCut(rd: Reader, s: State, s': State, m: nat, j: nat)
    requires Valid(s) && Drive(rd, s) == (Done, s') && Fits(rd, s)
    requires m + |s'.cache| == |s.cache| + j && Reaches(s'.cache, j)
    ensures m <= |s.cache| && Drive(rd, Cut(s, m)) == (Done, Cut(s', j))
    decreases |s.cache|
  {
    match Step(rd, s)
    case Next(t) =>
      DoneConsumes(rd, t);
      var k := m - (|s.cache| - |t.cache|);
      DoneInCut(rd, t, s', k, j);
      StepInCut(rd, s, m);
      DriveNext(rd, Cut(s, m), Cut(t, k));
    case Stop(_, _) => StopInCut(rd, s, s', m, j);
  }

  lemma DriveNext(rd: Reader, s: State, t: State)
    requires Valid(s) && Step(rd, s) == Next(t)
    ensures Valid(t) && Drive(rd, s) == Drive(rd, t)
  {
  }

  lemma StopInCut(rd: Reader, s: State, s': State, m: nat, j: nat)
    requires Valid(s) && Step(rd, s) == Stop(Done, s') && Fits(rd, s)
    requires m + |s'.cache| == |s.cache| + j && Reaches(s'.cache, j)
    ensures m <= |s.cache| && Step(rd, Cut(s, m)) == Stop(Done, Cut(s', j))
  {
    if s.phase == LengthBody {
      LengthInCut(s, m);
    } else {
      LastChunkInCut(rd, s, m);
    }
  }

  lemma LastChunkInCut(rd: Reader, s: State, m: nat)
    requires s.phase == ChunkBody && s.req.Some? && Step(rd, s) == Stop(Done, s) && HasLine(s.cache)
    requires LineEnd(s.cache) + 2 <= m <= |s.cache|
    ensures Step(rd, Cut(s, m)) == Stop(Done, Cut(s, m))
  {
    LineInCut(s.cache, m);
    assert s.cache[..m][..LineEnd(s.cache)] == s.cache[..LineEnd(s.cache)];
  }

  lemma LengthInCut(s: State, m: nat)
    requires s.req.Some? && s.length <= m <= |s.cache|
    ensures StepLength(Cut(s, m)) == Stop(Done, Cut(StepLength(s).s, m - s.length))
  {
    assert s.cache[..m][..s.length] == s.cache[..s.length];
    assert s.cache[..m][s.length..] == s.cache[s.length..][..m - s.length];
  }

  lemma BadCutIsLate(rd: Reader, s: State)
    requires Valid(s) && s.phase == FirstLine && !Fits(rd, s)
    ensures Reaches(s.cache, BadCut(rd, s))
  {
    if HasLine(s.cache) && LineEnd(s.cache) < MAX_LINE {
      Consumes(rd, s);
    }
  }

  /** The first `k` bytes fail on a long line, and the whole says something else. */
  ghost predicate Differs(rd: Reader, s: State, k: nat)
    requires Valid(s)
  {
    && k <= |s.cache| && Serve(rd, Cut(s, k)).outcome == Overlong
    && Verdicts(Serve(rd, Cut(s, k))) != Verdicts(Serve(rd, s))
  }

  lemma LongLineDiffers(rd: Reader, s: State)
    requires Valid(s) && !Steady(rd, s) && !Fits(rd, s)
    ensures Differs(rd, s, BadCut(rd, s))
  {
    BadCutFails(rd, s);
    if Drive(rd, s).0 == Done {
      ServeOne(rd, s);
    }
  }

  /** What differs behind a request that is done differs with it in front. */
  lemma DiffersBehind(rd: Reader, s: State, s': State, k: nat, j: nat)
    requires Valid(s) && Drive(rd, s) == (Done, s') && Fits(rd, s)
    requires k + |s'.cache| == |s.cache| + j && Reaches(s'.cache, j) && Differs(rd, Again(s'), j)
    ensures Differs(rd, s, k)
  {
    DoneInCut(rd, s, s', k, j);
    ServeOne(rd, s);
    ServeOne(rd, Cut(s, k));
    AgainCut(s', j);
    OneMore(s'.req.value, Serve(rd, Cut(Again(s'), j)), Serve(rd, Again(s')));
  }

  lemma AgainCut(s: State, k: nat)
    requires k <= |s.cache|
    ensures Again(Cut(s, k)) == Cut(Again(s), k)
  {
  }

  lemma OneMore(r: Request, v: Service, w: Service)
    requires Verdicts(v) != Verdicts(w)
    ensures Verdicts(Behind([r], v)) != Verdicts(Behind([r], w))
  {
    assert ([r] + v.requests)[1..] == v.requests && ([r] + w.requests)[1..] == w.requests;
  }

  /** Without that condition, some beginning of the bytes fails on a long line where the whole does not. */
  lemma {:induction false} UnsteadyDiffers(rd: Reader, s: State) returns (k: nat)
    requires Valid(s) && s.phase == FirstLine && !Steady(rd, s)
    ensures Differs(rd, s, k) && Reaches(s.cache, k)
    decreases |s.cache|
  {
    if !Fits(rd, s) {
      k := BadCut(rd, s);
      BadCutIsLate(rd, s);
      LongLineDiffers(rd, s);
    } else {
      DoneConsumes(rd, s);
      var s' := Drive(rd, s).1;
      var j := UnsteadyDiffers(rd, Again(s'));
      k := |s.cache| - |s'.cache| + j;
      DiffersBehind(rd, s, s', k, j);
    }
  }

  ghost predicate ServiceIndependent(rd: Reader, bytes: string) {
    forall chunks: seq<string> :: Concat(chunks) == bytes ==>
      Verdicts(ServeAll(rd, INITIAL, chunks).0) == Verdicts(Serve(rd, Plus(INITIAL, bytes)))
  }

  /** The requests of a connection do not depend on how its bytes are cut if and only if the lines of
      those that are done fit, and those behind them fit or fail. */
  lemma ServiceIndependence(rd: Reader, bytes: string)
    ensures ServiceIndependent(rd, bytes) <==> Steady(rd, Plus(INITIAL, bytes))
  {
    if Steady(rd, Plus(INITIAL, bytes)) {
      forall chunks: seq<string> | Concat(chunks) == bytes
        ensures Verdicts(ServeAll(rd, INITIAL, chunks).0) == Verdicts(Serve(rd, Plus(INITIAL, bytes)))
      {
        ServeAgrees(rd, INITIAL, chunks);
      }
    } else {
      var chunks := UnsteadyCut(rd, INITIAL, bytes);
    }
  }

  lemma UnsteadyCut(rd: Reader, s: State, bytes: string) returns (chunks: seq<string>)
    requires Valid(s) && s.phase == FirstLine && s.cache == "" && !Steady(rd, Plus(s, bytes))
    ensures Concat(chunks) == bytes
    ensures Verdicts(ServeAll(rd, s, chunks).0) != Verdicts(Serve(rd, Plus(s, bytes)))
  {
    EmptyPlus(s, bytes);
    var k := UnsteadyDiffers(rd, Plus(s, bytes));
    EmptyPlus(s, bytes[..k]);
    InTwo(bytes, k);
    chunks := [bytes[..k], bytes[k..]];
    FirstServiceDecides(rd, s, bytes[..k], bytes[k..]);
  }

  lemma FirstServiceDecides(rd: Reader, s: State, a: string, b: string)
    requires Valid(s) && Serve(rd, Plus(s, a)).outcome == Overlong
    ensures ServeAll(rd, s, [a, b]).0 == Serve(rd, Plus(s, a))
  {
  }

  // ---- requests sent without waiting for the answers ----

  /** Alone in the buffer it is done, in lines that fit, and nothing is left. */
  predicate Complete(rd: Reader, text: string) {
    var (o, s) := OneShot(rd, text);
    o == Done && s.cache == "" && s.req.Some? && Fits(rd, Plus(INITIAL, text))
  }

  function Alone(rd: Reader, text: string): Request
    requires Complete(rd, text)
  {
    OneShot(rd, text).1.req.value
  }

  function EachAlone(rd: Reader, texts: seq<string>): seq<Request>
    requires forall i :: 0 <= i < |texts| ==> Complete(rd, texts[i])
  {
    seq(|texts|, i requires 0 <= i < |texts| => Alone(rd, texts[i]))
  }

  lemma {:induction false} FitsPlus(rd: Reader, s: State, x: string)
    requires Valid(s) && Fits(rd, s) && Drive(rd, s).0 == Done
    ensures Fits(rd, Plus(s, x))
    decreases |s.cache|
  {
    StepPlus(rd, s, x);
    if s.phase != LengthBody {
      LineStays(s.cache, x);
    }
    match Step(rd, s)
    case Next(s') => FitsPlus(rd, s', x);
    case Stop(_, _) =>
  }

  /** With more behind it, it leaves exactly that. */
  lemma CompletePlus(rd: Reader, text: string, x: string)
    requires Complete(rd, text)
    ensures var (o, s) := Feed(rd, INITIAL, text + x);
            o == Done && s.req == Some(Alone(rd, text)) && Again(s) == INITIAL.(cache := x)
    ensures Fits(rd, Plus(INITIAL, text + x))
  {
    PlusPlus(INITIAL, text, x);
    DrivePlus(rd, Plus(INITIAL, text), x);
    FitsPlus(rd, Plus(INITIAL, text), x);
    EmptyPlus(OneShot(rd, text).1, x);
  }

  lemma CompleteFirst(rd: Reader, text: string, x: string)
    requires Complete(rd, text) && Steady(rd, Plus(INITIAL, x))
    ensures Steady(rd, Plus(INITIAL, text + x))
    ensures Serve(rd, Plus(INITIAL, text + x)) == Behind([Alone(rd, text)], Serve(rd, Plus(INITIAL, x)))
  {
    CompletePlus(rd, text, x);
    EmptyPlus(INITIAL, x);
    DoneConsumes(rd, Plus(INITIAL, text + x));
    ServeOne(rd, Plus(INITIAL, text + x));
  }

  lemma ServeNothing(rd: Reader)
    ensures Steady(rd, Plus(INITIAL, "")) && Verdicts(Serve(rd, Plus(INITIAL, ""))) == ([], Indeterminate)
  {
    assert Step(rd, Plus(INITIAL, "")).Stop?;
  }

  lemma EachInTurn(rd: Reader, texts: seq<string>)
    requires texts != [] && forall i :: 0 <= i < |texts| ==> Complete(rd, texts[i])
    ensures EachAlone(rd, texts) == [Alone(rd, texts[0])] + EachAlone(rd, texts[1..])
  {
  }

  lemma {:induction false} ServeInTurn(rd: Reader, texts: seq<string>)
    requires forall i :: 0 <= i < |texts| ==> Complete(rd, texts[i])
    ensures Steady(rd, Plus(INITIAL, Concat(texts)))
    ensures Verdicts(Serve(rd, Plus(INITIAL, Concat(texts)))) == (EachAlone(rd, texts), Indeterminate)
    decreases |texts|
  {
    if texts == [] {
      ServeNothing(rd);
      assert EachAlone(rd, texts) == [];
    } else {
      ServeInTurn(rd, texts[1..]);
      CompleteFirst(rd, texts[0], Concat(texts[1..]));
      EachInTurn(rd, texts);
    }
  }

  /** Complete requests that come one behind the other, cut anywhere, are served each as if it had come
      alone, all of them and in their order, and the parser waits for the next. */
  lemma Pipelined(rd: Reader, texts: seq<string>, cuts: seq<string>)
    requires forall i :: 0 <= i < |texts| ==> Complete(rd, texts[i])
    requires Concat(cuts) == Concat(texts)
    ensures Verdicts(ServeAll(rd, INITIAL, cuts).0) == (EachAlone(rd, texts), Indeterminate)
  {
    ServeInTurn(rd, texts);
    ServeAgrees(rd, INITIAL, cuts);
  }

  // ---- behind a chunked request ----

  /** The last chunk is not taken from the buffer, and it is no request line. */
  lemma LastChunkIsNoRequest(tail: string)
    ensures Serve(HTTP, INITIAL.(cache := LastChunk() + tail)).requests == []
    ensures Serve(HTTP, INITIAL.(cache := LastChunk() + tail)).outcome == Bad
    ensures Steady(HTTP, INITIAL.(cache := LastChunk() + tail))
  {
    var s := INITIAL.(cache := LastChunk() + tail);
    LineOf(Hex(0), "\r\n" + tail);
    assert s.cache == Hex(0) + "\r\n" + ("\r\n" + tail);
    LineStep(HTTP, s);
    assert RequestOf(s.cache[..1]) == None;
  }

  lemma OneThenBad(rd: Reader, s: State, s': State)
    requires Valid(s) && Drive(rd, s) == (Done, s') && Fits(rd, s) && Steady(rd, Again(s'))
    requires Serve(rd, Again(s')).requests == [] && Serve(rd, Again(s')).outcome == Bad
    ensures s'.req.Some? && Steady(rd, s) && Verdicts(Serve(rd, s)) == ([s'.req.value], Failure)
  {
    DoneConsumes(rd, s);
    ServeOne(rd, s);
    assert [s'.req.value] + [] == [s'.req.value];
  }

  /** So nothing gets through behind a chunked request: however its bytes are cut and whatever follows, a
      caller that starts again is served this request and then told that the next one is bad. */
  lemma NothingBehindChunks(head: string, s: State, chunks: seq<string>, tail: string, cuts: seq<string>)
    requires Feed(HTTP, INITIAL, head) == (More, s) && Fits(HTTP, Plus(INITIAL, head))
    requires s.phase == ChunkBody && s.req.Some? && s.cache == "" && Encodable(chunks)
    requires Concat(cuts) == head + (Encode(chunks) + tail)
    ensures Verdicts(ServeAll(HTTP, INITIAL, cuts).0)
         == ([s.req.value.(body := s.req.value.body + Concat(chunks))], Failure)
  {
    WholeBody(s, chunks, tail);
    HeadThenBody(head, s, Encode(chunks) + tail);
    LastChunkIsNoRequest(tail);
    OneThenBad(HTTP, Plus(INITIAL, Concat(cuts)), AppendBody(s, LastChunk() + tail, Concat(chunks)));
    ServeAgrees(HTTP, INITIAL, cuts);
  }

  // ---- a request that depends on how it is cut ----

  /** A request line that the parser takes for one, with a method that it knows. */
  predicate GoodLine(line: string) {
    && (forall i :: 0 <= i < |line| ==> line[i] != '\r')
    && RequestOf(line).Some? && RequestOf(line).value.verb != Unset
  }

  /** The request line alone, and the empty line that ends the headers. */
  function Bare(line: string): string { line + "\r\n" + "\r\n" }

  lemma BareLine(line: string)
    requires forall i :: 0 <= i < |line| ==> line[i] != '\r'
    ensures LineEnd(Bare(line)) == |line| < |Bare(line)|
    ensures Bare(line)[..|line|] == line && Bare(line)[|line| + 2..] == "\r\n"
  {
    LineOf(line, "\r\n");
  }

  lemma BareFirstStep(line: string)
    requires GoodLine(line)
    ensures Step(HTTP, INITIAL.(cache := Bare(line))) == Next(State(Headers, "\r\n", 0, RequestOf(line)))
  {
    BareLine(line);
    FirstStep(HTTP, INITIAL.(cache := Bare(line)), |line|, RequestOf(line).value);
  }

  /** A first line that is accepted. */
  lemma FirstStep(rd: Reader, s: State, pos: nat, r: Request)
    requires s.phase == FirstLine && LineEnd(s.cache) == pos < |s.cache|
    requires rd.first(s.length, s.cache[..pos]) == Accept(Headers, s.length, r)
    ensures Step(rd, s) == Next(State(Headers, s.cache[pos + 2..], s.length, Some(r)))
  {
    LineStep(rd, s);
  }

  lemma EmptyLineEndsHeaders(r: Request)
    requires r.headers == map[]
    ensures Step(HTTP, State(Headers, "\r\n", 0, Some(r))) == Next(State(LengthBody, "", 0, Some(r)))
  {
    assert LineEnd("\r\n") == 0;
    assert "\r\n"[..0] == "" && "\r\n"[2..] == "";
    assert OnHeaderLine(r, 0, "") == Accept(LengthBody, 0, r);
  }

  lemma NoBodyIsDone(r: Request)
    requires r.body == ""
    ensures Drive(HTTP, State(LengthBody, "", 0, Some(r))) == (Done, State(LengthBody, "", 0, Some(r)))
  {
    assert ""[..0] == "" && ""[0..] == "";
  }

  lemma TwoSteps(rd: Reader, s0: State, s1: State, s2: State)
    requires Valid(s0) && Valid(s1) && Step(rd, s0) == Next(s1) && Step(rd, s1) == Next(s2)
    ensures Valid(s2) && Drive(rd, s0) == Drive(rd, s2)
  {
  }

  lemma RequestIsBare(line: string)
    requires RequestOf(line).Some?
    ensures RequestOf(line).value.headers == map[] && RequestOf(line).value.body == ""
  {
  }

  /** The first two steps on such a request. */
  lemma BareSteps(line: string, r: Request)
    requires GoodLine(line) && RequestOf(line) == Some(r)
    ensures Step(HTTP, INITIAL.(cache := Bare(line))) == Next(State(Headers, "\r\n", 0, Some(r)))
    ensures Step(HTTP, State(Headers, "\r\n", 0, Some(r))) == Next(State(LengthBody, "", 0, Some(r)))
    ensures r.body == "" && LineEnd(Bare(line)) == |line| < |Bare(line)| && LineEnd("\r\n") == 0
  {
    BareLine(line);
    BareFirstStep(line);
    RequestIsBare(line);
    EmptyLineEndsHeaders(r);
    assert LineEnd("\r\n") == 0;
  }

  lemma BareIsDone(line: string, r: Request)
    requires GoodLine(line) && RequestOf(line) == Some(r)
    ensures OneShot(HTTP, Bare(line)) == (Done, State(LengthBody, "", 0, Some(r)))
  {
    EmptyPlus(INITIAL, Bare(line));
    BareSteps(line, r);
    NoBodyIsDone(r);
    TwoSteps(HTTP, INITIAL.(cache := Bare(line)), State(Headers, "\r\n", 0, Some(r)), State(LengthBody, "", 0, Some(r)));
  }

  /** Every request line of 1024 bytes or more depends on how it is cut: whole it is done, and there is a
      cut that fails. */
  lemma LongLineDepends(line: string) returns (cuts: seq<string>)
    requires GoodLine(line) && |line| >= 1024
    ensures Answer(OneShot(HTTP, Bare(line)).0) == Success
    ensures Concat(cuts) == Bare(line) && Answer(FeedAll(HTTP, INITIAL, cuts).0) == Failure
    ensures !SplitIndependent(HTTP, Bare(line))
  {
    BareIsDone(line, RequestOf(line).value);
    LongLineDoesNotFit(HTTP, line);
    cuts := OverlongFails(HTTP, INITIAL, Bare(line));
  }

  lemma LongLineDoesNotFit(rd: Reader, line: string)
    requires (forall i :: 0 <= i < |line| ==> line[i] != '\r') && |line| >= MAX_LINE
    ensures !Fits(rd, Plus(INITIAL, Bare(line)))
  {
    BareLineEnd(line);
    LongTextDoesNotFit(rd, INITIAL, Bare(line));
  }

  lemma BareLineEnd(line: string)
    requires forall i :: 0 <= i < |line| ==> line[i] != '\r'
    ensures LineEnd(Bare(line)) == |line| < |Bare(line)|
  {
    BareLine(line);
  }

  lemma LongTextDoesNotFit(rd: Reader, s: State, c: string)
    requires Valid(s) && s.phase == FirstLine && s.cache == "" && MAX_LINE <= LineEnd(c) < |c|
    ensures !Fits(rd, Plus(s, c))
  {
    OverLimit(rd, s.(cache := c));
    FitsAlone(rd, s, c);
  }

  lemma FitsAlone(rd: Reader, s: State, c: string)
    requires Valid(s) && s.cache == ""
    ensures Fits(rd, Plus(s, c)) == Fits(rd, s.(cache := c))
  {
    EmptyPlus(s, c);
  }

  lemma OverLimit(rd: Reader, s: State)
    requires Valid(s) && s.phase != LengthBody && Limit(s.phase) <= LineEnd(s.cache) < |s.cache|
    ensures !Fits(rd, s)
  {
  }

  /** And every shorter one does not. */
  lemma ShortLineAgrees(line: string)
    requires GoodLine(line) && |line| < 1024
    ensures SplitIndependent(HTTP, Bare(line))
  {
    ShortLineFits(line, RequestOf(line).value);
    SplitIndependence(HTTP, Bare(line));
  }

  lemma ShortLineFits(line: string, r: Request)
    requires GoodLine(line) && |line| < MAX_LINE && RequestOf(line) == Some(r)
    ensures Fits(HTTP, Plus(INITIAL, Bare(line)))
  {
    EmptyPlus(INITIAL, Bare(line));
    BareSteps(line, r);
    TwoLinesFit(HTTP, INITIAL.(cache := Bare(line)), State(Headers, "\r\n", 0, Some(r)), State(LengthBody, "", 0, Some(r)));
  }

  /** So requests of one short line each can follow one another. */
  lemma BareIsComplete(line: string)
    requires GoodLine(line) && |line| < 1024
    ensures Complete(HTTP, Bare(line)) && Alone(HTTP, Bare(line)) == RequestOf(line).value
  {
    BareIsDone(line, RequestOf(line).value);
    ShortLineFits(line, RequestOf(line).value);
  }

  lemma TwoLinesFit(rd: Reader, s0: State, s1: State, s2: State)
    requires Valid(s0) && Valid(s1) && s0.phase == FirstLine && s1.phase == Headers && s2.phase == LengthBody
    requires Step(rd, s0) == Next(s1) && Step(rd, s1) == Next(s2)
    requires LineEnd(s0.cache) < MAX_LINE && LineEnd(s1.cache) < MAX_LINE
    ensures Fits(rd, s0)
  {
    assert Fits(rd, s2);
    assert Fits(rd, s1);
  }

  lemma IndexIs(s: string, c: char, from: nat, k: nat)
    requires from <= k < |s| && s[k] == c && forall i :: from <= i < k ==> s[i] != c
    ensures IndexOf(s, c, from) == k
  {
  }

  /** A path of `n` letters. */
  function LongGet(n: nat): string { "GET /" + seq(n, _ => 'a') + " HTTP/1.1" }

  lemma LongGetAt(n: nat)
    ensures var line := LongGet(n);
            && |line| == n + 14 && line[0] == 'G' && line[3] == ' ' && line[n + 5] == ' ' && line[..3] == "GET"
            && (forall i :: 0 <= i < n + 5 && i != 3 ==> line[i] != ' ')
            && forall i :: 0 <= i < |line| ==> line[i] != '\r'
  {
    assert LongGet(n)[..3] == "GET";
  }

  lemma SpacesOf(line: string, a: nat, b: nat)
    requires a < b < |line| && line[a] == ' ' && line[b] == ' '
    requires forall i :: 0 <= i < b && i != a ==> line[i] != ' '
    ensures IndexOf(line, ' ', 0) == a && IndexOf(line, ' ', a + 1) == b
  {
    IndexIs(line, ' ', 0, a);
    IndexIs(line, ' ', a + 1, b);
  }

  lemma RequestIs(line: string, a: nat, b: nat)
    requires |line| >= MIN_FIRST_LINE && !SameIgnoringCase("HTTP/1.", line[..7])
    requires a < b < |line| && IndexOf(line, ' ', 0) == a && IndexOf(line, ' ', a + 1) == b
    ensures RequestOf(line) == Some(Request(MethodOf(line[..a]), line[a + 1..b], map[], ""))
  {
  }

  lemma LongGetIsGood(n: nat)
    ensures GoodLine(LongGet(n)) && |LongGet(n)| == n + 14
  {
    LongGetAt(n);
    SpacesOf(LongGet(n), 3, n + 5);
    NotResponse(LongGet(n)[..7]);
    RequestIs(LongGet(n), 3, n + 5);
  }

  lemma NotResponse(s: string)
    requires |s| == 7 && s[0] == 'G'
    ensures !SameIgnoringCase("HTTP/1.", s)
  {
    assert CStr(s) == "" || CStr(s)[0] == 'G';
    assert CStr("HTTP/1.") != "" && CStr("HTTP/1.")[0] == 'H';
    assert LowerAll(CStr("HTTP/1."))[0] == 'h';
  }

  /** `GET /aaa... HTTP/1.1` with 1024 letters. */
  lemma LongGetDepends() returns (cuts: seq<string>)
    ensures Answer(OneShot(HTTP, Bare(LongGet(1024))).0) == Success
    ensures Concat(cuts) == Bare(LongGet(1024)) && Answer(FeedAll(HTTP, INITIAL, cuts).0) == Failure
  {
    LongGetIsGood(1024);
    cuts := LongLineDepends(LongGet(1024));
  }

  // ---- the parser object ----

  /** `LeadingSpaces` by the source's loop. */
  method TrimLeft(s: string) returns (i: nat)
    ensures i == LeadingSpaces(s)
  {
    i := 0;
    while i < |s| && s[i] == ' '
      invariant i <= |s| && LeadingSpaces(s) == i + LeadingSpaces(s[i..])
    {
      assert s[i..][1..] == s[i + 1..];
      i := i + 1;
    }
  }

  /** `LastNonSpace` by the source's loop, which never looks at index 0. */
  method TrimRight(s: string) returns (i: nat)
    requires s != ""
    ensures i == LastNonSpace(s, |s| - 1)
  {
    i := |s| - 1;
    while i > 0 && s[i] == ' '
      invariant i < |s| && LastNonSpace(s, |s| - 1) == LastNonSpace(s, i)
    {
      i := i - 1;
    }
  }

  class HttpParser {
    var phase: Phase
    var cache: string
    var length: nat
    var req: Option<Request>

    function Now(): State
      reads this
    {
      State(phase, cache, length, req)
    }

    constructor ()
      ensures Now() == INITIAL
    {
      phase, cache, length, req := FirstLine, "", 0, None;
    }

    /** Appends to the buffer and runs the function of the current phase. */
    method Parse(data: string) returns (v: Verdict)
      requires Valid(Now())
      modifies this
      ensures v == Answer(Feed(HTTP, old(Now()), data).0) && Now() == Feed(HTTP, old(Now()), data).1
    {
      cache := cache + data;
      match phase
      case FirstLine => v := ParseFirstLine();
      case Headers => v := ParseHeaders();
      case LengthBody => v := ParseBodyWithLength();
      case ChunkBody => v := ParseBodyWithChunk();
    }

    /** Starts again on what is left in the buffer. */
    method ParseRest() returns (v: Verdict)
      modifies this
      ensures v == Answer(Drive(HTTP, Again(old(Now()))).0) && Now() == Drive(HTTP, Again(old(Now()))).1
    {
      phase, length, req := FirstLine, 0, None;
      v := ParseFirstLine();
    }

    /** With `length` bytes in the buffer they are the body, and leave it. */
    method ParseBodyWithLength() returns (v: Verdict)
      requires phase == LengthBody && req.Some?
      modifies this
      ensures v == Answer(Drive(HTTP, old(Now())).0) && Now() == Drive(HTTP, old(Now())).1
      ensures v == if old(|cache| >= length) then Success else Indeterminate
      ensures v.Success? ==> req.Some? && req.value.body + cache == old(cache) && |req.value.body| == old(length)
    {
      if |cache| >= length {
        req := Some(req.value.(body := cache[..length]));
        cache := cache[length..];
        return Success;
      }
      return Indeterminate;
    }

    method ParseBodyWithChunk() returns (v: Verdict)
      requires phase == ChunkBody && req.Some?
      modifies this
      ensures v == Answer(Drive(HTTP, old(Now())).0) && Now() == Drive(HTTP, old(Now())).1
    {
      while true
        invariant phase == ChunkBody && req.Some?
        invariant Drive(HTTP, Now()) == Drive(HTTP, old(Now()))
        decreases |cache|
      {
        var r := ParseChunk();
        if r.Some? {
          return r.value;
        }
      }
    }

    /** One round of the loop: the verdict if it returns, `None` if it goes round again. */
    method ParseChunk() returns (v: Option<Verdict>)
      requires phase == ChunkBody && req.Some?
      modifies this
      ensures phase == ChunkBody && req.Some?
      ensures match Step(HTTP, old(Now()))
              case Stop(o, s) => v == Some(Answer(o)) && Now() == s
              case Next(s) => v == None && Now() == s
    {
      var pos := LineEnd(cache);
      if pos == |cache| {
        return Some(if |cache| > MAX_CHUNK_LINE then Failure else Indeterminate);
      }
      var len := ChunkSize(cache[..pos]);
      assert Step(HTTP, Now()) == StepChunk(Now(), pos, len);
      if len == 0 {
        return Some(Success);
      } else if |cache| - pos < (len + 4) % WORD {
        return Some(Indeterminate);
      }
      v := TakeChunk(pos, len);
    }

    /** Erases the size line, appends the data and erases it; `append` throws on an absurd size. */
    method TakeChunk(pos: nat, len: nat) returns (v: Option<Verdict>)
      requires phase == ChunkBody && req.Some? && pos + 2 <= |cache| && len > 0 && Arrived(Now(), pos, len)
      modifies this
      ensures StepChunk(old(Now()), pos, len) == if v.Some? then Stop(Raised, Now()) else Next(Now())
      ensures v.Some? ==> v.value == Thrown
      ensures phase == ChunkBody && req.Some? && |cache| < old(|cache|)
    {
      if len + 4 >= WORD {
        cache := cache[pos + 2..];
        return Some(Thrown);
      }
      req := Some(req.value.(body := req.value.body + cache[pos + 2..pos + 2 + len]));
      cache := cache[pos + len + 4..];
      v := None;
    }

    /** The body function that the headers chose. */
    method ParseBody() returns (v: Verdict)
      requires (phase == ChunkBody || phase == LengthBody) && req.Some?
      modifies this
      ensures v == Answer(Drive(HTTP, old(Now())).0) && Now() == Drive(HTTP, old(Now())).1
    {
      if phase == ChunkBody {
        v := ParseBodyWithChunk();
      } else {
        v := ParseBodyWithLength();
      }
    }

    method ParseHeaders() returns (v: Verdict)
      requires phase == Headers && req.Some?
      modifies this
      ensures v == Answer(Drive(HTTP, old(Now())).0) && Now() == Drive(HTTP, old(Now())).1
      decreases |cache|
    {
      var r := ParseHeader();
      if r.Some? {
        return r.value;
      }
      if phase == Headers {
        v := ParseHeaders();
      } else {
        v := ParseBody();
      }
    }

    /** One line of the headers: the verdict if the call returns, `None` if it goes on. */
    method ParseHeader() returns (v: Option<Verdict>)
      requires phase == Headers && req.Some?
      modifies this
      ensures phase != FirstLine && req.Some?
      ensures match Step(HTTP, old(Now()))
              case Stop(o, s) => v == Some(Answer(o)) && Now() == s
              case Next(s) => v == None && Now() == s
    {
      var pos := LineEnd(cache);
      if pos == |cache| {
        return Some(if |cache| > MAX_LINE then Failure else Indeterminate);
      }
      LineStep(HTTP, Now());
      var line := cache[..pos];
      cache := cache[pos + 2..];
      if line == "" {
        EndHeaders();
        return None;
      }
      var ok := AddHeader(line);
      v := if ok then None else Some(Failure);
    }

    /** A header line: key and value around the first colon, trimmed on the sides that face it. */
    method AddHeader(line: string) returns (ok: bool)
      requires req.Some?
      modifies this`req
      ensures ok == HeaderOf(line).Some?
      ensures req == if !ok then old(req) else
        var r, h := old(req).value, HeaderOf(line).value; Some(r.(headers := r.headers[h.0 := h.1]))
    {
      var mid := IndexOf(line, ':', 0);
      if mid == |line| || mid == 0 {
        return false;
      }
      var key, value := line[..mid], line[mid + 1..];
      var last := TrimRight(key);
      var first := TrimLeft(value);
      req := Some(req.value.(headers := req.value.headers[LowerAll(key[..last + 1]) := value[first..]]));
      ok := true;
    }

    method EndHeaders()
      requires phase == Headers && req.Some?
      modifies this
      ensures cache == old(cache) && req == old(req) && phase != FirstLine && phase != Headers
      ensures Accept(phase, length, req.value) == OnHeaderLine(old(req.value), old(length), "")
    {
      phase := LengthBody;
      var encoding := Header(req.value, "transfer-encoding");
      if encoding != "" {
        if SameIgnoringCase("CHUNKED", encoding) {
          phase := ChunkBody;
        }
      } else {
        var given := Header(req.value, "content-length");
        length := if given != "" then ToSize(StrToL(given, 10)) else 0;
      }
    }

    method ParseFirstLine() returns (v: Verdict)
      requires phase == FirstLine
      modifies this
      ensures v == Answer(Drive(HTTP, old(Now())).0) && Now() == Drive(HTTP, old(Now())).1
    {
      var pos := LineEnd(cache);
      if pos == |cache| {
        return if |cache| > MAX_LINE then Failure else Indeterminate;
      }
      var line := cache[..pos];
      ghost var rest := cache[pos + 2..];
      assert Step(HTTP, Now()) == StepLine(Now(), rest, OnFirstLine(length, line));
      cache := cache[pos + 2..];
      var ok := ParseRequestLine(line);
      if !ok {
        return Failure;
      }
      v := ParseHeaders();
    }

    method ParseRequestLine(line: string) returns (ok: bool)
      requires phase == FirstLine
      modifies this
      ensures StepLine(old(Now()), cache, OnFirstLine(old(length), line))
           == if ok then Next(Now()) else Stop(Bad, Now())
      ensures cache == old(cache) && (ok ==> phase == Headers && req.Some?)
    {
      if MIN_FIRST_LINE > |line| || SameIgnoringCase("HTTP/1.", line[..7]) {
        return false;
      }
      var first := IndexOf(line, ' ', 0);
      if first == |line| {
        return false;
      }
      var second := IndexOf(line, ' ', first + 1);
      if second == |line| {
        return false;
      }
      var verb := MethodOf(line[..first]);
      req := Some(Request(verb, line[first + 1..second], map[], ""));
      if verb == Unset {
        return false;
      }
      phase := Headers;
      return true;
    }
  }
}
