/** The JSON printer and parser. Texts are NUL-free byte strings; the end of a text is where the
    source meets its terminator. These functions on the text that remains specify the parser object. */
module Jsons {
  import opened Commons
  import opened JsonNumbers

  /** Objects keep their members sorted by key, as the source's map does. Strings and keys hold their
      escapes as written. */
  datatype Json =
    | Null
    | Bool(b: bool)
    | Number(value: real)
    | Str(raw: string)
    | Arr(items: seq<Json>)
    | Obj(members: seq<Member>)

  datatype Member = Member(key: string, value: Json)

  datatype Result<T> = Fail | Ok(value: T, rest: string)

  // ---- tokens ----

  predicate IsBlank(c: char) { c == ' ' || c == '\t' || c == '\n' || c == '\r' }

  function SkipBlanks(t: string): (r: string)
    ensures |r| <= |t| && (r != "" ==> !IsBlank(r[0]))
  {
    if t != "" && IsBlank(t[0]) then SkipBlanks(t[1..]) else t
  }

  function Specific(t: string, word: string): (r: Result<()>)
    ensures r.Ok? ==> |t| == |word| + |r.rest|
  {
    if word <= t then Ok((), t[|word|..]) else Fail
  }

  predicate IsControl(c: char) { c < ' ' || c == 127 as char }

  predicate IsHex(c: char) { IsDigit(c) || 'a' <= c <= 'f' || 'A' <= c <= 'F' }

  /** Length of the escape or plain character at the front of a string body, zero if there is none. */
  function Unit(t: string): (n: nat)
    ensures n <= |t|
    ensures n > 0 ==> t[0] != '"'
  {
    if t == "" || t[0] == '"' then 0
    else if t[0] != '\\' then (if IsControl(t[0]) then 0 else 1)
    else if At(t, 1) in "\"\\/bfnrt" then 2
    else if At(t, 1) == 'u' && |t| >= 6 && IsHex(t[2]) && IsHex(t[3]) && IsHex(t[4]) && IsHex(t[5]) then 6
    else 0
  }

  /** The body of a string and what follows its closing quote. */
  function StringBody(t: string): (r: Result<string>)
    ensures r.Ok? ==> |r.rest| < |t|
    decreases |t|
  {
    if t != "" && t[0] == '"' then Ok("", t[1..])
    else
      var n := Unit(t);
      if n == 0 then Fail
      else
        match StringBody(t[n..])
        case Fail => Fail
        case Ok(raw, rest) => Ok(t[..n] + raw, rest)
  }

  function ConsumeString(t: string): (r: Result<string>)
    ensures r.Ok? ==> |r.rest| < |t|
  {
    var u := SkipBlanks(t);
    if u != "" && u[0] == '"' then StringBody(u[1..]) else Fail
  }

  // ---- numbers ----

  function DecValue(s: string): nat
    requires forall i :: 0 <= i < |s| ==> IsDigit(s[i])
  {
    if s == "" then 0
    else
      assert IsDigit(s[|s| - 1]);
      10 * DecValue(s[..|s| - 1]) + (s[|s| - 1] - '0') as nat
  }

  function Pow10(n: nat): (r: real)
    ensures r > 0.0
  {
    if n == 0 then 1.0 else 10.0 * Pow10(n - 1)
  }

  function Digits(t: string, i: nat): string
    requires i <= |t|
  {
    t[i..i + DigitRun(t[i..])]
  }

  lemma DigitsAreDigits(t: string, i: nat)
    requires i <= |t|
    ensures forall k :: 0 <= k < |Digits(t, i)| ==> IsDigit(Digits(t, i)[k])
  {
    RunDigits(t[i..]);
    assert forall k :: 0 <= k < |Digits(t, i)| ==> Digits(t, i)[k] == t[i..][k];
  }

  function DigitsValue(t: string, i: nat): nat
    requires i <= |t|
  {
    DigitsAreDigits(t, i);
    DecValue(Digits(t, i))
  }

  /** Whole part and fraction of a number that begin at `h` and end at `i` and `j`. */
  function Mantissa(t: string, h: nat, i: nat, j: nat): real
    requires h <= i <= j <= |t|
  {
    DigitsValue(t, h) as real + if j == i then 0.0 else DigitsValue(t, i + 1) as real / Pow10(j - i - 1)
  }

  /** The exact decimal value of the number token at the front of the text. */
  function NumberValue(t: string): real
    requires NumberEnd(t).Some?
  {
    var sign := if At(t, 0) == '-' then 1 else 0;
    var i := IntEnd(t, sign).value;
    var j := FracEnd(t, i).value;
    var size := Mantissa(t, sign, i, j);
    var scaled := if !IsE(At(t, j)) then size else Scale(size, t, j + 1);
    if sign == 1 then -scaled else scaled
  }

  function Scale(size: real, t: string, i: nat): real
    requires i <= |t|
  {
    if At(t, i) == '-' then size / Pow10(DigitsValue(t, i + 1))
    else if At(t, i) == '+' then size * Pow10(DigitsValue(t, i + 1))
    else size * Pow10(DigitsValue(t, i))
  }

  lemma TokenAccepted(t: string, n: nat)
    requires NumberEnd(t) == Some(n)
    ensures NumberEnd(t[..n]) == Some(n)
  {
    var minus, a, b, c := AcceptedParts(t);
    assert t[..n][..n] == t[..n];
    StoppedIsAccepted(t[..n], n, minus, a, b, c);
  }

  function ConsumeNumber(t: string): (r: Result<Json>)
    ensures r.Ok? ==> |r.rest| < |t|
  {
    match NumberEnd(t)
    case None => Fail
    case Some(n) =>
      TokenAccepted(t, n);
      Ok(Number(NumberValue(t[..n])), t[n..])
  }

  // ---- values ----

  function ConsumeWord(t: string, word: string, j: Json): (r: Result<Json>)
    requires word != ""
    ensures r.Ok? ==> |r.rest| < |t|
  {
    match Specific(t, word)
    case Fail => Fail
    case Ok(_, rest) => Ok(j, rest)
  }

  /** The consumer chosen by the next character, without blanks around. */
  function Consume(t: string): (r: Result<Json>)
    ensures r.Ok? ==> |r.rest| < |t|
    decreases |t|, 0
  {
    match At(t, 0)
    case '"' => (match StringBody(t[1..])
                 case Fail => Fail
                 case Ok(raw, rest) => Ok(Str(raw), rest))
    case 't' => ConsumeWord(t, "true", Bool(true))
    case 'f' => ConsumeWord(t, "false", Bool(false))
    case 'n' => ConsumeWord(t, "null", Null)
    case '{' =>
      var u := SkipBlanks(t[1..]);
      if At(u, 0) == '}' then Ok(Obj([]), u[1..]) else Members(u, [])
    case '[' =>
      var u := SkipBlanks(t[1..]);
      if At(u, 0) == ']' then Ok(Arr([]), u[1..]) else Elements(u, [])
    case _ => ConsumeNumber(t)
  }

  /** A value with blanks around it. */
  function Value(t: string): (r: Result<Json>)
    ensures r.Ok? ==> |r.rest| < |t|
    decreases |t|, 1
  {
    match Consume(SkipBlanks(t))
    case Fail => Fail
    case Ok(j, rest) => Ok(j, SkipBlanks(rest))
  }

  function Elements(t: string, done: seq<Json>): (r: Result<Json>)
    ensures r.Ok? ==> |r.rest| < |t|
    decreases |t|, 2
  {
    match Value(t)
    case Fail => Fail
    case Ok(j, rest) =>
      if At(rest, 0) == ']' then Ok(Arr(done + [j]), rest[1..])
      else if At(rest, 0) == ',' then Elements(rest[1..], done + [j])
      else Fail
  }

  /** A key, a colon and a value. */
  function Pair(t: string): (r: Result<Member>)
    ensures r.Ok? ==> |r.rest| < |t|
    decreases |t|, 2
  {
    match ConsumeString(t)
    case Fail => Fail
    case Ok(key, rest) =>
      match Specific(SkipBlanks(rest), ":")
      case Fail => Fail
      case Ok(_, after) =>
        match Value(after)
        case Fail => Fail
        case Ok(j, end) => Ok(Member(key, j), end)
  }

  function Members(t: string, done: seq<Member>): (r: Result<Json>)
    ensures r.Ok? ==> |r.rest| < |t|
    decreases |t|, 3
  {
    match Pair(t)
    case Fail => Fail
    case Ok(m, rest) =>
      if At(rest, 0) == '}' then Ok(Obj(Insert(done, m)), rest[1..])
      else if At(rest, 0) == ',' then Members(rest[1..], Insert(done, m))
      else Fail
  }

  lemma ArrayIs(t: string)
    requires At(t, 0) == '['
    ensures var u := SkipBlanks(t[1..]);
            Consume(t) == if At(u, 0) == ']' then Ok(Arr([]), u[1..]) else Elements(u, [])
  {
  }

  lemma ObjectIs(t: string)
    requires At(t, 0) == '{'
    ensures var u := SkipBlanks(t[1..]);
            Consume(t) == if At(u, 0) == '}' then Ok(Obj([]), u[1..]) else Members(u, [])
  {
  }

  /** Byte-wise order of keys. */
  predicate Before(a: string, b: string) {
    b != "" && (a == "" || a[0] < b[0] || (a[0] == b[0] && Before(a[1..], b[1..])))
  }

  /** Insertion into a sorted map; a key already there keeps its first value. */
  function Insert(ms: seq<Member>, m: Member): seq<Member> {
    if ms == [] then [m]
    else if m.key == ms[0].key then ms
    else if Before(m.key, ms[0].key) then [m] + ms
    else [ms[0]] + Insert(ms[1..], m)
  }

  /** `Json::Parse`: one value, blanks, and the end of the text. */
  function Parse(t: string): Result<Json> {
    match Value(t)
    case Fail => Fail
    case Ok(j, rest) => if rest == "" then Ok(j, "") else Fail
  }

  // ---- the printer ----

  function DigitChar(d: nat): (c: char)
    requires d < 10
    ensures IsDigit(c) && (c - '0') as nat == d
  {
    '0' + d as char
  }

  function Decimal(n: nat): (s: string)
    ensures AllDigits(s) && (n > 0 ==> s[0] != '0') && (n == 0 ==> s == "0")
  {
    if n < 10 then [DigitChar(n)] else Decimal(n / 10) + [DigitChar(n % 10)]
  }

  function IntText(n: int): string {
    if n < 0 then "-" + Decimal(-n) else Decimal(n)
  }

  /** Integers of magnitude below a million: the stream's default precision prints them in full. */
  predicate SmallInt(v: real) { v == v.Floor as real && -1000000 < v.Floor < 1000000 }

  /** Raw text that needs no further escaping. */
  predicate WellFormed(raw: string)
    decreases |raw|
  {
    raw == "" || (Unit(raw) > 0 && WellFormed(raw[Unit(raw)..]))
  }

  predicate Sorted(ms: seq<Member>) {
    forall i, j :: 0 <= i < j < |ms| ==> Before(ms[i].key, ms[j].key)
  }

  predicate Printable(j: Json) {
    match j
    case Null => true
    case Bool(_) => true
    case Number(v) => SmallInt(v)
    case Str(raw) => WellFormed(raw)
    case Arr(items) => forall i :: 0 <= i < |items| ==> Printable(items[i])
    case Obj(ms) => Sorted(ms) && forall i :: 0 <= i < |ms| ==> WellFormed(ms[i].key) && Printable(ms[i].value)
  }

  predicate PrintableItems(items: seq<Json>) {
    forall i :: 0 <= i < |items| ==> Printable(items[i])
  }

  predicate PrintableMembers(ms: seq<Member>) {
    Sorted(ms) && forall i :: 0 <= i < |ms| ==> WellFormed(ms[i].key) && Printable(ms[i].value)
  }

  function Print(j: Json): (s: string)
    requires Printable(j)
    decreases j, 0
  {
    match j
    case Null => "null"
    case Bool(b) => if b then "true" else "false"
    case Number(v) => IntText(v.Floor)
    case Str(raw) => "\"" + raw + "\""
    case Arr(items) => "[ " + PrintItems(items, "") + " ]"
    case Obj(ms) => "{ " + PrintMembers(ms, "") + " }"
  }

  /** The items, each behind a separator that is empty for the first. */
  function PrintItems(items: seq<Json>, sep: string): string
    requires PrintableItems(items)
    decreases items, 1
  {
    if items == [] then "" else sep + Print(items[0]) + PrintItems(items[1..], ", ")
  }

  function PrintMembers(ms: seq<Member>, sep: string): string
    requires PrintableMembers(ms)
    decreases ms, 1
  {
    if ms == [] then ""
    else sep + "\"" + ms[0].key + "\": " + Print(ms[0].value) + PrintMembers(ms[1..], ", ")
  }

  // ---- how the pieces are read ----

  /** Nothing that could belong to a number. */
  predicate Ends(rest: string) {
    rest == "" || !(IsDigit(rest[0]) || rest[0] == '.' || IsE(rest[0]))
  }

  lemma {:induction false} DecimalValue(n: nat)
    ensures DecValue(Decimal(n)) == n
  {
    var s := Decimal(n);
    if n >= 10 {
      DecimalValue(n / 10);
      assert s[..|s| - 1] == Decimal(n / 10);
    } else {
      assert s[..0] == "";
      assert DecValue(s) == 10 * DecValue(s[..0]) + (s[0] - '0') as nat;
    }
  }

  /** A power of ten is a one with that many zeros. */
  lemma {:induction false} Pow10Is(n: nat)
    ensures DecValue("1" + seq(n, _ => '0')) as real == Pow10(n)
  {
    var s := "1" + seq(n, _ => '0');
    if n == 0 {
      assert s == "1" && s[..0] == "";
    } else {
      Pow10Is(n - 1);
      assert s[..|s| - 1] == "1" + seq(n - 1, _ => '0') && s[|s| - 1] == '0';
    }
  }

  lemma NumberReads(t: string, k: nat, v: real)
    requires NumberEnd(t) == Some(k) && NumberEnd(t[..k]).Some? && NumberValue(t[..k]) == v
    ensures ConsumeNumber(t) == Ok(Number(v), t[k..])
  {
  }

  lemma RawSlices(raw: string, n: nat, rest: string)
    requires n <= |raw|
    ensures var t := raw + "\"" + rest;
            && t == raw + ("\"" + rest) && t[n..] == raw[n..] + "\"" + rest && t[..n] + raw[n..] == raw
  {
  }

  lemma BodyUnit(t: string, r: string, rest: string)
    requires Unit(t) > 0 && StringBody(t[Unit(t)..]) == Ok(r, rest)
    ensures StringBody(t) == Ok(t[..Unit(t)] + r, rest)
  {
  }

  lemma {:induction false} StringBodyReads(raw: string, rest: string)
    requires WellFormed(raw)
    ensures StringBody(raw + "\"" + rest) == Ok(raw, rest)
    decreases |raw|
  {
    var t := raw + "\"" + rest;
    if raw == "" {
      assert t[1..] == rest;
    } else {
      var n := Unit(raw);
      UnitStays(raw, "\"" + rest);
      RawSlices(raw, n, rest);
      StringBodyReads(raw[n..], rest);
      BodyUnit(t, raw[n..], rest);
    }
  }

  lemma UnitStays(a: string, b: string)
    requires Unit(a) > 0
    ensures Unit(a + b) == Unit(a)
  {
    var t := a + b;
    assert forall i :: 0 <= i < |a| ==> t[i] == a[i];
  }

  lemma WordReads(word: string, rest: string)
    ensures Specific(word + rest, word) == Ok((), rest)
  {
  }

  lemma ElementsStep(t: string, done: seq<Json>, j: Json, r: string)
    requires Value(t) == Ok(j, r) && r != ""
    ensures r[0] == ']' ==> Elements(t, done) == Ok(Arr(done + [j]), r[1..])
    ensures r[0] == ',' ==> Elements(t, done) == Elements(r[1..], done + [j])
  {
  }

  lemma EmptyArrayCloses(inner: string, v: string)
    requires SkipBlanks(inner) == v && v != "" && v[0] == ']'
    ensures Consume("[" + inner) == Ok(Arr([]), v[1..])
  {
    assert ("[" + inner)[1..] == inner;
  }

  lemma MembersStep(t: string, done: seq<Member>, m: Member, r: string)
    requires Pair(t) == Ok(m, r) && r != ""
    ensures r[0] == '}' ==> Members(t, done) == Ok(Obj(Insert(done, m)), r[1..])
    ensures r[0] == ',' ==> Members(t, done) == Members(r[1..], Insert(done, m))
  {
  }

  /** The first place where the keys differ decides, and the end of a key comes before all. */
  predicate DecidedAt(a: string, b: string, n: nat) {
    n <= |a| && n < |b| && a[..n] == b[..n] && (n == |a| || a[n] < b[n])
  }

  lemma {:induction false} BeforeIs(a: string, b: string)
    ensures Before(a, b) <==> exists n: nat :: DecidedAt(a, b, n)
    decreases |a|
  {
    if b != "" && (a == "" || a[0] < b[0]) {
      assert DecidedAt(a, b, 0);
    } else if a != "" && b != "" && a[0] == b[0] {
      BeforeIs(a[1..], b[1..]);
      if exists n: nat :: DecidedAt(a[1..], b[1..], n) {
        var n: nat :| DecidedAt(a[1..], b[1..], n);
        assert a[..n + 1] == [a[0]] + a[1..][..n] && b[..n + 1] == [b[0]] + b[1..][..n];
        assert DecidedAt(a, b, n + 1);
      }
      if exists n: nat :: DecidedAt(a, b, n) {
        var n: nat :| DecidedAt(a, b, n);
        assert a[1..][..n - 1] == a[..n][1..] && b[1..][..n - 1] == b[..n][1..];
        assert DecidedAt(a[1..], b[1..], n - 1);
      }
    } else {
      forall n: nat ensures !DecidedAt(a, b, n) {
        assert 0 < n <= |a| && n < |b| ==> a[..n][0] == a[0] && b[..n][0] == b[0];
      }
    }
  }

  lemma {:induction false} BeforeIsStrict(a: string, b: string)
    requires Before(a, b)
    ensures a != b && !Before(b, a)
  {
    if a != "" && a[0] == b[0] {
      BeforeIsStrict(a[1..], b[1..]);
    }
  }

  lemma {:induction false} InsertLast(ms: seq<Member>, m: Member)
    requires forall i :: 0 <= i < |ms| ==> Before(ms[i].key, m.key)
    ensures Insert(ms, m) == ms + [m]
  {
    if ms != [] {
      BeforeIsStrict(ms[0].key, m.key);
      InsertLast(ms[1..], m);
      assert [ms[0]] + (ms[1..] + [m]) == ms + [m];
    }
  }

  lemma EmptyObjectCloses(inner: string, v: string)
    requires SkipBlanks(inner) == v && v != "" && v[0] == '}'
    ensures Consume("{" + inner) == Ok(Obj([]), v[1..])
  {
    assert ("{" + inner)[1..] == inner;
  }

  // ---- every parsed tree is in normal form ----

  /** What the parser guarantees of any tree: its strings need no escaping and its keys are sorted. */
  predicate Normal(j: Json) {
    match j
    case Str(raw) => WellFormed(raw)
    case Arr(items) => forall i :: 0 <= i < |items| ==> Normal(items[i])
    case Obj(ms) => Sorted(ms) && forall i :: 0 <= i < |ms| ==> WellFormed(ms[i].key) && Normal(ms[i].value)
    case _ => true
  }

  predicate NormalMembers(ms: seq<Member>) {
    Sorted(ms) && forall i :: 0 <= i < |ms| ==> WellFormed(ms[i].key) && Normal(ms[i].value)
  }

  predicate SmallNumbers(j: Json) {
    match j
    case Number(v) => SmallInt(v)
    case Arr(items) => forall i :: 0 <= i < |items| ==> SmallNumbers(items[i])
    case Obj(ms) => forall i :: 0 <= i < |ms| ==> SmallNumbers(ms[i].value)
    case _ => true
  }

  lemma {:induction false} NormalIsPrintable(j: Json)
    requires Normal(j) && SmallNumbers(j)
    ensures Printable(j)
  {
    match j
    case Arr(items) =>
      forall i | 0 <= i < |items| ensures Printable(items[i]) { NormalIsPrintable(items[i]); }
    case Obj(ms) =>
      forall i | 0 <= i < |ms| ensures WellFormed(ms[i].key) && Printable(ms[i].value) { NormalIsPrintable(ms[i].value); }
    case _ =>
  }

  lemma UnitAlone(t: string, z: string)
    requires Unit(t) > 0
    ensures Unit(t[..Unit(t)] + z) == Unit(t)
  {
    var n := Unit(t);
    var u := t[..n] + z;
    assert forall i :: 0 <= i < n ==> u[i] == t[i];
  }

  lemma {:induction false} BodyIsWellFormed(t: string)
    requires StringBody(t).Ok?
    ensures WellFormed(StringBody(t).value)
    decreases |t|
  {
    if t[0] != '"' {
      var n := Unit(t);
      BodyIsWellFormed(t[n..]);
      var raw := StringBody(t[n..]).value;
      UnitAlone(t, raw);
      assert (t[..n] + raw)[n..] == raw;
    }
  }

  lemma {:induction false} BeforeIsTotal(a: string, b: string)
    requires a != b && !Before(a, b)
    ensures Before(b, a)
  {
    if a != "" && b != "" && a[0] == b[0] {
      assert a == [a[0]] + a[1..] && b == [b[0]] + b[1..];
      BeforeIsTotal(a[1..], b[1..]);
    }
  }

  lemma {:induction false} BeforeIsTransitive(a: string, b: string, c: string)
    requires Before(a, b) && Before(b, c)
    ensures Before(a, c)
  {
    if a != "" && a[0] == b[0] == c[0] {
      BeforeIsTransitive(a[1..], b[1..], c[1..]);
    }
  }

  predicate AllAfter(key: string, ms: seq<Member>) {
    forall i :: 0 <= i < |ms| ==> Before(key, ms[i].key)
  }

  lemma SortedCons(m: Member, ms: seq<Member>)
    requires Sorted(ms) && AllAfter(m.key, ms)
    ensures Sorted([m] + ms)
  {
  }

  predicate HasKey(ms: seq<Member>, key: string) { exists i :: 0 <= i < |ms| && ms[i].key == key }

  /** A member is in the map after an insertion if it was there, or is the new one and its key is new. */
  lemma {:induction false} InsertIs(ms: seq<Member>, m: Member, x: Member)
    requires Sorted(ms)
    ensures x in Insert(ms, m) <==> x in ms || (x == m && !HasKey(ms, m.key))
  {
    if ms != [] {
      var more := ms[1..];
      assert ms == [ms[0]] + more;
      if m.key == ms[0].key {
        assert HasKey(ms, m.key);
      } else if Before(m.key, ms[0].key) {
        BeforeAll(ms, m.key);
      } else {
        InsertIs(more, m, x);
        assert HasKey(ms, m.key) <==> HasKey(more, m.key) by {
          if HasKey(more, m.key) {
            var i :| 0 <= i < |more| && more[i].key == m.key;
            assert ms[i + 1].key == m.key;
          }
        }
      }
    }
  }

  lemma BeforeAll(ms: seq<Member>, key: string)
    requires Sorted(ms) && ms != [] && Before(key, ms[0].key)
    ensures !HasKey(ms, key)
  {
    forall i | 0 <= i < |ms| ensures ms[i].key != key {
      if i > 0 {
        BeforeIsTransitive(key, ms[0].key, ms[i].key);
      }
      BeforeIsStrict(key, ms[i].key);
    }
  }

  lemma {:induction false} InsertSorts(ms: seq<Member>, m: Member)
    requires Sorted(ms)
    ensures Sorted(Insert(ms, m))
    ensures forall key :: AllAfter(key, ms) && Before(key, m.key) ==> AllAfter(key, Insert(ms, m))
  {
    if ms == [] || m.key == ms[0].key {
    } else if Before(m.key, ms[0].key) {
      forall i | 0 <= i < |ms| ensures Before(m.key, ms[i].key) {
        if i > 0 { BeforeIsTransitive(m.key, ms[0].key, ms[i].key); }
      }
      SortedCons(m, ms);
    } else {
      BeforeIsTotal(m.key, ms[0].key);
      InsertSorts(ms[1..], m);
      assert AllAfter(ms[0].key, ms[1..]);
      SortedCons(ms[0], Insert(ms[1..], m));
      forall key | AllAfter(key, ms) && Before(key, m.key) ensures AllAfter(key, [ms[0]] + Insert(ms[1..], m)) {
        assert Before(key, ms[0].key);
        assert AllAfter(key, ms[1..]);
      }
    }
  }

  lemma InsertKeepsNormal(ms: seq<Member>, m: Member)
    requires NormalMembers(ms) && WellFormed(m.key) && Normal(m.value)
    ensures NormalMembers(Insert(ms, m))
  {
    InsertSorts(ms, m);
    var all := Insert(ms, m);
    forall i | 0 <= i < |all| ensures WellFormed(all[i].key) && Normal(all[i].value) {
      InsertIs(ms, m, all[i]);
    }
  }

  lemma {:induction false} ConsumedIsNormal(t: string)
    requires Consume(t).Ok?
    ensures Normal(Consume(t).value)
    decreases |t|, 0
  {
    match At(t, 0)
    case '"' => BodyIsWellFormed(t[1..]);
    case '{' => if At(SkipBlanks(t[1..]), 0) != '}' { MembersAreNormal(SkipBlanks(t[1..]), []); }
    case '[' => if At(SkipBlanks(t[1..]), 0) != ']' { ElementsAreNormal(SkipBlanks(t[1..]), []); }
    case _ =>
  }

  lemma {:induction false} ElementsAreNormal(t: string, done: seq<Json>)
    requires Elements(t, done).Ok? && forall i :: 0 <= i < |done| ==> Normal(done[i])
    ensures Normal(Elements(t, done).value)
    decreases |t|, 2
  {
    ConsumedIsNormal(SkipBlanks(t));
    var v := Value(t);
    if At(v.rest, 0) == ',' {
      ElementsAreNormal(v.rest[1..], done + [v.value]);
    }
  }

  lemma {:induction false} MembersAreNormal(t: string, done: seq<Member>)
    requires Members(t, done).Ok? && NormalMembers(done)
    ensures Normal(Members(t, done).value)
    decreases |t|, 3
  {
    var p := Pair(t);
    PairIsNormal(t);
    InsertKeepsNormal(done, p.value);
    if At(p.rest, 0) == ',' {
      MembersAreNormal(p.rest[1..], Insert(done, p.value));
    }
  }

  lemma {:induction false} PairIsNormal(t: string)
    requires Pair(t).Ok?
    ensures WellFormed(Pair(t).value.key) && Normal(Pair(t).value.value)
    decreases |t|, 2
  {
    BodyIsWellFormed(SkipBlanks(t)[1..]);
    var after := Specific(SkipBlanks(ConsumeString(t).rest), ":").rest;
    ConsumedIsNormal(SkipBlanks(after));
  }
}
