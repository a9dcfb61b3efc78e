/** The texts of JSON: every way to write a value, with its blanks, and what it means. The parser accepts
    exactly these texts, and reads them as what they mean. */
module JsonTexts {
  import opened Commons
  import opened JsonNumbers
  import opened Jsons

  // ---- what can be written ----

  /** One character of a string as it is written. */
  datatype Piece = Plain(c: char) | Escape(c: char) | Code(hex: string)

  /** A text of one value. An empty array or object may have blanks inside. */
  datatype Text =
    | NullText
    | BoolText(b: bool)
    | NumberText(minus: string, whole: string, frac: string, exp: string)
    | StringText(raw: string)
    | ArrayText(inner: string, items: seq<Item>)
    | ObjectText(inner: string, entries: seq<Entry>)

  /** A value and the blanks around it. */
  datatype Item = Item(before: string, text: Text, after: string)

  /** A key and the blanks around it, a colon, and a value. */
  datatype Entry = Entry(lead: string, key: string, gap: string, item: Item)

  predicate Blank(s: string) { forall i :: 0 <= i < |s| ==> s[i] in [' ', '\t', '\n', '\r'] }

  predicate PieceOk(p: Piece) {
    match p
    case Plain(c) => 32 <= c as int && c as int != 127 && c != '"' && c != '\\'
    case Escape(c) => c in ['"', '\\', '/', 'b', 'f', 'n', 'r', 't']
    case Code(hex) => |hex| == 4 && forall i :: 0 <= i < 4 ==> hex[i] in "0123456789abcdefABCDEF"
  }

  function PieceText(p: Piece): string {
    match p
    case Plain(c) => [c]
    case Escape(c) => ['\\', c]
    case Code(hex) => "\\u" + hex
  }

  function Spelled(ps: seq<Piece>): string {
    if ps == [] then "" else PieceText(ps[0]) + Spelled(ps[1..])
  }

  ghost predicate Quotable(raw: string) {
    exists ps: seq<Piece> :: (forall i :: 0 <= i < |ps| ==> PieceOk(ps[i])) && Spelled(ps) == raw
  }

  /** The parts of a number in the grammar. */
  predicate NumberOk(minus: string, a: string, b: string, c: string) {
    (minus == "" || minus == "-") && IsInt(a) && IsFrac(b) && IsExp(c)
  }

  predicate TextOk(x: Text) {
    match x
    case NumberText(minus, a, b, c) => NumberOk(minus, a, b, c)
    case StringText(raw) => WellFormed(raw)
    case ArrayText(inner, items) =>
      Blank(inner) && forall i :: 0 <= i < |items| ==> Blank(items[i].before) && TextOk(items[i].text) && Blank(items[i].after)
    case ObjectText(inner, entries) =>
      && Blank(inner)
      && forall i :: 0 <= i < |entries| ==>
           && Blank(entries[i].lead) && WellFormed(entries[i].key) && Blank(entries[i].gap)
           && Blank(entries[i].item.before) && TextOk(entries[i].item.text) && Blank(entries[i].item.after)
    case _ => true
  }

  predicate ItemOk(i: Item) { Blank(i.before) && TextOk(i.text) && Blank(i.after) }

  predicate ItemsOk(items: seq<Item>) { forall i :: 0 <= i < |items| ==> ItemOk(items[i]) }

  predicate EntryOk(e: Entry) { Blank(e.lead) && WellFormed(e.key) && Blank(e.gap) && ItemOk(e.item) }

  predicate EntriesOk(entries: seq<Entry>) { forall i :: 0 <= i < |entries| ==> EntryOk(entries[i]) }

  // ---- how it is written, in front of `rest` ----

  function Write(x: Text, rest: string): string
    decreases x, 0
  {
    match x
    case NullText => "null" + rest
    case BoolText(b) => (if b then "true" else "false") + rest
    case NumberText(minus, a, b, c) => (minus + a + b + c) + rest
    case StringText(raw) => "\"" + (raw + "\"" + rest)
    case ArrayText(inner, items) => "[" + if items == [] then inner + ("]" + rest) else WriteItems(items, "]" + rest)
    case ObjectText(inner, entries) => "{" + if entries == [] then inner + ("}" + rest) else WriteEntries(entries, "}" + rest)
  }

  function WriteItem(i: Item, rest: string): string
    decreases i, 1
  {
    i.before + Write(i.text, i.after + rest)
  }

  function WriteItems(items: seq<Item>, rest: string): string
    requires items != []
    decreases items, 2
  {
    WriteItem(items[0], if |items| == 1 then rest else "," + WriteItems(items[1..], rest))
  }

  function WriteEntry(e: Entry, rest: string): string
    decreases e, 2
  {
    e.lead + ("\"" + (e.key + "\"" + (e.gap + (":" + WriteItem(e.item, rest)))))
  }

  function WriteEntries(entries: seq<Entry>, rest: string): string
    requires entries != []
    decreases entries, 3
  {
    WriteEntry(entries[0], if |entries| == 1 then rest else "," + WriteEntries(entries[1..], rest))
  }

  // ---- what it means ----

  function Fraction(b: string): real
    requires IsFrac(b)
  {
    if b == "" then 0.0 else DecValue(b[1..]) as real / Pow10(|b| - 1)
  }

  function Times(size: real, c: string): real
    requires IsExp(c)
  {
    if c == "" then size
    else if c[1] == '-' then size / Pow10(DecValue(c[2..]))
    else if c[1] == '+' then size * Pow10(DecValue(c[2..]))
    else size * Pow10(DecValue(c[1..]))
  }

  /** The value of a number from its parts. */
  function PartsValue(minus: string, a: string, b: string, c: string): real
    requires NumberOk(minus, a, b, c)
  {
    var size := Times(DecValue(a) as real + Fraction(b), c);
    if minus == "-" then -size else size
  }

  function Meaning(x: Text): Json
    requires TextOk(x)
    decreases x
  {
    match x
    case NullText => Null
    case BoolText(b) => Bool(b)
    case NumberText(minus, a, b, c) => Number(PartsValue(minus, a, b, c))
    case StringText(raw) => Str(raw)
    case ArrayText(_, items) => Arr(Values(items))
    case ObjectText(_, entries) => Obj(Tidy(Pairs(entries)))
  }

  function Values(items: seq<Item>): (js: seq<Json>)
    requires ItemsOk(items)
    ensures |js| == |items|
    decreases items
  {
    if items == [] then [] else assert ItemOk(items[0]); [Meaning(items[0].text)] + Values(items[1..])
  }

  /** The members as they are read. */
  function Pairs(entries: seq<Entry>): (ms: seq<Member>)
    requires EntriesOk(entries)
    ensures |ms| == |entries|
    decreases entries
  {
    if entries == [] then []
    else assert EntryOk(entries[0]); [Member(entries[0].key, Meaning(entries[0].item.text))] + Pairs(entries[1..])
  }

  /** Each key once, in order. */
  function Tidy(ms: seq<Member>): seq<Member> {
    if ms == [] then [] else Insert(Tidy(ms[..|ms| - 1]), ms[|ms| - 1])
  }

  /** No member before this one has its key. */
  predicate IsFirst(ms: seq<Member>, i: nat)
    requires i < |ms|
  {
    forall k :: 0 <= k < i ==> ms[k].key != ms[i].key
  }

  /** The members of an object: sorted by key, and for every key the first value given to it. */
  ghost predicate FirstValues(read: seq<Member>, ms: seq<Member>) {
    && Sorted(ms)
    && forall m :: m in ms <==> FirstIn(read, m)
  }

  // ---- strings ----

  lemma PieceIsUnit(p: Piece, z: string)
    requires PieceOk(p)
    ensures Jsons.Unit(PieceText(p) + z) == |PieceText(p)| > 0
  {
    var t := PieceText(p) + z;
    assert forall i :: 0 <= i < |PieceText(p)| ==> t[i] == PieceText(p)[i];
    if p.Code? {
      CodeIsUnit(t, p.hex);
    }
  }

  lemma HexIs(c: char)
    ensures IsHex(c) <==> c in "0123456789abcdefABCDEF"
  {
    var all := "0123456789abcdefABCDEF";
    if IsDigit(c) { assert all[(c - '0') as int] == c; }
    if 'a' <= c <= 'f' { assert all[10 + (c - 'a') as int] == c; }
    if 'A' <= c <= 'F' { assert all[16 + (c - 'A') as int] == c; }
  }

  lemma CodeIsUnit(t: string, hex: string)
    requires |hex| == 4 && |t| >= 6 && t[0] == '\\' && t[1] == 'u' && forall i :: 0 <= i < 4 ==> t[2 + i] == hex[i]
    ensures (forall i :: 0 <= i < 4 ==> hex[i] in "0123456789abcdefABCDEF") <==> Jsons.Unit(t) == 6
  {
    HexIs(hex[0]);
    HexIs(hex[1]);
    HexIs(hex[2]);
    HexIs(hex[3]);
    assert t[2] == hex[0] && t[3] == hex[1] && t[4] == hex[2] && t[5] == hex[3];
  }

  lemma {:induction false} SpelledIsWellFormed(ps: seq<Piece>)
    requires forall i :: 0 <= i < |ps| ==> PieceOk(ps[i])
    ensures WellFormed(Spelled(ps))
    decreases |ps|
  {
    if ps != [] {
      PieceIsUnit(ps[0], Spelled(ps[1..]));
      SpelledIsWellFormed(ps[1..]);
      assert Spelled(ps)[|PieceText(ps[0])|..] == Spelled(ps[1..]);
    }
  }

  lemma UnitIsPiece(t: string) returns (p: Piece)
    requires Jsons.Unit(t) > 0
    ensures PieceOk(p) && PieceText(p) == t[..Jsons.Unit(t)]
  {
    if t[0] != '\\' {
      p := Plain(t[0]);
    } else if At(t, 1) in "\"\\/bfnrt" {
      p := Escape(t[1]);
    } else {
      p := Code(t[2..6]);
      CodeIsUnit(t, t[2..6]);
    }
  }

  lemma TwoParts(s: string, n: nat)
    requires n <= |s|
    ensures s == s[..n] + s[n..]
  {
  }

  lemma SpelledCons(p: Piece, ps: seq<Piece>)
    ensures Spelled([p] + ps) == PieceText(p) + Spelled(ps)
  {
    assert ([p] + ps)[1..] == ps;
  }

  lemma {:induction false} WellFormedIsSpelled(raw: string) returns (ps: seq<Piece>)
    requires WellFormed(raw)
    ensures (forall i :: 0 <= i < |ps| ==> PieceOk(ps[i])) && Spelled(ps) == raw
    decreases |raw|
  {
    if raw == "" {
      ps := [];
    } else {
      var n := Jsons.Unit(raw);
      var p := UnitIsPiece(raw);
      var more := WellFormedIsSpelled(raw[n..]);
      ps := [p] + more;
      SpelledCons(p, more);
      TwoParts(raw, n);
    }
  }

  /** The parser takes for a string exactly what plain characters, escapes and codes spell. */
  lemma QuotableIff(raw: string)
    ensures Quotable(raw) <==> WellFormed(raw)
  {
    if Quotable(raw) {
      var ps: seq<Piece> :| (forall i :: 0 <= i < |ps| ==> PieceOk(ps[i])) && Spelled(ps) == raw;
      SpelledIsWellFormed(ps);
    }
    if WellFormed(raw) {
      var ps := WellFormedIsSpelled(raw);
    }
  }

  lemma {:induction false} BodyText(t: string)
    requires StringBody(t).Ok?
    ensures var r := StringBody(t); WellFormed(r.value) && t == r.value + "\"" + r.rest
    decreases |t|
  {
    BodyIsWellFormed(t);
    if t[0] == '"' {
      assert t == "" + "\"" + t[1..];
    } else {
      var n := Jsons.Unit(t);
      var r := StringBody(t[n..]);
      BodyText(t[n..]);
      BodyUnit(t, r.value, r.rest);
      Rejoin(t, n, r.value, r.rest);
    }
  }

  lemma Rejoin(t: string, n: nat, raw: string, rest: string)
    requires n <= |t| && t[n..] == raw + "\"" + rest
    ensures t == (t[..n] + raw) + "\"" + rest
  {
    assert t == t[..n] + t[n..];
  }

  // ---- objects ----

  predicate FirstIn(read: seq<Member>, m: Member) { exists i :: 0 <= i < |read| && read[i] == m && IsFirst(read, i) }

  lemma {:induction false} KeyOfFirst(read: seq<Member>, key: string)
    ensures HasKey(read, key) <==> exists m :: FirstIn(read, m) && m.key == key
    decreases |read|
  {
    if HasKey(read, key) {
      var i :| 0 <= i < |read| && read[i].key == key;
      if IsFirst(read, i) {
        assert FirstIn(read, read[i]);
      } else {
        var k :| 0 <= k < i && read[k].key == key;
        assert HasKey(read[..i], key) by { assert read[..i][k].key == key; }
        KeyOfFirst(read[..i], key);
        var m :| FirstIn(read[..i], m) && m.key == key;
        var j :| 0 <= j < i && read[..i][j] == m && IsFirst(read[..i], j);
        assert read[j] == m && IsFirst(read, j) by {
          forall l | 0 <= l < j ensures read[l].key != m.key { assert read[..i][l] == read[l]; }
        }
        assert FirstIn(read, m);
      }
    }
  }

  lemma FirstInSnoc(read: seq<Member>, last: Member, m: Member)
    ensures FirstIn(read + [last], m) <==> FirstIn(read, m) || (m == last && !HasKey(read, last.key))
  {
    var all := read + [last];
    assert forall i :: 0 <= i < |read| ==> all[i] == read[i] && IsFirst(all, i) == IsFirst(read, i) by {
      forall i | 0 <= i < |read| ensures all[i] == read[i] && IsFirst(all, i) == IsFirst(read, i) {
        assert forall k :: 0 <= k < i ==> all[k] == read[k];
      }
    }
    assert IsFirst(all, |read|) <==> !HasKey(read, last.key) by {
      assert forall k :: 0 <= k < |read| ==> all[k] == read[k];
    }
    if FirstIn(read, m) {
      var i :| 0 <= i < |read| && read[i] == m && IsFirst(read, i);
      assert all[i] == m && IsFirst(all, i);
    }
    if m == last && !HasKey(read, last.key) {
      assert all[|read|] == m && IsFirst(all, |read|);
    }
  }

  /** An object holds, sorted by key, for every key the first value given to it. */
  lemma {:induction false} TidyIs(read: seq<Member>)
    ensures Sorted(Tidy(read)) && forall m :: m in Tidy(read) <==> FirstIn(read, m)
    decreases |read|
  {
    if read != [] {
      var before, last := read[..|read| - 1], read[|read| - 1];
      assert read == before + [last];
      TidyIs(before);
      InsertSorts(Tidy(before), last);
      KeyOfFirst(before, last.key);
      assert HasKey(Tidy(before), last.key) <==> HasKey(before, last.key) by {
        if HasKey(Tidy(before), last.key) {
          var i :| 0 <= i < |Tidy(before)| && Tidy(before)[i].key == last.key;
          assert FirstIn(before, Tidy(before)[i]);
        }
        if HasKey(before, last.key) {
          var m :| FirstIn(before, m) && m.key == last.key;
          assert m in Tidy(before);
        }
      }
      forall m ensures m in Tidy(read) <==> FirstIn(read, m) {
        InsertIs(Tidy(before), last, m);
        FirstInSnoc(before, last, m);
      }
    }
  }

  // ---- numbers ----

  /** The value that the parser finds by positions is the value of the parts. */
  lemma NumberMeans(minus: string, a: string, b: string, c: string)
    requires NumberOk(minus, a, b, c)
    ensures var s := minus + a + b + c; NumberEnd(s) == Some(|s|) && NumberValue(s) == PartsValue(minus, a, b, c)
  {
    var s := minus + a + b + c;
    var h, i, j := |minus|, |minus| + |a|, |minus| + |a| + |b|;
    PartsAt(s, minus, a, b, c);
    PartsEnd(s, h, i, j);
    PartsRun(s, h, i, j);
    ValueIs(s, h, i, j, minus, a, b, c);
  }

  /** The parts lie at these positions, each followed by the first character of the next. */
  predicate Laid(s: string, h: nat, i: nat, j: nat) {
    && h <= i <= j <= |s| && h == (if At(s, 0) == '-' then 1 else 0)
    && IsInt(s[h..i]) && IsFrac(s[i..j]) && IsExp(s[j..])
    && (if i < j then At(s, i) == '.' else At(s, i) != '.') && (if j < |s| then IsE(At(s, j)) else At(s, j) == '\0')
  }

  lemma PartsAt(s: string, minus: string, a: string, b: string, c: string)
    requires NumberOk(minus, a, b, c) && s == minus + a + b + c
    ensures var h, i, j := |minus|, |minus| + |a|, |minus| + |a| + |b|;
            Laid(s, h, i, j) && s[h..i] == a && s[i..j] == b && s[j..] == c
  {
    assert s[..|s|] == s;
    assert Parts(s[..|s|], minus, a, b, c);
    PartsLie(s, |s|, minus, a, b, c);
    NextPart(s, |s|, minus, a, b, c);
    assert s[|minus| + |a| + |b|..|s|] == s[|minus| + |a| + |b|..];
  }

  lemma PartsEnd(s: string, h: nat, i: nat, j: nat)
    requires Laid(s, h, i, j)
    ensures IntEnd(s, h) == Some(i) && FracEnd(s, i) == Some(j) && ExpEnd(s, j) == Some(|s|)
  {
    assert s[j..|s|] == s[j..];
    IntComplete(s, h, i);
    FracComplete(s, i, j);
    ExpComplete(s, j, |s|);
  }

  lemma PartsRun(s: string, h: nat, i: nat, j: nat)
    requires Laid(s, h, i, j)
    ensures Digits(s, h) == s[h..i] && (i < j ==> Digits(s, i + 1) == s[i..j][1..])
  {
    IsRun(s, h, s[h..i]);
    if i < j {
      assert s[i + 1..j] == s[i..j][1..];
      IsRun(s, i + 1, s[i..j][1..]);
    }
  }

  lemma ValueIs(s: string, h: nat, i: nat, j: nat, minus: string, a: string, b: string, c: string)
    requires NumberOk(minus, a, b, c) && h <= i <= j <= |s| && h == |minus| == (if At(s, 0) == '-' then 1 else 0)
    requires IntEnd(s, h) == Some(i) && FracEnd(s, i) == Some(j) && ExpEnd(s, j) == Some(|s|)
    requires Digits(s, h) == a && j == i + |b| && (b != "" ==> Digits(s, i + 1) == b[1..]) && s[j..] == c
    ensures NumberEnd(s) == Some(|s|) && NumberValue(s) == PartsValue(minus, a, b, c)
  {
    MantissaIs(s, h, i, j, a, b);
    ValueAt(s, h, i, j);
    ScaledIs(s, j, c, Mantissa(s, h, i, j));
  }

  lemma ScaledIs(s: string, j: nat, c: string, size: real)
    requires j <= |s| && s[j..] == c && IsExp(c)
    ensures (if !IsE(At(s, j)) then size else Scale(size, s, j + 1)) == Times(size, c)
  {
    if c != "" {
      assert s[j] == c[0];
      ExpMeans(s, j, c, size);
    }
  }

  lemma MantissaIs(s: string, h: nat, i: nat, j: nat, a: string, b: string)
    requires h <= i <= j <= |s| && j == i + |b| && AllDigits(a) && IsFrac(b)
    requires Digits(s, h) == a && (b != "" ==> Digits(s, i + 1) == b[1..])
    ensures Mantissa(s, h, i, j) == DecValue(a) as real + Fraction(b)
  {
  }

  lemma ValueAt(s: string, h: nat, i: nat, j: nat)
    requires h <= i <= j <= |s| && h == (if At(s, 0) == '-' then 1 else 0)
    requires IntEnd(s, h) == Some(i) && FracEnd(s, i) == Some(j) && ExpEnd(s, j) == Some(|s|)
    ensures NumberEnd(s) == Some(|s|)
    ensures var size := Mantissa(s, h, i, j); var scaled := if !IsE(At(s, j)) then size else Scale(size, s, j + 1);
            NumberValue(s) == if h == 1 then -scaled else scaled
  {
    assert MantissaEnd(s) == Some(j);
  }

  /** The digits that begin at `i` are these, if no digit follows. */
  lemma IsRun(s: string, i: nat, a: string)
    requires i + |a| <= |s| && s[i..i + |a|] == a && AllDigits(a) && !IsDigit(At(s, i + |a|))
    ensures Digits(s, i) == a
  {
    assert s[i..][..|a|] == a;
    assert At(s[i..], |a|) == At(s, i + |a|);
    RunIs(s[i..], a);
  }

  lemma Behind(s: string, j: nat, c: string, k: nat)
    requires j <= |s| && s[j..] == c && k <= |c|
    ensures j + k + |c[k..]| == |s| && s[j + k..j + k + |c[k..]|] == c[k..]
  {
  }

  lemma ExpMeans(s: string, j: nat, c: string, size: real)
    requires j <= |s| && s[j..] == c && c != "" && IsExp(c)
    ensures Scale(size, s, j + 1) == Times(size, c)
  {
    assert s[j + 1] == c[1];
    if c[1] == '-' || c[1] == '+' {
      Behind(s, j, c, 2);
      IsRun(s, j + 2, c[2..]);
    } else {
      Behind(s, j, c, 1);
      IsRun(s, j + 1, c[1..]);
    }
  }

  // ---- whatever is written is read ----

  lemma {:induction false} SkipsBlanks(s: string, u: string)
    requires Blank(s) && (u != "" ==> !IsBlank(u[0]))
    ensures SkipBlanks(s + u) == u
    decreases |s|
  {
    if s == "" {
      assert s + u == u;
    } else {
      assert (s + u)[1..] == s[1..] + u && (s + u)[0] == s[0];
      SkipsBlanks(s[1..], u);
    }
  }

  /** What may stand behind a value: blanks and then a comma, a bracket, or nothing. */
  predicate Closes(rest: string) { rest == "" || rest[0] in [',', ']', '}'] }

  lemma BlankThenCloses(s: string, rest: string)
    requires Blank(s) && Closes(rest)
    ensures Ends(s + rest) && SkipBlanks(s + rest) == rest
  {
    assert s != "" ==> (s + rest)[0] == s[0];
    assert s == "" ==> s + rest == rest;
    SkipsBlanks(s, rest);
  }

  /** How a text begins. */
  lemma WriteHead(x: Text, rest: string)
    requires TextOk(x)
    ensures Write(x, rest) != "" && !IsBlank(Write(x, rest)[0]) && Write(x, rest)[0] != ']'
  {
    if x.NumberText? {
      var s := x.minus + x.whole + x.frac + x.exp;
      assert s[0] == if x.minus == "" then x.whole[0] else '-';
      assert IsDigit(x.whole[0]);
      assert Write(x, rest)[0] == s[0];
    }
  }

  lemma NumberTextReads(minus: string, a: string, b: string, c: string, rest: string)
    requires NumberOk(minus, a, b, c) && Ends(rest)
    ensures Consume((minus + a + b + c) + rest) == Ok(Number(PartsValue(minus, a, b, c)), rest)
  {
    var s := minus + a + b + c;
    var t := s + rest;
    assert t[..|s|] == s && t[|s|..] == rest && At(t, |s|) == At(rest, 0);
    assert Parts(t[..|s|], minus, a, b, c);
    StoppedIsAccepted(t, |s|, minus, a, b, c);
    NumberMeans(minus, a, b, c);
    NumberReads(t, |s|, PartsValue(minus, a, b, c));
    NumberFirst(minus, a, b, c, rest);
    Dispatch(t);
  }

  lemma Dispatch(t: string)
    requires IsDigit(At(t, 0)) || At(t, 0) == '-'
    ensures Consume(t) == ConsumeNumber(t)
  {
    var c := At(t, 0);
    assert c != '"' && c != 't' && c != 'f' && c != 'n' && c != '{' && c != '[';
  }

  lemma NumberFirst(minus: string, a: string, b: string, c: string, rest: string)
    requires NumberOk(minus, a, b, c)
    ensures var t := (minus + a + b + c) + rest; IsDigit(At(t, 0)) || At(t, 0) == '-'
  {
    var t := (minus + a + b + c) + rest;
    assert IsDigit(a[0]);
    assert t[0] == if minus == "" then a[0] else '-';
  }

  lemma StringReads(raw: string, rest: string)
    requires WellFormed(raw)
    ensures Consume("\"" + (raw + "\"" + rest)) == Ok(Str(raw), rest)
  {
    var t := "\"" + (raw + "\"" + rest);
    assert t[1..] == raw + "\"" + rest;
    StringBodyReads(raw, rest);
  }

  lemma WordTextReads(x: Text, rest: string)
    requires x.NullText? || x.BoolText?
    ensures Consume(Write(x, rest)) == Ok(Meaning(x), rest)
  {
    match x
    case NullText => WordReads("null", rest);
    case BoolText(b) => WordReads(if b then "true" else "false", rest);
  }

  /** Blanks in front make no difference. */
  lemma SkipTwice(t: string)
    ensures SkipBlanks(SkipBlanks(t)) == SkipBlanks(t)
  {
  }

  lemma ElementsSkip(t: string, done: seq<Json>)
    ensures Elements(SkipBlanks(t), done) == Elements(t, done)
  {
    SkipTwice(t);
  }

  lemma MembersSkip(t: string, done: seq<Member>)
    ensures Members(SkipBlanks(t), done) == Members(t, done)
  {
    SkipTwice(t);
    assert Pair(SkipBlanks(t)) == Pair(t);
  }

  /** A text is read as what it means, in front of anything that cannot carry a number on. */
  lemma {:induction false} TextReads(x: Text, rest: string)
    requires TextOk(x) && Ends(rest)
    ensures Consume(Write(x, rest)) == Ok(Meaning(x), rest)
    decreases x, 0
  {
    match x
    case NullText => WordTextReads(x, rest);
    case BoolText(_) => WordTextReads(x, rest);
    case NumberText(minus, a, b, c) => NumberTextReads(minus, a, b, c, rest);
    case StringText(raw) => StringReads(raw, rest);
    case ArrayText(inner, items) =>
      if items == [] {
        EmptyReads(inner, rest);
      } else {
        ItemsRead(items, [], rest);
        ArrayReads(items, rest);
      }
    case ObjectText(inner, entries) =>
      if entries == [] {
        EmptyReads(inner, rest);
      } else {
        EntriesRead(entries, [], rest);
        ObjectReads(entries, rest);
      }
  }

  lemma EmptyReads(inner: string, rest: string)
    requires Blank(inner)
    ensures Consume("[" + (inner + ("]" + rest))) == Ok(Arr([]), rest)
    ensures Consume("{" + (inner + ("}" + rest))) == Ok(Obj([]), rest)
  {
    SkipsBlanks(inner, "]" + rest);
    SkipsBlanks(inner, "}" + rest);
    assert ("]" + rest)[1..] == rest && ("}" + rest)[1..] == rest;
    EmptyArrayCloses(inner + ("]" + rest), "]" + rest);
    EmptyObjectCloses(inner + ("}" + rest), "}" + rest);
  }

  lemma {:induction false} ItemReads(i: Item, rest: string)
    requires ItemOk(i) && Closes(rest)
    ensures Value(WriteItem(i, rest)) == Ok(Meaning(i.text), rest)
    decreases i, 1
  {
    var u := Write(i.text, i.after + rest);
    WriteHead(i.text, i.after + rest);
    SkipsBlanks(i.before, u);
    BlankThenCloses(i.after, rest);
    TextReads(i.text, i.after + rest);
  }

  lemma {:induction false} ItemsRead(items: seq<Item>, done: seq<Json>, rest: string)
    requires items != [] && ItemsOk(items)
    ensures Elements(WriteItems(items, "]" + rest), done) == Ok(Arr(done + Values(items)), rest)
    decreases items, 2
  {
    assert ItemOk(items[0]);
    var j := Meaning(items[0].text);
    var t := WriteItems(items, "]" + rest);
    if |items| == 1 {
      ItemReads(items[0], "]" + rest);
      ElementsStep(t, done, j, "]" + rest);
      assert ("]" + rest)[1..] == rest && items[1..] == [] && [j] + [] == [j];
    } else {
      var more := WriteItems(items[1..], "]" + rest);
      ItemReads(items[0], "," + more);
      ElementsStep(t, done, j, "," + more);
      assert ("," + more)[1..] == more;
      ItemsRead(items[1..], done + [j], rest);
      Reassociate(done, j, Values(items[1..]));
    }
  }

  lemma ArrayReads(items: seq<Item>, rest: string)
    requires items != [] && ItemsOk(items)
    requires Elements(WriteItems(items, "]" + rest), []) == Ok(Arr([] + Values(items)), rest)
    ensures Consume("[" + WriteItems(items, "]" + rest)) == Ok(Arr(Values(items)), rest)
  {
    var t := WriteItems(items, "]" + rest);
    assert ItemOk(items[0]);
    ItemsHead(items, "]" + rest);
    ElementsSkip(t, []);
    assert ("[" + t)[1..] == t && [] + Values(items) == Values(items);
    ArrayIs("[" + t);
  }

  lemma ItemsHead(items: seq<Item>, rest: string)
    requires items != [] && ItemOk(items[0])
    ensures At(SkipBlanks(WriteItems(items, rest)), 0) != ']'
  {
    var i := items[0];
    var r := i.after + if |items| == 1 then rest else "," + WriteItems(items[1..], rest);
    WriteHead(i.text, r);
    SkipsBlanks(i.before, Write(i.text, r));
  }

  lemma {:induction false} EntryReads(e: Entry, rest: string)
    requires EntryOk(e) && Closes(rest)
    ensures Pair(WriteEntry(e, rest)) == Ok(Member(e.key, Meaning(e.item.text)), rest)
    decreases e, 2
  {
    ItemReads(e.item, rest);
    EntryKeyReads(e, WriteItem(e.item, rest), Meaning(e.item.text), rest);
  }

  lemma EntryKeyReads(e: Entry, after: string, j: Json, rest: string)
    requires Blank(e.lead) && WellFormed(e.key) && Blank(e.gap) && Value(after) == Ok(j, rest)
    ensures Pair(e.lead + ("\"" + (e.key + "\"" + (e.gap + (":" + after))))) == Ok(Member(e.key, j), rest)
  {
    var r := e.gap + (":" + after);
    var u := e.key + "\"" + r;
    SkipsBlanks(e.lead, "\"" + u);
    assert ("\"" + u)[1..] == u;
    StringBodyReads(e.key, r);
    SkipsBlanks(e.gap, ":" + after);
    assert (":" + after)[1..] == after;
  }

  lemma {:induction false} EntriesRead(entries: seq<Entry>, read: seq<Member>, rest: string)
    requires entries != [] && EntriesOk(entries)
    ensures Members(WriteEntries(entries, "}" + rest), Tidy(read)) == Ok(Obj(Tidy(read + Pairs(entries))), rest)
    decreases entries, 3
  {
    assert EntryOk(entries[0]);
    var m := Member(entries[0].key, Meaning(entries[0].item.text));
    var t := WriteEntries(entries, "}" + rest);
    PairsMove(entries[0], entries[1..], read, m);
    assert [entries[0]] + entries[1..] == entries;
    if |entries| == 1 {
      EntryReads(entries[0], "}" + rest);
      LastPair(t, read, m, rest);
      assert Pairs(entries[1..]) == [];
    } else {
      var more := WriteEntries(entries[1..], "}" + rest);
      EntryReads(entries[0], "," + more);
      NextPair(t, read, m, more);
      EntriesRead(entries[1..], read + [m], rest);
    }
  }

  lemma PairsMove(e: Entry, more: seq<Entry>, read: seq<Member>, m: Member)
    requires EntryOk(e) && EntriesOk(more) && m == Member(e.key, Meaning(e.item.text))
    ensures EntriesOk([e] + more) && read + Pairs([e] + more) == (read + [m]) + Pairs(more)
  {
    var entries := [e] + more;
    assert entries[0] == e && entries[1..] == more;
    assert Pairs(entries) == [m] + Pairs(more);
    assert read + ([m] + Pairs(more)) == (read + [m]) + Pairs(more);
  }

  lemma LastPair(t: string, read: seq<Member>, m: Member, rest: string)
    requires Pair(t) == Ok(m, "}" + rest)
    ensures Members(t, Tidy(read)) == Ok(Obj(Tidy(read + [m])), rest)
  {
    TidySnoc(read, m);
    MembersStep(t, Tidy(read), m, "}" + rest);
    assert ("}" + rest)[1..] == rest;
  }

  lemma NextPair(t: string, read: seq<Member>, m: Member, more: string)
    requires Pair(t) == Ok(m, "," + more)
    ensures Members(t, Tidy(read)) == Members(more, Tidy(read + [m]))
  {
    TidySnoc(read, m);
    MembersStep(t, Tidy(read), m, "," + more);
    assert ("," + more)[1..] == more;
  }

  lemma TidySnoc(read: seq<Member>, m: Member)
    ensures Tidy(read + [m]) == Insert(Tidy(read), m)
  {
    assert (read + [m])[..|read|] == read;
  }

  lemma ObjectReads(entries: seq<Entry>, rest: string)
    requires entries != [] && EntriesOk(entries)
    requires Members(WriteEntries(entries, "}" + rest), Tidy([])) == Ok(Obj(Tidy([] + Pairs(entries))), rest)
    ensures Consume("{" + WriteEntries(entries, "}" + rest)) == Ok(Obj(Tidy(Pairs(entries))), rest)
  {
    var t := WriteEntries(entries, "}" + rest);
    assert EntryOk(entries[0]);
    EntriesHead(entries, "}" + rest);
    MembersSkip(t, []);
    assert ("{" + t)[1..] == t && [] + Pairs(entries) == Pairs(entries);
    ObjectIs("{" + t);
  }

  lemma EntriesHead(entries: seq<Entry>, rest: string)
    requires entries != [] && EntryOk(entries[0])
    ensures At(SkipBlanks(WriteEntries(entries, rest)), 0) == '"'
  {
    var e := entries[0];
    var r := if |entries| == 1 then rest else "," + WriteEntries(entries[1..], rest);
    var u := "\"" + (e.key + "\"" + (e.gap + (":" + WriteItem(e.item, r))));
    SkipsBlanks(e.lead, u);
  }

  // ---- whatever is read was written ----

  lemma {:induction false} BlankPrefix(t: string) returns (s: string)
    ensures Blank(s) && t == s + SkipBlanks(t)
    decreases |t|
  {
    if t != "" && IsBlank(t[0]) {
      var more := BlankPrefix(t[1..]);
      s := [t[0]] + more;
      assert t == [t[0]] + t[1..];
    } else {
      s := "";
      assert "" + t == t;
    }
  }

  /** An accepted value has a text that was written there. */
  lemma {:induction false} ReadText(t: string) returns (x: Text)
    requires Consume(t).Ok?
    ensures TextOk(x) && Meaning(x) == Consume(t).value && Write(x, Consume(t).rest) == t
    decreases |t|, 1
  {
    var c := At(t, 0);
    if c == '"' {
      x := ReadString(t);
    } else if c == 't' || c == 'f' || c == 'n' {
      x := ReadWord(t);
    } else if c == '[' {
      x := ReadArray(t);
    } else if c == '{' {
      x := ReadObject(t);
    } else {
      x := ReadNumber(t);
    }
  }

  lemma ReadString(t: string) returns (x: Text)
    requires Consume(t).Ok? && At(t, 0) == '"'
    ensures TextOk(x) && Meaning(x) == Consume(t).value && Write(x, Consume(t).rest) == t
  {
    var r := StringBody(t[1..]);
    BodyText(t[1..]);
    x := StringText(r.value);
    assert t == "\"" + t[1..];
  }

  lemma ReadWord(t: string) returns (x: Text)
    requires Consume(t).Ok? && At(t, 0) in ['t', 'f', 'n']
    ensures TextOk(x) && Meaning(x) == Consume(t).value && Write(x, Consume(t).rest) == t
  {
    x := if At(t, 0) == 'n' then NullText else BoolText(At(t, 0) == 't');
    var word := if At(t, 0) == 'n' then "null" else if At(t, 0) == 't' then "true" else "false";
    assert word <= t;
    assert t == word + t[|word|..];
  }

  lemma ReadNumber(t: string) returns (x: Text)
    requires Consume(t).Ok? && At(t, 0) !in ['"', 't', 'f', 'n', '{', '[']
    ensures TextOk(x) && Meaning(x) == Consume(t).value && Write(x, Consume(t).rest) == t
  {
    assert Consume(t) == ConsumeNumber(t);
    var n := NumberEnd(t).value;
    var minus, a, b, c := AcceptedParts(t);
    x := NumberText(minus, a, b, c);
    NumberMeans(minus, a, b, c);
    assert t == t[..n] + t[n..];
  }

  lemma {:induction false} ReadItem(t: string) returns (i: Item)
    requires Value(t).Ok?
    ensures ItemOk(i) && Meaning(i.text) == Value(t).value && WriteItem(i, Value(t).rest) == t
    decreases |t|, 2
  {
    var before := BlankPrefix(t);
    var x := ReadText(SkipBlanks(t));
    var after := BlankPrefix(Consume(SkipBlanks(t)).rest);
    i := Item(before, x, after);
  }

  lemma {:induction false} ReadItems(t: string, done: seq<Json>) returns (items: seq<Item>)
    requires Elements(t, done).Ok?
    ensures items != [] && ItemsOk(items)
    ensures Elements(t, done).value == Arr(done + Values(items)) && WriteItems(items, "]" + Elements(t, done).rest) == t
    decreases |t|, 3
  {
    var i := ReadItem(t);
    var v := Value(t);
    var next := v.rest[1..];
    ElementsStep(t, done, v.value, v.rest);
    if At(v.rest, 0) == ']' {
      items := [i];
      OneItem(i);
      assert v.rest == "]" + next;
    } else {
      var more := ReadItems(next, done + [v.value]);
      items := [i] + more;
      MoreItems(i, more, "]" + Elements(t, done).rest, v.rest);
      Reassociate(done, v.value, Values(more));
    }
  }

  lemma NothingDone(items: seq<Item>)
    requires items != [] && ItemsOk(items)
    ensures [] + Values(items) == Values(items) && TextOk(ArrayText("", items))
    ensures Meaning(ArrayText("", items)) == Arr(Values(items))
  {
  }

  lemma Reassociate(a: seq<Json>, j: Json, b: seq<Json>)
    ensures (a + [j]) + b == a + ([j] + b)
  {
  }

  lemma OneItem(i: Item)
    requires ItemOk(i)
    ensures ItemsOk([i]) && Values([i]) == [Meaning(i.text)]
  {
    assert [i][1..] == [];
  }

  lemma MoreItems(i: Item, more: seq<Item>, end: string, r: string)
    requires ItemOk(i) && more != [] && ItemsOk(more) && r != "" && r[0] == ',' && WriteItems(more, end) == r[1..]
    ensures ItemsOk([i] + more) && Values([i] + more) == [Meaning(i.text)] + Values(more)
    ensures WriteItems([i] + more, end) == WriteItem(i, r)
  {
    assert ([i] + more)[1..] == more;
    assert r == "," + r[1..];
  }

  lemma {:induction false} ReadArray(t: string) returns (x: Text)
    requires Consume(t).Ok? && At(t, 0) == '['
    ensures TextOk(x) && Meaning(x) == Consume(t).value && Write(x, Consume(t).rest) == t
    decreases |t|, 0
  {
    var inner := t[1..];
    var u := SkipBlanks(inner);
    ArrayIs(t);
    assert t == "[" + inner;
    if At(u, 0) == ']' {
      var s := BlankPrefix(inner);
      x := ArrayText(s, []);
      assert u == "]" + u[1..];
    } else {
      ElementsSkip(inner, []);
      var items := ReadItems(inner, []);
      x := ArrayText("", items);
      NothingDone(items);
    }
  }

  lemma {:induction false} ReadEntry(t: string) returns (e: Entry)
    requires Pair(t).Ok?
    ensures EntryOk(e) && Pair(t).value == Member(e.key, Meaning(e.item.text)) && WriteEntry(e, Pair(t).rest) == t
    decreases |t|, 3
  {
    var lead, key, gap, after := ReadKey(t);
    var i := ReadItem(after);
    e := Entry(lead, key, gap, i);
  }

  lemma ReadKey(t: string) returns (lead: string, key: string, gap: string, after: string)
    requires Pair(t).Ok?
    ensures Blank(lead) && WellFormed(key) && Blank(gap) && |after| < |t|
    ensures t == lead + ("\"" + (key + "\"" + (gap + (":" + after))))
    ensures Value(after).Ok? && Pair(t) == Ok(Member(key, Value(after).value), Value(after).rest)
  {
    PairIs(t);
    var k := ConsumeString(t);
    lead := KeyText(t);
    gap := BlankPrefix(k.rest);
    key, after := k.value, SkipBlanks(k.rest)[1..];
    assert SkipBlanks(k.rest) == ":" + after;
  }

  lemma PairIs(t: string)
    requires Pair(t).Ok?
    ensures var k := ConsumeString(t); k.Ok? && var v := SkipBlanks(k.rest);
            && |k.rest| < |t| && v != "" && v[0] == ':' && Value(v[1..]).Ok?
            && Pair(t) == Ok(Member(k.value, Value(v[1..]).value), Value(v[1..]).rest)
  {
  }

  lemma KeyText(t: string) returns (lead: string)
    requires ConsumeString(t).Ok?
    ensures var k := ConsumeString(t); Blank(lead) && WellFormed(k.value) && t == lead + ("\"" + (k.value + "\"" + k.rest))
  {
    var u := SkipBlanks(t);
    lead := BlankPrefix(t);
    BodyText(u[1..]);
    assert u == "\"" + u[1..];
  }

  lemma {:induction false} ReadEntries(t: string, read: seq<Member>) returns (entries: seq<Entry>)
    requires Members(t, Tidy(read)).Ok?
    ensures entries != [] && EntriesOk(entries)
    ensures Members(t, Tidy(read)).value == Obj(Tidy(read + Pairs(entries)))
    ensures WriteEntries(entries, "}" + Members(t, Tidy(read)).rest) == t
    decreases |t|, 4
  {
    var e := ReadEntry(t);
    var p := Pair(t);
    var next := p.rest[1..];
    if At(p.rest, 0) == '}' {
      entries := [e];
      OneEntry(e);
      assert p.rest == "}" + next;
      LastPair(t, read, p.value, next);
    } else {
      assert p.rest == "," + next;
      NextPair(t, read, p.value, next);
      var more := ReadEntries(next, read + [p.value]);
      entries := [e] + more;
      MoreEntries(e, more, "}" + Members(t, Tidy(read)).rest, p.rest);
      PairsMove(e, more, read, p.value);
    }
  }

  lemma OneEntry(e: Entry)
    requires EntryOk(e)
    ensures EntriesOk([e]) && Pairs([e]) == [Member(e.key, Meaning(e.item.text))]
  {
    assert [e][1..] == [];
  }

  lemma MoreEntries(e: Entry, more: seq<Entry>, end: string, r: string)
    requires EntryOk(e) && more != [] && EntriesOk(more) && r != "" && r[0] == ',' && WriteEntries(more, end) == r[1..]
    ensures EntriesOk([e] + more) && Pairs([e] + more) == [Member(e.key, Meaning(e.item.text))] + Pairs(more)
    ensures WriteEntries([e] + more, end) == WriteEntry(e, r)
  {
    assert ([e] + more)[1..] == more;
    assert r == "," + r[1..];
  }

  lemma NothingRead(entries: seq<Entry>)
    requires entries != [] && EntriesOk(entries)
    ensures [] + Pairs(entries) == Pairs(entries) && TextOk(ObjectText("", entries))
    ensures Meaning(ObjectText("", entries)) == Obj(Tidy(Pairs(entries)))
  {
  }

  lemma {:induction false} ReadObject(t: string) returns (x: Text)
    requires Consume(t).Ok? && At(t, 0) == '{'
    ensures TextOk(x) && Meaning(x) == Consume(t).value && Write(x, Consume(t).rest) == t
    decreases |t|, 0
  {
    var inner := t[1..];
    var u := SkipBlanks(inner);
    ObjectIs(t);
    assert t == "{" + inner;
    if At(u, 0) == '}' {
      var s := BlankPrefix(inner);
      x := ObjectText(s, []);
      assert u == "}" + u[1..];
    } else {
      MembersSkip(inner, []);
      var entries := ReadEntries(inner, []);
      x := ObjectText("", entries);
      NothingRead(entries);
    }
  }

  /** The parser accepts a text if and only if it is one of a value, with blanks around, and then the tree
      is what the text means. */
  lemma ParseIff(t: string, j: Json)
    ensures Parse(t) == Ok(j, "") <==> exists i: Item :: ItemOk(i) && WriteItem(i, "") == t && Meaning(i.text) == j
  {
    if exists i: Item :: ItemOk(i) && WriteItem(i, "") == t && Meaning(i.text) == j {
      var i: Item :| ItemOk(i) && WriteItem(i, "") == t && Meaning(i.text) == j;
      ItemReads(i, "");
    }
    if Parse(t) == Ok(j, "") {
      var i := ReadItem(t);
      assert ItemOk(i) && WriteItem(i, "") == t && Meaning(i.text) == j;
    }
  }

  /** An object's members are the first values of its keys, in order. */
  lemma ObjectMeans(inner: string, entries: seq<Entry>)
    requires TextOk(ObjectText(inner, entries))
    ensures var j := Meaning(ObjectText(inner, entries)); EntriesOk(entries) && j.Obj? && FirstValues(Pairs(entries), j.members)
  {
    TidyIs(Pairs(entries));
  }

  // ---- the printer writes one of these texts ----

  /** The text that is printed. */
  function Printed(j: Json): Text
    requires Printable(j)
    decreases j, 0
  {
    match j
    case Null => NullText
    case Bool(b) => BoolText(b)
    case Number(v) => NumberText(if v.Floor < 0 then "-" else "", Decimal(if v.Floor < 0 then -v.Floor else v.Floor), "", "")
    case Str(raw) => StringText(raw)
    case Arr(items) => ArrayText("  ", PrintedItems(items))
    case Obj(ms) => ObjectText("  ", PrintedEntries(ms))
  }

  function PrintedItem(j: Json, last: bool): Item
    requires Printable(j)
    decreases j, 1
  {
    Item(" ", Printed(j), if last then " " else "")
  }

  function PrintedItems(items: seq<Json>): seq<Item>
    requires PrintableItems(items)
    decreases items, 2
  {
    if items == [] then [] else [PrintedItem(items[0], |items| == 1)] + PrintedItems(items[1..])
  }

  function PrintedEntries(ms: seq<Member>): seq<Entry>
    requires PrintableMembers(ms)
    decreases ms, 2
  {
    if ms == [] then []
    else [Entry(" ", ms[0].key, "", PrintedItem(ms[0].value, |ms| == 1))] + PrintedEntries(ms[1..])
  }

  /** It means the tree. */
  lemma {:induction false} PrintedMeans(j: Json)
    requires Printable(j)
    ensures TextOk(Printed(j)) && Meaning(Printed(j)) == j
    decreases j, 0
  {
    match j
    case Number(v) => PrintedNumber(v);
    case Arr(items) => PrintedItemsMean(items);
    case Obj(ms) =>
      PrintedEntriesMean(ms);
      TidySorted(ms);
    case _ =>
  }

  lemma PrintedNumber(v: real)
    requires SmallInt(v)
    ensures var size: nat := if v.Floor < 0 then -v.Floor else v.Floor; var minus := if v.Floor < 0 then "-" else "";
            NumberOk(minus, Decimal(size), "", "") && PartsValue(minus, Decimal(size), "", "") == v
  {
    DecimalValue(if v.Floor < 0 then -v.Floor else v.Floor);
  }

  lemma {:induction false} PrintedItemsMean(items: seq<Json>)
    requires PrintableItems(items)
    ensures ItemsOk(PrintedItems(items)) && Values(PrintedItems(items)) == items
    decreases items, 1
  {
    if items != [] {
      PrintedMeans(items[0]);
      PrintedItemsMean(items[1..]);
      assert PrintedItems(items)[1..] == PrintedItems(items[1..]);
      assert items == [items[0]] + items[1..];
    }
  }

  lemma {:induction false} PrintedEntriesMean(ms: seq<Member>)
    requires PrintableMembers(ms)
    ensures EntriesOk(PrintedEntries(ms)) && Pairs(PrintedEntries(ms)) == ms
    decreases ms, 1
  {
    if ms != [] {
      PrintedMeans(ms[0].value);
      PrintedEntriesMean(ms[1..]);
      assert PrintedEntries(ms)[1..] == PrintedEntries(ms[1..]);
      assert ms == [ms[0]] + ms[1..];
    }
  }

  lemma {:induction false} TidySorted(ms: seq<Member>)
    requires Sorted(ms)
    ensures Tidy(ms) == ms
    decreases |ms|
  {
    if ms != [] {
      var before, last := ms[..|ms| - 1], ms[|ms| - 1];
      TidySorted(before);
      InsertLast(before, last);
      assert ms == before + [last];
    }
  }

  /** It is what is printed. */
  lemma {:induction false} PrintedText(j: Json, rest: string)
    requires Printable(j)
    ensures Write(Printed(j), rest) == Print(j) + rest
    decreases j, 0
  {
    match j
    case Number(v) => PrintedNumberText(v.Floor, rest);
    case Str(raw) => Quoted(raw, rest);
    case Arr(items) =>
      Bracketed("[", PrintItems(items, ""), "]", rest);
      if items != [] {
        PrintedItemsText(items, rest);
      }
    case Obj(ms) =>
      Bracketed("{", PrintMembers(ms, ""), "}", rest);
      if ms != [] {
        PrintedEntriesText(ms, rest);
      }
    case _ =>
  }

  lemma Quoted(raw: string, rest: string)
    ensures "\"" + (raw + "\"" + rest) == ("\"" + raw + "\"") + rest
  {
  }

  lemma Bracketed(open: string, p: string, close: string, rest: string)
    ensures open + (" " + (p + ((" " + close) + rest))) == ((open + " ") + p + (" " + close)) + rest
    ensures open == "[" ==> open + " " == "[ "
    ensures open == "{" ==> open + " " == "{ "
    ensures close == "]" ==> " " + close == " ]"
    ensures close == "}" ==> " " + close == " }"
    ensures open + ("  " + (close + rest)) == ((open + " ") + "" + (" " + close)) + rest
  {
  }

  lemma PrintedNumberText(n: int, rest: string)
    ensures var minus := if n < 0 then "-" else "";
            (minus + Decimal(if n < 0 then -n else n) + "" + "") + rest == IntText(n) + rest
  {
    var s := Decimal(if n < 0 then -n else n);
    assert "" + s == s;
    assert IntText(n) + "" + "" == IntText(n);
  }

  lemma {:induction false} PrintedItemsText(items: seq<Json>, rest: string)
    requires PrintableItems(items) && items != []
    ensures WriteItems(PrintedItems(items), "]" + rest) == " " + (PrintItems(items, "") + (" ]" + rest))
    decreases items, 1
  {
    var more := items[1..];
    var p := Print(items[0]);
    var all := PrintedItems(items);
    assert all[0] == PrintedItem(items[0], |items| == 1) && all[1..] == PrintedItems(more);
    if more == [] {
      PrintedText(items[0], " " + ("]" + rest));
      LastItemText(p, rest);
    } else {
      PrintedItemsText(more, rest);
      PrintedText(items[0], "" + ("," + WriteItems(all[1..], "]" + rest)));
      ItemsComma(more);
      NextItemText(p, PrintItems(more, ""), rest);
    }
  }

  lemma LastItemText(p: string, rest: string)
    ensures " " + (p + (" " + ("]" + rest))) == " " + (("" + p + "") + (" ]" + rest))
  {
  }

  lemma NextItemText(p: string, q: string, rest: string)
    ensures " " + (p + ("" + ("," + (" " + (q + (" ]" + rest)))))) == " " + (("" + p + (", " + q)) + (" ]" + rest))
  {
  }

  lemma ItemsComma(items: seq<Json>)
    requires PrintableItems(items) && items != []
    ensures PrintItems(items, ", ") == ", " + PrintItems(items, "")
  {
    CommaFirst(Print(items[0]), PrintItems(items[1..], ", "));
  }

  lemma CommaFirst(p: string, q: string)
    ensures ", " + p + q == ", " + ("" + p + q)
  {
  }

  lemma {:induction false} PrintedEntriesText(ms: seq<Member>, rest: string)
    requires PrintableMembers(ms) && ms != []
    ensures WriteEntries(PrintedEntries(ms), "}" + rest) == " " + (PrintMembers(ms, "") + (" }" + rest))
    decreases ms, 1
  {
    var more := ms[1..];
    var k, p := ms[0].key, Print(ms[0].value);
    var all := PrintedEntries(ms);
    assert all[0] == Entry(" ", k, "", PrintedItem(ms[0].value, |ms| == 1)) && all[1..] == PrintedEntries(more);
    if more == [] {
      PrintedText(ms[0].value, " " + ("}" + rest));
      LastEntryText(k, p, rest);
      EntryTextIs(all[0], "}" + rest);
      assert PrintMembers(ms, "") == "" + "\"" + k + "\": " + p + "";
    } else {
      PrintedEntriesText(more, rest);
      var w := WriteEntries(all[1..], "}" + rest);
      PrintedText(ms[0].value, "" + ("," + w));
      MembersComma(more);
      NextEntryText(k, p, PrintMembers(more, ""), rest);
      EntryTextIs(all[0], "," + w);
      assert PrintMembers(ms, "") == "" + "\"" + k + "\": " + p + (", " + PrintMembers(more, ""));
    }
  }

  lemma EntryTextIs(e: Entry, rest: string)
    ensures WriteEntry(e, rest)
         == e.lead + ("\"" + (e.key + "\"" + (e.gap + (":" + (e.item.before + Write(e.item.text, e.item.after + rest))))))
  {
  }

  lemma LastEntryText(k: string, p: string, rest: string)
    ensures " " + ("\"" + (k + "\"" + ("" + (":" + (" " + (p + (" " + ("}" + rest))))))))
         == " " + (("" + "\"" + k + "\": " + p + "") + (" }" + rest))
  {
    assert "\": " == "\"" + (":" + " ");
  }

  lemma NextEntryText(k: string, p: string, q: string, rest: string)
    ensures " " + ("\"" + (k + "\"" + ("" + (":" + (" " + (p + ("" + ("," + (" " + (q + (" }" + rest)))))))))))
         == " " + (("" + "\"" + k + "\": " + p + (", " + q)) + (" }" + rest))
  {
    assert "\": " == "\"" + (":" + " ");
  }

  lemma MembersComma(ms: seq<Member>)
    requires PrintableMembers(ms) && ms != []
    ensures PrintMembers(ms, ", ") == ", " + PrintMembers(ms, "")
  {
    Separated(ms[0].key, Print(ms[0].value), PrintMembers(ms[1..], ", "));
  }

  lemma Separated(k: string, v: string, q: string)
    ensures ", " + "\"" + k + "\": " + v + q == ", " + ("" + "\"" + k + "\": " + v + q)
  {
  }

  /** Parsing what was printed gives back the tree. */
  lemma RoundTrip(j: Json)
    requires Printable(j)
    ensures Parse(Print(j)) == Ok(j, "")
  {
    PrintedMeans(j);
    PrintedText(j, "" + "");
    assert "" + (Print(j) + ("" + "")) == Print(j);
    ItemReads(Item("", Printed(j), ""), "");
  }

  /** Printing, parsing and printing again changes nothing. */
  lemma PrintIsStable(j: Json)
    requires Printable(j)
    ensures Parse(Print(j)).Ok? && Printable(Parse(Print(j)).value)
    ensures Print(Parse(Print(j)).value) == Print(j)
  {
    RoundTrip(j);
  }

  /** Any accepted text whose numbers are small integers is equivalent to its printed form: printing
      the parsed tree and parsing again gives the same tree. */
  lemma ParsePrintParse(t: string)
    requires Parse(t).Ok? && SmallNumbers(Parse(t).value)
    ensures Printable(Parse(t).value)
    ensures Parse(Print(Parse(t).value)) == Parse(t)
  {
    ConsumedIsNormal(SkipBlanks(t));
    NormalIsPrintable(Parse(t).value);
    RoundTrip(Parse(t).value);
  }
}
