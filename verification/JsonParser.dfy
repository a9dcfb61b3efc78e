/** The recursive-descent JSON parser as the object that it is: a position that moves forward and is
    taken back, the last character read and the token being built. A thrown `UnexpectedToken` is an
    `ok` that is false. Every method is proved against the functions on the remaining text. */
module JsonParsers {
  import opened Commons
  import opened JsonNumbers
  import opened Jsons

  class Parser {
    /** The text up to the terminator; reading at its length yields NUL. */
    const source: string
    var pos: int
    var character: char
    var token: string

    /** The position never leaves -1..length, so nothing behind the terminator is ever read. */
    predicate InBounds()
      reads this
    {
      -1 <= pos <= |source|
    }

    /** The terminator has not been passed. */
    predicate Ready()
      reads this
    {
      InBounds() && pos < |source|
    }

    function Rest(): string
      requires Ready()
      reads this
    {
      source[pos + 1..]
    }

    constructor (text: string)
      ensures Ready() && Rest() == text
    {
      source, pos, character, token := text, -1, ' ', "";
    }

    method NextCharacter() returns (ok: bool)
      requires InBounds()
      modifies this
      ensures InBounds() && token == old(token)
      ensures ok <==> old(pos) < |source|
      ensures ok ==> pos == old(pos) + 1 && character == At(source, pos)
      ensures !ok ==> pos == old(pos)
    {
      if pos >= 0 && pos == |source| {
        return false;
      }
      pos := pos + 1;
      character := if pos < |source| then source[pos] else '\0';
      ok := true;
    }

    method Retract()
      requires InBounds() && pos >= 0
      modifies this
      ensures Ready() && pos == old(pos) - 1 && character == ' ' && token == old(token)
    {
      pos := pos - 1;
      character := ' ';
    }

    method Concat()
      modifies this
      ensures token == old(token) + [old(character)] && pos == old(pos) && character == old(character)
    {
      token := token + [character];
    }

    method SkipWhitespaces()
      requires Ready()
      modifies this
      ensures Ready() && Rest() == SkipBlanks(old(Rest())) && pos >= old(pos)
    {
      while true
        invariant Ready() && pos >= old(pos) && SkipBlanks(Rest()) == SkipBlanks(old(Rest()))
        decreases |source| - pos
      {
        ghost var t := Rest();
        var ok := NextCharacter();
        assert |t| == |source| - pos && character == At(t, 0);
        if IsBlank(character) {
          assert t[1..] == Rest();
          OneBlank(t);
        } else {
          NoBlank(t);
          pos := pos - 1;
          assert Rest() == t;
          return;
        }
      }
    }

    method ConsumeSpecific(word: string) returns (ok: bool)
      requires Ready() && forall i :: 0 <= i < |word| ==> word[i] != '\0'
      modifies this
      ensures InBounds() && (ok <==> Specific(old(Rest()), word).Ok?)
      ensures ok ==> Ready() && Rest() == Specific(old(Rest()), word).rest
      ensures ok && word != "" ==> character == word[|word| - 1]
    {
      ghost var t := Rest();
      ghost var start := pos;
      var i := 0;
      while i < |word|
        invariant i <= |word| && Ready() && pos == start + i && t == source[start + 1..]
        invariant i <= |t| && word[..i] == t[..i]
        invariant i > 0 ==> character == word[i - 1]
      {
        ok := NextCharacter();
        assert character == At(t, i);
        if word[i] != character {
          assert i < |t| ==> t[i] != word[i];
          return false;
        }
        assert word[..i + 1] == word[..i] + [word[i]] && t[..i + 1] == t[..i] + [t[i]];
        i := i + 1;
      }
      assert word[..i] == word && source[pos + 1..] == t[i..];
      ok := true;
    }

    // ---- numbers ----

    /** Where the number that starts at `b` stands: its first `i` characters are the token, and the
        character behind them is the current one. */
    ghost predicate Scanned(b: nat, i: nat)
      reads this
    {
      && InBounds() && b <= |source| && i <= |source| - b
      && pos == b + i && character == At(source, pos) && token == source[b..pos]
    }

    method ConsumeIntPart(ghost b: nat) returns (ok: bool)
      requires Ready() && b == pos + 1
      modifies this
      ensures InBounds()
      ensures var t := source[b..];
              var end := IntEnd(t, if At(t, 0) == '-' then 1 else 0);
              (ok <==> end.Some?) && (ok ==> Scanned(b, end.value))
    {
      ghost var t := source[b..];
      token := "";
      ok := NextCharacter();
      if character == '-' {
        Concat();
        ok := NextCharacter();
      }
      ghost var sign: nat := if At(t, 0) == '-' then 1 else 0;
      assert Scanned(b, sign) && character == At(t, sign);
      IntEndAt(source, b, sign);
      ok := ConsumeIntDigits(b, sign);
    }

    /** The digits of the integer part: a zero alone, or all that follow. */
    method ConsumeIntDigits(ghost b: nat, ghost sign: nat) returns (ok: bool)
      requires Scanned(b, sign)
      modifies this
      ensures InBounds()
      ensures var end := IntDigitsEnd(source, b, sign); (ok <==> end.Some?) && (ok ==> Scanned(b, end.value))
    {
      if !IsDigit(character) {
        return false;
      }
      Concat();
      Longer(source, b, b + sign);
      if character != '0' {
        ghost var e := ConsumeDigits(b, sign);
        Retract();
      }
      ok := NextCharacter();
      ok := !IsDigit(character);
    }

    /** Reads on behind the digit at `start` and stops at the first character that is none. */
    method ConsumeDigits(ghost b: nat, ghost start: nat) returns (ghost e: nat)
      requires Ready() && pos == b + start && IsDigit(source[pos]) && token == source[b..pos + 1]
      modifies this
      ensures Scanned(b, e) && b + e == RunEnd(source, b + start)
    {
      e := start + 1;
      while true
        invariant Ready() && pos == b + e - 1 && e > start && token == source[b..b + e]
        invariant RunEnd(source, b + e) == RunEnd(source, b + start)
        decreases |source| - pos
      {
        var ok := NextCharacter();
        if !IsDigit(character) {
          break;
        }
        Concat();
        Longer(source, b, pos);
        e := e + 1;
      }
    }

    method ConsumeFracPart(ghost b: nat, ghost i: nat) returns (ok: bool)
      requires Scanned(b, i)
      modifies this
      ensures InBounds()
      ensures var end := FracEnd(source[b..], i); (ok <==> end.Some?) && (ok ==> Scanned(b, end.value))
    {
      FracEndAt(source, b, i);
      if character != '.' {
        return true;
      }
      Concat();
      Longer(source, b, b + i);
      ok := NextCharacter();
      if !IsDigit(character) {
        return false;
      }
      Concat();
      Longer(source, b, b + i + 1);
      ghost var j := ConsumeDigits(b, i + 1);
      ok := true;
    }

    method ConsumeExpPart(ghost b: nat, ghost i: nat) returns (ok: bool)
      requires Scanned(b, i) && i > 0
      modifies this
      ensures InBounds()
      ensures var end := ExpEnd(source[b..], i);
              (ok <==> end.Some?)
              && (ok ==> Ready() && pos == b + end.value - 1 && token == source[b..pos + 1] && character == ' ')
    {
      ExpEndAt(source, b, i);
      if !IsE(character) {
        Retract();
        return true;
      }
      ghost var start := if IsDigit(At(source, b + i + 1)) then i + 1 else i + 2;
      ok := ConsumeExpSign(b, i);
      if !ok { return; }
      ok := ConsumeExpDigits(b, start);
    }

    /** At least one digit, and the character behind the last is taken back. */
    method ConsumeExpDigits(ghost b: nat, ghost start: nat) returns (ok: bool)
      requires Ready() && start > 0 && pos + 1 == b + start && token == source[b..b + start]
      modifies this
      ensures InBounds() && (ok <==> IsDigit(At(source, b + start)))
      ensures ok ==> Ready() && pos + 1 == RunEnd(source, b + start)
                     && token == source[b..pos + 1] && character == ' '
    {
      ok := NextCharacter();
      if !IsDigit(character) {
        return false;
      }
      Concat();
      Longer(source, b, b + start);
      ghost var j := ConsumeDigits(b, start);
      Retract();
      ok := true;
    }

    /** The `e` and an optional sign; a digit in its place is taken back. */
    method ConsumeExpSign(ghost b: nat, ghost i: nat) returns (ok: bool)
      requires Scanned(b, i) && IsE(character)
      modifies this
      ensures InBounds()
      ensures var c := At(source, b + i + 1);
              && (ok <==> c == '+' || c == '-' || IsDigit(c))
              && (ok ==> Ready() && pos == (if IsDigit(c) then b + i else b + i + 1) && token == source[b..pos + 1])
    {
      Concat();
      Longer(source, b, b + i);
      ok := NextCharacter();
      if character == '+' || character == '-' {
        Concat();
        Longer(source, b, b + i + 1);
      } else if IsDigit(character) {
        Retract();
      } else {
        ok := false;
      }
    }

    method ConsumeNumber() returns (ok: bool, j: Json)
      requires Ready()
      modifies this
      ensures InBounds() && (ok <==> Jsons.ConsumeNumber(old(Rest())).Ok?)
      ensures ok ==> Ready() && Jsons.ConsumeNumber(old(Rest())) == Ok(j, Rest()) && character != '\0'
    {
      j := Null;
      ghost var b := pos + 1;
      ok := ScanNumber(b);
      if ok {
        assert token == source[b..][..|token|] && Rest() == source[b..][|token|..];
        TokenAccepted(source[b..], |token|);
        j := Number(NumberValue(token));
      }
    }

    method ScanNumber(ghost b: nat) returns (ok: bool)
      requires Ready() && b == pos + 1
      modifies this
      ensures InBounds() && (ok <==> NumberEnd(source[b..]).Some?)
      ensures ok ==> Ready() && character != '\0' && pos + 1 == b + |token| && token == source[b..pos + 1]
                     && NumberEnd(source[b..]) == Some(|token|)
    {
      ghost var t := source[b..];
      ok := ScanMantissa(b);
      if ok {
        assert NumberEnd(t) == ExpEnd(t, MantissaEnd(t).value);
        ok := ConsumeExpPart(b, MantissaEnd(t).value);
      }
    }

    method ScanMantissa(ghost b: nat) returns (ok: bool)
      requires Ready() && b == pos + 1
      modifies this
      ensures InBounds() && (ok <==> MantissaEnd(source[b..]).Some?)
      ensures ok ==> Scanned(b, MantissaEnd(source[b..]).value)
    {
      ok := ConsumeIntPart(b);
      if ok {
        ok := ConsumeFracPart(b, pos - b);
      }
    }

    // ---- strings and words ----

    /** An escape whose backslash is the current character. */
    method ConsumeEscape() returns (ok: bool)
      requires Ready() && pos >= 0 && character == source[pos] == '\\'
      modifies this
      ensures InBounds()
      ensures var n := Unit(source[old(pos)..]);
              && (ok <==> n > 0)
              && (ok ==> Ready() && pos == old(pos) + n - 1 && token == old(token) + source[old(pos)..pos + 1])
    {
      ghost var p := pos;
      ghost var t := source[p..];
      Concat();
      ok := NextCharacter();
      assert character == At(t, 1);
      if character in "\"\\/bfnrt" {
        Concat();
        assert source[p..p + 2] == [source[p]] + [source[p + 1]];
        return true;
      }
      if character != 'u' {
        return false;
      }
      Concat();
      assert token == old(token) + source[p..p + 2];
      var i := 0;
      while i < 4
        invariant i <= 4 && Ready() && pos == p + 1 + i && token == old(token) + source[p..pos + 1]
        invariant forall k :: p + 2 <= k <= pos ==> IsHex(source[k])
      {
        ok := NextCharacter();
        if !IsHex(character) {
          assert pos < |source| ==> t[2 + i] == source[pos];
          return false;
        }
        Concat();
        assert source[p..pos + 1] == source[p..pos] + [source[pos]];
        i := i + 1;
      }
      assert t[2] == source[p + 2] && t[3] == source[p + 3] && t[4] == source[p + 4] && t[5] == source[p + 5];
      ok := true;
    }

    method ConsumeString() returns (ok: bool, raw: string)
      requires Ready()
      modifies this
      ensures InBounds() && (ok <==> Jsons.ConsumeString(old(Rest())).Ok?)
      ensures ok ==> Ready() && Jsons.ConsumeString(old(Rest())) == Ok(raw, Rest()) && character != '\0'
    {
      raw := "";
      ok := ConsumeQuote();
      if ok {
        token := "";
        ok := ConsumeBody();
        raw := token;
      }
    }

    /** Blanks and the opening quote. */
    method ConsumeQuote() returns (ok: bool)
      requires Ready()
      modifies this
      ensures InBounds()
      ensures if ok then Ready() && Jsons.ConsumeString(old(Rest())) == StringBody(Rest())
              else Jsons.ConsumeString(old(Rest())) == Fail
    {
      SkipWhitespaces();
      ghost var u := Rest();
      ok := NextCharacter();
      assert character == At(u, 0);
      ok := character == '"';
      assert ok ==> u[1..] == Rest();
    }

    method ConsumeBody() returns (ok: bool)
      requires Ready() && token == ""
      modifies this
      ensures InBounds() && (ok <==> StringBody(old(Rest())).Ok?)
      ensures ok ==> Ready() && StringBody(old(Rest())) == Ok(token, Rest()) && character != '\0'
    {
      PrependNothing(StringBody(Rest()));
      while true
        invariant Ready() && StringBody(old(Rest())) == Prepend(token, StringBody(Rest()))
        decreases |source| - pos
      {
        ghost var t, tok := Rest(), token;
        ok := NextCharacter();
        assert character == At(t, 0);
        if character == '"' {
          assert Rest() == t[1..] && token + "" == token;
          return true;
        }
        assert pos < |source| ==> source[pos..] == t;
        ok := ConsumeUnit();
        if !ok {
          return false;
        }
        PrependUnit(tok, t);
      }
    }

    /** A plain character or an escape that starts at the current character. */
    method ConsumeUnit() returns (ok: bool)
      requires InBounds() && pos >= 0 && character == At(source, pos) && character != '"'
      modifies this
      ensures InBounds()
      ensures var t := source[old(pos)..];
              && (ok <==> Unit(t) > 0)
              && (ok ==> Ready() && pos >= old(pos) && token == old(token) + t[..Unit(t)] && Rest() == t[Unit(t)..])
    {
      ghost var t, n := source[pos..], Unit(source[pos..]);
      assert character == At(t, 0);
      ghost var p := pos;
      if character == '\\' {
        ok := ConsumeEscape();
        assert ok ==> source[p..pos + 1] == t[..n];
      } else {
        ok := !(character < ' ' || character == 127 as char);
        if !ok { return; }
        Concat();
        assert [t[0]] == t[..n];
      }
      assert ok ==> source[pos + 1..] == t[n..];
    }

    method ConsumeBool() returns (ok: bool, j: Json)
      requires Ready() && At(Rest(), 0) in "tf"
      modifies this
      ensures InBounds() && (ok <==> Consume(old(Rest())).Ok?)
      ensures ok ==> Ready() && Consume(old(Rest())) == Ok(j, Rest()) && character != '\0'
    {
      ghost var t := Rest();
      ok := NextCharacter();
      var ch := character;
      assert ch == At(t, 0);
      Retract();
      if ch == 't' {
        ok := ConsumeSpecific("true");
        j := Bool(true);
      } else {
        ok := ConsumeSpecific("false");
        j := Bool(false);
      }
    }

    method ConsumeNull() returns (ok: bool, j: Json)
      requires Ready() && At(Rest(), 0) == 'n'
      modifies this
      ensures InBounds() && (ok <==> Consume(old(Rest())).Ok?)
      ensures ok ==> Ready() && Consume(old(Rest())) == Ok(j, Rest()) && character != '\0'
    {
      j := Null;
      ok := ConsumeSpecific("null");
    }

    // ---- values ----

    method KindDetect() returns (kind: Kind)
      requires Ready()
      modifies this
      ensures Ready() && pos == old(pos) && kind == KindOf(At(Rest(), 0))
    {
      ghost var t := Rest();
      var ok := NextCharacter();
      assert character == At(t, 0);
      kind := KindOf(character);
      Retract();
    }

    /** The consumer that the next character selects. */
    method ConsumeKind() returns (ok: bool, j: Json)
      requires Ready()
      modifies this
      ensures InBounds() && (ok <==> Consume(old(Rest())).Ok?)
      ensures ok ==> Ready() && Consume(old(Rest())) == Ok(j, Rest()) && character != '\0'
      decreases |source| - pos, 1
    {
      var kind := KindDetect();
      match kind
      case KNumber => ok, j := ConsumeNumber();
      case KString =>
        var raw;
        ok, raw := ConsumeString();
        j := Str(raw);
      case KBool => ok, j := ConsumeBool();
      case KNull => ok, j := ConsumeNull();
      case KObject => ok, j := ConsumeObject();
      case KArray => ok, j := ConsumeArray();
    }

    /** A value inside a document; the blanks on both sides go with it. */
    method ConsumeValue() returns (ok: bool, j: Json)
      requires Ready()
      modifies this
      ensures InBounds() && (ok <==> Value(old(Rest())).Ok?)
      ensures ok ==> Ready() && Value(old(Rest())) == Ok(j, Rest()) && pos > old(pos)
      decreases |source| - pos, 2
    {
      SkipWhitespaces();
      ok, j := ConsumeKind();
      if ok {
        SkipWhitespaces();
      }
    }

    /** The opening bracket, blanks, and the closing one if it comes next. */
    method Open(close: char) returns (empty: bool)
      requires Ready() && Rest() != "" && close != '\0'
      modifies this
      ensures Ready() && pos > old(pos) && (empty ==> character == close)
      ensures var u := SkipBlanks(old(Rest())[1..]);
              empty == (At(u, 0) == close) && Rest() == if empty then u[1..] else u
    {
      var ok := NextCharacter();
      assert old(Rest())[1..] == Rest();
      SkipWhitespaces();
      ghost var u := Rest();
      ok := NextCharacter();
      assert character == At(u, 0);
      empty := character == close;
      if empty {
        assert u[1..] == Rest();
      } else {
        Retract();
        assert Rest() == u;
      }
    }

    method ConsumeArray() returns (ok: bool, j: Json)
      requires Ready() && At(Rest(), 0) == '['
      modifies this
      ensures InBounds() && (ok <==> Consume(old(Rest())).Ok?)
      ensures ok ==> Ready() && Consume(old(Rest())) == Ok(j, Rest()) && character != '\0'
      decreases |source| - pos, 0
    {
      ArrayIs(Rest());
      j := Null;
      var empty := Open(']');
      if empty {
        return true, Arr([]);
      }
      ok, j := ConsumeItems();
    }

    method ConsumeItems() returns (ok: bool, j: Json)
      requires Ready()
      modifies this
      ensures InBounds() && (ok <==> Elements(old(Rest()), []).Ok?)
      ensures ok ==> Ready() && Elements(old(Rest()), []) == Ok(j, Rest()) && character != '\0'
      decreases |source| - pos, 5
    {
      j := Null;
      var item;
      ok, item := ConsumeValue();
      if !ok { return; }
      assert [] + [item] == [item];
      ok, j := MoreItems([item]);
    }

    /** The rest of the array, behind what has been read of it. */
    method MoreItems(first: seq<Json>) returns (ok: bool, j: Json)
      requires Ready()
      modifies this
      ensures InBounds() && (ok <==> AfterItem(old(Rest()), first).Ok?)
      ensures ok ==> Ready() && AfterItem(old(Rest()), first) == Ok(j, Rest()) && character != '\0'
      decreases |source| - pos, 4
    {
      j := Null;
      var items, item := first, Null;
      while true
        invariant Ready() && pos >= old(pos) && AfterItem(old(Rest()), first) == AfterItem(Rest(), items)
        decreases |source| - pos
      {
        ghost var t := Rest();
        ok := NextCharacter();
        assert character == At(t, 0);
        if character == ']' {
          assert Rest() == t[1..];
          return true, Arr(items);
        }
        if character != ',' {
          return false, j;
        }
        assert Rest() == t[1..];
        ok, item := ConsumeValue();
        if !ok { return; }
        items := items + [item];
      }
    }

    method ConsumePair() returns (ok: bool, m: Member)
      requires Ready()
      modifies this
      ensures InBounds() && (ok <==> Pair(old(Rest())).Ok?)
      ensures ok ==> Ready() && Pair(old(Rest())) == Ok(m, Rest()) && pos > old(pos)
      decreases |source| - pos, 3
    {
      m := Member("", Null);
      var key, j;
      ok, key := ConsumeString();
      if !ok { return; }
      SkipWhitespaces();
      ok := ConsumeSpecific(":");
      if !ok { return; }
      ok, j := ConsumeValue();
      m := Member(key, j);
    }

    method ConsumeObject() returns (ok: bool, j: Json)
      requires Ready() && At(Rest(), 0) == '{'
      modifies this
      ensures InBounds() && (ok <==> Consume(old(Rest())).Ok?)
      ensures ok ==> Ready() && Consume(old(Rest())) == Ok(j, Rest()) && character != '\0'
      decreases |source| - pos, 0
    {
      ObjectIs(Rest());
      j := Null;
      var empty := Open('}');
      if empty {
        return true, Obj([]);
      }
      ok, j := ConsumeMembers();
    }

    method ConsumeMembers() returns (ok: bool, j: Json)
      requires Ready()
      modifies this
      ensures InBounds() && (ok <==> Members(old(Rest()), []).Ok?)
      ensures ok ==> Ready() && Members(old(Rest()), []) == Ok(j, Rest()) && character != '\0'
      decreases |source| - pos, 5
    {
      j := Null;
      var m;
      ok, m := ConsumePair();
      if !ok { return; }
      ok, j := MoreMembers(Insert([], m));
    }

    /** The rest of the object, behind what has been read of it. */
    method MoreMembers(first: seq<Member>) returns (ok: bool, j: Json)
      requires Ready()
      modifies this
      ensures InBounds() && (ok <==> AfterMember(old(Rest()), first).Ok?)
      ensures ok ==> Ready() && AfterMember(old(Rest()), first) == Ok(j, Rest()) && character != '\0'
      decreases |source| - pos, 4
    {
      j := Null;
      var members, m := first, Member("", Null);
      while true
        invariant Ready() && pos >= old(pos) && AfterMember(old(Rest()), first) == AfterMember(Rest(), members)
        decreases |source| - pos
      {
        ghost var t := Rest();
        ok := NextCharacter();
        assert character == At(t, 0);
        if character == '}' {
          assert Rest() == t[1..];
          return true, Obj(members);
        }
        if character != ',' {
          return false, j;
        }
        assert Rest() == t[1..];
        ok, m := ConsumePair();
        if !ok { return; }
        members := Insert(members, m);
      }
    }

    /** `ConsumeValue(false)` on a fresh parser, as `Json::Parse` calls it: one value and the end. */
    method Parse() returns (ok: bool, j: Json)
      requires Ready() && '\0' !in source
      modifies this
      ensures InBounds()
      ensures ok <==> Jsons.Parse(old(Rest())).Ok?
      ensures ok ==> Jsons.Parse(old(Rest())) == Ok(j, "")
    {
      SkipWhitespaces();
      ok, j := ConsumeKind();
      if ok && character != '\0' {
        SkipWhitespaces();
        ghost var t := Rest();
        ok := NextCharacter();
        assert character == At(t, 0);
        ok := character == '\0';
      }
    }
  }

  datatype Kind = KNumber | KString | KBool | KNull | KObject | KArray

  function KindOf(c: char): Kind {
    match c
    case '"' => KString
    case 't' => KBool
    case 'f' => KBool
    case 'n' => KNull
    case '{' => KObject
    case '[' => KArray
    case _ => KNumber
  }

  /** What an array yields once `done` has been read and `t` remains. */
  ghost function AfterItem(t: string, done: seq<Json>): Result<Json> {
    if At(t, 0) == ']' then Ok(Arr(done), t[1..])
    else if At(t, 0) == ',' then Elements(t[1..], done)
    else Fail
  }

  ghost function AfterMember(t: string, done: seq<Member>): Result<Json> {
    if At(t, 0) == '}' then Ok(Obj(done), t[1..])
    else if At(t, 0) == ',' then Members(t[1..], done)
    else Fail
  }

  /** A token read so far in front of what a string body yields. */
  ghost function Prepend(tok: string, r: Result<string>): Result<string> {
    match r
    case Fail => Fail
    case Ok(raw, rest) => Ok(tok + raw, rest)
  }

  lemma PrependNothing(r: Result<string>)
    ensures Prepend("", r) == r
  {
    if r.Ok? {
      assert "" + r.value == r.value;
    }
  }

  lemma PrependUnit(tok: string, t: string)
    requires Unit(t) > 0
    ensures Prepend(tok, StringBody(t)) == Prepend(tok + t[..Unit(t)], StringBody(t[Unit(t)..]))
  {
    var n := Unit(t);
    var r := StringBody(t[n..]);
    if r.Ok? {
      assert tok + (t[..n] + r.value) == (tok + t[..n]) + r.value;
    }
  }

  lemma Longer(s: string, i: nat, j: nat)
    requires i <= j < |s|
    ensures s[i..j + 1] == s[i..j] + [s[j]]
  {
  }

  /** Where the run of digits at `k` ends. */
  ghost function RunEnd(s: string, k: nat): (e: nat)
    requires k <= |s|
    ensures k <= e <= |s|
    decreases |s| - k
  {
    if k < |s| && IsDigit(s[k]) then RunEnd(s, k + 1) else k
  }

  lemma OneBlank(t: string)
    requires IsBlank(At(t, 0))
    ensures t != "" && SkipBlanks(t) == SkipBlanks(t[1..])
  {
  }

  lemma NoBlank(t: string)
    requires !IsBlank(At(t, 0))
    ensures SkipBlanks(t) == t
  {
  }

  lemma ShiftedAt(s: string, b: nat, i: nat)
    requires b + i <= |s|
    ensures At(s[b..], i) == At(s, b + i)
  {
  }

  /** The run that begins at `b + i`, read from the text behind `b`. */
  lemma {:induction false} RunAt(s: string, b: nat, i: nat)
    requires b + i <= |s|
    ensures i + DigitRun(s[b..][i..]) == RunEnd(s, b + i) - b
    decreases |s| - b - i
  {
    var u := s[b..][i..];
    if u != "" && IsDigit(u[0]) {
      RunAt(s, b, i + 1);
      assert u[1..] == s[b..][i + 1..];
    }
  }

  // ---- the ends of the parts of a number that begins at `b` ----

  /** The end of the digits of an integer part that begin at `i`, if it is one. */
  ghost function IntDigitsEnd(s: string, b: nat, i: nat): Option<nat>
    requires b + i <= |s|
  {
    if !IsDigit(At(s, b + i)) then None
    else
      var end := if s[b + i] == '0' then i + 1 else RunEnd(s, b + i) - b;
      if IsDigit(At(s, b + end)) then None else Some(end)
  }

  lemma IntEndAt(s: string, b: nat, i: nat)
    requires b + i <= |s|
    ensures IntEnd(s[b..], i) == IntDigitsEnd(s, b, i)
  {
    ShiftedAt(s, b, i);
    RunAt(s, b, i);
    if b + i < |s| {
      ShiftedAt(s, b, if s[b + i] == '0' then i + 1 else RunEnd(s, b + i) - b);
    }
  }

  lemma FracEndAt(s: string, b: nat, i: nat)
    requires b + i <= |s|
    ensures FracEnd(s[b..], i) ==
      if At(s, b + i) != '.' then Some(i)
      else if !IsDigit(At(s, b + i + 1)) then None
      else Some(RunEnd(s, b + i + 1) - b)
  {
    ShiftedAt(s, b, i);
    if At(s, b + i) == '.' {
      ShiftedAt(s, b, i + 1);
      RunAt(s, b, i + 1);
    }
  }

  /** The end of the digits of an exponent that begin at `i`, if there is one. */
  ghost function ExpDigitsEnd(s: string, b: nat, i: nat): Option<nat>
    requires b + i <= |s|
  {
    if !IsDigit(At(s, b + i)) then None else Some(RunEnd(s, b + i) - b)
  }

  lemma ExpDigitsAt(s: string, b: nat, i: nat)
    requires b + i <= |s|
    ensures ExpDigitsEnd(s, b, i) == if !IsDigit(At(s[b..], i)) then None else Some(i + DigitRun(s[b..][i..]))
  {
    ShiftedAt(s, b, i);
    RunAt(s, b, i);
  }

  lemma ExpEndAt(s: string, b: nat, i: nat)
    requires b + i <= |s|
    ensures ExpEnd(s[b..], i) ==
      if !IsE(At(s, b + i)) then Some(i)
      else
        var c := At(s, b + i + 1);
        if IsDigit(c) then ExpDigitsEnd(s, b, i + 1)
        else if c == '+' || c == '-' then ExpDigitsEnd(s, b, i + 2)
        else None
  {
    ShiftedAt(s, b, i);
    if IsE(At(s, b + i)) {
      ShiftedAt(s, b, i + 1);
      var c := At(s, b + i + 1);
      if IsDigit(c) {
        SignedEndAt(s, b, i, i + 1);
      } else if c == '+' || c == '-' {
        SignedEndAt(s, b, i, i + 2);
      }
    }
  }

  /** The digits of the exponent begin at `k`, behind a sign if there is one. */
  lemma SignedEndAt(s: string, b: nat, i: nat, k: nat)
    requires b + k <= |s| && i < k && IsE(At(s[b..], i))
    requires var c := At(s[b..], i + 1); if IsDigit(c) then k == i + 1 else k == i + 2 && (c == '+' || c == '-')
    ensures ExpEnd(s[b..], i) == ExpDigitsEnd(s, b, k)
  {
    ExpDigitsAt(s, b, k);
  }
}
