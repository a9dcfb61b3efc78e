/** Numbers of the JSON parser: what it accepts, against the grammar of section 6 of RFC 8259. */
module JsonNumbers {
  import opened Commons

  predicate IsDigit(c: char) { '0' <= c <= '9' }

  /** The character at an index; the terminator behind the end. */
  function At(t: string, i: nat): char { if i < |t| then t[i] else '\0' }

  /** Length of the leading run of digits. */
  function DigitRun(t: string): (n: nat)
    ensures n <= |t| && !IsDigit(At(t, n))
  {
    if t == "" || !IsDigit(t[0]) then 0 else 1 + DigitRun(t[1..])
  }

  lemma {:induction false} RunDigits(t: string)
    ensures forall i :: 0 <= i < DigitRun(t) ==> IsDigit(t[i])
  {
    if t != "" && IsDigit(t[0]) {
      RunDigits(t[1..]);
      assert forall i :: 0 < i < |t| ==> t[i] == t[1..][i - 1];
    }
  }

  // ---- what the parser does ----

  /** End of the integer part that starts at `i`, unless a digit is missing or follows a zero. */
  function IntEnd(t: string, i: nat): (r: Option<nat>)
    requires i <= |t|
    ensures r.Some? ==> i < r.value <= |t|
  {
    if !IsDigit(At(t, i)) then None
    else
      var end := if t[i] == '0' then i + 1 else i + DigitRun(t[i..]);
      if IsDigit(At(t, end)) then None else Some(end)
  }

  function FracEnd(t: string, i: nat): (r: Option<nat>)
    requires i <= |t|
    ensures r.Some? ==> i <= r.value <= |t|
  {
    if At(t, i) != '.' then Some(i)
    else if !IsDigit(At(t, i + 1)) then None
    else Some(i + 1 + DigitRun(t[i + 1..]))
  }

  predicate IsE(c: char) { c == 'e' || c == 'E' }

  function ExpEnd(t: string, i: nat): (r: Option<nat>)
    requires i <= |t|
    ensures r.Some? ==> i <= r.value <= |t|
  {
    if !IsE(At(t, i)) then Some(i)
    else
      var c := At(t, i + 1);
      if c != '+' && c != '-' && !IsDigit(c) then None
      else
        var start := if IsDigit(c) then i + 1 else i + 2;
        if !IsDigit(At(t, start)) then None else Some(start + DigitRun(t[start..]))
  }

  /** End of the sign, integer and fraction parts. */
  function MantissaEnd(t: string): (r: Option<nat>)
    ensures r.Some? ==> 0 < r.value <= |t|
  {
    match IntEnd(t, if At(t, 0) == '-' then 1 else 0)
    case None => None
    case Some(i) => FracEnd(t, i)
  }

  /** Length of the number token at the front of the text, if the parser accepts one. */
  function NumberEnd(t: string): (r: Option<nat>)
    ensures r.Some? ==> 0 < r.value <= |t|
  {
    match MantissaEnd(t)
    case None => None
    case Some(j) => ExpEnd(t, j)
  }

  // ---- the grammar ----

  predicate AllDigits(s: string) {
    s != "" && forall i :: 0 <= i < |s| ==> IsDigit(s[i])
  }

  predicate IsInt(s: string) { s == "0" || (AllDigits(s) && s[0] != '0') }

  predicate IsFrac(s: string) { s == "" || (s[0] == '.' && AllDigits(s[1..])) }

  predicate IsExp(s: string) {
    s == "" || (IsE(s[0]) && (AllDigits(s[1..]) || (|s| > 1 && (s[1] == '+' || s[1] == '-') && AllDigits(s[2..]))))
  }

  predicate Parts(s: string, minus: string, a: string, b: string, c: string) {
    s == minus + a + b + c && (minus == "" || minus == "-") && IsInt(a) && IsFrac(b) && IsExp(c)
  }

  ghost predicate IsNumber(s: string) {
    exists minus, a, b, c :: Parts(s, minus, a, b, c)
  }

  /** What may not follow: anything that would extend the last part or start the next. */
  predicate Stops(b: string, c: string, next: char) {
    && !IsDigit(next)
    && (b == "" && c == "" ==> next != '.')
    && (c == "" ==> !IsE(next))
  }

  // ---- the parser accepts exactly the grammar's tokens that stop ----

  lemma {:induction false} RunIs(t: string, s: string)
    requires forall i :: 0 <= i < |s| ==> IsDigit(s[i])
    requires |s| <= |t| && t[..|s|] == s && !IsDigit(At(t, |s|))
    ensures DigitRun(t) == |s|
  {
    if s != "" {
      assert t[0] == s[0] && t[1..][..|s| - 1] == s[1..];
      RunIs(t[1..], s[1..]);
    }
  }

  /** Accepted tokens are numbers, and they stop. */
  lemma AcceptedParts(t: string) returns (minus: string, a: string, b: string, c: string)
    requires NumberEnd(t).Some?
    ensures Parts(t[..NumberEnd(t).value], minus, a, b, c)
    ensures Stops(b, c, At(t, NumberEnd(t).value))
  {
    var sign := if At(t, 0) == '-' then 1 else 0;
    var i := IntEnd(t, sign).value;
    var j := FracEnd(t, i).value;
    var k := ExpEnd(t, j).value;
    minus, a, b, c := t[..sign], t[sign..i], t[i..j], t[j..k];
    IntSound(t, sign);
    FracSound(t, i);
    ExpSound(t, j);
    Join(t, sign, i, j, k);
  }

  lemma Join(t: string, h: nat, i: nat, j: nat, k: nat)
    requires h <= i <= j <= k <= |t|
    ensures t[..k] == t[..h] + t[h..i] + t[i..j] + t[j..k]
  {
  }

  lemma IntSound(t: string, i: nat)
    requires i <= |t| && IntEnd(t, i).Some?
    ensures IsInt(t[i..IntEnd(t, i).value]) && !IsDigit(At(t, IntEnd(t, i).value))
  {
    var s := t[i..IntEnd(t, i).value];
    if t[i] != '0' {
      RunDigits(t[i..]);
      assert forall k :: 0 <= k < |s| ==> s[k] == t[i..][k];
    }
  }

  lemma FracSound(t: string, i: nat)
    requires i <= |t| && FracEnd(t, i).Some? && !IsDigit(At(t, i))
    ensures var j := FracEnd(t, i).value; IsFrac(t[i..j]) && !IsDigit(At(t, j)) && (t[i..j] == "" ==> At(t, j) != '.')
  {
    if At(t, i) == '.' {
      var n := DigitRun(t[i + 1..]);
      RunDigits(t[i + 1..]);
      assert t[i..i + 1 + n][1..] == t[i + 1..][..n];
      assert At(t[i + 1..], n) == At(t, i + 1 + n);
      assert n > 0;
    }
  }

  lemma ExpSound(t: string, i: nat)
    requires i <= |t| && ExpEnd(t, i).Some? && !IsDigit(At(t, i))
    ensures var j := ExpEnd(t, i).value; IsExp(t[i..j]) && !IsDigit(At(t, j)) && (t[i..j] == "" ==> j == i && !IsE(At(t, j)))
  {
    if IsE(At(t, i)) {
      var start := if IsDigit(At(t, i + 1)) then i + 1 else i + 2;
      var n := DigitRun(t[start..]);
      RunDigits(t[start..]);
      assert t[i..start + n][start - i..] == t[start..][..n];
      assert At(t[start..], n) == At(t, start + n);
      assert n > 0;
    }
  }

  lemma IntComplete(t: string, i: nat, e: nat)
    requires i <= e <= |t| && IsInt(t[i..e]) && !IsDigit(At(t, e))
    ensures IntEnd(t, i) == Some(e)
  {
    assert t[i] == t[i..e][0];
    if t[i] != '0' {
      assert t[i..][..e - i] == t[i..e];
      assert At(t[i..], e - i) == At(t, e);
      RunIs(t[i..], t[i..e]);
    }
  }

  lemma FracComplete(t: string, i: nat, e: nat)
    requires i <= e <= |t| && IsFrac(t[i..e]) && !IsDigit(At(t, e)) && (e == i ==> At(t, i) != '.')
    ensures FracEnd(t, i) == Some(e)
  {
    if e > i {
      assert t[i] == t[i..e][0] && t[i + 1] == t[i..e][1..][0];
      assert t[i + 1..][..e - i - 1] == t[i..e][1..];
      assert At(t[i + 1..], e - i - 1) == At(t, e);
      RunIs(t[i + 1..], t[i..e][1..]);
    }
  }

  lemma ExpComplete(t: string, i: nat, e: nat)
    requires i <= e <= |t| && IsExp(t[i..e]) && !IsDigit(At(t, e)) && (e == i ==> !IsE(At(t, i)))
    ensures ExpEnd(t, i) == Some(e)
  {
    if e > i {
      var s := t[i..e];
      assert t[i] == s[0] && t[i + 1] == s[1];
      var k := if AllDigits(s[1..]) then 1 else 2;
      assert t[i + k] == s[k..][0];
      assert k == 1 ==> s[1..][0] == s[1];
      assert t[i + k..][..e - i - k] == s[k..];
      assert At(t[i + k..], e - i - k) == At(t, e);
      RunIs(t[i + k..], s[k..]);
    }
  }

  lemma Slices(s: string, w: string, x: string, y: string, z: string)
    requires s == w + x + y + z
    ensures var h := |w|; var i := h + |x|; var j := i + |y|;
            && |s| == j + |z|
            && s[..h] == w && s[h..i] == x && s[i..j] == y && s[j..] == z
  {
  }

  lemma SliceOfPrefix(t: string, n: nat, i: nat, j: nat)
    requires i <= j <= n <= |t|
    ensures t[..n][i..j] == t[i..j]
  {
  }

  /** Where the parts of a token lie in the text. */
  lemma PartsLie(t: string, n: nat, minus: string, a: string, b: string, c: string)
    requires n <= |t| && Parts(t[..n], minus, a, b, c)
    ensures var h := |minus|; var i := h + |a|; var j := i + |b|;
            && j + |c| == n
            && t[..h] == minus && t[h..i] == a && t[i..j] == b && t[j..n] == c
            && h == if At(t, 0) == '-' then 1 else 0
  {
    Slices(t[..n], minus, a, b, c);
    var h := |minus|;
    var i := h + |a|;
    var j := i + |b|;
    SliceOfPrefix(t, n, 0, h);
    SliceOfPrefix(t, n, h, i);
    SliceOfPrefix(t, n, i, j);
    SliceOfPrefix(t, n, j, n);
    assert t[h] == t[h..i][0];
    assert h == 1 ==> t[0] == t[..1][0];
  }

  /** The next character behind a part that is not the last is the first of the next part. */
  lemma NextPart(t: string, n: nat, minus: string, a: string, b: string, c: string)
    requires n <= |t| && Parts(t[..n], minus, a, b, c)
    ensures var i := |minus| + |a|; var j := i + |b|;
            && (b != "" ==> At(t, i) == '.')
            && (b == "" && c != "" ==> IsE(At(t, i)))
            && (c != "" ==> IsE(At(t, j)))
  {
    PartsLie(t, n, minus, a, b, c);
    var i := |minus| + |a|;
    var j := i + |b|;
    assert b != "" ==> t[i..j][0] == t[i];
    assert c != "" ==> t[j..n][0] == t[j];
  }

  /** A token of the grammar that stops is accepted, and taken whole. */
  lemma StoppedIsAccepted(t: string, n: nat, minus: string, a: string, b: string, c: string)
    requires n <= |t| && Parts(t[..n], minus, a, b, c) && Stops(b, c, At(t, n))
    ensures NumberEnd(t) == Some(n)
  {
    PartsLie(t, n, minus, a, b, c);
    NextPart(t, n, minus, a, b, c);
    Assembled(t, |minus|, |minus| + |a|, |minus| + |a| + |b|, n);
  }

  lemma Assembled(t: string, h: nat, i: nat, j: nat, n: nat)
    requires h <= i <= j <= n <= |t| && h == if At(t, 0) == '-' then 1 else 0
    requires IsInt(t[h..i]) && IsFrac(t[i..j]) && IsExp(t[j..n])
    requires i < j ==> At(t, i) == '.'
    requires i == j < n ==> IsE(At(t, i))
    requires j < n ==> IsE(At(t, j))
    requires !IsDigit(At(t, n)) && (i == j == n ==> At(t, n) != '.') && (j == n ==> !IsE(At(t, n)))
    ensures NumberEnd(t) == Some(n)
  {
    IntComplete(t, h, i);
    FracComplete(t, i, j);
    ExpComplete(t, j, n);
  }

  // ---- no longer prefix is a number ----

  lemma IntNoLonger(t: string, i: nat, e: nat)
    requires i <= e <= |t| && IntEnd(t, i).Some? && IsInt(t[i..e])
    ensures e <= IntEnd(t, i).value
    ensures e < IntEnd(t, i).value ==> IsDigit(t[e])
  {
    assert t[i] == t[i..e][0];
    var n := DigitRun(t[i..]);
    RunDigits(t[i..]);
    assert forall k :: 0 <= k < |t| - i ==> t[i..][k] == t[i + k];
    if t[i] != '0' {
      assert forall k :: 0 <= k < e - i ==> t[i..e][k] == t[i + k];
    }
  }

  lemma FracNoLonger(t: string, i: nat, e: nat)
    requires i <= e <= |t| && FracEnd(t, i).Some? && IsFrac(t[i..e]) && (At(t, i) == '.' ==> e > i)
    ensures e <= FracEnd(t, i).value
    ensures e < FracEnd(t, i).value ==> IsDigit(t[e])
  {
    if e > i {
      assert t[i] == t[i..e][0];
      RunDigits(t[i + 1..]);
      assert forall k :: 0 <= k < e - i - 1 ==> t[i..e][1..][k] == t[i + 1..][k];
    }
  }

  /** Digits belong to the run that begins with the first of them. */
  lemma RunReaches(t: string, i: nat, e: nat)
    requires i <= e <= |t| && AllDigits(t[i..e])
    ensures e <= i + DigitRun(t[i..]) && IsDigit(At(t, i))
  {
    assert t[i] == t[i..e][0];
    if i + DigitRun(t[i..]) < e {
      assert t[i..][DigitRun(t[i..])] == t[i..e][DigitRun(t[i..])];
    }
  }

  lemma ExpNoLonger(t: string, i: nat, e: nat)
    requires i <= e <= |t| && ExpEnd(t, i).Some? && IsExp(t[i..e])
    ensures e <= ExpEnd(t, i).value
  {
    if e > i {
      var s := t[i..e];
      assert t[i] == s[0];
      if AllDigits(s[1..]) {
        assert s[1..] == t[i + 1..e];
        RunReaches(t, i + 1, e);
      } else {
        assert t[i + 1] == s[1] && s[2..] == t[i + 2..e];
        RunReaches(t, i + 2, e);
      }
    }
  }

  /** The accepted token is the longest prefix of the text that is a number. */
  lemma AcceptedIsLongest(t: string, m: nat)
    requires NumberEnd(t).Some? && m <= |t| && IsNumber(t[..m])
    ensures m <= NumberEnd(t).value
  {
    var minus, a, b, c :| Parts(t[..m], minus, a, b, c);
    NumberNoLonger(t, m, minus, a, b, c);
  }

  lemma NumberNoLonger(t: string, m: nat, minus: string, a: string, b: string, c: string)
    requires NumberEnd(t).Some? && m <= |t| && Parts(t[..m], minus, a, b, c)
    ensures m <= NumberEnd(t).value
  {
    PartsLie(t, m, minus, a, b, c);
    NextPart(t, m, minus, a, b, c);
    PartsNoLonger(t, |minus|, |minus| + |a|, |minus| + |a| + |b|, m);
  }

  lemma PartsNoLonger(t: string, h: nat, i: nat, j: nat, m: nat)
    requires NumberEnd(t).Some? && h <= i <= j <= m <= |t|
    requires h == if At(t, 0) == '-' then 1 else 0
    requires IsInt(t[h..i]) && IsFrac(t[i..j]) && IsExp(t[j..m])
    requires i < j ==> At(t, i) == '.'
    requires i == j < m ==> IsE(At(t, i))
    requires j < m ==> IsE(At(t, j))
    ensures m <= NumberEnd(t).value
  {
    var i1 := IntEnd(t, h).value;
    var j1 := FracEnd(t, i1).value;
    IntNoLonger(t, h, i);
    if i < i1 {
      assert m == i;
    } else if At(t, i) == '.' && i == j {
      assert m == i;
    } else {
      FracNoLonger(t, i, j);
      if j < j1 {
        assert m == j;
      } else {
        ExpNoLonger(t, j, m);
      }
    }
  }

  /** Acceptance, exactly: a number of the grammar, followed by nothing that would carry on. */
  lemma Acceptance(t: string, n: nat)
    requires n <= |t|
    ensures NumberEnd(t) == Some(n) <==>
            exists minus, a, b, c :: Parts(t[..n], minus, a, b, c) && Stops(b, c, At(t, n))
  {
    if NumberEnd(t) == Some(n) {
      var minus, a, b, c := AcceptedParts(t);
    }
    if exists minus, a, b, c :: Parts(t[..n], minus, a, b, c) && Stops(b, c, At(t, n)) {
      var minus, a, b, c :| Parts(t[..n], minus, a, b, c) && Stops(b, c, At(t, n));
      StoppedIsAccepted(t, n, minus, a, b, c);
    }
  }
}
