/** The text format of the high-score file: whitespace-separated decimal
    integers, read back with Python's `str.split()` and `int(...)` and written
    with `" ".join(map(str, scores))`. */
module ScoreFile {

  datatype Option<T> = None | Some(value: T)

  /** The characters Python's `str.split()` (no argument) separates on. */
  predicate IsSpace(c: char) {
    || c == ' '
    || ('\t' <= c <= '\r')
    || ('\U{1C}' <= c <= '\U{1F}')
    || c == '\U{85}' || c == '\U{A0}' || c == '\U{1680}'
    || ('\U{2000}' <= c <= '\U{200A}')
    || c == '\U{2028}' || c == '\U{2029}' || c == '\U{202F}' || c == '\U{205F}' || c == '\U{3000}'
  }

  /** A piece `split()` can return: non-empty and free of separators. */
  predicate IsToken(t: string) {
    t != [] && forall i :: 0 <= i < |t| ==> !IsSpace(t[i])
  }

  /** The longest separator-free prefix of `s`. */
  function Word(s: string): (w: string)
    ensures |w| <= |s| && w == s[..|w|]
    ensures forall i :: 0 <= i < |w| ==> !IsSpace(w[i])
    ensures |w| < |s| ==> IsSpace(s[|w|])
  {
    if s == [] || IsSpace(s[0]) then [] else [s[0]] + Word(s[1..])
  }

  /** `s.split()`: the maximal separator-free runs of `s`, in order. */
  function Split(s: string): (ts: seq<string>)
    ensures forall i :: 0 <= i < |ts| ==> IsToken(ts[i])
    decreases |s|
  {
    if s == [] then []
    else if IsSpace(s[0]) then Split(s[1..])
    else
      var w := Word(s);
      [w] + Split(s[|w|..])
  }

  /** `" ".join(ts)`. */
  function Join(ts: seq<string>): (s: string)
    ensures (forall i :: 0 <= i < |ts| ==> AllDigits(ts[i])) ==>
              forall k :: 0 <= k < |s| ==> IsDigit(s[k]) || s[k] == ' '
  {
    if ts == [] then ""
    else if |ts| == 1 then ts[0]
    else ts[0] + " " + Join(ts[1..])
  }

  predicate IsDigit(c: char) {
    '0' <= c <= '9'
  }

  predicate AllDigits(t: string) {
    forall i :: 0 <= i < |t| ==> IsDigit(t[i])
  }

  function DigitChar(d: nat): (c: char)
    requires d < 10
    ensures IsDigit(c) && c as int - '0' as int == d
  {
    ('0' as int + d) as char
  }

  /** The value of a string of decimal digits, most significant first. */
  function DigitsValue(t: string): (n: nat)
    requires AllDigits(t)
  {
    if t == [] then 0 else DigitsValue(t[..|t| - 1]) * 10 + (t[|t| - 1] as int - '0' as int)
  }

  /** `str(n)` for a non-negative integer: its decimal digits, no leading zero. */
  function Str(n: nat): (s: string)
    ensures IsToken(s) && AllDigits(s)
    ensures s[0] == '0' ==> n == 0 && s == "0"
  {
    if n < 10 then [DigitChar(n)] else Str(n / 10) + [DigitChar(n % 10)]
  }

  /** `int(t)` on one token, restricted to tokens of ASCII digits; any other
      token is the ValueError case. */
  function ParseInt(t: string): (r: Option<nat>)
    ensures r.Some? <==> t != [] && AllDigits(t)
  {
    if t != [] && AllDigits(t) then Some(DigitsValue(t)) else None
  }

  /** The comprehension `[int(i) for i in ts]`: fails if any token fails. */
  function ParseTokens(ts: seq<string>): (r: Option<seq<nat>>)
    ensures r.Some? <==> forall i :: 0 <= i < |ts| ==> ParseInt(ts[i]).Some?
    ensures r.Some? ==> |r.value| == |ts|
    ensures r.Some? ==> forall i :: 0 <= i < |ts| ==> ParseInt(ts[i]) == Some(r.value[i])
  {
    if ts == [] then Some([])
    else
      match (ParseInt(ts[0]), ParseTokens(ts[1..]))
      case (Some(n), Some(rest)) => Some([n] + rest)
      case _ => None
  }

  /** Reading the score file: `[int(i) for i in text.split()]`, which
      succeeds when every whitespace-separated token is a digit string. */
  function Parse(text: string): (r: Option<seq<nat>>)
    ensures r.Some? <==> forall i :: 0 <= i < |Split(text)| ==> AllDigits(Split(text)[i])
    ensures r.Some? ==> |r.value| == |Split(text)|
    ensures r.Some? ==> forall i :: 0 <= i < |r.value| ==> ParseInt(Split(text)[i]) == Some(r.value[i])
  {
    var ts := Split(text);
    var r := ParseTokens(ts);
    assert ts == Split(text);
    assert r.Some? <==> forall i :: 0 <= i < |ts| ==> AllDigits(ts[i]);
    r
  }

  /** Writing the score file: `" ".join(map(str, scores))`. */
  function Serialize(scores: seq<nat>): (s: string)
    ensures forall k :: 0 <= k < |s| ==> IsDigit(s[k]) || s[k] == ' '
  {
    Join(seq(|scores|, i requires 0 <= i < |scores| => Str(scores[i])))
  }

  /** A token followed by nothing or by a separator is exactly the next word. */
  lemma WordOfToken(t: string, rest: string)
    requires IsToken(t)
    requires rest == [] || IsSpace(rest[0])
    ensures Word(t + rest) == t
  {
    var s := t + rest;
    var w := Word(s);
    assert forall i :: 0 <= i < |t| ==> s[i] == t[i];
    assert w == s[..|t|] == t;
  }

  /** `split()` undoes `" ".join(...)` on a list of tokens. */
  lemma {:induction false} SplitJoin(ts: seq<string>)
    requires forall i :: 0 <= i < |ts| ==> IsToken(ts[i])
    ensures Split(Join(ts)) == ts
  {
    if ts == [] {
    } else if |ts| == 1 {
      var t := ts[0];
      WordOfToken(t, "");
      assert t + "" == t;
      assert t[|t|..] == [];
    } else {
      var t, j := ts[0], Join(ts[1..]);
      var s := t + " " + j;
      assert Join(ts) == s;
      WordOfToken(t, " " + j);
      assert s == t + (" " + j);
      assert s[|t|..] == " " + j;
      assert (" " + j)[1..] == j;
      SplitJoin(ts[1..]);
      assert Split(s) == [t] + Split(" " + j) == [t] + Split(j);
      assert [t] + ts[1..] == ts;
    }
  }

  /** Appending a digit multiplies the value by ten and adds the digit. */
  lemma DigitsValueSnoc(t: string, d: nat)
    requires AllDigits(t) && d < 10
    ensures AllDigits(t + [DigitChar(d)])
    ensures DigitsValue(t + [DigitChar(d)]) == DigitsValue(t) * 10 + d
  {
    var u := t + [DigitChar(d)];
    assert u[..|u| - 1] == t;
  }

  /** `int(str(n)) == n`. */
  lemma {:induction false} ParseIntStr(n: nat)
    ensures ParseInt(Str(n)) == Some(n)
  {
    if n < 10 {
      DigitsValueSnoc([], n);
      assert [] + [DigitChar(n)] == [DigitChar(n)];
    } else {
      ParseIntStr(n / 10);
      DigitsValueSnoc(Str(n / 10), n % 10);
    }
  }

  /** `str(int(t)) == t` for a digit token without a superfluous leading zero. */
  lemma {:induction false} StrDigitsValue(t: string)
    requires t != [] && AllDigits(t)
    requires t[0] == '0' ==> |t| == 1
    ensures Str(DigitsValue(t)) == t
  {
    var init, d := t[..|t| - 1], t[|t| - 1] as int - '0' as int;
    if init == [] {
      assert t == [DigitChar(d)];
    } else {
      assert init[0] == t[0];
      DigitsValuePositive(init);
      StrDigitsValue(init);
      var n := DigitsValue(t);
      assert n == DigitsValue(init) * 10 + d;
      assert n / 10 == DigitsValue(init) && n % 10 == d;
      assert t == init + [DigitChar(d)];
    }
  }

  /** A digit string that does not start with '0' has a positive value. */
  lemma {:induction false} DigitsValuePositive(t: string)
    requires t != [] && AllDigits(t) && t[0] != '0'
    ensures DigitsValue(t) > 0
  {
    if |t| > 1 {
      var init := t[..|t| - 1];
      assert init[0] == t[0];
      DigitsValuePositive(init);
    }
  }

  /** The file written for a table reads back as that same table. */
  lemma ParseSerialize(scores: seq<nat>)
    ensures Parse(Serialize(scores)) == Some(scores)
  {
    var ts := seq(|scores|, i requires 0 <= i < |scores| => Str(scores[i]));
    SplitJoin(ts);
    forall i | 0 <= i < |ts| ensures ParseInt(ts[i]) == Some(scores[i]) {
      ParseIntStr(scores[i]);
    }
    var r := ParseTokens(ts);
    assert r.Some?;
    assert r.value == scores;
  }
}
