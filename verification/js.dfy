/**
  The slice of JavaScript value semantics the frontend relies on: JSON-shaped
  values, truthiness (the `a || b`, `a && b` and `cond ? x : y` tests),
  conversion to a string (template literals and `new Error(x)`),
  `String.prototype.toLowerCase` and `String.prototype.split` with a
  one-character separator.
 */
module Js {
  import Digits

  datatype Option<+T> = None | Some(value: T) {
    function GetOr(default: T): T {
      match this
      case Some(v) => v
      case None => default
    }
  }

  /**
    A number as the response text wrote it, kept as the exact decimal
    `units / 10^scale`; the rounding to a double that `JSON.parse` performs
    is not part of this model.
   */
  datatype Number = Number(units: int, scale: nat)

  /** A value as `JSON.parse` produces it, plus `undefined` for a missing property. */
  datatype JsValue =
    | Undefined
    | Null
    | Bool(b: bool)
    | Num(n: Number)
    | Str(s: string)
    | Obj(fields: map<string, JsValue>)
    | Arr(elems: seq<JsValue>)

  /** ToBoolean: what `if (v)`, `v || d` and `v ? a : b` test. */
  predicate Truthy(v: JsValue) {
    match v
    case Undefined => false
    case Null => false
    case Bool(b) => b
    case Num(n) => n.units != 0
    case Str(s) => s != ""
    case Obj(_) => true
    case Arr(_) => true
  }

  /**
    `v.key` for a key that no prototype defines, on a value that is neither
    `null` nor `undefined` (reading a property of those throws).
   */
  function Get(v: JsValue, key: string): (r: JsValue)
    requires !v.Undefined? && !v.Null?
    ensures r != Undefined <==> v.Obj? && key in v.fields && v.fields[key] != Undefined
    ensures r != Undefined ==> r == v.fields[key]
  {
    if v.Obj? && key in v.fields then v.fields[key] else Undefined
  }

  function Abs(x: int): nat {
    if x < 0 then -x else x
  }

  function Pow10(k: nat): (p: nat)
    ensures p >= 1
  {
    if k == 0 then 1 else 10 * Pow10(k - 1)
  }

  /** Drops trailing zero digits after the decimal point, keeping the value. */
  function Normalize(n: Number): (m: Number)
    ensures m.scale <= n.scale
    ensures m.scale > 0 ==> m.units % 10 != 0
    ensures m.units * Pow10(n.scale - m.scale) == n.units
    decreases n.scale
  {
    if n.scale > 0 && n.units % 10 == 0 then
      var m := Normalize(Number(n.units / 10, n.scale - 1));
      assert Pow10(n.scale - m.scale) == 10 * Pow10(n.scale - 1 - m.scale);
      assert m.units * Pow10(n.scale - 1 - m.scale) == n.units / 10;
      m
    else
      n
  }

  function Zeros(k: nat): (z: string)
    ensures |z| == k && forall i :: 0 <= i < k ==> z[i] == '0'
  {
    seq(k, _ => '0')
  }

  /** `s` with zeros in front, up to width `w`. */
  function ZeroPad(s: string, w: nat): (r: string)
    ensures |r| == if |s| < w then w else |s|
  {
    if |s| < w then Zeros(w - |s|) + s else s
  }

  /**
    `String(x)` for a number whose decimal expansion terminates and which lies
    where JavaScript prints positional notation (no exponent).
   */
  function NumberToString(n: Number): (r: string)
    ensures r != []
    ensures n.units == 0 ==> r == "0"
    ensures n.scale == 0 ==> r == (if n.units < 0 then "-" else "") + Digits.NatToDecimal(Abs(n.units))
  {
    var m := Normalize(n);
    assert n.units == 0 ==> m.units == 0 by {
      if n.units == 0 && m.units != 0 {
        ProductSign(m.units, Pow10(n.scale - m.scale));
      }
    }
    (if m.units < 0 then "-" else "") + Positional(Abs(m.units), m.scale)
  }

  /**
    The digits of `q / 10^scale`: the digits of `q`, zero-padded so that at
    least one stands before the point, with the point `scale` places from
    the right when `scale` is positive.
   */
  function Positional(q: nat, scale: nat): (r: string)
    ensures r != []
  {
    if scale == 0 then
      Digits.NatToDecimal(q)
    else
      PointAt(ZeroPad(Digits.NatToDecimal(q), scale + 1), scale)
  }

  /** The digits `d` with a decimal point `scale` places from the right. */
  function PointAt(d: string, scale: nat): (r: string)
    requires |d| >= scale
    ensures |r| == |d| + 1
  {
    d[..|d| - scale] + "." + d[|d| - scale..]
  }

  /**
    `t` writes `q / 10^scale` in positional notation: a decimal point with
    exactly `scale` digits after it and at least one before, digits that
    denote `q` once the point is taken out, and no leading zero before the
    point other than a lone "0".
   */
  predicate PointedDecimal(t: string, q: nat, scale: nat) {
    && |t| >= scale + 2 && t[|t| - scale - 1] == '.'
    && Digits.AllDigits(t[..|t| - scale - 1]) && Digits.AllDigits(t[|t| - scale..])
    && Digits.ValueOf(t[..|t| - scale - 1] + t[|t| - scale..]) == q
    && (t[0] == '0' ==> |t| == scale + 2)
  }

  /** An integer part and `scale` fractional digits joined by a point are the positional form. */
  lemma PointedFromParts(ip: string, fp: string, q: nat, scale: nat)
    requires |ip| >= 1 && |fp| == scale
    requires Digits.AllDigits(ip) && Digits.AllDigits(fp) && Digits.ValueOf(ip + fp) == q
    requires ip[0] == '0' ==> |ip| == 1
    ensures PointedDecimal(ip + "." + fp, q, scale)
  {
    var t := ip + "." + fp;
    assert |t| - scale - 1 == |ip|;
    assert t[..|ip|] == ip;
    assert t[|ip| + 1..] == fp;
  }

  /** The digits of `q` zero-padded to `scale + 1` places still denote `q` and end in q's last digit. */
  lemma PaddedDigits(q: nat, scale: nat)
    ensures var d := ZeroPad(Digits.NatToDecimal(q), scale + 1);
      && Digits.AllDigits(d) && Digits.ValueOf(d) == q
      && (q % 10 != 0 ==> d[|d| - 1] != '0')
      && (d[0] == '0' ==> |d| == scale + 1)
  {
    var t := Digits.NatToDecimal(q);
    Digits.LastDigit(q);
    if |t| < scale + 1 {
      Digits.LeadingZerosValue(Zeros(scale + 1 - |t|), t);
    }
  }

  /** Digits with the point put `scale` places from the right are the positional form. */
  lemma PaddedPointed(d: string, q: nat, scale: nat)
    requires scale > 0
    requires |d| >= scale + 1 && Digits.AllDigits(d) && Digits.ValueOf(d) == q
    requires d[0] == '0' ==> |d| == scale + 1
    ensures var r := PointAt(d, scale); PointedDecimal(r, q, scale) && r[|r| - 1] == d[|d| - 1]
  {
    var ip, fp := d[..|d| - scale], d[|d| - scale..];
    var t := ip + "." + fp;
    assert PointAt(d, scale) == t;
    assert PointedDecimal(t, q, scale) by {
      assert ip + fp == d;
      assert Digits.AllDigits(ip) && Digits.AllDigits(fp) by {
        forall i | 0 <= i < |ip| ensures Digits.IsDigit(ip[i]) { assert ip[i] == d[i]; }
        forall i | 0 <= i < |fp| ensures Digits.IsDigit(fp[i]) { assert fp[i] == d[|ip| + i]; }
      }
      assert ip[0] == d[0];
      PointedFromParts(ip, fp, q, scale);
    }
    assert t[|t| - 1] == d[|d| - 1] by {
      assert t[|t| - 1] == fp[|fp| - 1];
    }
  }

  /**
    With a positive scale the text is the positional form, and it ends in a
    zero only when `q` does.
   */
  lemma PositionalShape(q: nat, scale: nat)
    requires scale > 0
    ensures PointedDecimal(Positional(q, scale), q, scale)
    ensures var r := Positional(q, scale); q % 10 != 0 ==> r[|r| - 1] != '0'
  {
    PaddedDigits(q, scale);
    PaddedPointed(ZeroPad(Digits.NatToDecimal(q), scale + 1), q, scale);
  }

  /** The rendering starts with a digit. */
  lemma PositionalStartsWithDigit(q: nat, scale: nat)
    ensures Digits.IsDigit(Positional(q, scale)[0])
  {
    if scale > 0 {
      PaddedDigits(q, scale);
    }
  }

  /** Scaling by a positive factor keeps the sign. */
  lemma ProductSign(a: int, b: int)
    requires b >= 1
    ensures a < 0 <==> a * b < 0
    ensures a == 0 <==> a * b == 0
  {
    if a < 0 {
      assert a * b <= a * 1;
    } else if a > 0 {
      assert a * b >= a * 1;
    }
  }

  /** Normalising keeps the sign, and leaves a last digit other than zero when digits remain after the point. */
  lemma NormalizedSign(n: Number)
    ensures var m := Normalize(n);
      && (m.units < 0 <==> n.units < 0)
      && (m.scale > 0 ==> Abs(m.units) % 10 != 0)
  {
    var m := Normalize(n);
    ProductSign(m.units, Pow10(n.scale - m.scale));
    if m.scale > 0 && m.units < 0 {
      var k, rem := m.units / 10, m.units % 10;
      assert 0 < rem < 10 && m.units == 10 * k + rem;
      assert -m.units == 10 * (-k - 1) + (10 - rem);
    }
  }

  /** A minus sign in front of text that starts with a digit can be told apart and removed. */
  lemma SignedText(negative: bool, p: string)
    requires p != [] && Digits.IsDigit(p[0])
    ensures var r := (if negative then "-" else "") + p;
      && (r[0] == '-' <==> negative)
      && (if negative then r[1..] else r) == p
  {
  }

  /** The text of `String(n)` is a minus sign exactly for a negative number, then the positional digits. */
  lemma NumberToStringSign(n: Number)
    ensures var r := NumberToString(n);
      var m := Normalize(n);
      && (r[0] == '-' <==> n.units < 0)
      && (if n.units < 0 then r[1..] else r) == Positional(Abs(m.units), m.scale)
  {
    var m := Normalize(n);
    var q := Abs(m.units);
    assert NumberToString(n) == (if n.units < 0 then "-" else "") + Positional(q, m.scale) by {
      NormalizedSign(n);
    }
    PositionalStartsWithDigit(q, m.scale);
    SignedText(n.units < 0, Positional(q, m.scale));
  }

  /**
    `String(n)` in full: a minus sign exactly for a negative number, then
    the normalised units, as an integer when no fractional digit remains and
    otherwise in positional form with as many fractional digits as are
    significant, the last of them never a zero.
   */
  lemma NumberToStringShape(n: Number)
    ensures var r := NumberToString(n);
      var m := Normalize(n);
      var body := if n.units < 0 then r[1..] else r;
      && (r[0] == '-' <==> n.units < 0)
      && (m.scale == 0 ==> body == Digits.NatToDecimal(Abs(m.units)))
      && (m.scale > 0 ==> PointedDecimal(body, Abs(m.units), m.scale) && body[|body| - 1] != '0')
  {
    var m := Normalize(n);
    NumberToStringSign(n);
    if m.scale > 0 {
      NormalizedSign(n);
      PositionalShape(Abs(m.units), m.scale);
    }
  }

  /**
    `String(v)`, which is also the message `new Error(v)` carries. An array
    writes its elements joined by commas, `null` and `undefined` as nothing,
    so only an empty string or an array can give the empty text.
   */
  function ToJsString(v: JsValue): (r: string)
    ensures r == "" ==> v == Str("") || v.Arr?
  {
    match v
    case Undefined => "undefined"
    case Null => "null"
    case Bool(b) => if b then "true" else "false"
    case Num(n) => NumberToString(n)
    case Str(s) => s
    case Obj(_) => "[object Object]"
    case Arr(es) =>
      if es == [] then ""
      else Join(seq(|es|, i requires 0 <= i < |es| =>
                  if es[i].Undefined? || es[i].Null? then "" else ToJsString(es[i])), ',')
  }

  /** `String` of an empty array, of an array holding one object, and of `[null, "a"]`. */
  lemma ArrayTexts()
    ensures ToJsString(Arr([])) == ""
    ensures ToJsString(Arr([Obj(map["msg" := Str("x")])])) == "[object Object]"
    ensures ToJsString(Arr([Null, Str("a")])) == ",a"
  {
    var one := [Obj(map["msg" := Str("x")])];
    var parts1 := seq(|one|, i requires 0 <= i < |one| =>
                    if one[i].Undefined? || one[i].Null? then "" else ToJsString(one[i]));
    assert parts1 == ["[object Object]"];
    var two := [Null, Str("a")];
    var parts2 := seq(|two|, i requires 0 <= i < |two| =>
                    if two[i].Undefined? || two[i].Null? then "" else ToJsString(two[i]));
    assert parts2 == ["", "a"];
    assert Join(parts2, ',') == "" + [','] + Join(["a"], ',');
  }

  function LowerChar(c: char): char {
    if 'A' <= c <= 'Z' then (c as int - 'A' as int + 'a' as int) as char else c
  }

  /** `s.toLowerCase()` on the ASCII letters. */
  function ToLowerCase(s: string): (r: string)
    ensures |r| == |s|
    ensures forall i :: 0 <= i < |s| ==> r[i] == LowerChar(s[i])
  {
    if s == [] then [] else [LowerChar(s[0])] + ToLowerCase(s[1..])
  }

  /** The inverse of `Split`: the parts with `sep` between neighbours (`parts.join(sep)`). */
  function Join(parts: seq<string>, sep: char): string
    requires |parts| >= 1
  {
    if |parts| == 1 then parts[0] else parts[0] + [sep] + Join(parts[1..], sep)
  }

  /**
    `s.split(sep)`: the maximal runs between occurrences of `sep`; the empty
    string gives one empty part.
   */
  function Split(s: string, sep: char): (parts: seq<string>)
    ensures |parts| >= 1
    ensures forall i :: 0 <= i < |parts| ==> sep !in parts[i]
    ensures Join(parts, sep) == s
  {
    if s == [] then
      [[]]
    else
      var rest := Split(s[1..], sep);
      if s[0] == sep then
        [[]] + rest
      else
        var parts := [[s[0]] + rest[0]] + rest[1..];
        assert parts[1..] == rest[1..];
        parts
  }

  /** A string without the separator is a single part. */
  lemma {:induction false} SplitWithout(s: string, sep: char)
    requires sep !in s
    ensures Split(s, sep) == [s]
  {
    if s != [] {
      SplitWithout(s[1..], sep);
    }
  }

  /** Splitting after a separator-free head gives that head as the first part. */
  lemma {:induction false} SplitAfterHead(head: string, sep: char, tail: string)
    requires sep !in head
    ensures Split(head + [sep] + tail, sep) == [head] + Split(tail, sep)
  {
    var s := head + [sep] + tail;
    if head == [] {
      assert s[1..] == tail;
    } else {
      assert s[1..] == head[1..] + [sep] + tail;
      SplitAfterHead(head[1..], sep, tail);
      var rest := Split(s[1..], sep);
      assert rest[0] == head[1..] && rest[1..] == Split(tail, sep);
      assert [s[0]] + rest[0] == head;
    }
  }
}
