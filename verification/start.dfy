/**
  The backend launcher (Backend/start.py): it takes the port from the `PORT`
  environment variable, falls back to "8080" when the value is missing, is
  not an integer to Python's `int`, or lies outside 1..65535, and builds the
  uvicorn command line. Reading the environment, printing and running the
  subprocess are not modelled: the variable is a parameter, the command a
  result.
 */
module Start {
  import opened Js
  import Digits

  const DefaultPort: string := "8080"

  /**
    The characters `int()` skips around a number: the ASCII blanks
    (tab, line feed, vertical tab, form feed, carriage return, space) and the
    Unicode white space above the ASCII range.
   */
  predicate IsPySpace(c: char) {
    var k := c as int;
    (9 <= k <= 13) || k == 32 || k == 0x85 || k == 0xA0 || k == 0x1680
    || (0x2000 <= k <= 0x200A) || k == 0x2028 || k == 0x2029 || k == 0x202F
    || k == 0x205F || k == 0x3000
  }

  /** Drops the leading white space. */
  function TrimStart(s: string): string {
    if s != [] && IsPySpace(s[0]) then TrimStart(s[1..]) else s
  }

  /** What is left is a suffix that starts with something else, and all that was dropped is white space. */
  lemma {:induction false} TrimStartShape(s: string)
    ensures var t := TrimStart(s);
      && |t| <= |s| && t == s[|s| - |t|..]
      && (t != [] ==> !IsPySpace(t[0]))
      && forall i :: 0 <= i < |s| - |t| ==> IsPySpace(s[i])
  {
    if s != [] && IsPySpace(s[0]) {
      var t := TrimStart(s[1..]);
      TrimStartShape(s[1..]);
      assert TrimStart(s) == t;
      assert s[1..][|s| - 1 - |t|..] == s[|s| - |t|..];
      forall i | 0 <= i < |s| - |t|
        ensures IsPySpace(s[i])
      {
        if i > 0 {
          assert s[i] == s[1..][i - 1];
        }
      }
    }
  }

  /** Drops the trailing white space. */
  function TrimEnd(s: string): string {
    if s != [] && IsPySpace(s[|s| - 1]) then TrimEnd(s[..|s| - 1]) else s
  }

  /** What is left is a prefix that ends with something else, and all that was dropped is white space. */
  lemma {:induction false} TrimEndShape(s: string)
    ensures var t := TrimEnd(s);
      && |t| <= |s| && t == s[..|t|]
      && (t != [] ==> !IsPySpace(t[|t| - 1]))
      && forall i :: |t| <= i < |s| ==> IsPySpace(s[i])
  {
    if s != [] && IsPySpace(s[|s| - 1]) {
      var t := TrimEnd(s[..|s| - 1]);
      TrimEndShape(s[..|s| - 1]);
      assert TrimEnd(s) == t;
      assert s[..|s| - 1][..|t|] == s[..|t|];
      forall i | |t| <= i < |s|
        ensures IsPySpace(s[i])
      {
        if i < |s| - 1 {
          assert s[i] == s[..|s| - 1][i];
        }
      }
    }
  }

  /** Decimal digits in groups joined by single underscores: `1`, `0080`, `8_080`. */
  predicate IsDigitGroups(b: string) {
    && |b| > 0
    && Digits.IsDigit(b[0])
    && (forall i :: 0 <= i < |b| ==> Digits.IsDigit(b[i]) || b[i] == '_')
    && (forall i :: 0 <= i < |b| - 1 && b[i] == '_' ==> Digits.IsDigit(b[i + 1]))
    && Digits.IsDigit(b[|b| - 1])
  }

  /** The digits of `b` in their order, with the underscores between groups removed. */
  function DropUnderscores(b: string): (d: string)
    requires forall i :: 0 <= i < |b| ==> Digits.IsDigit(b[i]) || b[i] == '_'
    ensures Digits.AllDigits(d)
    ensures |d| <= |b|
    ensures b != [] && b[0] != '_' ==> d != [] && d[0] == b[0]
  {
    if b == [] then []
    else if b[0] == '_' then DropUnderscores(b[1..])
    else [b[0]] + DropUnderscores(b[1..])
  }

  /** Removing the underscores from two pieces one after the other is removing them from the whole. */
  lemma {:induction false} DropUnderscoresAppend(x: string, y: string)
    requires forall i :: 0 <= i < |x| ==> Digits.IsDigit(x[i]) || x[i] == '_'
    requires forall i :: 0 <= i < |y| ==> Digits.IsDigit(y[i]) || y[i] == '_'
    ensures DropUnderscores(x + y) == DropUnderscores(x) + DropUnderscores(y)
  {
    if x != [] {
      DropUnderscoresAppend(x[1..], y);
      assert (x + y)[1..] == x[1..] + y;
    } else {
      assert x + y == y;
    }
  }

  /** The digits of two groups joined by an underscore are the digits of the one followed by those of the other. */
  lemma DropUnderscoresJoin(x: string, y: string)
    requires forall i :: 0 <= i < |x| ==> Digits.IsDigit(x[i]) || x[i] == '_'
    requires forall i :: 0 <= i < |y| ==> Digits.IsDigit(y[i]) || y[i] == '_'
    ensures DropUnderscores(x + "_" + y) == DropUnderscores(x) + DropUnderscores(y)
  {
    var xu := x + "_";
    assert DropUnderscores(xu) == DropUnderscores(x) by {
      assert DropUnderscores("_") == [] by {
        assert "_"[1..] == [];
      }
      DropUnderscoresAppend(x, "_");
    }
    assert forall i :: 0 <= i < |xu| ==> Digits.IsDigit(xu[i]) || xu[i] == '_' by {
      forall i | 0 <= i < |xu|
        ensures Digits.IsDigit(xu[i]) || xu[i] == '_'
      {
        if i < |x| {
          assert xu[i] == x[i];
        }
      }
    }
    DropUnderscoresAppend(xu, y);
  }

  lemma {:induction false} DropUnderscoresOfDigits(b: string)
    requires Digits.AllDigits(b)
    ensures DropUnderscores(b) == b
  {
    if b != [] {
      DropUnderscoresOfDigits(b[1..]);
      assert b == [b[0]] + b[1..];
    }
  }

  /** The digits after the sign, or `None` when they are not digit groups. */
  function ParseMagnitude(body: string): Option<nat> {
    if IsDigitGroups(body) then
      Some(Digits.ValueOf(DropUnderscores(body)))
    else
      None
  }

  /** An optional sign followed by digit groups, with the white space already removed. */
  function ParseSigned(t: string): Option<int> {
    if t == [] then None
    else if t[0] == '-' || t[0] == '+' then
      match ParseMagnitude(t[1..])
      case None => None
      case Some(m) => Some(if t[0] == '-' then -(m as int) else m as int)
    else
      match ParseMagnitude(t)
      case None => None
      case Some(m) => Some(m)
  }

  /** A non-empty optional sign followed by digit groups: the only text `int` accepts once trimmed. */
  predicate IsWrittenInt(t: string) {
    t != [] && IsDigitGroups(if t[0] == '-' || t[0] == '+' then t[1..] else t)
  }

  /**
    Python's `int(s)` on a string, in base 10: surrounding white space,
    an optional sign, then digit groups; `None` where it raises ValueError.
   */
  function ParsePyInt(s: string): (r: Option<int>)
    ensures s != [] && Digits.AllDigits(s) ==> r == Some(Digits.ValueOf(s))
    ensures r.Some? <==> IsWrittenInt(TrimEnd(TrimStart(s)))
  {
    if s != [] && Digits.AllDigits(s) then
      TrimNothing(s);
      DropUnderscoresOfDigits(s);
      assert IsDigitGroups(s);
      ParseSigned(TrimEnd(TrimStart(s)))
    else
      ParseSigned(TrimEnd(TrimStart(s)))
  }

  /** A string with no white space at either end is parsed as it stands. */
  lemma TrimNothing(s: string)
    requires s != [] && !IsPySpace(s[0]) && !IsPySpace(s[|s| - 1])
    ensures TrimEnd(TrimStart(s)) == s
  {
  }

  /** A rendered number reads back as itself. */
  lemma ParseRendered(n: nat)
    ensures ParsePyInt(Digits.NatToDecimal(n)) == Some(n)
  {
  }

  /** `1 <= int(port) <= 65535`; for a plain digit string that is its value's range. */
  predicate IsValidPort(port: string)
    ensures port != [] && Digits.AllDigits(port) ==> (IsValidPort(port) <==> 1 <= Digits.ValueOf(port) <= 65535)
  {
    var p := ParsePyInt(port);
    p.Some? && 1 <= p.value <= 65535
  }

  /** The default itself passes the check. */
  lemma DefaultPortIsValid()
    ensures IsValidPort(DefaultPort)
    ensures ParsePyInt(DefaultPort) == Some(8080)
  {
    Digits.EightyEighty();
    ParseRendered(8080);
  }

  /**
    The `try`/`except ValueError` of `main`: a value that parses and lies in
    range is kept exactly as written; anything else is replaced by "8080".
   */
  function NormalizePort(env: Option<string>): (port: string)
    ensures IsValidPort(port)
    ensures env.None? ==> port == DefaultPort
    ensures env.Some? ==> (port == env.value <==> IsValidPort(env.value))
    ensures env.Some? && port != env.value ==> port == DefaultPort
  {
    DefaultPortIsValid();
    var port := env.GetOr(DefaultPort);
    match ParsePyInt(port)
    case None => DefaultPort
    case Some(portInt) => if portInt < 1 || portInt > 65535 then DefaultPort else port
  }

  /** At the range ends, for numbers written plainly: 1 and 65535 pass, 0 and 65536 are replaced. */
  lemma PortBoundaries(n: nat)
    ensures NormalizePort(Some(Digits.NatToDecimal(n))) == Digits.NatToDecimal(n) <==> 1 <= n <= 65535
  {
    ParseRendered(n);
  }

  lemma {:induction false} TrimSpacePrefix(pre: string, rest: string)
    requires forall i :: 0 <= i < |pre| ==> IsPySpace(pre[i])
    requires rest != [] && !IsPySpace(rest[0])
    ensures TrimStart(pre + rest) == rest
  {
    if pre != [] {
      assert (pre + rest)[1..] == pre[1..] + rest;
      TrimSpacePrefix(pre[1..], rest);
    }
  }

  lemma {:induction false} TrimSpaceSuffix(rest: string, post: string)
    requires forall i :: 0 <= i < |post| ==> IsPySpace(post[i])
    requires rest != [] && !IsPySpace(rest[|rest| - 1])
    ensures TrimEnd(rest + post) == rest
  {
    if post != [] {
      var s := rest + post;
      assert s[..|s| - 1] == rest + post[..|post| - 1];
      TrimSpaceSuffix(rest, post[..|post| - 1]);
    }
  }

  /** White space around a text that neither starts nor ends with white space is removed, and only that. */
  lemma TrimAround(pre: string, t: string, post: string)
    requires forall i :: 0 <= i < |pre| ==> IsPySpace(pre[i])
    requires forall i :: 0 <= i < |post| ==> IsPySpace(post[i])
    requires t != [] && !IsPySpace(t[0]) && !IsPySpace(t[|t| - 1])
    ensures TrimEnd(TrimStart(pre + t + post)) == t
  {
    assert pre + t + post == pre + (t + post);
    TrimSpacePrefix(pre, t + post);
    TrimSpaceSuffix(t, post);
  }

  lemma ParseSignedWritten(sign: string, body: string)
    requires sign == "" || sign == "+" || sign == "-"
    requires IsDigitGroups(body)
    ensures var magnitude := Digits.ValueOf(DropUnderscores(body));
      ParseSigned(sign + body) == Some(if sign == "-" then -(magnitude as int) else magnitude as int)
  {
    if sign != "" {
      assert (sign + body)[1..] == body;
    } else {
      assert sign + body == body;
    }
  }

  /**
    What `int` accepts: white space, an optional sign, digit groups, white
    space; the value is that of the digits with the underscores removed,
    negated after a minus sign.
   */
  lemma ParseWritten(pre: string, sign: string, body: string, post: string)
    requires forall i :: 0 <= i < |pre| ==> IsPySpace(pre[i])
    requires forall i :: 0 <= i < |post| ==> IsPySpace(post[i])
    requires sign == "" || sign == "+" || sign == "-"
    requires IsDigitGroups(body)
    ensures var magnitude := Digits.ValueOf(DropUnderscores(body));
      ParsePyInt(pre + sign + body + post) == Some(if sign == "-" then -(magnitude as int) else magnitude as int)
  {
    var t := sign + body;
    assert t[|t| - 1] == body[|body| - 1];
    assert pre + sign + body + post == pre + t + post;
    TrimAround(pre, t, post);
    ParseSignedWritten(sign, body);
  }

  lemma LeadingZeros()
    ensures IsDigitGroups("0080") && Digits.ValueOf(DropUnderscores("0080")) == 80
  {
    DropUnderscoresOfDigits("0080");
    assert "0080"[..3] == "008" && "008"[..2] == "00" && "00"[..1] == "0" && "0"[..0] == "";
  }

  lemma GroupedDigits()
    ensures IsDigitGroups("8_080") && Digits.ValueOf(DropUnderscores("8_080")) == 8080
  {
    assert "8_080"[1..] == "_080" && "_080"[1..] == "080";
    DropUnderscoresOfDigits("080");
    assert DropUnderscores("8_080") == "8080";
    Digits.EightyEighty();
  }

  /** `int(" 0080 ")` is 80: white space around the number and leading zeros are accepted. */
  lemma ParsePadded()
    ensures ParsePyInt(" 0080 ") == Some(80)
  {
    LeadingZeros();
    assert " " + "" + "0080" + " " == " 0080 ";
    ParseWritten(" ", "", "0080", " ");
  }

  /** `int("+8_080")` is 8080: a sign and underscores between digits are accepted. */
  lemma ParseSignedGrouped()
    ensures ParsePyInt("+8_080") == Some(8080)
  {
    GroupedDigits();
    assert "" + "+" + "8_080" + "" == "+8_080";
    ParseWritten("", "+", "8_080", "");
  }

  /** Such values pass the check and are kept as written, not rewritten to their plain form. */
  lemma UnusualPortsKept()
    ensures NormalizePort(Some(" 0080 ")) == " 0080 "
    ensures NormalizePort(Some("+8_080")) == "+8_080"
  {
    ParsePadded();
    ParseSignedGrouped();
  }

  /** A decimal point or an empty value makes `int` raise, so the default is used. */
  lemma MalformedPortReplaced()
    ensures NormalizePort(Some("80.0")) == DefaultPort
    ensures NormalizePort(Some("")) == DefaultPort
  {
    assert TrimStart("80.0") == "80.0";
    assert TrimEnd("80.0") == "80.0";
    assert !IsDigitGroups("80.0") by {
      assert "80.0"[2] == '.';
    }
  }

  /** The option name itself is no port, so it cannot be what follows it. */
  lemma OptionNameIsNoPort()
    ensures ParsePyInt("--port") == None
  {
    TrimNothing("--port");
    assert !Digits.IsDigit("--port"[1]);
  }

  /**
    The uvicorn argument list of `main`: the app on all interfaces with one
    worker; "--port" appears only as the option, followed by the port, or as
    the port itself.
   */
  function UvicornCommand(port: string): (cmd: seq<string>)
    ensures cmd == ["uvicorn", "app:app", "--host", "0.0.0.0", "--port", port, "--workers", "1"]
    ensures |cmd| == 8 && cmd[4] == "--port" && cmd[5] == port
    ensures forall i :: 0 <= i < |cmd| && cmd[i] == "--port" ==> i == 4 || cmd[i] == port
  {
    assert "--host"[2] != "--port"[2];
    ["uvicorn", "app:app", "--host", "0.0.0.0", "--port", port, "--workers", "1"]
  }

  /**
    What `main` launches: "--port" occurs once in the command and the
    normalised port follows it directly.
   */
  function LaunchCommand(env: Option<string>): (cmd: seq<string>)
    ensures |cmd| == 8 && cmd[4] == "--port"
    ensures forall i :: 0 <= i < |cmd| && cmd[i] == "--port" ==> i == 4
    ensures IsValidPort(cmd[5]) && cmd[5] == NormalizePort(env)
    ensures cmd == UvicornCommand(NormalizePort(env))
  {
    var port := NormalizePort(env);
    OptionNameIsNoPort();
    UvicornCommand(port)
  }
}
