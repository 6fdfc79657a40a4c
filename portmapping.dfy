/**
 * `PortMapping` from Main.kt: a `LISTEN[:CONNECT]` specification split at its
 * first colon, each part read with Kotlin's `String.toInt()`.
 */
module PortMappings {
  import opened Common
  import opened Numbers

  const MinInt: int := -0x8000_0000
  const MaxInt: int := 0x7FFF_FFFF

  /** Kotlin's `Int`. */
  type Int32 = x: int | MinInt <= x <= MaxInt

  /**
   * Kotlin's `String.toInt()` on the JVM: an optional `+` or `-`, then one or
   * more decimal digits, and a value inside the `Int` range; anything else is a
   * `NumberFormatException`, here `None`.
   */
  function ToInt(s: string): (r: Option<Int32>)
    ensures r.Some? ==> |s| >= 1 && (IsDigit(s[0]) || s[0] == '+' || s[0] == '-')
    ensures r.Some? ==> AllDigits(s[1..])
  {
    if |s| == 0 then None
    else
      var negative := s[0] == '-';
      var digits := if s[0] == '-' || s[0] == '+' then s[1..] else s;
      if |digits| == 0 || !AllDigits(digits) then None
      else
        var magnitude: int := DigitsValue(digits);
        var v := if negative then -magnitude else magnitude;
        if MinInt <= v <= MaxInt then Some(v) else None
  }

  /** The decimal rendering of an `Int`, as `Int.toString()` gives it. */
  function IntToString(n: Int32): (s: string)
    ensures ':' !in s
  {
    var s := if n < 0 then "-" + NatToString(-(n as int)) else NatToString(n);
    assert forall i :: 0 <= i < |s| ==> s[i] != ':' by {
      forall i | 0 <= i < |s| ensures s[i] != ':' {
        if n < 0 && i > 0 { assert s[i] == NatToString(-(n as int))[i - 1]; }
      }
    }
    s
  }

  /** `toInt` reads back every rendered `Int`. */
  lemma ToIntOfIntToString(n: Int32)
    ensures ToInt(IntToString(n)) == Some(n)
  {
    var s := IntToString(n);
    if n < 0 {
      DigitsValueOfNatToString(-(n as int));
      assert s[1..] == NatToString(-(n as int));
    } else {
      DigitsValueOfNatToString(n);
      assert IsDigit(s[0]);
    }
  }

  /** `toInt` rejects every string holding a colon. */
  lemma ToIntRejectsColon(s: string, i: nat)
    requires i < |s| && s[i] == ':'
    ensures ToInt(s) == None
  {
  }

  /** `String.indexOf(c)`: the first position of `c`, or -1. */
  function IndexOf(s: string, c: char): (r: int)
    ensures -1 <= r < |s|
    ensures r == -1 <==> c !in s
    ensures r >= 0 ==> s[r] == c && c !in s[..r]
  {
    if |s| == 0 then -1
    else if s[0] == c then 0
    else
      var k := IndexOf(s[1..], c);
      assert c !in s[1..] ==> c !in s by {
        if c in s { var j :| 0 <= j < |s| && s[j] == c; assert s[1..][j - 1] == c; }
      }
      if k == -1 then -1
      else
        assert s[..k + 1] == [s[0]] + s[1..][..k];
        k + 1
  }

  datatype PortMapping = PortMapping(listenPort: Int32, connectPort: Int32)

  /** The `NumberFormatException` of the part that `toInt` refused. */
  datatype ParseError = NumberFormat(input: string)

  /** The `PortMapping(spec)` constructor; its getters are the datatype's two fields. */
  function ParsePortMapping(spec: string): (r: Result<PortMapping, ParseError>)
    ensures r.Failure? ==> ToInt(r.error.input).None?
    ensures r.Success? && ':' !in spec ==> r.value.listenPort == r.value.connectPort
  {
    var idx := IndexOf(spec, ':');
    if idx == -1 then
      match ToInt(spec)
      case None => Failure(NumberFormat(spec))
      case Some(p) => Success(PortMapping(p, p))
    else
      var listenText, connectText := spec[..idx], spec[idx + 1..];
      match ToInt(listenText)
      case None => Failure(NumberFormat(listenText))
      case Some(l) =>
        match ToInt(connectText)
        case None => Failure(NumberFormat(connectText))
        case Some(c) => Success(PortMapping(l, c))
  }

  /** Without a colon both ports are the one number the whole specification denotes. */
  lemma ParseWithoutColon(spec: string)
    requires ':' !in spec
    ensures ToInt(spec).Some? ==> ParsePortMapping(spec) == Success(PortMapping(ToInt(spec).value, ToInt(spec).value))
    ensures ToInt(spec).None? ==> ParsePortMapping(spec) == Failure(NumberFormat(spec))
  {
  }

  /**
   * With a colon the listen port is the text before the first colon and the
   * connect port is everything after it; the construction fails iff either part
   * is refused by `toInt`, the listen part being reported first.
   */
  lemma ParseWithColon(spec: string, idx: nat)
    requires idx < |spec| && spec[idx] == ':' && ':' !in spec[..idx]
    ensures ParsePortMapping(spec).Success? <==> ToInt(spec[..idx]).Some? && ToInt(spec[idx + 1..]).Some?
    ensures ParsePortMapping(spec).Success? ==>
      ParsePortMapping(spec).value == PortMapping(ToInt(spec[..idx]).value, ToInt(spec[idx + 1..]).value)
    ensures ToInt(spec[..idx]).None? ==> ParsePortMapping(spec) == Failure(NumberFormat(spec[..idx]))
  {
  }

  /** A second colon stays in the connect part, which `toInt` then refuses. */
  lemma SecondColonFails(spec: string, i: nat, j: nat)
    requires i < j < |spec| && spec[i] == ':' && spec[j] == ':'
    ensures ParsePortMapping(spec).Failure?
  {
    var k := IndexOf(spec, ':');
    assert 0 <= k <= i;
    var rest := spec[k + 1..];
    assert rest[j - k - 1] == ':';
    ToIntRejectsColon(rest, j - k - 1);
  }

  /** An empty side is refused. */
  lemma EmptySideFails(spec: string)
    requires |spec| >= 1 && (spec[0] == ':' || spec[|spec| - 1] == ':')
    ensures ParsePortMapping(spec).Failure?
  {
    var k := IndexOf(spec, ':');
    assert k >= 0;
    if spec[0] == ':' {
      assert k == 0 && spec[..k] == "";
      assert ToInt(spec[..k]).None?;
    } else {
      var connectText := spec[k + 1..];
      if k == |spec| - 1 {
        assert connectText == "";
      } else {
        assert connectText[|spec| - k - 2] == ':';
        ToIntRejectsColon(connectText, |spec| - k - 2);
      }
      assert ToInt(connectText).None?;
    }
  }

  /** Rendering two ports as `LISTEN:CONNECT` and parsing the text gives them back unchanged. */
  lemma ParseOfRendered(listen: Int32, connect: Int32)
    ensures ParsePortMapping(IntToString(listen) + ":" + IntToString(connect)) == Success(PortMapping(listen, connect))
  {
    var l := IntToString(listen);
    var spec := l + ":" + IntToString(connect);
    assert spec[|l|] == ':' && spec[..|l|] == l && spec[|l| + 1..] == IntToString(connect);
    ParseWithColon(spec, |l|);
    ToIntOfIntToString(listen);
    ToIntOfIntToString(connect);
  }

  /** A lone rendered port maps the listen port to the same connect port. */
  lemma ParseOfRenderedSingle(port: Int32)
    ensures ParsePortMapping(IntToString(port)) == Success(PortMapping(port, port))
  {
    ToIntOfIntToString(port);
  }

  /** There is no port-range check: a negative number is kept as it is. */
  lemma NegativePortKept()
    ensures ParsePortMapping("-1:0") == Success(PortMapping(-1, 0))
  {
    assert DigitChar(1) == '1' && DigitChar(0) == '0';
    assert NatToString(1) == "1" && NatToString(0) == "0";
    assert IntToString(-1) == "-1" && IntToString(0) == "0";
    assert IntToString(-1) + ":" + IntToString(0) == "-1:0";
    ParseOfRendered(-1, 0);
  }
}
