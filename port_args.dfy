/**
 * The launcher's port argument (parse_port_from_args in src-tauri/src/lib.rs):
 * the second command-line argument, read as a Rust `u16` and written back in
 * decimal, or the default port "5660".
 *
 * Rust's `u16::from_str` and `u16::to_string` are modelled here as well,
 * because what the launcher accepts and what it hands on is decided by them.
 */
module PortArgs {
  import opened Wrappers

  /** `u16::MAX`. */
  const U16Max: nat := 65535

  /** The port used when no valid one is given. */
  const DefaultPort: string := "5660"

  /** The kinds of `ParseIntError` that parsing an unsigned integer can produce. */
  datatype IntErrorKind = Empty | InvalidDigit | PosOverflow

  predicate IsDigit(c: char) {
    '0' <= c <= '9'
  }

  predicate AllDigits(s: string) {
    forall i :: 0 <= i < |s| ==> IsDigit(s[i])
  }

  function DigitValue(c: char): (d: nat)
    requires IsDigit(c)
    ensures d < 10
  {
    c as int - '0' as int
  }

  function DigitChar(d: nat): (c: char)
    requires d < 10
    ensures IsDigit(c) && DigitValue(c) == d
  {
    ('0' as int + d) as char
  }

  /** The number the digits `s` denote when appended, most significant first, to `acc`. */
  function DecimalFrom(acc: nat, s: string): nat
    requires AllDigits(s)
    decreases |s|
  {
    if s == [] then acc else DecimalFrom(acc * 10 + DigitValue(s[0]), s[1..])
  }

  /** The number a string of decimal digits denotes (leading zeros allowed). */
  function DecimalValue(s: string): nat
    requires AllDigits(s)
  {
    DecimalFrom(0, s)
  }

  /** The digit loop of `u16::from_str`: for each character, check that it is a
      digit, then multiply by ten and add it, each step checked for overflow. */
  function AccumulateDigits(acc: nat, s: string): (r: Result<nat, IntErrorKind>)
    requires acc <= U16Max
    ensures r.Ok? ==> r.value <= U16Max
    ensures r.Err? ==> r.error != Empty
    decreases |s|
  {
    if s == [] then Ok(acc)
    else if !IsDigit(s[0]) then Err(InvalidDigit)
    else if acc * 10 > U16Max then Err(PosOverflow)
    else if acc * 10 + DigitValue(s[0]) > U16Max then Err(PosOverflow)
    else AccumulateDigits(acc * 10 + DigitValue(s[0]), s[1..])
  }

  /** `s.parse::<u16>()`: the empty string is `Empty`; a lone sign is
      `InvalidDigit`; one leading `+` is skipped; a `-` is an ordinary (invalid)
      character, since `u16` is unsigned. */
  function ParseU16(s: string): (r: Result<nat, IntErrorKind>)
    ensures r.Ok? ==> r.value <= U16Max
    ensures r == Err(Empty) <==> s == []
  {
    if s == [] then Err(Empty)
    else if s == "+" || s == "-" then Err(InvalidDigit)
    else if s[0] == '+' then AccumulateDigits(0, s[1..])
    else AccumulateDigits(0, s)
  }

  /** `n.to_string()` for an unsigned integer: its decimal digits, without sign. */
  function ToDecimal(n: nat): (s: string)
    ensures |s| > 0 && AllDigits(s)
    ensures s[0] == '0' <==> n == 0
    decreases n
  {
    if n < 10 then [DigitChar(n)] else ToDecimal(n / 10) + [DigitChar(n % 10)]
  }

  /** `args[1]` read as a port, or the default when there is no `args[1]` or
      it is not a `u16`. */
  function ParsePortFromArgs(args: seq<string>): (port: string)
    ensures |args| < 2 ==> port == DefaultPort
    ensures |args| > 1 && IsU16Literal(args[1]) ==> port == ToDecimal(DecimalValue(Unsigned(args[1])))
    ensures |args| > 1 && !IsU16Literal(args[1]) ==> port == DefaultPort
  {
    if |args| > 1 then
      ParseU16Accepts(args[1]);
      match ParseU16(args[1])
      case Ok(port) => ToDecimal(port)
      case Err(_) => DefaultPort
    else
      DefaultPort
  }

  // ---------------------------------------------------------------------------
  // What `u16::from_str` accepts

  /** The text after an optional leading `+`. */
  function Unsigned(s: string): string {
    if |s| > 0 && s[0] == '+' then s[1..] else s
  }

  /** A `u16` literal: an optional `+`, then at least one digit, with a value of at most 65535. */
  predicate IsU16Literal(s: string) {
    var ds := Unsigned(s);
    |ds| > 0 && AllDigits(ds) && DecimalValue(ds) <= U16Max
  }

  /** A canonical decimal: digits only, and no leading zero unless it is "0". */
  predicate IsCanonical(s: string) {
    |s| > 0 && AllDigits(s) && (s[0] == '0' ==> s == "0")
  }

  lemma {:induction false} DecimalFromGrows(acc: nat, s: string)
    requires AllDigits(s)
    ensures DecimalFrom(acc, s) >= acc
    decreases |s|
  {
    if s != [] {
      DecimalFromGrows(acc * 10 + DigitValue(s[0]), s[1..]);
    }
  }

  /** Appending one digit multiplies the value by ten and adds the digit. */
  lemma {:induction false} DecimalFromSnoc(acc: nat, s: string, c: char)
    requires AllDigits(s) && IsDigit(c)
    ensures AllDigits(s + [c])
    ensures DecimalFrom(acc, s + [c]) == DecimalFrom(acc, s) * 10 + DigitValue(c)
    decreases |s|
  {
    if s == [] {
      assert [c][1..] == [];
    } else {
      assert (s + [c])[1..] == s[1..] + [c];
      DecimalFromSnoc(acc * 10 + DigitValue(s[0]), s[1..], c);
    }
  }

  /** The checked digit loop succeeds exactly when every character is a digit
      and the unchecked value fits in a `u16`, and then yields that value. */
  lemma {:induction false} AccumulateDigitsDecimal(acc: nat, s: string)
    requires acc <= U16Max
    ensures AccumulateDigits(acc, s).Ok? <==> AllDigits(s) && DecimalFrom(acc, s) <= U16Max
    ensures AccumulateDigits(acc, s).Ok? ==> AccumulateDigits(acc, s).value == DecimalFrom(acc, s)
    decreases |s|
  {
    if s != [] && IsDigit(s[0]) {
      var next := acc * 10 + DigitValue(s[0]);
      if AllDigits(s) {
        DecimalFromGrows(next, s[1..]);
      }
      if next <= U16Max {
        AccumulateDigitsDecimal(next, s[1..]);
      }
    }
  }

  /** `u16::from_str` accepts exactly the `u16` literals, and yields the value of their digits. */
  lemma ParseU16Accepts(s: string)
    ensures ParseU16(s).Ok? <==> IsU16Literal(s)
    ensures ParseU16(s).Ok? ==> ParseU16(s).value == DecimalValue(Unsigned(s))
  {
    if s != [] && s != "+" && s != "-" {
      AccumulateDigitsDecimal(0, Unsigned(s));
    }
  }

  /** Reading back a rendered number gives the number. */
  lemma {:induction false} DecimalValueOfToDecimal(n: nat)
    ensures DecimalValue(ToDecimal(n)) == n
    decreases n
  {
    if n >= 10 {
      DecimalValueOfToDecimal(n / 10);
      DecimalFromSnoc(0, ToDecimal(n / 10), DigitChar(n % 10));
      assert n == (n / 10) * 10 + n % 10;
    } else {
      var c := DigitChar(n);
      assert ToDecimal(n) == [c] && [c][1..] == [];
      assert DecimalFrom(0, [c]) == DecimalFrom(DigitValue(c), []);
    }
  }

  /** Rendering is canonical. */
  lemma ToDecimalCanonical(n: nat)
    ensures IsCanonical(ToDecimal(n))
  {
    if n == 0 {
      assert ToDecimal(0) == "0";
    }
  }

  /** Every `u16` survives the round trip through `to_string` and `from_str`. */
  lemma ParseToDecimal(n: nat)
    requires n <= U16Max
    ensures ParseU16(ToDecimal(n)) == Ok(n)
  {
    var s := ToDecimal(n);
    DecimalValueOfToDecimal(n);
    assert Unsigned(s) == s;
    ParseU16Accepts(s);
  }

  /** A canonical decimal is the rendering of its own value. */
  lemma {:induction false} ToDecimalOfCanonical(s: string)
    requires IsCanonical(s)
    ensures ToDecimal(DecimalValue(s)) == s
    decreases |s|
  {
    if |s| > 1 {
      var p, c := s[..|s| - 1], s[|s| - 1];
      assert s == p + [c];
      assert p[0] == s[0] && p != "0";
      DecimalFromSnoc(0, p, c);
      DecimalFromGrows(DigitValue(p[0]), p[1..]);
      var v, d := DecimalValue(p), DigitValue(c);
      assert v >= 1 && DecimalValue(s) == v * 10 + d;
      assert (v * 10 + d) / 10 == v && (v * 10 + d) % 10 == d;
      ToDecimalOfCanonical(p);
    } else {
      assert s[1..] == [] && s == [s[0]];
      assert DecimalValue(s) == DecimalFrom(DigitValue(s[0]), []) == DigitValue(s[0]);
      assert DigitChar(DigitValue(s[0])) == s[0];
    }
  }

  // ---------------------------------------------------------------------------
  // What parse_port_from_args returns

  /** A valid argument yields the canonical decimal of its value, which is a
      `u16` and parses back to the same value. */
  lemma PortFromValidArgument(args: seq<string>)
    requires |args| > 1 && IsU16Literal(args[1])
    ensures var port := ParsePortFromArgs(args);
      var n := DecimalValue(Unsigned(args[1]));
      n <= U16Max && port == ToDecimal(n) && IsCanonical(port) && ParseU16(port) == Ok(n)
  {
    var n := DecimalValue(Unsigned(args[1]));
    ParseU16Accepts(args[1]);
    ParseToDecimal(n);
    ToDecimalCanonical(n);
  }

  /** In particular an empty, negative, non-numeric or too large argument yields the default. */
  lemma PortRejects(args: seq<string>)
    requires |args| > 1
    requires || args[1] == []
             || args[1][0] == '-'
             || !AllDigits(Unsigned(args[1]))
             || DecimalValue(Unsigned(args[1])) > U16Max
    ensures ParsePortFromArgs(args) == DefaultPort
  {
    if args[1] != [] && args[1][0] == '-' {
      assert !IsDigit(Unsigned(args[1])[0]);
    }
  }

  /** Only `args[1]` matters: the executable name and later arguments never change the port. */
  lemma PortIgnoresOtherArguments(a: seq<string>, b: seq<string>)
    requires (|a| < 2 && |b| < 2) || (|a| > 1 && |b| > 1 && a[1] == b[1])
    ensures ParsePortFromArgs(a) == ParsePortFromArgs(b)
  {
  }

  /** The default is itself a canonical `u16` decimal. */
  lemma DefaultPortIsU16()
    ensures ParseU16(DefaultPort) == Ok(5660)
    ensures ToDecimal(5660) == DefaultPort
  {
    ParseToDecimal(5660);
  }

  /** Whatever the arguments, the port is the canonical decimal of a `u16`. */
  lemma PortIsCanonicalU16(args: seq<string>)
    ensures var port := ParsePortFromArgs(args);
      ParseU16(port).Ok? && ToDecimal(ParseU16(port).value) == port && IsCanonical(port)
  {
    DefaultPortIsU16();
    ToDecimalCanonical(5660);
    if |args| > 1 && ParseU16(args[1]).Ok? {
      var n := ParseU16(args[1]).value;
      ParseToDecimal(n);
      ToDecimalCanonical(n);
    }
  }

  /** The argument comes back unchanged exactly when it is already a canonical
      `u16` decimal; otherwise it is normalised (leading zeros and `+` dropped)
      or replaced by the default. */
  lemma PortKeepsExactlyCanonical(args: seq<string>)
    requires |args| > 1
    ensures ParsePortFromArgs(args) == args[1] <==>
            IsCanonical(args[1]) && DecimalValue(args[1]) <= U16Max
  {
    var s := args[1];
    PortIsCanonicalU16(args);
    if IsCanonical(s) && DecimalValue(s) <= U16Max {
      assert Unsigned(s) == s;
      ParseU16Accepts(s);
      ToDecimalOfCanonical(s);
    }
    if ParsePortFromArgs(args) == s {
      var n := ParseU16(s).value;
      DecimalValueOfToDecimal(n);
    }
  }

  /** Passing the chosen port back as the argument chooses it again. */
  lemma PortIdempotent(args: seq<string>, exe: string)
    ensures ParsePortFromArgs([exe, ParsePortFromArgs(args)]) == ParsePortFromArgs(args)
  {
    var port := ParsePortFromArgs(args);
    PortIsCanonicalU16(args);
    PortIsCanonicalU16([exe, port]);
    var n := ParseU16(port).value;
    assert ParsePortFromArgs([exe, port]) == ToDecimal(n);
  }

  /** Example: a leading `+` and leading zeros are dropped. */
  lemma PortExampleNormalised()
    ensures ParsePortFromArgs(["spx-launcher", "+08080"]) == "8080"
  {
    assert "+08080"[1..] == "08080" && "08080"[1..] == "8080" && "8080"[1..] == "080";
    assert "080"[1..] == "80" && "80"[1..] == "0" && "0"[1..] == "";
    assert AccumulateDigits(0, "08080") == AccumulateDigits(0, "8080") == AccumulateDigits(8, "080")
        == AccumulateDigits(80, "80") == AccumulateDigits(808, "0") == AccumulateDigits(8080, "") == Ok(8080);
    assert ToDecimal(8) == "8" && ToDecimal(80) == "8" + "0" && ToDecimal(808) == "80" + "8";
    assert ToDecimal(8080) == "808" + "0";
  }

  /** Example: one past `u16::MAX` falls back to the default. */
  lemma PortExampleOverflow()
    ensures ParsePortFromArgs(["spx-launcher", "65536"]) == DefaultPort
  {
    assert "65536"[1..] == "5536" && "5536"[1..] == "536" && "536"[1..] == "36" && "36"[1..] == "6";
    assert AccumulateDigits(0, "65536") == AccumulateDigits(6, "5536") == AccumulateDigits(65, "536")
        == AccumulateDigits(655, "36") == AccumulateDigits(6553, "6") == Err(PosOverflow);
  }

  /** Example: a negative number falls back to the default. */
  lemma PortExampleNegative()
    ensures ParsePortFromArgs(["spx-launcher", "-1"]) == DefaultPort
  {
    assert ParseU16("-1") == AccumulateDigits(0, "-1") == Err(InvalidDigit);
  }
}
