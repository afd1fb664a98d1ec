/** The version gate of the handshake. */
module Handshake {
  import opened Wrappers
  import opened Naming

  const U64_LIMIT := 0x1_0000_0000_0000_0000

  /** The value of a non-empty run of decimal digits. */
  function DigitsValue(s: string): Option<nat> {
    if s == "" || !IsDigit(s[|s| - 1]) then None
    else if |s| == 1 then Some(DigitValue(s[0]))
    else
      match DigitsValue(s[..|s| - 1])
      case None => None
      case Some(n) => Some(10 * n + DigitValue(s[|s| - 1]))
  }

  /** An unsigned 64-bit number; one leading `+` is allowed. */
  function ParseU64(s: string): Option<nat> {
    match DigitsValue(if s != "" && s[0] == '+' then s[1..] else s)
    case None => None
    case Some(n) => if n < U64_LIMIT then Some(n) else None
  }

  /** The text before the first dot, or all of it. */
  function BeforeDot(s: string): string {
    match SplitOnce(s, '.')
    case None => s
    case Some((m, _)) => m
  }

  /** Major and minor number; what follows a second dot does not matter. */
  function ParseVersion(v: string): Option<(nat, nat)> {
    match SplitOnce(v, '.')
    case None => None
    case Some((major, rest)) =>
      match (ParseU64(major), ParseU64(BeforeDot(rest)))
      case (Some(a), Some(b)) => Some((a, b))
      case _ => None
  }

  predicate VersionCompatible(client: string, server: string) {
    ParseVersion(client).Some? && ParseVersion(client) == ParseVersion(server)
  }

  lemma {:induction false} DecimalIsDigits(n: nat)
    ensures DigitsValue(Decimal(n)) == Some(n) && Decimal(n) != ""
    ensures forall i :: 0 <= i < |Decimal(n)| ==> IsDigit(Decimal(n)[i])
  {
    if n >= 10 {
      DecimalIsDigits(n / 10);
      var s := Decimal(n);
      assert s[..|s| - 1] == Decimal(n / 10);
    }
  }

  lemma DecimalParses(n: nat)
    ensures ParseU64(Decimal(n)) == (if n < U64_LIMIT then Some(n) else None) && '.' !in Decimal(n)
  {
    DecimalIsDigits(n);
    assert IsDigit(Decimal(n)[0]);
  }

  function WithPatch(minor: string, patch: Option<string>): string {
    if patch.Some? then minor + ['.'] + patch.value else minor
  }

  lemma BeforePatch(minor: string, patch: Option<string>)
    requires '.' !in minor
    ensures BeforeDot(WithPatch(minor, patch)) == minor
  {
    if patch.Some? {
      SplitAtFirst(minor, '.', patch.value);
    }
  }

  /** A printed version reads as its major and minor number, with or without a patch part, unless a number
      does not fit 64 bits. */
  lemma PrintedVersionParses(major: nat, minor: nat, patch: Option<string>)
    ensures ParseVersion(Decimal(major) + ['.'] + WithPatch(Decimal(minor), patch))
         == if major <= 18446744073709551615 && minor <= 18446744073709551615 then Some((major, minor)) else None
  {
    DecimalParses(major);
    DecimalParses(minor);
    SplitAtFirst(Decimal(major), '.', WithPatch(Decimal(minor), patch));
    BeforePatch(Decimal(minor), patch);
  }

  // ----- what the gate accepts, without the parser

  predicate AllDigits(s: string) {
    s != "" && forall i :: 0 <= i < |s| ==> IsDigit(s[i])
  }

  function ValueOf(s: string): nat
    requires forall i :: 0 <= i < |s| ==> IsDigit(s[i])
  {
    if s == "" then 0 else 10 * ValueOf(s[..|s| - 1]) + DigitValue(s[|s| - 1])
  }

  /** Decimal digits, leading zeros included, after an optional plus sign, with a value within 64 bits. */
  ghost predicate Number(s: string, n: nat) {
    n <= 18446744073709551615
    && exists sign, d :: (sign == "" || sign == "+") && s == sign + d && AllDigits(d) && ValueOf(d) == n
  }

  /** Major, a dot, minor, and nothing more or a second dot and anything. */
  ghost predicate Version(v: string, major: nat, minor: nat) {
    exists a, b, tail ::
      v == a + ['.'] + (b + tail) && Number(a, major) && Number(b, minor) && (tail == "" || tail[0] == '.')
  }

  lemma {:induction false} DigitsValueIs(s: string)
    ensures DigitsValue(s) == if AllDigits(s) then Some(ValueOf(s)) else None
  {
    if |s| > 1 {
      DigitsValueIs(s[..|s| - 1]);
      assert AllDigits(s) <==> AllDigits(s[..|s| - 1]) && IsDigit(s[|s| - 1]);
    } else if |s| == 1 {
      assert s[..0] == "";
    }
  }

  lemma ParseU64Is(s: string, n: nat)
    ensures ParseU64(s) == Some(n) <==> Number(s, n)
  {
    var d := if s != "" && s[0] == '+' then s[1..] else s;
    DigitsValueIs(d);
    if ParseU64(s) == Some(n) {
      var sign := if s != "" && s[0] == '+' then "+" else "";
      assert s == sign + d;
    }
    if Number(s, n) {
      var sign, d' :| (sign == "" || sign == "+") && s == sign + d' && AllDigits(d') && ValueOf(d') == n;
      assert IsDigit(d'[0]);
      assert d' == d;
    }
  }

  lemma NumberHasNoDot(s: string, n: nat)
    requires Number(s, n)
    ensures '.' !in s
  {
  }

  lemma BeforeTail(minor: string, tail: string)
    requires '.' !in minor && (tail == "" || tail[0] == '.')
    ensures BeforeDot(minor + tail) == minor
  {
    if tail == "" {
      assert minor + tail == minor;
    } else {
      SplitAtFirst(minor, '.', tail[1..]);
      assert minor + tail == minor + ['.'] + tail[1..];
    }
  }

  lemma AfterDot(s: string) returns (tail: string)
    ensures s == BeforeDot(s) + tail && (tail == "" || tail[0] == '.')
  {
    tail := match SplitOnce(s, '.') { case None => "" case Some((_, rest)) => ['.'] + rest };
  }

  lemma ParseVersionIs(v: string, major: nat, minor: nat)
    ensures ParseVersion(v) == Some((major, minor)) <==> Version(v, major, minor)
  {
    if ParseVersion(v) == Some((major, minor)) {
      var (a, rest) := SplitOnce(v, '.').value;
      var tail := AfterDot(rest);
      ParseU64Is(a, major);
      ParseU64Is(BeforeDot(rest), minor);
      assert v == a + ['.'] + (BeforeDot(rest) + tail);
    }
    if Version(v, major, minor) {
      VersionParses(v, major, minor);
    }
  }

  lemma VersionParses(v: string, major: nat, minor: nat)
    requires Version(v, major, minor)
    ensures ParseVersion(v) == Some((major, minor))
  {
    var a, b, tail :|
      v == a + ['.'] + (b + tail) && Number(a, major) && Number(b, minor) && (tail == "" || tail[0] == '.');
    NumberHasNoDot(a, major);
    NumberHasNoDot(b, minor);
    SplitAtFirst(a, '.', b + tail);
    BeforeTail(b, tail);
    ParseU64Is(a, major);
    ParseU64Is(b, minor);
  }

  /** Two texts pass the gate exactly when both are versions with the same major and minor number, however
      the numbers are written and whatever follows a second dot. */
  lemma GateIs(client: string, server: string)
    ensures VersionCompatible(client, server)
       <==> exists major, minor :: Version(client, major, minor) && Version(server, major, minor)
  {
    if VersionCompatible(client, server) {
      var (major, minor) := ParseVersion(client).value;
      ParseVersionIs(client, major, minor);
      ParseVersionIs(server, major, minor);
    }
    forall major, minor | Version(client, major, minor) && Version(server, major, minor)
      ensures VersionCompatible(client, server)
    {
      ParseVersionIs(client, major, minor);
      ParseVersionIs(server, major, minor);
    }
  }
}
