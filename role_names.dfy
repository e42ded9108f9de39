/**
 * Names of the node properties that store a role's permissions.
 *
 * The property for role `r` is called `sec:role-` followed by `r` written in
 * decimal. Reading a name back yields a role id only when the suffix is the
 * canonical decimal form of an integer, which is the condition under which a
 * string array key is treated as an integer key.
 */
module RoleNames {
  import opened Wrappers

  /** The glob `sec:role-*` used to enumerate role properties. */
  const RolePrefix: string := "sec:role-"

  /** The glob `sec:*` used to enumerate security properties on hydration. */
  const SecurityPrefix: string := "sec:"

  predicate IsDigit(c: char) { '0' <= c <= '9' }

  predicate AllDigits(s: string) { forall i :: 0 <= i < |s| ==> IsDigit(s[i]) }

  /** A non-empty digit string without a leading zero (except "0" itself). */
  predicate IsCanonicalNat(s: string) {
    |s| > 0 && AllDigits(s) && (s[0] == '0' ==> |s| == 1)
  }

  function DigitChar(d: nat): (c: char)
    requires d < 10
    ensures IsDigit(c)
  {
    (48 + d) as char
  }

  function DigitValue(c: char): (d: nat)
    requires IsDigit(c)
    ensures d < 10 && DigitChar(d) == c
  {
    (c as int) - 48
  }

  /** Decimal rendering of a natural number. */
  function NatToDecimal(n: nat): (s: string)
    ensures IsCanonicalNat(s)
    ensures (s == "0") == (n == 0)
    decreases n
  {
    if n < 10 then [DigitChar(n)] else NatToDecimal(n / 10) + [DigitChar(n % 10)]
  }

  /** The value of a digit string, most significant digit first. */
  function DecimalValue(s: string): nat
    requires AllDigits(s)
    decreases |s|
  {
    if |s| == 0 then 0 else DecimalValue(s[..|s| - 1]) * 10 + DigitValue(s[|s| - 1])
  }

  lemma {:induction false} DecimalValueOfNatToDecimal(n: nat)
    ensures DecimalValue(NatToDecimal(n)) == n
    decreases n
  {
    if n >= 10 {
      var s := NatToDecimal(n);
      assert s[..|s| - 1] == NatToDecimal(n / 10);
      DecimalValueOfNatToDecimal(n / 10);
    }
  }

  lemma {:induction false} CanonicalIsPositive(s: string)
    requires IsCanonicalNat(s) && s[0] != '0'
    ensures DecimalValue(s) > 0
    decreases |s|
  {
    if |s| > 1 {
      CanonicalIsPositive(s[..|s| - 1]);
    }
  }

  lemma {:induction false} NatToDecimalOfDecimalValue(s: string)
    requires IsCanonicalNat(s)
    ensures NatToDecimal(DecimalValue(s)) == s
    decreases |s|
  {
    if |s| > 1 {
      var p := s[..|s| - 1];
      CanonicalIsPositive(p);
      NatToDecimalOfDecimalValue(p);
      var v := DecimalValue(s);
      assert v / 10 == DecimalValue(p) && v % 10 == DigitValue(s[|s| - 1]);
      assert s == p + [s[|s| - 1]];
    }
  }

  /** Decimal rendering of a role id, with a leading '-' for negative ids. */
  function IntToDecimal(i: int): (s: string)
    ensures |s| > 0 && (s[0] == '-' <==> i < 0)
    ensures i >= 0 ==> IsCanonicalNat(s)
    ensures i < 0 ==> IsCanonicalNat(s[1..]) && s[1..] != "0"
  {
    if i < 0 then
      var digits := NatToDecimal(-i);
      assert ("-" + digits)[1..] == digits;
      "-" + digits
    else NatToDecimal(i)
  }

  /** The integer a canonical decimal string denotes; None for any other string. */
  function ParseInt(s: string): (p: Option<int>)
    ensures p.Some? ==> |s| > 0 && (p.value < 0 <==> s[0] == '-')
  {
    if |s| > 0 && s[0] == '-' then
      if IsCanonicalNat(s[1..]) && s[1..] != "0" then
        CanonicalIsPositive(s[1..]);
        var magnitude: int := DecimalValue(s[1..]);
        Some(-magnitude)
      else None
    else if IsCanonicalNat(s) then Some(DecimalValue(s))
    else None
  }

  lemma ParseIntOfIntToDecimal(i: int)
    ensures ParseInt(IntToDecimal(i)) == Some(i)
  {
    if i < 0 {
      var digits := NatToDecimal(-i);
      assert IntToDecimal(i) == "-" + digits;
      assert ("-" + digits)[1..] == digits;
      DecimalValueOfNatToDecimal(-i);
      assert digits != "0";
    } else {
      var digits := NatToDecimal(i);
      assert IntToDecimal(i) == digits;
      assert digits[0] != '-';
      DecimalValueOfNatToDecimal(i);
    }
  }

  lemma IntToDecimalOfParseInt(s: string, i: int)
    requires ParseInt(s) == Some(i)
    ensures IntToDecimal(i) == s
  {
    if |s| > 0 && s[0] == '-' {
      NatToDecimalOfDecimalValue(s[1..]);
      CanonicalIsPositive(s[1..]);
      assert s == "-" + s[1..];
    } else {
      NatToDecimalOfDecimalValue(s);
    }
  }

  /** The name of the property that stores role `role`'s granted permissions. */
  function RoleProperty(role: int): (name: string)
    ensures RolePrefix <= name && SecurityPrefix <= name
  {
    RolePrefix + IntToDecimal(role)
  }

  /** Whether a property is matched by the glob `sec:role-*`. */
  predicate IsRoleProperty(name: string) { RolePrefix <= name }

  /** The role id a property name stands for, if it is the name of some role's property. */
  function RoleOf(name: string): (r: Option<int>)
    ensures r.Some? ==> IsRoleProperty(name) && RoleProperty(r.value) == name
  {
    if IsRoleProperty(name) then
      var suffix := name[|RolePrefix|..];
      var p := ParseInt(suffix);
      if p.Some? then
        IntToDecimalOfParseInt(suffix, p.value);
        assert name == RolePrefix + suffix;
        p
      else p
    else None
  }

  /** Reading the name of role `r`'s property gives back `r`. */
  lemma RoleOfRoleProperty(r: int)
    ensures RoleOf(RoleProperty(r)) == Some(r)
  {
    assert RoleProperty(r)[|RolePrefix|..] == IntToDecimal(r);
    ParseIntOfIntToDecimal(r);
  }

  /** A name that reads as role `r` is exactly role `r`'s property name. */
  lemma RolePropertyOfRoleOf(name: string, r: int)
    requires RoleOf(name) == Some(r)
    ensures RoleProperty(r) == name
  {
    IntToDecimalOfParseInt(name[|RolePrefix|..], r);
    assert name == RolePrefix + name[|RolePrefix|..];
  }

  /** Both directions at once, for every role and every name. */
  lemma RoleNamingBijective()
    ensures forall r: int {:trigger RoleProperty(r)} :: RoleOf(RoleProperty(r)) == Some(r)
    ensures forall name: string :: RoleOf(name).Some? ==> RoleProperty(RoleOf(name).value) == name
  {
    forall r: int ensures RoleOf(RoleProperty(r)) == Some(r) { RoleOfRoleProperty(r); }
    forall name: string | RoleOf(name).Some? ensures RoleProperty(RoleOf(name).value) == name {
      RolePropertyOfRoleOf(name, RoleOf(name).value);
    }
  }

  /** Distinct roles are stored under distinct property names. */
  lemma RolePropertyInjective(r1: int, r2: int)
    requires RoleProperty(r1) == RoleProperty(r2)
    ensures r1 == r2
  {
    RoleOfRoleProperty(r1);
    RoleOfRoleProperty(r2);
  }
}
