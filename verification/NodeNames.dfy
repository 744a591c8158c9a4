/** A node's name holds its number, which is also its Raft ID. */
module NodeNames {
  import opened Common
  import opened Decimal

  const I32_MIN: int := -0x8000_0000
  const I32_MAX: int := 0x7fff_ffff

  /** A signed 32-bit number in decimal, if that is what the text is. */
  function ParseI32(s: string): Option<int> {
    var negative := s != [] && s[0] == '-';
    var digits := if s != [] && s[0] in {'-', '+'} then s[1..] else s;
    if digits == [] || !AllDigits(digits) then None
    else
      var value := if negative then -(Value(digits) as int) else Value(digits) as int;
      if I32_MIN <= value <= I32_MAX then Some(value) else None
  }

  function NodeName(number: nat): string {
    "n" + Digits(number)
  }

  /** The number of a name, or zero for one that is not a node's. */
  function NodeNumber(name: string): int {
    if name == [] || name[0] != 'n' then 0
    else
      match ParseI32(name[1..])
      case None => 0
      case Some(number) => number
  }

  /** A name gives its number back as long as that fits 32 bits. Past that it gives zero. */
  lemma NameRoundTrip(number: nat)
    ensures NodeNumber(NodeName(number)) == if number <= I32_MAX then number else 0
  {
    ValueOfDigits(number);
    var digits := Digits(number);
    assert NodeName(number)[1..] == digits;
    assert digits[0] in digits;
  }

  /** A sign before the digits is read, as far as 32 bits go on its side. */
  lemma SignsAreRead(number: nat)
    ensures NodeNumber("n-" + Digits(number)) == if number <= 2147483648 then -(number as int) else 0
    ensures NodeNumber("n+" + Digits(number)) == if number <= 2147483647 then number else 0
  {
    ValueOfDigits(number);
    var digits := Digits(number);
    SignIsRead('-', digits);
    SignIsRead('+', digits);
    assert ("n-" + digits)[1..] == "-" + digits;
    assert ("n+" + digits)[1..] == "+" + digits;
  }

  lemma SignIsRead(sign: char, digits: string)
    requires sign in {'-', '+'} && digits != [] && AllDigits(digits)
    ensures var value := if sign == '-' then -(Value(digits) as int) else Value(digits) as int;
            ParseI32([sign] + digits) == if I32_MIN <= value <= I32_MAX then Some(value) else None
  {
    assert ([sign] + digits)[1..] == digits;
  }

  /** A name that does not begin with `n`, or has anything but digits after that and a sign, has number zero. */
  lemma OtherNamesHaveZero(name: string)
    requires || name == [] || name[0] != 'n' || |name| == 1
             || (name[1] !in {'-', '+'} && !IsDigit(name[1]))
             || exists i | 2 <= i < |name| :: !IsDigit(name[i])
    ensures NodeNumber(name) == 0
  {
    if |name| > 1 && name[0] == 'n' && (name[1] in {'-', '+'} || IsDigit(name[1])) {
      var i :| 2 <= i < |name| && !IsDigit(name[i]);
      var digits := if name[1] in {'-', '+'} then name[1..][1..] else name[1..];
      assert name[i] in digits by {
        assert digits[if name[1] in {'-', '+'} then i - 2 else i - 1] == name[i];
      }
    } else if |name| > 1 && name[0] == 'n' {
      assert name[1..][0] == name[1] && name[1] in name[1..];
    }
  }
}
