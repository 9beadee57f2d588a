/** The two-digit padding helper of the clock face. */
module Utilities {
  import opened Decimal

  /** Prefixes "0" to the text of numbers below ten; larger numbers are shown as they are. */
  function ZeroBuffer(n: int): (r: string)
    ensures |r| >= 2
    ensures n < 10 ==> r[0] == '0' && r[1..] == Text(n)
    ensures n >= 10 ==> r == Text(n) && r[0] != '0'
    ensures 0 <= n ==> AllDigits(r) && ParseDigits(r) == n
    ensures 0 <= n < 100 ==> |r| == 2
  {
    if n < 10 then
      if n >= 0 then
        ParseNatDigits(n);
        ParseLeadingZero(Text(n));
        "0" + Text(n)
      else
        "0" + Text(n)
    else
      ParseNatDigits(n);
      Text(n)
  }
}
