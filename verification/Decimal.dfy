/** Decimal text of integers, as Python's `str`, `int` and the `02d` format write and read it. */
module Decimal {
  import opened Wrappers

  /** The character of one decimal digit. */
  function DigitChar(d: nat): (c: char)
    requires d < 10
    ensures '0' <= c <= '9'
  {
    '0' + d as char
  }

  predicate IsDigits(s: string) {
    s != "" && forall i :: 0 <= i < |s| ==> '0' <= s[i] <= '9'
  }

  function DigitsValue(s: string): nat
    requires forall i :: 0 <= i < |s| ==> '0' <= s[i] <= '9'
  {
    if s == "" then 0 else 10 * DigitsValue(s[..|s| - 1]) + (s[|s| - 1] - '0') as nat
  }

  function ShowNat(n: nat): (s: string)
    ensures IsDigits(s)
  {
    if n < 10 then [DigitChar(n)] else ShowNat(n / 10) + [DigitChar(n % 10)]
  }

  function ShowInt(n: int): string {
    if n < 0 then "-" + ShowNat(-n) else ShowNat(n)
  }

  /** Python's `f"{n:02d}"`: at least two characters, padded with a zero after the sign. */
  function Show02(n: int): string {
    if 0 <= n < 10 then "0" + ShowNat(n) else ShowInt(n)
  }

  /** The last `width` digits of a number, with leading zeros. */
  function ShowPadded(n: nat, width: nat): (s: string)
    ensures |s| == width && forall i :: 0 <= i < width ==> '0' <= s[i] <= '9'
  {
    if width == 0 then "" else ShowPadded(n / 10, width - 1) + [DigitChar(n % 10)]
  }

  function TenTo(width: nat): nat {
    if width == 0 then 1 else 10 * TenTo(width - 1)
  }

  /** Python's `int(s)` for an optional sign and ASCII digits. */
  function ReadInt(s: string): Option<int> {
    if IsDigits(s) then Some(DigitsValue(s))
    else if s != "" && s[0] == '-' && IsDigits(s[1..]) then Some(0 - DigitsValue(s[1..]))
    else if s != "" && s[0] == '+' && IsDigits(s[1..]) then Some(DigitsValue(s[1..]))
    else None
  }

  lemma {:induction false} ShowNatReadsBack(n: nat)
    ensures DigitsValue(ShowNat(n)) == n
  {
    if n >= 10 {
      ShowNatReadsBack(n / 10);
      var s := ShowNat(n);
      assert s[..|s| - 1] == ShowNat(n / 10);
    } else {
      assert ShowNat(n)[..0] == "";
    }
  }

  lemma {:induction false} PaddedReadsBack(n: nat, width: nat)
    requires n < TenTo(width)
    ensures DigitsValue(ShowPadded(n, width)) == n
  {
    if width > 0 {
      var s := ShowPadded(n, width);
      PaddedReadsBack(n / 10, width - 1);
      assert s[..|s| - 1] == ShowPadded(n / 10, width - 1);
    }
  }

  lemma LeadingZero(s: string)
    requires IsDigits(s) && |s| == 1
    ensures DigitsValue("0" + s) == DigitsValue(s)
  {
    assert ("0" + s)[..1] == "0" && "0"[..0] == "" && s[..0] == "";
    assert ("0" + s)[1] == s[0];
  }

  /** Reading what the two-digit format wrote gives the number back, for every integer. */
  lemma Show02ReadsBack(n: int)
    ensures ReadInt(Show02(n)) == Some(n)
  {
    if 0 <= n < 10 {
      ShowNatReadsBack(n);
      LeadingZero(ShowNat(n));
    } else if n < 0 {
      ShowNatReadsBack(-n);
      assert ("-" + ShowNat(-n))[1..] == ShowNat(-n);
    } else {
      ShowNatReadsBack(n);
    }
  }

  lemma ShowIntReadsBack(n: int)
    ensures ReadInt(ShowInt(n)) == Some(n)
  {
    if n < 0 {
      ShowNatReadsBack(-n);
      assert ("-" + ShowNat(-n))[1..] == ShowNat(-n);
    } else {
      ShowNatReadsBack(n);
    }
  }

  /** A formatted number holds no colon and no blank: it survives stripping and splitting. */
  lemma Show02Plain(n: int)
    ensures Show02(n) != ""
    ensures forall i :: 0 <= i < |Show02(n)| ==> Show02(n)[i] == '-' || '0' <= Show02(n)[i] <= '9'
  {
  }
}
