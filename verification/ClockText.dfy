/** Clock times as text, "HH:MM", and their rounding to a grid: `_bucket_reservation_time` in tools/executor.py. */
module ClockText {
  import opened Wrappers
  import opened Decimal

  predicate IsBlank(c: char) {
    c == ' ' || c == '\t' || c == '\n' || c == '\r'
  }

  function StripLeft(s: string): string {
    if s != "" && IsBlank(s[0]) then StripLeft(s[1..]) else s
  }

  function StripRight(s: string): string {
    if s != "" && IsBlank(s[|s| - 1]) then StripRight(s[..|s| - 1]) else s
  }

  function Strip(s: string): string {
    StripRight(StripLeft(s))
  }

  /** The text before and after the first separator. */
  function SplitFirst(s: string, separator: char): Option<(string, string)> {
    if s == "" then None
    else if s[0] == separator then Some(("", s[1..]))
    else
      var rest := SplitFirst(s[1..], separator);
      if rest.None? then None else Some(([s[0]] + rest.value.0, rest.value.1))
  }

  /** Exactly two colon-separated integers, or nothing. */
  function ParseClock(s: string): Option<(int, int)> {
    var parts := SplitFirst(Strip(s), ':');
    if parts.None? || ':' in parts.value.1 then None
    else
      var h, m := ReadInt(Strip(parts.value.0)), ReadInt(Strip(parts.value.1));
      if h.None? || m.None? then None else Some((h.value, m.value))
  }

  /** `_time_to_minutes`: the text is cut at its first colon, without stripping it as a whole. */
  function TimeToMinutes(s: string): Option<int> {
    var parts := SplitFirst(s, ':');
    if parts.None? then None
    else
      var h, m := ReadInt(Strip(parts.value.0)), ReadInt(Strip(parts.value.1));
      if h.None? || m.None? then None else Some(h.value * 60 + m.value)
  }

  function FormatClock(h: int, m: int): (s: string)
    ensures s != ""
  {
    Show02(h) + ":" + Show02(m)
  }

  /** Rounds down to the grid; a grid that is not positive leaves the minutes alone. */
  function Rounded(m: int, grid: int): int {
    if grid <= 0 then m else m / grid * grid
  }

  /** The slot a time falls into, or nothing for text that is no time. */
  function BucketTime(time: string, grid: int): Option<string> {
    var t := ParseClock(time);
    if t.None? then None
    else Some(FormatClock(t.value.0, Rounded(t.value.1, grid)))
  }

  lemma StripPlain(s: string)
    requires forall i :: 0 <= i < |s| ==> !IsBlank(s[i])
    ensures Strip(s) == s
  {
  }

  lemma {:induction false} SplitAtFirst(a: string, b: string, separator: char)
    requires separator !in a
    ensures SplitFirst(a + [separator] + b, separator) == Some((a, b))
  {
    if a == "" {
      assert a + [separator] + b == [separator] + b;
    } else {
      SplitAtFirst(a[1..], b, separator);
      assert (a + [separator] + b)[1..] == a[1..] + [separator] + b;
      assert [a[0]] + a[1..] == a;
    }
  }

  /** Reading a formatted time gives the time back, for all hours and minutes. */
  lemma FormatReadsBack(h: int, m: int)
    ensures ParseClock(FormatClock(h, m)) == Some((h, m))
  {
    hide Show02, ReadInt, SplitFirst, Strip;
    Show02Plain(h);
    Show02Plain(m);
    Show02ReadsBack(h);
    Show02ReadsBack(m);
    StripPlain(FormatClock(h, m));
    StripPlain(Show02(h));
    StripPlain(Show02(m));
    SplitAtFirst(Show02(h), Show02(m), ':');
  }

  /** In minutes of the day a formatted time is sixty times its hour and its minute. */
  lemma FormatInMinutes(h: int, m: int)
    ensures TimeToMinutes(FormatClock(h, m)) == Some(60 * h + m)
  {
    hide Show02, ReadInt, SplitFirst, Strip;
    Show02Plain(h);
    Show02Plain(m);
    Show02ReadsBack(h);
    Show02ReadsBack(m);
    StripPlain(Show02(h));
    StripPlain(Show02(m));
    SplitAtFirst(Show02(h), Show02(m), ':');
  }

  lemma FormatIsInjective(h: int, m: int, h': int, m': int)
    requires FormatClock(h, m) == FormatClock(h', m')
    ensures h == h' && m == m'
  {
    FormatReadsBack(h, m);
    FormatReadsBack(h', m');
  }

  lemma Scaled(d: int, grid: int)
    requires grid > 0
    ensures d >= 1 ==> d * grid >= grid
    ensures d <= -1 ==> d * grid <= -grid
  {
    if d >= 1 {
      assert d * grid == grid + (d - 1) * grid;
    } else if d <= -1 {
      assert d * grid == -grid + (d + 1) * grid;
    }
  }

  lemma ExactDivision(q: int, grid: int)
    requires grid > 0
    ensures q * grid / grid == q
  {
    var p := q * grid;
    var r := p / grid;
    assert p == r * grid + p % grid;
    assert (q - r) * grid == p % grid;
    Scaled(q - r, grid);
  }

  lemma RoundedTwice(m: int, grid: int)
    ensures Rounded(Rounded(m, grid), grid) == Rounded(m, grid)
    ensures grid > 0 ==> Rounded(m, grid) <= m < Rounded(m, grid) + grid && Rounded(m, grid) % grid == 0
    ensures grid <= 0 ==> Rounded(m, grid) == m
  {
    if grid > 0 {
      ExactDivision(m / grid, grid);
      assert m == m / grid * grid + m % grid;
    }
  }

  /** Bucketing is idempotent on every grid, and on a positive one it rounds down by less than one step. */
  lemma BucketIsIdempotent(time: string, grid: int)
    requires BucketTime(time, grid).Some?
    ensures BucketTime(BucketTime(time, grid).value, grid) == BucketTime(time, grid)
    ensures grid > 0 ==>
              var t, b := ParseClock(time).value, ParseClock(BucketTime(time, grid).value).value;
              b.0 == t.0 && b.1 <= t.1 < b.1 + grid && b.1 % grid == 0
    ensures grid <= 0 ==> ParseClock(BucketTime(time, grid).value) == ParseClock(time)
  {
    hide ParseClock, FormatClock, Rounded;
    var t := ParseClock(time).value;
    RoundedTwice(t.1, grid);
    FormatReadsBack(t.0, Rounded(t.1, grid));
  }
}
