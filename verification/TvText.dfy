/** Numbers as the TV device keeps them: decimal text, read with atoi and written with "%.4hd". */
module TvText {

  predicate IsDigit(c: char) {
    '0' <= c <= '9'
  }

  function SkipSpace(s: string): string {
    if s != [] && (s[0] == ' ' || '\t' <= s[0] <= '\r') then SkipSpace(s[1..]) else s
  }

  /** The digits at the front of s, behind a number already read. */
  function ReadDigits(s: string, before: int): int {
    if s != [] && IsDigit(s[0]) then ReadDigits(s[1..], 10 * before + (s[0] as int - '0' as int)) else before
  }

  /** atoi on texts whose number an int can hold. */
  function Atoi(s: string): int {
    var t := SkipSpace(s);
    if t != [] && t[0] == '-' then -ReadDigits(t[1..], 0)
    else if t != [] && t[0] == '+' then ReadDigits(t[1..], 0)
    else ReadDigits(t, 0)
  }

  function Digit(d: int): (c: char)
    requires 0 <= d <= 9
    ensures IsDigit(c) && c as int - '0' as int == d
  {
    '0' + d as char
  }

  /** "%.4hd" for the numbers that it prints with four digits. */
  function Format4(n: int): (s: string)
    requires 0 <= n <= 9999
    ensures |s| == 4 && forall i :: 0 <= i < 4 ==> IsDigit(s[i])
  {
    [Digit(n / 1000), Digit(n / 100 % 10), Digit(n / 10 % 10), Digit(n % 10)]
  }

  lemma ReadOne(d: int, rest: string, before: int)
    requires 0 <= d <= 9
    ensures ReadDigits([Digit(d)] + rest, before) == ReadDigits(rest, 10 * before + d)
  {
    assert ([Digit(d)] + rest)[1..] == rest;
  }

  lemma AtoiDigits(a: int, b: int, c: int, d: int)
    requires 0 <= a <= 9 && 0 <= b <= 9 && 0 <= c <= 9 && 0 <= d <= 9
    ensures Atoi([Digit(a), Digit(b), Digit(c), Digit(d)]) == 1000 * a + 100 * b + 10 * c + d
  {
    var s := [Digit(a), Digit(b), Digit(c), Digit(d)];
    assert SkipSpace(s) == s && Atoi(s) == ReadDigits(s, 0);
    assert s == [Digit(a)] + ([Digit(b)] + ([Digit(c)] + ([Digit(d)] + [])));
    hide Atoi, Digit;
    ReadOne(a, [Digit(b)] + ([Digit(c)] + ([Digit(d)] + [])), 0);
    ReadOne(b, [Digit(c)] + ([Digit(d)] + []), a);
    ReadOne(c, [Digit(d)] + [], 10 * a + b);
    ReadOne(d, [], 10 * (10 * a + b) + c);
  }

  /** Reading back what was written. */
  lemma AtoiFormat4(n: int)
    requires 0 <= n <= 9999
    ensures Atoi(Format4(n)) == n
  {
    AtoiDigits(n / 1000, n / 100 % 10, n / 10 % 10, n % 10);
    hide Atoi, Digit;
    assert n / 100 / 10 == n / 1000 && n / 10 / 10 == n / 100;
  }
}
