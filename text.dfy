/** String helpers shared by the pages: JavaScript's `includes`, `toLowerCase` (on the
    letters the shop's text uses), the `\s` character class, `trim`, and `split(' ')`. */
module Text {

  /** `s.includes(sub)`. */
  predicate Contains(s: string, sub: string)
  {
    sub <= s || (s != [] && Contains(s[1..], sub))
  }

  /** A string contains any of its suffixes. */
  lemma {:induction false} ContainsSuffix(a: string, b: string)
    ensures Contains(a + b, b)
    decreases |a|
  {
    if a != [] {
      assert (a + b)[1..] == a[1..] + b;
      ContainsSuffix(a[1..], b);
    }
  }

  /** `toLowerCase` of one character: ASCII letters and the Turkish capitals that have a
      one-character lower case (Ç, Ğ, Ö, Ş, Ü); any other character is kept. */
  function LowerChar(c: char): char
  {
    if 'A' <= c <= 'Z' then (c as int + 32) as char
    else if c == 'Ç' then 'ç'
    else if c == 'Ğ' then 'ğ'
    else if c == 'Ö' then 'ö'
    else if c == 'Ş' then 'ş'
    else if c == 'Ü' then 'ü'
    else c
  }

  /** The capitals `LowerChar` lowers. */
  predicate IsUpper(c: char)
  {
    'A' <= c <= 'Z' || c == 'Ç' || c == 'Ğ' || c == 'Ö' || c == 'Ş' || c == 'Ü'
  }

  /** `toUpperCase` on the same letters, the reference `Lower` is checked against. */
  function UpperChar(c: char): char
  {
    if 'a' <= c <= 'z' then (c as int - 32) as char
    else if c == 'ç' then 'Ç'
    else if c == 'ğ' then 'Ğ'
    else if c == 'ö' then 'Ö'
    else if c == 'ş' then 'Ş'
    else if c == 'ü' then 'Ü'
    else c
  }

  /** `toLowerCase`: no capital is left, every other character is kept, and each
      character stays the same letter up to case. */
  function Lower(s: string): (r: string)
    ensures |r| == |s|
    ensures forall i :: 0 <= i < |r| ==> !IsUpper(r[i])
    ensures forall i :: 0 <= i < |s| && !IsUpper(s[i]) ==> r[i] == s[i]
    ensures forall i :: 0 <= i < |s| ==> UpperChar(r[i]) == UpperChar(s[i])
  {
    seq(|s|, i requires 0 <= i < |s| => LowerChar(s[i]))
  }

  /** Lowering twice is lowering once. */
  lemma LowerIdempotent(s: string)
    ensures Lower(Lower(s)) == Lower(s)
  {
  }

  /** The `\s` class of JavaScript regular expressions, which is also what `trim` removes. */
  predicate IsSpace(c: char)
  {
    c == ' ' || c == '\t' || c == '\n' || c == '\r' || c == '\U{000B}' || c == '\U{000C}'
    || c == '\U{00A0}' || c == '\U{1680}' || ('\U{2000}' <= c <= '\U{200A}')
    || c == '\U{2028}' || c == '\U{2029}' || c == '\U{202F}' || c == '\U{205F}'
    || c == '\U{3000}' || c == '\U{FEFF}'
  }

  /** `s` without its leading characters that satisfy `p`. */
  function DropWhile(s: string, p: char -> bool): (r: string)
    ensures |r| <= |s| && r == s[|s| - |r|..]
    ensures forall k :: 0 <= k < |s| - |r| ==> p(s[k])
    ensures r != [] ==> !p(r[0])
    ensures s != [] && p(s[0]) ==> |r| < |s|
    ensures (forall i :: 0 <= i < |s| ==> !p(s[i])) ==> r == s
  {
    if s != [] && p(s[0]) then
      var r := DropWhile(s[1..], p);
      assert forall k :: 1 <= k < |s| ==> s[k] == s[1..][k - 1];
      r
    else s
  }

  /** `s` without its trailing characters that satisfy `p`. */
  function DropWhileEnd(s: string, p: char -> bool): (r: string)
    ensures r <= s
    ensures forall k :: |r| <= k < |s| ==> p(s[k])
    ensures r != [] ==> !p(r[|r| - 1])
    ensures (forall i :: 0 <= i < |s| ==> !p(s[i])) ==> r == s
  {
    if s != [] && p(s[|s| - 1]) then DropWhileEnd(s[..|s| - 1], p) else s
  }

  /** `s.trim()`: `s` without exactly its leading and trailing white space. */
  function Trim(s: string): (r: string)
    ensures r != [] ==> !IsSpace(r[0]) && !IsSpace(r[|r| - 1])
    ensures (forall i :: 0 <= i < |s| ==> !IsSpace(s[i])) ==> r == s
    ensures exists i, j ::
      (&& 0 <= i <= j <= |s| && r == s[i..j]
       && (forall k :: 0 <= k < i ==> IsSpace(s[k]))
       && (forall k :: j <= k < |s| ==> IsSpace(s[k])))
  {
    StripIsSlice(s, IsSpace);
    DropWhileEnd(DropWhile(s, IsSpace), IsSpace)
  }

  /** `r` is a slice of `s` all of whose surroundings in `s` satisfy `p`. */
  predicate FramedBy(s: string, r: string, p: char -> bool)
  {
    exists i, j ::
    (&& 0 <= i <= j <= |s| && r == s[i..j]
     && (forall k :: 0 <= k < i ==> p(s[k]))
     && (forall k :: j <= k < |s| ==> p(s[k])))
  }

  /** Dropping the leading and then the trailing run of `p` keeps a slice of `s` whose
      surroundings all satisfy `p`. */
  lemma StripIsSlice(s: string, p: char -> bool)
    ensures FramedBy(s, DropWhileEnd(DropWhile(s, p), p), p)
  {
    var d := DropWhile(s, p);
    FramedSlice(s, d, DropWhileEnd(d, p), p);
  }

  /** A text `r` that `s` holds between a prefix and a suffix satisfying `p` is a slice of
      `s` framed by `p`. */
  lemma FramedSlice(s: string, d: string, r: string, p: char -> bool)
    requires |d| <= |s| && d == s[|s| - |d|..] && r <= d
    requires forall k :: 0 <= k < |s| - |d| ==> p(s[k])
    requires forall k :: |r| <= k < |d| ==> p(d[k])
    ensures FramedBy(s, r, p)
  {
    var i := |s| - |d|;
    PrefixOfSuffix(s, d, r, i);
    assert r == s[i..i + |r|];
  }

  /** A prefix `r` of the suffix `s[i..]` is the slice of `s` at `i`, and every index of
      the suffix past `r` is an index of `d` past `r`. */
  lemma PrefixOfSuffix(s: string, d: string, r: string, i: int)
    requires 0 <= i <= |s| && d == s[i..] && r <= d
    ensures i + |r| <= |s| && r == s[i..i + |r|]
    ensures forall k :: i + |r| <= k < |s| ==> s[k] == d[k - i]
  {
  }

  /** `s.split(sep)` for a one-character separator: the pieces between separators, empty
      pieces included, so there is always one more piece than separators. */
  function Split(s: string, sep: char): (pieces: seq<string>)
    ensures |pieces| >= 1
    ensures forall i :: 0 <= i < |pieces| ==> sep !in pieces[i]
    decreases |s|
  {
    if s == [] then [""]
    else
      var rest := Split(s[1..], sep);
      if s[0] == sep then [""] + rest
      else [[s[0]] + rest[0]] + rest[1..]
  }

  /** `pieces.join(sep)`. */
  function Join(pieces: seq<string>, sep: char): string
  {
    if pieces == [] then ""
    else if |pieces| == 1 then pieces[0]
    else pieces[0] + [sep] + Join(pieces[1..], sep)
  }

  /** Splitting and joining again on the same separator gives the string back. */
  lemma {:induction false} JoinSplit(s: string, sep: char)
    ensures Join(Split(s, sep), sep) == s
    decreases |s|
  {
    if s != [] {
      JoinSplit(s[1..], sep);
      var rest := Split(s[1..], sep);
      if s[0] == sep {
        assert Split(s, sep) == [""] + rest;
        assert ([""] + rest)[1..] == rest;
      } else {
        var pieces := [[s[0]] + rest[0]] + rest[1..];
        assert Split(s, sep) == pieces;
        if |rest| == 1 {
          assert rest == [rest[0]];
        } else {
          assert pieces[1..] == rest[1..];
          assert Join(rest, sep) == rest[0] + [sep] + Join(rest[1..], sep);
        }
      }
    }
  }

  /** The decimal digits of `n`, as a template literal prints a count. */
  function NatToString(n: nat): (r: string)
    ensures r != []
    ensures forall i :: 0 <= i < |r| ==> '0' <= r[i] <= '9'
    ensures r[0] == '0' <==> n == 0
    ensures |r| > 1 ==> r[0] != '0'
    decreases n
  {
    if n < 10 then [DigitChar(n)] else NatToString(n / 10) + [DigitChar(n % 10)]
  }

  function DigitChar(d: nat): (c: char)
    requires d < 10
    ensures '0' <= c <= '9'
  {
    ('0' as int + d) as char
  }

  /** The value of a string of decimal digits. */
  function DigitsValue(s: string): nat
    requires forall i :: 0 <= i < |s| ==> '0' <= s[i] <= '9'
  {
    if s == [] then 0 else 10 * DigitsValue(s[..|s| - 1]) + (s[|s| - 1] as int - '0' as int)
  }

  /** Reading the printed digits back gives the number. */
  lemma {:induction false} NatToStringRoundTrip(n: nat)
    ensures DigitsValue(NatToString(n)) == n
    decreases n
  {
    if n >= 10 {
      NatToStringRoundTrip(n / 10);
      var r := NatToString(n);
      assert r[..|r| - 1] == NatToString(n / 10);
    }
  }
}
