/** The parts of Go's `strings`, `unicode`, `unicode/utf8` and `strconv`
    packages that the pipeline relies on. A Go string is modelled as the
    sequence of its runes; its byte length (`len`) is the UTF-8 length. */
module Text {

  /** The number of bytes UTF-8 uses for one rune. */
  function RuneLen(c: char): (n: nat)
    ensures 1 <= n <= 4
    ensures n == 1 <==> (c as int) < 0x80
  {
    if (c as int) < 0x80 then 1
    else if (c as int) < 0x800 then 2
    else if (c as int) < 0x1_0000 then 3
    else 4
  }

  /** Go's `len(s)` on a string: its UTF-8 byte count. */
  function ByteLen(s: string): (n: nat)
    ensures |s| <= n <= 4 * |s|
  {
    if s == [] then 0 else RuneLen(s[0]) + ByteLen(s[1..])
  }

  /** A string passes a `len(s) > 1` guard exactly when it is empty or a
      single ASCII character; any other single rune takes two or more bytes. */
  lemma {:induction false} ByteLenAtMostOne(s: string)
    ensures ByteLen(s) <= 1 <==> (s == [] || (|s| == 1 && (s[0] as int) < 0x80))
  {
    if s != [] {
      assert ByteLen(s) == RuneLen(s[0]) + ByteLen(s[1..]);
      if |s| == 1 {
        assert s[1..] == [];
      }
    }
  }

  /** `utf8.RuneCountInString`. */
  function RuneCount(s: string): (n: nat)
    ensures n <= ByteLen(s) <= 4 * n
    ensures n == 0 <==> s == []
  {
    |s|
  }

  /** Applies a rune mapping to every rune (`strings.Map`). */
  function MapRunes(f: char -> char, s: string): (r: string)
    ensures |r| == |s|
    ensures forall i :: 0 <= i < |s| ==> r[i] == f(s[i])
  {
    seq(|s|, i requires 0 <= i < |s| => f(s[i]))
  }

  /** `strings.Repeat(s, n)`; Go panics on a negative count, which the
      callers' validation rules out. */
  function Repeat(s: string, n: nat): (r: string)
    ensures |r| == n * |s|
    ensures s == [] ==> r == []
    ensures |s| == 1 ==> forall i :: 0 <= i < |r| ==> r[i] == s[0]
  {
    if n == 0 then [] else s + Repeat(s, n - 1)
  }

  /** `strings.Join(parts, "")`. */
  function Join(parts: seq<string>): (r: string)
    ensures parts == [] ==> r == []
    ensures parts != [] ==> |parts[0]| <= |r| && r[..|parts[0]|] == parts[0]
  {
    if parts == [] then [] else parts[0] + Join(parts[1..])
  }

  lemma {:induction false} JoinAppend(a: seq<string>, b: seq<string>)
    ensures Join(a + b) == Join(a) + Join(b)
  {
    if a == [] {
      assert a + b == b;
    } else {
      assert (a + b)[0] == a[0] && (a + b)[1..] == a[1..] + b;
      JoinAppend(a[1..], b);
      calc {
        Join(a + b);
        a[0] + Join(a[1..] + b);
        a[0] + (Join(a[1..]) + Join(b));
        (a[0] + Join(a[1..])) + Join(b);
      }
    }
  }

  /** The joined string ends with the last part. */
  lemma JoinLast(parts: seq<string>)
    requires parts != []
    ensures var r, last := Join(parts), parts[|parts| - 1];
            |last| <= |r| && r[|r| - |last|..] == last
  {
    var n := |parts|;
    JoinAppend(parts[..n - 1], [parts[n - 1]]);
    assert parts[..n - 1] + [parts[n - 1]] == parts;
    assert [parts[n - 1]][1..] == [];
  }

  /** `unicode.IsSpace`: the runes with the Unicode White_Space property. */
  const WhiteSpace: seq<char> := [
    '\t', '\n', '\U{000B}', '\U{000C}', '\r', ' ', '\U{0085}', '\U{00A0}', '\U{1680}',
    '\U{2000}', '\U{2001}', '\U{2002}', '\U{2003}', '\U{2004}', '\U{2005}', '\U{2006}',
    '\U{2007}', '\U{2008}', '\U{2009}', '\U{200A}', '\U{2028}', '\U{2029}', '\U{202F}',
    '\U{205F}', '\U{3000}']

  predicate IsSpace(c: char): (b: bool)
    ensures c <= '\U{00FF}' ==> (b <==> c == ' ' || '\t' <= c <= '\r' || c == '\U{0085}' || c == '\U{00A0}')
  {
    Latin1WhiteSpace(c);
    Occurs(c, WhiteSpace)
  }

  /** Within Latin-1 the white space is `'\t'`..`'\r'`, the blank, NEL and
      the no-break space. */
  lemma Latin1WhiteSpace(c: char)
    ensures c <= '\U{00FF}' ==>
              (Occurs(c, WhiteSpace) <==> c == ' ' || '\t' <= c <= '\r' || c == '\U{0085}' || c == '\U{00A0}')
  {
    if c <= '\U{00FF}' {
      if c == ' ' || '\t' <= c <= '\r' || c == '\U{0085}' || c == '\U{00A0}' {
        var i := if c == ' ' then 5 else if c == '\U{0085}' then 6 else if c == '\U{00A0}' then 7 else c as int - 9;
        OccursAt(c, WhiteSpace, i);
      } else {
        forall i | 0 <= i < |WhiteSpace|
          ensures WhiteSpace[i] != c
        {
        }
        Absent(c, WhiteSpace);
      }
    }
  }

  /** Whether a rune occurs in a list, scanning from its front. */
  predicate Occurs(c: char, runes: seq<char>)
  {
    runes != [] && (runes[0] == c || Occurs(c, runes[1..]))
  }

  lemma {:induction false} OccursAt(c: char, runes: seq<char>, i: nat)
    requires i < |runes| && runes[i] == c
    ensures Occurs(c, runes)
  {
    if i > 0 {
      OccursAt(c, runes[1..], i - 1);
    }
  }

  lemma {:induction false} Absent(c: char, runes: seq<char>)
    requires forall i :: 0 <= i < |runes| ==> runes[i] != c
    ensures !Occurs(c, runes)
  {
    if runes != [] {
      Absent(c, runes[1..]);
    }
  }

  /** No printable ASCII character is white space. */
  lemma GraphicNotSpace(c: char)
    requires '!' <= c <= '~'
    ensures !IsSpace(c)
  {
    forall i | 0 <= i < |WhiteSpace|
      ensures WhiteSpace[i] != c
    {
    }
    Absent(c, WhiteSpace);
  }

  predicate AllSpace(s: string) {
    forall i :: 0 <= i < |s| ==> IsSpace(s[i])
  }

  /** Drops leading white space. */
  function TrimLeft(s: string): (r: string)
    ensures |r| <= |s| && r == s[|s| - |r|..]
    ensures AllSpace(s[..|s| - |r|])
    ensures r == [] || !IsSpace(r[0])
  {
    if s != [] && IsSpace(s[0]) then
      var r := TrimLeft(s[1..]);
      assert s[..|s| - |r|] == [s[0]] + s[1..][..|s| - 1 - |r|];
      r
    else s
  }

  /** Drops trailing white space. */
  function TrimRight(s: string): (r: string)
    ensures |r| <= |s| && r == s[..|r|]
    ensures AllSpace(s[|r|..])
    ensures r == [] || !IsSpace(r[|r| - 1])
  {
    if s != [] && IsSpace(s[|s| - 1]) then
      var r := TrimRight(s[..|s| - 1]);
      assert s[|r|..] == s[..|s| - 1][|r|..] + [s[|s| - 1]];
      r
    else s
  }

  /** `strings.TrimSpace`: what it leaves neither starts nor ends with white
      space. */
  function TrimSpace(s: string): (r: string)
    ensures r == [] || (!IsSpace(r[0]) && !IsSpace(r[|r| - 1]))
  {
    var l := TrimLeft(s);
    var r := TrimRight(l);
    if r == [] then r
    else
      PrefixHead(l, r);
      r
  }

  /** A non-empty prefix starts with the first rune of the whole. */
  lemma PrefixHead(l: string, r: string)
    requires r != [] && |r| <= |l| && r == l[..|r|]
    ensures r[0] == l[0]
  {
  }

  /** `strings.TrimSpace` keeps one infix of its input, starting where the
      leading white space ends, and cuts away only white space around it. */
  lemma {:induction false} TrimSpaceInfix(s: string)
    ensures var r, a := TrimSpace(s), |s| - |TrimLeft(s)|;
            a + |r| <= |s| && r == s[a..a + |r|]
            && AllSpace(s[..a]) && AllSpace(s[a + |r|..])
  {
    var l := TrimLeft(s);
    var r := TrimRight(l);
    var a := |s| - |l|;
    assert l == s[a..];
    assert r == l[..|r|];
    assert s[a..][..|r|] == s[a..a + |r|];
    assert s[a + |r|..] == l[|r|..];
  }

  /** A string that neither starts nor ends with white space is left as it is. */
  lemma TrimSpaceKeeps(s: string)
    requires s != [] && !IsSpace(s[0]) && !IsSpace(s[|s| - 1])
    ensures TrimSpace(s) == s
  {
    assert TrimLeft(s) == s;
    assert TrimRight(s) == s;
  }

  /** A string with no white space at all is left as it is. */
  lemma TrimSpaceNoSpace(s: string)
    requires forall i :: 0 <= i < |s| ==> !IsSpace(s[i])
    ensures TrimSpace(s) == s
  {
  }

  /** The decimal digit character for 0..9. */
  function DigitChar(d: nat): (c: char)
    requires d < 10
    ensures '0' <= c <= '9'
    ensures (c as int) - ('0' as int) == d
  {
    (('0' as int) + d) as char
  }

  function NatToDecimal(n: nat): (r: string)
    ensures r != []
    ensures forall i :: 0 <= i < |r| ==> '0' <= r[i] <= '9'
    ensures n < 10 <==> |r| == 1
  {
    if n < 10 then [DigitChar(n)] else NatToDecimal(n / 10) + [DigitChar(n % 10)]
  }

  /** `strconv.Itoa`. */
  function Itoa(n: int): (r: string)
    ensures 0 <= n < 10 ==> r == [DigitChar(n)]
    ensures n < 0 ==> r != [] && r[0] == '-'
  {
    if n < 0 then "-" + NatToDecimal(-n) else NatToDecimal(n)
  }

  /** The letter-case tables of the `unicode` package and the title caser of
      `golang.org/x/text/cases`, which this model treats as given. */
  datatype Casing = Casing(
    toUpper: char -> char,
    toLower: char -> char,
    isLetter: char -> bool,
    title: string -> string)

  /** `strings.ToUpper`. */
  function ToUpper(cs: Casing, s: string): string {
    MapRunes(cs.toUpper, s)
  }

  /** `strings.ToLower`. */
  function ToLower(cs: Casing, s: string): string {
    MapRunes(cs.toLower, s)
  }
}
