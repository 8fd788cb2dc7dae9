/**
 * The three pieces of Go's standard library that the logger uses to build
 * its messages: path.Split (the basename of a source file), strconv.FormatInt
 * in base 10 (the line number) and the %q verb of fmt (quoting a provider
 * name in an error). Each comes with an independent inverse or
 * characterisation and a lemma tying the two together.
 */
module GoStrings {
  import opened Wrappers

  // ---------------------------------------------------------------------
  // Searching

  /** strings.LastIndex for a one-character needle: -1 when c is absent. */
  function LastIndex(s: string, c: char): (r: int)
    ensures -1 <= r < |s|
    ensures r >= 0 ==> s[r] == c
    ensures forall k :: r < k < |s| ==> s[k] != c
  {
    if s == [] then -1
    else if s[|s| - 1] == c then |s| - 1
    else LastIndex(s[..|s| - 1], c)
  }

  /** The first position of c in s, if any: a helper for reading a tag back. */
  function IndexOf(s: string, c: char): (r: Option<nat>)
    ensures r.Some? ==> r.value < |s| && s[r.value] == c && c !in s[..r.value]
    ensures r.None? ==> c !in s
  {
    if s == [] then None
    else if s[0] == c then Some(0)
    else match IndexOf(s[1..], c)
      case None => None
      case Some(i) => Some(i + 1)
  }

  /** A character c that does not occur in a is found right after a. */
  lemma {:induction false} IndexOfAfter(a: string, c: char, b: string)
    requires c !in a
    ensures IndexOf(a + [c] + b, c) == Some(|a|)
  {
    if a != [] {
      assert (a + [c] + b)[1..] == a[1..] + [c] + b;
      IndexOfAfter(a[1..], c, b);
    }
  }

  // ---------------------------------------------------------------------
  // path.Split

  /**
   * path.Split: cuts the path just after its last '/', giving the directory
   * part (empty, or ending in '/') and the file part (free of '/').
   */
  function Split(path: string): (r: (string, string))
    ensures r.0 + r.1 == path
    ensures '/' !in r.1
    ensures r.0 == [] || r.0[|r.0| - 1] == '/'
  {
    var i := LastIndex(path, '/');
    var file := path[i + 1..];
    assert forall k :: 0 <= k < |file| ==> file[k] != '/' by {
      forall k | 0 <= k < |file| ensures file[k] != '/' {
        assert file[k] == path[i + 1 + k];
      }
    }
    (path[..i + 1], file)
  }

  /**
   * The file part of a path: the '/'-free end of the path, which is either
   * the whole path or preceded by a '/'.
   */
  function Base(path: string): (r: string)
    ensures '/' !in r
    ensures |r| <= |path| && path[|path| - |r|..] == r
    ensures |r| == |path| || path[|path| - |r| - 1] == '/'
  {
    var (dir, file) := Split(path);
    assert path[|dir|..] == file;
    assert dir != [] ==> path[|dir| - 1] == dir[|dir| - 1];
    file
  }

  /**
   * The three properties in Split's contract determine its result: any
   * other way of cutting the path that keeps them is the same cut.
   */
  lemma SplitUnique(path: string, dir: string, file: string)
    requires dir + file == path
    requires '/' !in file
    requires dir == [] || dir[|dir| - 1] == '/'
    ensures Split(path) == (dir, file)
  {
    var i := LastIndex(path, '/');
    // the last '/' of dir is a '/' of path, so it is not after position i
    assert dir != [] ==> path[i + 1..] == path[i + 1..|dir|] + file && path[|dir| - 1] == '/';
    // the '/' at position i is not in file, so it lies inside dir
    assert i >= 0 ==> path[i] == '/' && path[|dir|..] == file;
    assert |dir| == i + 1;
    assert path[..i + 1] == dir;
    assert path[i + 1..] == file;
  }

  /** A path with no '/' is all file part. */
  lemma BaseOfPlainName(name: string)
    requires '/' !in name
    ensures Base(name) == name
  {
    SplitUnique(name, [], name);
  }

  /** The file part of "dir/.../name" is name. */
  lemma BaseAfterSlash(dir: string, name: string)
    requires '/' !in name
    ensures Base(dir + "/" + name) == name
  {
    var d := dir + "/";
    assert d[|d| - 1] == '/';
    assert d + name == dir + "/" + name;
    SplitUnique(dir + "/" + name, d, name);
  }

  // ---------------------------------------------------------------------
  // strconv.FormatInt(n, 10)

  predicate IsDigit(c: char)
  {
    '0' <= c <= '9'
  }

  predicate AllDigits(s: string)
  {
    forall k :: 0 <= k < |s| ==> IsDigit(s[k])
  }

  function DigitChar(d: nat): (c: char)
    requires d < 10
    ensures IsDigit(c)
  {
    ('0' as int + d) as char
  }

  /** The decimal digits of n, most significant first, with no leading zero. */
  function NatDigits(n: nat): (r: string)
    ensures |r| >= 1 && AllDigits(r)
    ensures r[0] == '0' ==> n == 0
    decreases n
  {
    if n < 10 then [DigitChar(n)]
    else NatDigits(n / 10) + [DigitChar(n % 10)]
  }

  /** strconv.FormatInt(n, 10): a '-' in front of the digits of |n| when n is negative. */
  function FormatInt(n: int): (r: string)
    ensures |r| >= 1
    ensures (r[0] == '-') <==> n < 0
    ensures forall k :: 0 <= k < |r| ==> IsDigit(r[k]) || (k == 0 && r[k] == '-')
  {
    if n < 0 then "-" + NatDigits(-n) else NatDigits(n)
  }

  /** The number a string of decimal digits denotes. */
  function DigitsValue(s: string): nat
    requires AllDigits(s)
  {
    if s == [] then 0
    else DigitsValue(s[..|s| - 1]) * 10 + (s[|s| - 1] as int - '0' as int)
  }

  /** Reads back a decimal integer with an optional leading '-'. */
  function ParseInt(s: string): Option<int>
  {
    if s == [] then None
    else if s[0] == '-' then
      if |s| > 1 && AllDigits(s[1..]) then Some(0 - DigitsValue(s[1..])) else None
    else if AllDigits(s) then Some(DigitsValue(s))
    else None
  }

  lemma {:induction false} NatDigitsRoundTrip(n: nat)
    ensures DigitsValue(NatDigits(n)) == n
    decreases n
  {
    var s := NatDigits(n);
    if n >= 10 {
      assert s[..|s| - 1] == NatDigits(n / 10);
      NatDigitsRoundTrip(n / 10);
    } else {
      assert s[..|s| - 1] == [];
    }
  }

  /** Reading back what FormatInt writes gives the number again. */
  lemma FormatIntRoundTrip(n: int)
    ensures ParseInt(FormatInt(n)) == Some(n)
  {
    if n < 0 {
      NatDigitsRoundTrip(-n);
      assert FormatInt(n)[1..] == NatDigits(-n);
    } else {
      NatDigitsRoundTrip(n);
    }
  }

  /** Different line numbers never print the same. */
  lemma FormatIntInjective(a: int, b: int)
    requires FormatInt(a) == FormatInt(b)
    ensures a == b
  {
    FormatIntRoundTrip(a);
    FormatIntRoundTrip(b);
  }

  // ---------------------------------------------------------------------
  // fmt's %q verb on a string (strconv.Quote)

  /** Lower-case hexadecimal digit, as strconv writes them. */
  function HexDigit(d: nat): char
    requires d < 16
  {
    if d < 10 then ('0' as int + d) as char else ('a' as int + d - 10) as char
  }

  function HexValue(c: char): Option<nat>
  {
    if '0' <= c <= '9' then Some(c as int - '0' as int)
    else if 'a' <= c <= 'f' then Some(c as int - 'a' as int + 10)
    else None
  }

  /**
   * How strconv.Quote writes one character: quote and backslash are
   * escaped, the seven C control escapes get their letter, the other ASCII
   * control characters are written as \xhh, everything else is kept.
   */
  function Escape(c: char): (r: string)
    ensures r == [c] <==> IsPlain(c) || c as int >= 0x80
    ensures r != [c] ==> 2 <= |r| <= 4 && r[0] == '\\'
  {
    if c == '"' || c == '\\' then ['\\', c]
    else if c as int == 7 then "\\a"
    else if c as int == 8 then "\\b"
    else if c as int == 12 then "\\f"
    else if c == '\n' then "\\n"
    else if c == '\r' then "\\r"
    else if c == '\t' then "\\t"
    else if c as int == 11 then "\\v"
    else if c as int < 0x20 || c as int == 0x7f then
      ['\\', 'x', HexDigit(c as int / 16), HexDigit(c as int % 16)]
    else [c]
  }

  /** The escaped characters of s, in order; no character gets shorter. */
  function QuoteBody(s: string): (r: string)
    ensures |r| >= |s|
  {
    if s == [] then [] else Escape(s[0]) + QuoteBody(s[1..])
  }

  /** %q: the escaped text between double quotes. */
  function Quote(s: string): (r: string)
    ensures |r| >= |s| + 2 && r[0] == '"' && r[|r| - 1] == '"'
  {
    "\"" + QuoteBody(s) + "\""
  }

  /** Printable ASCII other than quote and backslash: %q writes these unchanged. */
  predicate IsPlain(c: char)
  {
    c != '"' && c != '\\' && 0x20 <= c as int < 0x7f
  }

  function Prepend(c: char, r: Option<string>): Option<string>
  {
    match r
    case None => None
    case Some(t) => Some([c] + t)
  }

  /** Undoes Escape, character by character; a bare '"' or a bad escape is an error. */
  function UnescapeBody(s: string): Option<string>
    decreases |s|
  {
    if s == [] then Some([])
    else if s[0] == '"' then None
    else if s[0] != '\\' then Prepend(s[0], UnescapeBody(s[1..]))
    else if |s| < 2 then None
    else
      var e := s[1];
      if e == '"' || e == '\\' then Prepend(e, UnescapeBody(s[2..]))
      else if e == 'a' then Prepend(7 as char, UnescapeBody(s[2..]))
      else if e == 'b' then Prepend(8 as char, UnescapeBody(s[2..]))
      else if e == 'f' then Prepend(12 as char, UnescapeBody(s[2..]))
      else if e == 'n' then Prepend('\n', UnescapeBody(s[2..]))
      else if e == 'r' then Prepend('\r', UnescapeBody(s[2..]))
      else if e == 't' then Prepend('\t', UnescapeBody(s[2..]))
      else if e == 'v' then Prepend(11 as char, UnescapeBody(s[2..]))
      else if e == 'x' && |s| >= 4 && HexValue(s[2]).Some? && HexValue(s[3]).Some? then
        Prepend((16 * HexValue(s[2]).value + HexValue(s[3]).value) as char, UnescapeBody(s[4..]))
      else None
  }

  /** strconv.Unquote for double-quoted text. */
  function Unquote(q: string): Option<string>
  {
    if |q| >= 2 && q[0] == '"' && q[|q| - 1] == '"' then UnescapeBody(q[1..|q| - 1])
    else None
  }

  lemma HexRoundTrip(d: nat)
    requires d < 16
    ensures HexValue(HexDigit(d)) == Some(d)
  {
  }

  /** Unescaping an escaped character, followed by anything, gives that character back first. */
  lemma UnescapeEscape(c: char, rest: string)
    ensures UnescapeBody(Escape(c) + rest) == Prepend(c, UnescapeBody(rest))
  {
    var s := Escape(c) + rest;
    if c == '"' || c == '\\' || c as int in {7, 8, 9, 10, 11, 12, 13} {
      assert s[2..] == rest;
    } else if c as int < 0x20 || c as int == 0x7f {
      var hi, lo := c as int / 16, c as int % 16;
      HexRoundTrip(hi);
      HexRoundTrip(lo);
      assert s[4..] == rest;
      assert (16 * hi + lo) as char == c;
    } else {
      assert s[1..] == rest;
    }
  }

  lemma {:induction false} QuoteBodyRoundTrip(s: string)
    ensures UnescapeBody(QuoteBody(s)) == Some(s)
  {
    if s != [] {
      UnescapeEscape(s[0], QuoteBody(s[1..]));
      QuoteBodyRoundTrip(s[1..]);
      assert [s[0]] + s[1..] == s;
    }
  }

  /** %q loses nothing: unquoting what it writes gives the original text. */
  lemma QuoteRoundTrip(s: string)
    ensures Unquote(Quote(s)) == Some(s)
  {
    var q := Quote(s);
    assert q[1..|q| - 1] == QuoteBody(s);
    QuoteBodyRoundTrip(s);
  }

  /** Text of plain characters is quoted by just putting it between double quotes. */
  lemma {:induction false} QuotePlain(s: string)
    requires forall k :: 0 <= k < |s| ==> IsPlain(s[k])
    ensures QuoteBody(s) == s
    ensures Quote(s) == "\"" + s + "\""
  {
    if s != [] {
      QuotePlain(s[1..]);
      assert [s[0]] + s[1..] == s;
    }
  }
}
