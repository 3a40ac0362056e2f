// The .NET string operations the program relies on, stated over `seq<char>`:
// white space, trimming, ASCII case folding, splitting, replacing, and the
// decimal and hexadecimal conversions of int.TryParse, byte.TryParse and
// ToString("X2").
module Text {
  import opened Base

  // ---------------------------------------------------------------- white space

  /** char.IsWhiteSpace: the Unicode space, line and paragraph separators plus U+0009..U+000D and U+0085. */
  predicate IsWhiteSpace(c: char)
  {
    c == ' ' || ('\t' <= c <= '\r') || c == '\U{85}' || c == '\U{A0}' || c == '\U{1680}'
    || ('\U{2000}' <= c <= '\U{200A}') || c == '\U{2028}' || c == '\U{2029}' || c == '\U{202F}'
    || c == '\U{205F}' || c == '\U{3000}'
  }

  /** The white space NumberStyles.AllowLeadingWhite / AllowTrailingWhite accept: U+0009..U+000D and U+0020. */
  predicate IsNumberWhite(c: char)
  {
    c == ' ' || ('\t' <= c <= '\r')
  }

  /** The characters a trim drops: Trim()'s white space, the number parser's, and NUL-or-space padding. */
  datatype CharClass = WhiteSpace | NumberWhite | NulOrSpace

  predicate Drops(drop: CharClass, c: char)
  {
    match drop
    case WhiteSpace => IsWhiteSpace(c)
    case NumberWhite => IsNumberWhite(c)
    case NulOrSpace => c == '\0' || c == ' '
  }

  predicate AllWhiteSpace(s: string)
  {
    forall i :: 0 <= i < |s| ==> IsWhiteSpace(s[i])
  }

  /** string.IsNullOrWhiteSpace; `None` stands for a null reference. */
  predicate IsBlank(s: Option<string>)
  {
    s.None? || AllWhiteSpace(s.value)
  }

  /** How many leading characters `drop` takes. */
  function LeadCount(s: string, drop: CharClass): (k: nat)
    ensures k <= |s|
    ensures k < |s| ==> !Drops(drop, s[k])
    ensures forall i :: 0 <= i < k ==> Drops(drop, s[i])
    decreases |s|
  {
    if |s| > 0 && Drops(drop, s[0]) then 1 + LeadCount(s[1..], drop) else 0
  }

  /** How many trailing characters `drop` takes. */
  function TailCount(s: string, drop: CharClass): (k: nat)
    ensures k <= |s|
    ensures k < |s| ==> !Drops(drop, s[|s| - 1 - k])
    ensures forall i :: |s| - k <= i < |s| ==> Drops(drop, s[i])
    decreases |s|
  {
    if |s| > 0 && Drops(drop, s[|s| - 1]) then 1 + TailCount(s[..|s| - 1], drop) else 0
  }

  function TrimStartWhere(s: string, drop: CharClass): string
  {
    s[LeadCount(s, drop)..]
  }

  function TrimEndWhere(s: string, drop: CharClass): string
  {
    s[..|s| - TailCount(s, drop)]
  }

  /** string.Trim(): removes leading and trailing white space. */
  function Trim(s: string): (r: string)
    ensures |r| <= |s|
    ensures |r| > 0 ==> !IsWhiteSpace(r[0]) && !IsWhiteSpace(r[|r| - 1])
  {
    TrimEndWhere(TrimStartWhere(s, WhiteSpace), WhiteSpace)
  }

  lemma TrimNothing(s: string, drop: CharClass)
    requires |s| > 0 && !Drops(drop, s[0]) && !Drops(drop, s[|s| - 1])
    ensures TrimEndWhere(TrimStartWhere(s, drop), drop) == s
  {
    assert LeadCount(s, drop) == 0;
    assert TailCount(s, drop) == 0;
  }

  lemma TrimIdempotent(s: string)
    ensures Trim(Trim(s)) == Trim(s)
  {
    var t := Trim(s);
    if |t| > 0 {
      TrimNothing(t, WhiteSpace);
    } else {
      assert LeadCount(t, WhiteSpace) == 0;
    }
  }

  /** Trim yields the empty string exactly on white-space-only text, so IsNullOrWhiteSpace(s) iff Trim(s) == "". */
  lemma TrimEmptyIffBlank(s: string)
    ensures Trim(s) == "" <==> AllWhiteSpace(s)
  {
    var k := LeadCount(s, WhiteSpace);
    var a := s[k..];
    if !AllWhiteSpace(s) {
      var j :| 0 <= j < |s| && !IsWhiteSpace(s[j]);
      assert k <= j;
      assert |a| > 0 && !IsWhiteSpace(a[0]);
      assert TailCount(a, WhiteSpace) < |a|;
    }
  }

  // ---------------------------------------------------------------- ASCII case

  function UpperChar(c: char): char
  {
    if 'a' <= c <= 'z' then (c as int - 32) as char else c
  }

  /** ToUpperInvariant restricted to ASCII letters. */
  function ToUpper(s: string): (r: string)
    ensures |r| == |s|
    ensures forall i :: 0 <= i < |s| ==> r[i] == UpperChar(s[i])
  {
    seq(|s|, i requires 0 <= i < |s| => UpperChar(s[i]))
  }

  lemma ToUpperIdempotent(s: string)
    ensures ToUpper(ToUpper(s)) == ToUpper(s)
  {
  }

  /** StringComparison.OrdinalIgnoreCase equality (ASCII folding). */
  predicate EqualsIgnoreCase(a: string, b: string)
  {
    ToUpper(a) == ToUpper(b)
  }

  predicate StartsWithIgnoreCase(s: string, prefix: string)
  {
    |prefix| <= |s| && EqualsIgnoreCase(s[..|prefix|], prefix)
  }

  // ---------------------------------------------------------------- splitting

  /** string.Split with separator characters, keeping empty entries. */
  function Split(s: string, seps: set<char>): (r: seq<string>)
    ensures |r| >= 1
    ensures forall k, i :: 0 <= k < |r| && 0 <= i < |r[k]| ==> r[k][i] !in seps
    decreases |s|
  {
    if |s| == 0 then [""]
    else if s[0] in seps then [""] + Split(s[1..], seps)
    else
      var rest := Split(s[1..], seps);
      [[s[0]] + rest[0]] + rest[1..]
  }

  /** The inverse of Split: the parts joined with one separator between neighbours. */
  function Join(parts: seq<string>, sep: char): string
    decreases |parts|
  {
    if |parts| == 0 then ""
    else if |parts| == 1 then parts[0]
    else parts[0] + [sep] + Join(parts[1..], sep)
  }

  lemma {:induction false} JoinSplit(s: string, sep: char)
    ensures Join(Split(s, {sep}), sep) == s
    decreases |s|
  {
    if |s| == 0 {
    } else if s[0] == sep {
      JoinSplit(s[1..], sep);
      assert s == [sep] + s[1..];
    } else {
      var rest := Split(s[1..], {sep});
      JoinSplit(s[1..], sep);
      if |rest| == 1 {
        assert Split(s, {sep}) == [[s[0]] + rest[0]];
      } else {
        assert Split(s, {sep})[1..] == rest[1..];
        assert Join(rest, sep) == rest[0] + [sep] + Join(rest[1..], sep);
        assert s == [s[0]] + s[1..];
      }
    }
  }

  /** A text without the character has none of its characters in the singleton set of it. */
  lemma NoSepIn(x: string, sep: char)
    requires sep !in x
    ensures forall i :: 0 <= i < |x| ==> x[i] !in {sep}
  {
    forall i | 0 <= i < |x| ensures x[i] !in {sep} {
      assert x[i] in x;
    }
  }

  /** Splitting `x + sep + y` where x holds none of the separators yields x followed by the parts of y. */
  lemma {:induction false} SplitConsAny(x: string, sep: char, y: string, seps: set<char>)
    requires sep in seps && forall i :: 0 <= i < |x| ==> x[i] !in seps
    ensures Split(x + [sep] + y, seps) == [x] + Split(y, seps)
    decreases |x|
  {
    if |x| == 0 {
      assert x + [sep] + y == [sep] + y;
      assert ([sep] + y)[1..] == y;
    } else {
      SplitConsAny(x[1..], sep, y, seps);
      assert (x + [sep] + y)[1..] == x[1..] + [sep] + y;
      assert x == [x[0]] + x[1..];
    }
  }

  /** A text with none of the separators splits into itself alone. */
  lemma {:induction false} SplitNoSepAny(x: string, seps: set<char>)
    requires forall i :: 0 <= i < |x| ==> x[i] !in seps
    ensures Split(x, seps) == [x]
    decreases |x|
  {
    if |x| > 0 {
      SplitNoSepAny(x[1..], seps);
      assert x == [x[0]] + x[1..];
    }
  }

  /** Three separator-free pieces joined by one separator split back into the three pieces. */
  lemma SplitThree(a: string, sep: char, b: string, c: string, seps: set<char>)
    requires sep in seps
    requires forall i :: 0 <= i < |a| ==> a[i] !in seps
    requires forall i :: 0 <= i < |b| ==> b[i] !in seps
    requires forall i :: 0 <= i < |c| ==> c[i] !in seps
    ensures Split(a + [sep] + b + [sep] + c, seps) == [a, b, c]
  {
    var t := b + [sep] + c;
    assert a + [sep] + b + [sep] + c == a + [sep] + t;
    SplitConsAny(a, sep, t, seps);
    SplitConsAny(b, sep, c, seps);
    SplitNoSepAny(c, seps);
    assert [a] + ([b] + [c]) == [a, b, c];
  }

  /** Four separator-free pieces joined by one separator split back into the four pieces. */
  lemma SplitFour(w: string, sep: char, x: string, y: string, z: string, seps: set<char>)
    requires sep in seps
    requires forall i :: 0 <= i < |w| ==> w[i] !in seps
    requires forall i :: 0 <= i < |x| ==> x[i] !in seps
    requires forall i :: 0 <= i < |y| ==> y[i] !in seps
    requires forall i :: 0 <= i < |z| ==> z[i] !in seps
    ensures Split(w + [sep] + x + [sep] + y + [sep] + z, seps) == [w, x, y, z]
  {
    var t := x + [sep] + y + [sep] + z;
    assert w + [sep] + x + [sep] + y + [sep] + z == w + [sep] + t;
    SplitConsAny(w, sep, t, seps);
    SplitThree(x, sep, y, z, seps);
    assert [w] + [x, y, z] == [w, x, y, z];
  }

  /** string.Split(string separator) left to right, keeping empty entries; `sep` non-empty. */
  function SplitOn(s: string, sep: string): (r: seq<string>)
    requires |sep| > 0
    ensures |r| >= 1
    decreases |s|
  {
    if |s| >= |sep| && s[..|sep|] == sep then [""] + SplitOn(s[|sep|..], sep)
    else if |s| == 0 then [""]
    else
      var rest := SplitOn(s[1..], sep);
      [[s[0]] + rest[0]] + rest[1..]
  }

  /** Text without the separator's first character joins the first part SplitOn finds after it. */
  lemma {:induction false} SplitOnKeep(x: string, sep: string, y: string)
    requires |sep| > 0 && forall i :: 0 <= i < |x| ==> x[i] != sep[0]
    ensures SplitOn(x + y, sep) == [x + SplitOn(y, sep)[0]] + SplitOn(y, sep)[1..]
    decreases |x|
  {
    if |x| == 0 {
      var r := SplitOn(y, sep);
      assert x + y == y && x + r[0] == r[0];
      assert r == [r[0]] + r[1..];
    } else {
      var s := x + y;
      assert s[0] == x[0] != sep[0];
      if |s| >= |sep| {
        assert s[..|sep|][0] == s[0];
      }
      assert s[1..] == x[1..] + y;
      SplitOnKeep(x[1..], sep, y);
      var r := SplitOn(y, sep);
      assert SplitOn(s, sep) == [[s[0]] + SplitOn(s[1..], sep)[0]] + SplitOn(s[1..], sep)[1..];
      assert [x[0]] + (x[1..] + r[0]) == x + r[0];
    }
  }

  /** A separator at the front starts with an empty part. */
  lemma SplitOnHead(sep: string, y: string)
    requires |sep| > 0
    ensures SplitOn(sep + y, sep) == [""] + SplitOn(y, sep)
  {
    assert (sep + y)[..|sep|] == sep;
    assert (sep + y)[|sep|..] == y;
  }

  /** Two pieces around one separator, neither holding its first character, split back into those two pieces. */
  lemma SplitOnTwo(x: string, sep: string, y: string)
    requires |sep| > 0
    requires forall i :: 0 <= i < |x| ==> x[i] != sep[0]
    requires forall i :: 0 <= i < |y| ==> y[i] != sep[0]
    ensures SplitOn(x + (sep + y), sep) == [x, y]
  {
    SplitOnHead(sep, y);
    assert SplitOn(y, sep) == [y] by {
      SplitOnKeep(y, sep, "");
      assert y + "" == y;
    }
    assert SplitOn(sep + y, sep) == ["", y];
    SplitOnKeep(x, sep, sep + y);
    assert x + "" == x;
  }

  /** StringSplitOptions.RemoveEmptyEntries. */
  function NonEmpty(parts: seq<string>): (r: seq<string>)
    ensures |r| <= |parts|
    ensures forall k :: 0 <= k < |r| ==> r[k] != ""
    ensures forall k :: 0 <= k < |parts| && parts[k] != "" ==> parts[k] in r
  {
    if |parts| == 0 then []
    else if parts[0] == "" then NonEmpty(parts[1..])
    else [parts[0]] + NonEmpty(parts[1..])
  }

  /** string.Replace(pattern, replacement): every non-overlapping occurrence, left to right. */
  function Replace(s: string, pat: string, rep: string): string
    requires |pat| > 0
    decreases |s|
  {
    if |s| >= |pat| && s[..|pat|] == pat then rep + Replace(s[|pat|..], pat, rep)
    else if |s| == 0 then ""
    else [s[0]] + Replace(s[1..], pat, rep)
  }

  /** Removing every occurrence of a character leaves none of it behind, and keeps every other character. */
  lemma {:induction false} RemoveCharAll(s: string, c: char)
    ensures c !in Replace(s, [c], "")
    ensures forall d :: d != c ==> (d in s <==> d in Replace(s, [c], ""))
    decreases |s|
  {
    if |s| > 0 {
      RemoveCharAll(s[1..], c);
      assert s == [s[0]] + s[1..];
    }
  }

  /** Text without the pattern's first character passes through Replace untouched. */
  lemma {:induction false} ReplaceKeep(a: string, b: string, pat: string, rep: string)
    requires |pat| > 0 && pat[0] !in a
    ensures Replace(a + b, pat, rep) == a + Replace(b, pat, rep)
    decreases |a|
  {
    var s := a + b;
    if |a| == 0 {
      assert s == b;
    } else {
      assert s[0] == a[0] != pat[0];
      if |s| >= |pat| {
        assert s[..|pat|][0] == s[0];
      }
      assert s[1..] == a[1..] + b;
      ReplaceKeep(a[1..], b, pat, rep);
      assert a + Replace(b, pat, rep) == [a[0]] + (a[1..] + Replace(b, pat, rep));
    }
  }

  /** An occurrence at the front is replaced, and the scan goes on after it. */
  lemma ReplaceHead(pat: string, rest: string, rep: string)
    requires |pat| > 0
    ensures Replace(pat + rest, pat, rep) == rep + Replace(rest, pat, rep)
  {
    var s := pat + rest;
    assert s[..|pat|] == pat;
    assert s[|pat|..] == rest;
  }

  /**
   * A word that starts like the pattern but differs at its second character,
   * and holds the pattern's first character nowhere else, is kept as it is.
   */
  lemma ReplaceOther(q: string, rest: string, pat: string, rep: string)
    requires |q| >= 2 && |pat| >= 2 && q[0] == pat[0] && q[1] != pat[1] && pat[0] !in q[1..]
    ensures Replace(q + rest, pat, rep) == q + Replace(rest, pat, rep)
  {
    var s := q + rest;
    if |s| >= |pat| {
      assert s[..|pat|][1] == q[1];
    }
    assert s[1..] == q[1..] + rest;
    ReplaceKeep(q[1..], rest, pat, rep);
    assert q == [q[0]] + q[1..];
  }

  lemma {:induction false} ReplaceAbsent(s: string, c: char, rep: string)
    requires c !in s
    ensures Replace(s, [c], rep) == s
    decreases |s|
  {
    if |s| > 0 {
      ReplaceAbsent(s[1..], c, rep);
      assert s[..1] == [s[0]];
      assert s == [s[0]] + s[1..];
    }
  }

  // ---------------------------------------------------------------- decimal numbers

  predicate IsDigit(c: char) { '0' <= c <= '9' }

  function DigitChar(d: int): (c: char)
    requires 0 <= d < 10
    ensures IsDigit(c)
  {
    ('0' as int + d) as char
  }

  function DigitsValue(s: string): nat
    requires forall i :: 0 <= i < |s| ==> IsDigit(s[i])
  {
    if |s| == 0 then 0
    else
      assert IsDigit(s[|s| - 1]);
      10 * DigitsValue(s[..|s| - 1]) + (s[|s| - 1] as int - '0' as int)
  }

  /** The decimal digits of n without leading zeros (int.ToString() of a non-negative value). */
  function NatToString(n: nat): (r: string)
    ensures |r| >= 1
    ensures forall i :: 0 <= i < |r| ==> IsDigit(r[i])
  {
    if n < 10 then [DigitChar(n)] else NatToString(n / 10) + [DigitChar(n % 10)]
  }

  lemma {:induction false} NatToStringValue(n: nat)
    ensures DigitsValue(NatToString(n)) == n
  {
    if n >= 10 {
      NatToStringValue(n / 10);
      var s := NatToString(n);
      assert s[..|s| - 1] == NatToString(n / 10);
    }
  }

  /** int.ToString() in the invariant culture. */
  function IntToString(n: int): (r: string)
    ensures |r| >= 1
  {
    if n < 0 then "-" + NatToString(-n) else NatToString(n)
  }

  /** The digits-and-sign core of int.TryParse, after the surrounding white space is gone. */
  function ParseSignedDigits(t: string): Option<int>
  {
    var neg := |t| > 0 && t[0] == '-';
    var body := if |t| > 0 && (t[0] == '-' || t[0] == '+') then t[1..] else t;
    if |body| == 0 || !(forall i :: 0 <= i < |body| ==> IsDigit(body[i])) then None
    else
      var d: int := DigitsValue(body);
      var v := if neg then -d else d;
      if IsInt32(v) then Some(v) else None
  }

  /** int.TryParse(s) with NumberStyles.Integer: [white][sign]digits[white], in the 32-bit range. */
  function TryParseInt32(s: string): (r: Option<int>)
    ensures r.Some? ==> IsInt32(r.value)
  {
    ParseSignedDigits(TrimEndWhere(TrimStartWhere(s, NumberWhite), NumberWhite))
  }

  /** Formatting an int and parsing it back yields the same int. */
  lemma IntToStringRoundTrip(n: int)
    requires IsInt32(n)
    ensures TryParseInt32(IntToString(n)) == Some(n)
  {
    var s := IntToString(n);
    var m: nat := if n < 0 then -n else n;
    var digits := NatToString(m);
    NatToStringValue(m);
    assert TryParseInt32(s) == ParseSignedDigits(s) by {
      assert IsDigit(digits[|digits| - 1]);
      assert s[|s| - 1] == digits[|digits| - 1];
      assert n >= 0 ==> IsDigit(digits[0]);
      TrimNothing(s, NumberWhite);
    }
    if n < 0 {
      ParseNegativeDigits(digits);
    } else {
      ParsePlainDigits(digits);
    }
  }

  lemma ParsePlainDigits(digits: string)
    requires |digits| >= 1 && forall i :: 0 <= i < |digits| ==> IsDigit(digits[i])
    requires IsInt32(DigitsValue(digits))
    ensures ParseSignedDigits(digits) == Some(DigitsValue(digits))
  {
    assert IsDigit(digits[0]);
  }

  lemma ParseNegativeDigits(digits: string)
    requires |digits| >= 1 && forall i :: 0 <= i < |digits| ==> IsDigit(digits[i])
    requires IsInt32(-(DigitsValue(digits) as int))
    ensures ParseSignedDigits("-" + digits) == Some(-(DigitsValue(digits) as int))
  {
    var t := "-" + digits;
    assert t[0] == '-';
    assert t[1..] == digits;
    assert forall i :: 0 <= i < |t[1..]| ==> IsDigit(t[1..][i]);
  }

  /** The "00" custom format: at least two digits. */
  function TwoDigits(n: nat): (r: string)
    ensures |r| >= 2
  {
    if n < 10 then "0" + NatToString(n) else NatToString(n)
  }

  // ---------------------------------------------------------------- hexadecimal

  predicate IsHexDigit(c: char)
  {
    ('0' <= c <= '9') || ('a' <= c <= 'f') || ('A' <= c <= 'F')
  }

  function HexDigitValue(c: char): (v: int)
    requires IsHexDigit(c)
    ensures 0 <= v < 16
  {
    if '0' <= c <= '9' then c as int - '0' as int
    else if 'a' <= c <= 'f' then c as int - 'a' as int + 10
    else c as int - 'A' as int + 10
  }

  function HexChar(d: int): (c: char)
    requires 0 <= d < 16
    ensures IsHexDigit(c) && HexDigitValue(c) == d
  {
    if d < 10 then ('0' as int + d) as char else ('A' as int + d - 10) as char
  }

  /** ToString("X2") of a byte: two upper-case hexadecimal digits. */
  function HexByte(b: Byte): (r: string)
    ensures |r| == 2 && IsHexDigit(r[0]) && IsHexDigit(r[1])
    ensures 16 * HexDigitValue(r[0]) + HexDigitValue(r[1]) == b
  {
    [HexChar(b / 16), HexChar(b % 16)]
  }

  function HexValue(s: string): nat
    requires forall i :: 0 <= i < |s| ==> IsHexDigit(s[i])
  {
    if |s| == 0 then 0 else 16 * HexValue(s[..|s| - 1]) + HexDigitValue(s[|s| - 1])
  }

  /** byte.TryParse(s, NumberStyles.HexNumber): [white]hexdigits[white] with a value at most 255. */
  function TryParseHexByte(s: string): (r: Option<Byte>)
  {
    var t := TrimEndWhere(TrimStartWhere(s, NumberWhite), NumberWhite);
    if |t| == 0 || !(forall i :: 0 <= i < |t| ==> IsHexDigit(t[i])) then None
    else
      var v := HexValue(t);
      if v <= 255 then Some(v) else None
  }

  lemma HexPairValue(hi: char, lo: char)
    requires IsHexDigit(hi) && IsHexDigit(lo)
    ensures HexValue([hi, lo]) == 16 * HexDigitValue(hi) + HexDigitValue(lo)
  {
    assert [hi, lo][..1] == [hi];
    assert [hi][..0] == [];
    assert HexValue([hi]) == 16 * HexValue([]) + HexDigitValue(hi);
    assert HexValue([hi, lo]) == 16 * HexValue([hi]) + HexDigitValue(lo);
  }

  lemma TryParseHexDigits(s: string)
    requires |s| > 0 && forall i :: 0 <= i < |s| ==> IsHexDigit(s[i])
    requires HexValue(s) <= 255
    ensures TryParseHexByte(s) == Some(HexValue(s))
  {
    assert IsHexDigit(s[0]) && IsHexDigit(s[|s| - 1]);
    TrimNothing(s, NumberWhite);
  }

  lemma HexByteRoundTrip(b: Byte)
    ensures TryParseHexByte(HexByte(b)) == Some(b)
  {
    var s := HexByte(b);
    assert s == [s[0], s[1]];
    HexPairValue(s[0], s[1]);
    TryParseHexDigits(s);
  }
}
