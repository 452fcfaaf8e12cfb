/** The Python string operations the fetcher and the predictor's CSV parser
    use: `str.strip()`, `str.split()` on whitespace, `str.split(sep)`,
    `sep.join(...)`, `str.index`/`str.rindex`, `int(s)` and `str(n)`. */
module Text {
  import opened Common

  /** `c.isspace()`: the characters Python treats as whitespace. */
  predicate IsSpace(c: char) {
    || c == ' ' || ('\t' <= c <= '\r') || ('\U{1C}' <= c <= '\U{1F}')
    || c == '\U{85}' || c == '\U{A0}' || c == '\U{1680}' || ('\U{2000}' <= c <= '\U{200A}')
    || c == '\U{2028}' || c == '\U{2029}' || c == '\U{202F}' || c == '\U{205F}' || c == '\U{3000}'
  }

  predicate IsDigit(c: char) {
    '0' <= c <= '9'
  }

  predicate AllDigits(s: string) {
    forall i :: 0 <= i < |s| ==> IsDigit(s[i])
  }

  predicate NoSpace(s: string) {
    forall i :: 0 <= i < |s| ==> !IsSpace(s[i])
  }

  // ---------------------------------------------------------------------
  // Finding a character.

  /** `s.index(c)`; `None` where Python raises `ValueError`. */
  function IndexOf(s: string, c: char): (r: Option<nat>)
    ensures r.Some? ==> r.value < |s| && s[r.value] == c && c !in s[..r.value]
    ensures r.None? <==> c !in s
    decreases |s|
  {
    if s == [] then None
    else if s[0] == c then Some(0)
    else
      match IndexOf(s[1..], c)
      case None => None
      case Some(i) =>
        assert s[..i + 1] == [s[0]] + s[1..][..i];
        Some(i + 1)
  }

  /** `s.rindex(c)`; `None` where Python raises `ValueError`. */
  function LastIndexOf(s: string, c: char): (r: Option<nat>)
    ensures r.Some? ==> r.value < |s| && s[r.value] == c && c !in s[r.value + 1..]
    ensures r.None? <==> c !in s
    decreases |s|
  {
    if s == [] then None
    else if s[|s| - 1] == c then Some(|s| - 1)
    else
      var init := s[..|s| - 1];
      assert s == init + [s[|s| - 1]];
      match LastIndexOf(init, c)
      case None => None
      case Some(i) =>
        assert s[i + 1..] == init[i + 1..] + [s[|s| - 1]];
        Some(i)
  }

  /** The slice `s[lo:hi]` for indices in range: empty when `hi <= lo`. */
  function Slice(s: string, lo: nat, hi: nat): (r: string)
    requires lo <= |s| && hi <= |s|
    ensures |r| == if lo <= hi then hi - lo else 0
  {
    if lo <= hi then s[lo..hi] else ""
  }

  // ---------------------------------------------------------------------
  // Whitespace.

  function StripLeft(s: string): (r: string)
    decreases |s|
  {
    if s != [] && IsSpace(s[0]) then StripLeft(s[1..]) else s
  }

  function StripRight(s: string): (r: string)
    decreases |s|
  {
    if s != [] && IsSpace(s[|s| - 1]) then StripRight(s[..|s| - 1]) else s
  }

  /** `s.strip()`. */
  function Strip(s: string): string {
    StripRight(StripLeft(s))
  }

  /** `s.strip()` drops the leading and trailing whitespace and nothing else. */
  lemma {:induction false} StripLeftMeaning(s: string)
    ensures exists k :: 0 <= k <= |s| && StripLeft(s) == s[k..] && forall i :: 0 <= i < k ==> IsSpace(s[i])
    ensures StripLeft(s) == [] || !IsSpace(StripLeft(s)[0])
    decreases |s|
  {
    if s != [] && IsSpace(s[0]) {
      StripLeftMeaning(s[1..]);
      var k :| 0 <= k <= |s[1..]| && StripLeft(s[1..]) == s[1..][k..] && forall i :: 0 <= i < k ==> IsSpace(s[1..][i]);
      assert StripLeft(s) == s[k + 1..];
      assert forall i :: 0 <= i < k + 1 ==> IsSpace(s[i]) by {
        forall i | 0 <= i < k + 1 ensures IsSpace(s[i]) {
          if i > 0 {
            assert s[i] == s[1..][i - 1];
          }
        }
      }
    } else {
      assert StripLeft(s) == s[0..];
    }
  }

  lemma {:induction false} StripRightMeaning(s: string)
    ensures exists k :: 0 <= k <= |s| && StripRight(s) == s[..k] && forall i :: k <= i < |s| ==> IsSpace(s[i])
    ensures StripRight(s) == [] || !IsSpace(StripRight(s)[|StripRight(s)| - 1])
    decreases |s|
  {
    if s != [] && IsSpace(s[|s| - 1]) {
      var init := s[..|s| - 1];
      StripRightMeaning(init);
      var k :| 0 <= k <= |init| && StripRight(init) == init[..k] && forall i :: k <= i < |init| ==> IsSpace(init[i]);
      assert StripRight(s) == s[..k];
      assert forall i :: k <= i < |s| ==> IsSpace(s[i]) by {
        forall i | k <= i < |s| ensures IsSpace(s[i]) {
          if i < |s| - 1 {
            assert s[i] == init[i];
          }
        }
      }
    } else {
      assert StripRight(s) == s[..|s|];
    }
  }

  /** A string without whitespace is its own strip. */
  lemma StripNoSpace(s: string)
    requires NoSpace(s)
    ensures Strip(s) == s
  {
  }

  // ---------------------------------------------------------------------
  // `str.split()` with no separator: runs of whitespace separate words,
  // whitespace at either end yields no empty word.

  /** The word at the front of `s`: its longest prefix without whitespace. */
  function Token(s: string): (r: string)
    ensures |r| <= |s| && r == s[..|r|] && NoSpace(r)
    ensures |r| < |s| ==> IsSpace(s[|r|])
    decreases |s|
  {
    if s == [] || IsSpace(s[0]) then []
    else
      var rest := Token(s[1..]);
      assert [s[0]] + rest == s[..|rest| + 1];
      [s[0]] + rest
  }

  /** `s.split()`. */
  function Words(s: string): (r: seq<string>)
    ensures forall i :: 0 <= i < |r| ==> r[i] != [] && NoSpace(r[i])
    decreases |s|
  {
    if s == [] then []
    else if IsSpace(s[0]) then Words(s[1..])
    else
      var w := Token(s);
      assert w != [];
      [w] + Words(s[|w|..])
  }

  /** `s.strip().split()` is `s.split()`: the strip changes nothing. */
  lemma StripWords(s: string)
    ensures Words(Strip(s)) == Words(s)
  {
    StripRightWords(StripLeft(s));
    StripLeftWords(s);
  }

  lemma {:induction false} StripLeftWords(s: string)
    ensures Words(StripLeft(s)) == Words(s)
    decreases |s|
  {
    if s != [] && IsSpace(s[0]) {
      StripLeftWords(s[1..]);
    }
  }

  lemma {:induction false} StripRightWords(s: string)
    ensures Words(StripRight(s)) == Words(s)
    decreases |s|
  {
    if s != [] && IsSpace(s[|s| - 1]) {
      TrailingSpaceWords(s, |s| - 1);
      StripRightWords(s[..|s| - 1]);
    }
  }

  lemma {:induction false} LeadingSpaceWords(s: string, k: int)
    requires 0 <= k <= |s| && forall i :: 0 <= i < k ==> IsSpace(s[i])
    ensures Words(s[k..]) == Words(s)
    decreases k
  {
    if k > 0 {
      assert s[1..][k - 1..] == s[k..];
      LeadingSpaceWords(s[1..], k - 1);
    }
  }

  /** Trailing whitespace adds no word. */
  lemma {:induction false} TrailingSpaceWords(s: string, m: int)
    requires 0 <= m <= |s| && forall i :: m <= i < |s| ==> IsSpace(s[i])
    ensures Words(s[..m]) == Words(s)
    decreases |s|
  {
    if s == [] {
    } else if m == |s| {
      assert s[..m] == s;
    } else if IsSpace(s[0]) {
      if m == 0 {
        AllSpaceWords(s);
      } else {
        assert s[..m][1..] == s[1..][..m - 1];
        TrailingSpaceWords(s[1..], m - 1);
      }
    } else {
      var w := Token(s);
      assert m >= 1;
      TokenPrefix(s, m);
      assert |w| <= m;
      assert s[..m][|w|..] == s[|w|..][..m - |w|];
      TrailingSpaceWords(s[|w|..], m - |w|);
    }
  }

  /** Cutting `s` inside trailing whitespace does not change its first word. */
  lemma {:induction false} TokenPrefix(s: string, m: int)
    requires 0 < m <= |s| && forall i :: m <= i < |s| ==> IsSpace(s[i])
    ensures Token(s[..m]) == Token(s)
    decreases |s|
  {
    if !IsSpace(s[0]) && m > 1 {
      assert s[..m][1..] == s[1..][..m - 1];
      TokenPrefix(s[1..], m - 1);
    } else if !IsSpace(s[0]) {
      assert s[..m] == [s[0]];
      assert Token(s[..m][1..]) == [];
    }
  }

  lemma {:induction false} AllSpaceWords(s: string)
    requires forall i :: 0 <= i < |s| ==> IsSpace(s[i])
    ensures Words(s) == []
    decreases |s|
  {
    if s != [] {
      AllSpaceWords(s[1..]);
    }
  }

  // ---------------------------------------------------------------------
  // `str.split(sep)` and `sep.join(pieces)`.

  /** `s.split(sep)`: always at least one piece, empty pieces kept. */
  function SplitOn(s: string, sep: char): (r: seq<string>)
    ensures |r| >= 1
    decreases |s|
  {
    if s == [] then [""] else AddChar(SplitOn(s[..|s| - 1], sep), s[|s| - 1], sep)
  }

  /** One more character after the pieces so far: a separator opens a new
      piece, anything else extends the last one. */
  function AddChar(pieces: seq<string>, c: char, sep: char): (r: seq<string>)
    requires pieces != []
    ensures |r| >= 1
  {
    if c == sep then pieces + [""] else pieces[..|pieces| - 1] + [pieces[|pieces| - 1] + [c]]
  }

  lemma SplitOnSnoc(s: string, c: char, sep: char)
    ensures SplitOn(s + [c], sep) == AddChar(SplitOn(s, sep), c, sep)
  {
    assert (s + [c])[..|s|] == s;
  }

  lemma AddCharAfter(front: seq<string>, back: seq<string>, c: char, sep: char)
    requires back != []
    ensures AddChar(front + back, c, sep) == front + AddChar(back, c, sep)
  {
    if c != sep {
      var r := front + back;
      assert r[..|r| - 1] == front + back[..|back| - 1];
    }
  }

  /** `sep.join(pieces)`. */
  function Join(pieces: seq<string>, sep: char): string
    decreases |pieces|
  {
    if pieces == [] then ""
    else if |pieces| == 1 then pieces[0]
    else Join(pieces[..|pieces| - 1], sep) + [sep] + pieces[|pieces| - 1]
  }

  /** A piece without the separator is not split. */
  lemma {:induction false} SplitOnNone(s: string, sep: char)
    requires sep !in s
    ensures SplitOn(s, sep) == [s]
    decreases |s|
  {
    if s != [] {
      SplitOnNone(s[..|s| - 1], sep);
      assert s[..|s| - 1] + [s[|s| - 1]] == s;
    }
  }

  /** Splitting at a separator splits both sides. */
  lemma {:induction false} SplitOnAt(a: string, b: string, sep: char)
    ensures SplitOn(a + [sep] + b, sep) == SplitOn(a, sep) + SplitOn(b, sep)
    decreases |b|
  {
    if b == [] {
      SplitOnSnoc(a, sep, sep);
      assert a + [sep] + b == a + [sep];
    } else {
      var init := b[..|b| - 1];
      var c := b[|b| - 1];
      assert b == init + [c];
      assert a + [sep] + b == (a + [sep] + init) + [c];
      SplitOnSnoc(a + [sep] + init, c, sep);
      SplitOnSnoc(init, c, sep);
      SplitOnAt(a, init, sep);
      AddCharAfter(SplitOn(a, sep), SplitOn(init, sep), c, sep);
    }
  }

  /** Splitting a join on its separator gives the pieces back, when there is
      at least one piece and none holds the separator. */
  lemma {:induction false} SplitJoin(pieces: seq<string>, sep: char)
    requires pieces != [] && forall i :: 0 <= i < |pieces| ==> sep !in pieces[i]
    ensures SplitOn(Join(pieces, sep), sep) == pieces
    decreases |pieces|
  {
    if |pieces| == 1 {
      SplitOnNone(pieces[0], sep);
    } else {
      var init := pieces[..|pieces| - 1];
      SplitJoin(init, sep);
      SplitOnAt(Join(init, sep), pieces[|pieces| - 1], sep);
      SplitOnNone(pieces[|pieces| - 1], sep);
      assert pieces == init + [pieces[|pieces| - 1]];
    }
  }

  // ---------------------------------------------------------------------
  // `int(s)` and `str(n)`.

  function DigitValue(c: char): int {
    (c as int) - ('0' as int)
  }

  function DigitChar(d: int): (c: char)
    requires 0 <= d < 10
    ensures IsDigit(c) && DigitValue(c) == d
  {
    (('0' as int) + d) as char
  }

  /** The value of a string of decimal digits. */
  function DigitsValue(s: string): int
    decreases |s|
  {
    if s == [] then 0 else DigitsValue(s[..|s| - 1]) * 10 + DigitValue(s[|s| - 1])
  }

  /** `int(s)` on a decimal literal: whitespace around it, an optional sign
      and at least one digit; anything else raises `ValueError`. */
  function ParseInt(s: string): (r: Result<int>)
    ensures r.Err? ==> r.error == ValueError
  {
    var t := Strip(s);
    if t != [] && (t[0] == '-' || t[0] == '+') then
      var ds := t[1..];
      if ds != [] && AllDigits(ds) then Ok(if t[0] == '-' then -DigitsValue(ds) else DigitsValue(ds))
      else Err(ValueError)
    else if t != [] && AllDigits(t) then Ok(DigitsValue(t))
    else Err(ValueError)
  }

  /** `[int(t) for t in tokens]`: every token converted, or `ValueError`. */
  function ParseAll(tokens: seq<string>): (r: Result<seq<int>>)
    ensures r.Ok? ==> |r.value| == |tokens| && forall i :: 0 <= i < |tokens| ==> ParseInt(tokens[i]) == Ok(r.value[i])
    ensures r.Err? ==> r.error == ValueError && exists i :: 0 <= i < |tokens| && ParseInt(tokens[i]).Err?
    decreases |tokens|
  {
    if tokens == [] then Ok([])
    else
      var init := tokens[..|tokens| - 1];
      var last := tokens[|tokens| - 1];
      match ParseAll(init)
      case Err(e) => Err(e)
      case Ok(ns) =>
        match ParseInt(last)
        case Err(e) => Err(e)
        case Ok(n) => Ok(ns + [n])
  }

  /** `str(n)` for `n >= 0`: the decimal digits, no leading zero. */
  function NatToString(n: nat): (s: string)
    ensures s != [] && AllDigits(s)
    ensures s[0] == '0' ==> s == "0"
    decreases n
  {
    if n < 10 then [DigitChar(n)]
    else
      var prefix := NatToString(n / 10);
      prefix + [DigitChar(n % 10)]
  }

  /** `str(n)`. */
  function IntToString(n: int): string {
    if n < 0 then "-" + NatToString(-n) else NatToString(n)
  }

  lemma {:induction false} NatToStringValue(n: nat)
    ensures DigitsValue(NatToString(n)) == n
    decreases n
  {
    if n >= 10 {
      NatToStringValue(n / 10);
      var s := NatToString(n);
      assert s[..|s| - 1] == NatToString(n / 10);
    }
  }

  lemma DigitsNoSpace(s: string)
    requires AllDigits(s)
    ensures NoSpace(s) && ',' !in s
  {
    assert forall i :: 0 <= i < |s| ==> !IsSpace(s[i]);
  }

  /** `int(str(n)) == n`. */
  lemma ParseIntToString(n: int)
    ensures ParseInt(IntToString(n)) == Ok(n)
  {
    var s := IntToString(n);
    var digits := NatToString(if n < 0 then -n else n);
    DigitsNoSpace(digits);
    NatToStringValue(if n < 0 then -n else n);
    assert NoSpace(s) by {
      if n < 0 {
        assert forall i :: 1 <= i < |s| ==> s[i] == digits[i - 1];
      }
    }
    StripNoSpace(s);
    if n < 0 {
      assert s[1..] == digits;
    }
  }

  /** `str(n)` holds no separator of the CSV field. */
  lemma IntToStringNoComma(n: int)
    ensures ',' !in IntToString(n)
  {
    var digits := NatToString(if n < 0 then -n else n);
    DigitsNoSpace(digits);
    if n < 0 {
      assert IntToString(n) == "-" + digits;
    }
  }
}
