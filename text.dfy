/** The parts of Python's `str` behaviour the model relies on: `isspace`, `strip`, `split()`,
    `join`, `in`, `int(str)` in base 10 and `str(int)`. */
module Text {
  import opened Wrappers
  import opened Seqs

  /** `c.isspace()` in Python: the ASCII whitespace characters, the information separators
      0x1C-0x1F and the Unicode space separators. */
  predicate IsSpace(c: char)
  {
    c == ' ' || ('\t' <= c <= '\r') || ('\U{1C}' <= c <= '\U{1F}') || c == '\U{85}' ||
    c == '\U{A0}' || c == '\U{1680}' || ('\U{2000}' <= c <= '\U{200A}') || c == '\U{2028}' ||
    c == '\U{2029}' || c == '\U{202F}' || c == '\U{205F}' || c == '\U{3000}'
  }

  predicate NoSpace(s: string)
  {
    forall i | 0 <= i < |s| :: !IsSpace(s[i])
  }

  /** `s.lstrip()`: the longest suffix of `s` that does not start with whitespace. */
  function LStrip(s: string): (r: string)
    ensures |r| <= |s|
    ensures r == [] || !IsSpace(r[0])
  {
    if s != [] && IsSpace(s[0]) then LStrip(s[1..]) else s
  }

  /** What `lstrip` removes is a run of whitespace at the front. */
  lemma {:induction false} LStripSuffix(s: string)
    ensures LStrip(s) == s[|s| - |LStrip(s)|..]
    ensures forall i | 0 <= i < |s| - |LStrip(s)| :: IsSpace(s[i])
  {
    if s != [] && IsSpace(s[0]) {
      LStripSuffix(s[1..]);
      assert forall i | 1 <= i < |s| :: s[i] == s[1..][i - 1];
    }
  }

  /** `s.rstrip()`: the longest prefix of `s` that does not end with whitespace. */
  function RStrip(s: string): (r: string)
    ensures |r| <= |s|
    ensures r == [] || !IsSpace(r[|r| - 1])
  {
    if s != [] && IsSpace(s[|s| - 1]) then RStrip(s[..|s| - 1]) else s
  }

  /** What `rstrip` removes is a run of whitespace at the end. */
  lemma {:induction false} RStripPrefix(s: string)
    ensures RStrip(s) == s[..|RStrip(s)|]
    ensures forall i | |RStrip(s)| <= i < |s| :: IsSpace(s[i])
  {
    if s != [] && IsSpace(s[|s| - 1]) {
      RStripPrefix(s[..|s| - 1]);
    }
  }

  /** `s.strip()`. */
  function Strip(s: string): (r: string)
  {
    RStrip(LStrip(s))
  }

  /** A string whose two ends are not whitespace is its own strip. */
  lemma StripNoEdgeSpace(s: string)
    requires s == [] || (!IsSpace(s[0]) && !IsSpace(s[|s| - 1]))
    ensures Strip(s) == s
  {
  }

  /** `(a + b).strip()` when `a` is all whitespace and `b` already stripped. */
  lemma {:induction false} StripPaddedLeft(a: string, b: string)
    requires forall i | 0 <= i < |a| :: IsSpace(a[i])
    requires b == [] || (!IsSpace(b[0]) && !IsSpace(b[|b| - 1]))
    ensures Strip(a + b) == b
  {
    if a == [] {
      assert a + b == b;
    } else {
      assert (a + b)[1..] == a[1..] + b;
      StripPaddedLeft(a[1..], b);
    }
  }

  /** Stripping is idempotent, and the result has no whitespace at either end. */
  lemma StripIdempotent(s: string)
    ensures var t := Strip(s); (t == [] || (!IsSpace(t[0]) && !IsSpace(t[|t| - 1]))) && Strip(t) == t
  {
    var l := LStrip(s);
    var t := RStrip(l);
    RStripPrefix(l);
    if t != [] {
      assert t[0] == l[0];
    }
  }

  /** Length of the leading run of non-whitespace characters. */
  function TokenLen(s: string): (n: nat)
    ensures n <= |s|
  {
    if s == [] || IsSpace(s[0]) then 0 else 1 + TokenLen(s[1..])
  }

  lemma {:induction false} TokenLenSpans(s: string)
    ensures NoSpace(s[..TokenLen(s)])
    ensures TokenLen(s) == |s| || IsSpace(s[TokenLen(s)])
  {
    if s != [] && !IsSpace(s[0]) {
      TokenLenSpans(s[1..]);
      assert s[..TokenLen(s)] == [s[0]] + s[1..][..TokenLen(s[1..])];
    }
  }

  /** `s.split()` with no separator: the maximal runs of non-whitespace characters. */
  function Words(s: string): (ws: seq<string>)
    decreases |s|
  {
    if s == [] then []
    else if IsSpace(s[0]) then Words(s[1..])
    else [s[..TokenLen(s)]] + Words(s[TokenLen(s)..])
  }

  /** Every word is a non-empty run of non-whitespace characters. */
  lemma {:induction false} WordsAreTokens(s: string)
    ensures forall k | 0 <= k < |Words(s)| :: Words(s)[k] != [] && NoSpace(Words(s)[k])
    decreases |s|
  {
    if s != [] {
      if IsSpace(s[0]) {
        WordsAreTokens(s[1..]);
      } else {
        TokenLenSpans(s);
        WordsAreTokens(s[TokenLen(s)..]);
      }
    }
  }

  /** The characters of `s` that are not whitespace, in order. */
  function NonSpace(s: string): string
  {
    if s == [] then [] else (if IsSpace(s[0]) then [] else [s[0]]) + NonSpace(s[1..])
  }

  lemma {:induction false} NonSpaceAppend(a: string, b: string)
    ensures NonSpace(a + b) == NonSpace(a) + NonSpace(b)
  {
    if a == [] {
      assert a + b == b;
    } else {
      assert (a + b)[0] == a[0];
      assert (a + b)[1..] == a[1..] + b;
      NonSpaceAppend(a[1..], b);
      var head := if IsSpace(a[0]) then [] else [a[0]];
      AppendAssoc(head, NonSpace(a[1..]), NonSpace(b));
    }
  }

  lemma {:induction false} NonSpaceOfToken(a: string)
    requires NoSpace(a)
    ensures NonSpace(a) == a
  {
    if a != [] {
      NonSpaceOfToken(a[1..]);
    }
  }

  /** `split()` loses nothing but whitespace: the words laid end to end are the non-whitespace
      characters of the input. */
  lemma {:induction false} WordsCoverNonSpace(s: string)
    ensures Concat(Words(s)) == NonSpace(s)
    decreases |s|
  {
    if s != [] {
      if IsSpace(s[0]) {
        WordsCoverNonSpace(s[1..]);
      } else {
        var n := TokenLen(s);
        var tok := s[..n];
        var rest := s[n..];
        assert s == tok + rest;
        TokenLenSpans(s);
        NonSpaceAppend(tok, rest);
        NonSpaceOfToken(tok);
        WordsCoverNonSpace(rest);
        var ws := Words(s);
        assert ws[0] == tok;
        assert ws[1..] == Words(rest);
      }
    }
  }

  lemma {:induction false} TokenLenBeforeSpace(a: string, c: char, b: string)
    requires IsSpace(c)
    ensures TokenLen(a + [c] + b) == TokenLen(a)
  {
    if a == [] {
      assert (a + [c] + b)[0] == c;
    } else {
      assert (a + [c] + b)[0] == a[0];
      if !IsSpace(a[0]) {
        assert (a + [c] + b)[1..] == a[1..] + [c] + b;
        TokenLenBeforeSpace(a[1..], c, b);
      }
    }
  }

  /** A whitespace character separates words: the words of `a + [c] + b` are those of `a`
      followed by those of `b`. */
  lemma {:induction false} WordsSplitAtSpace(a: string, c: char, b: string)
    requires IsSpace(c)
    ensures Words(a + [c] + b) == Words(a) + Words(b)
    decreases |a|
  {
    var s := a + [c] + b;
    if a == [] {
      assert s[0] == c;
      assert s[1..] == b;
    } else if IsSpace(a[0]) {
      assert s[0] == a[0];
      assert s[1..] == a[1..] + [c] + b;
      WordsSplitAtSpace(a[1..], c, b);
    } else {
      assert s[0] == a[0];
      TokenLenBeforeSpace(a, c, b);
      var n := TokenLen(a);
      var tok := a[..n];
      var rest := a[n..];
      assert s[..n] == tok;
      assert s[n..] == rest + [c] + b;
      WordsSplitAtSpace(rest, c, b);
      AppendAssoc([tok], Words(rest), Words(b));
    }
  }

  /** `sep.join(parts)`. */
  function Join(parts: seq<string>, sep: string): (r: string)
  {
    if |parts| == 0 then "" else if |parts| == 1 then parts[0] else parts[0] + sep + Join(parts[1..], sep)
  }

  lemma {:induction false} JoinAppend(parts: seq<string>, x: string, sep: string)
    requires parts != []
    ensures Join(parts + [x], sep) == Join(parts, sep) + sep + x
  {
    if |parts| == 1 {
      assert (parts + [x])[1..] == [x];
    } else {
      assert (parts + [x])[1..] == parts[1..] + [x];
      JoinAppend(parts[1..], x, sep);
    }
  }

  /** The index of the first `c` in `s`, or `|s|` when there is none. */
  function IndexOf(s: string, c: char): (i: nat)
    ensures i <= |s| && c !in s[..i]
    ensures i < |s| ==> s[i] == c
    ensures i == |s| <==> c !in s
  {
    if s == [] then 0 else if s[0] == c then 0 else 1 + IndexOf(s[1..], c)
  }

  /** `s.split(sep)` for a one-character separator: the pieces between separators, empty ones
      included, so there is always at least one. */
  function Split(s: string, sep: char): (parts: seq<string>)
    ensures |parts| >= 1
    decreases |s|
  {
    var i := IndexOf(s, sep);
    if i == |s| then [s] else [s[..i]] + Split(s[i + 1..], sep)
  }

  /** Joining the pieces of a split with the separator restores the string. */
  lemma {:induction false} SplitJoin(s: string, sep: char)
    ensures Join(Split(s, sep), [sep]) == s
    decreases |s|
  {
    var i := IndexOf(s, sep);
    if i < |s| {
      var rest := s[i + 1..];
      SplitJoin(rest, sep);
      JoinCons(s[..i], Split(rest, sep), [sep]);
      SplitAround(s, i);
    }
  }

  lemma JoinCons(p: string, ps: seq<string>, sep: string)
    requires ps != []
    ensures Join([p] + ps, sep) == p + sep + Join(ps, sep)
  {
    assert ([p] + ps)[1..] == ps;
  }

  lemma SplitAround(s: string, i: nat)
    requires i < |s|
    ensures s == s[..i] + [s[i]] + s[i + 1..]
  {
  }

  /** No piece of a split contains the separator. */
  lemma {:induction false} SplitPiecesFree(s: string, sep: char, k: nat)
    requires k < |Split(s, sep)|
    ensures sep !in Split(s, sep)[k]
    decreases |s|
  {
    var i := IndexOf(s, sep);
    if i < |s| && k > 0 {
      SplitPiecesFree(s[i + 1..], sep, k - 1);
    }
  }

  /** Splitting the join of separator-free pieces gives the pieces back. */
  lemma {:induction false} JoinSplit(parts: seq<string>, sep: char)
    requires |parts| >= 1
    requires forall k | 0 <= k < |parts| :: sep !in parts[k]
    ensures Split(Join(parts, [sep]), sep) == parts
  {
    var p := parts[0];
    if |parts| == 1 {
      assert IndexOf(p, sep) == |p|;
    } else {
      var rest := Join(parts[1..], [sep]);
      var s := p + [sep] + rest;
      assert Join(parts, [sep]) == s;
      assert s[..|p|] == p;
      assert IndexOf(s, sep) == |p| by {
        assert s[|p|] == sep;
        IndexOfAt(s, sep, |p|);
      }
      assert s[|p| + 1..] == rest;
      JoinSplit(parts[1..], sep);
      assert parts == [p] + parts[1..];
    }
  }

  lemma {:induction false} IndexOfAt(s: string, c: char, i: nat)
    requires i < |s| && s[i] == c && c !in s[..i]
    ensures IndexOf(s, c) == i
  {
    if i > 0 {
      assert s[0] == s[..i][0];
      assert s[1..][..i - 1] == s[..i][1..];
      IndexOfAt(s[1..], c, i - 1);
    }
  }

  /** `sub in s` for strings. */
  predicate Contains(s: string, sub: string)
  {
    exists i | 0 <= i <= |s| - |sub| :: OccursAt(s, sub, i)
  }

  predicate OccursAt(s: string, sub: string, i: int)
  {
    0 <= i && i + |sub| <= |s| && s[i..i + |sub|] == sub
  }

  predicate IsDigit(c: char)
  {
    '0' <= c <= '9'
  }

  function DigitChar(d: nat): (c: char)
    requires d < 10
    ensures IsDigit(c) && c as int - '0' as int == d
  {
    ('0' as int + d) as char
  }

  /** The body of a base-10 integer as `int()` accepts it: digits, with single underscores
      allowed between two digits. */
  predicate IsDigitGroup(s: string)
  {
    |s| > 0 && IsDigit(s[0]) && IsDigit(s[|s| - 1]) &&
    forall i | 0 <= i < |s| :: IsDigit(s[i]) || (s[i] == '_' && i + 1 < |s| && IsDigit(s[i + 1]))
  }

  /** The value of a digit group, underscores ignored. */
  function DigitsValue(s: string): nat
  {
    if s == [] then 0
    else if IsDigit(s[|s| - 1]) then 10 * DigitsValue(s[..|s| - 1]) + (s[|s| - 1] as int - '0' as int)
    else DigitsValue(s[..|s| - 1])
  }

  /** `int(s)` for a string in base 10: surrounding whitespace is ignored, one optional sign,
      then a digit group; anything else raises ValueError (here: None). */
  function ParseInt(s: string): (r: Option<int>)
    ensures r.Some? ==> Strip(s) != []
  {
    var t := Strip(s);
    if t == [] then None
    else
      var neg := t[0] == '-';
      var body := if t[0] == '-' || t[0] == '+' then t[1..] else t;
      var v: int := DigitsValue(body);
      if IsDigitGroup(body) then Some(if neg then -v else v) else None
  }

  /** `str(n)` for a natural number. */
  function NatToString(n: nat): (s: string)
    ensures |s| > 0
    ensures forall i | 0 <= i < |s| :: IsDigit(s[i])
  {
    if n < 10 then [DigitChar(n)] else NatToString(n / 10) + [DigitChar(n % 10)]
  }

  /** `str(n)` for an integer. */
  function IntToString(n: int): (s: string)
  {
    if n < 0 then "-" + NatToString(-n) else NatToString(n)
  }

  lemma {:induction false} DigitsValueOfNatToString(n: nat)
    ensures DigitsValue(NatToString(n)) == n
  {
    var s := NatToString(n);
    if n >= 10 {
      assert s[..|s| - 1] == NatToString(n / 10);
      DigitsValueOfNatToString(n / 10);
    }
  }

  /** `int(str(n)) == n`. */
  lemma ParseIntOfString(n: int)
    ensures ParseInt(IntToString(n)) == Some(n)
  {
    if n < 0 {
      ParseNegative(-n);
    } else {
      ParseNatural(n);
    }
  }

  lemma ParseNatural(m: nat)
    ensures ParseInt(NatToString(m)) == Some(m)
  {
    var digits := NatToString(m);
    assert IsDigitGroup(digits);
    DigitsValueOfNatToString(m);
    StripNoEdgeSpace(digits);
  }

  lemma ParseNegative(m: nat)
    requires m > 0
    ensures ParseInt("-" + NatToString(m)) == Some(-(m as int))
  {
    var digits := NatToString(m);
    var s := "-" + digits;
    assert IsDigitGroup(digits);
    DigitsValueOfNatToString(m);
    StripNoEdgeSpace(s);
    assert s[1..] == digits;
  }

  predicate IsAscii(s: string)
  {
    forall k | 0 <= k < |s| :: s[k] as int < 128
  }

  /** `s.encode("utf-8")` for ASCII text: one byte per character. */
  function EncodeAscii(s: string): (b: seq<byte>)
    requires IsAscii(s)
    ensures |b| == |s| && forall k | 0 <= k < |s| :: b[k] == s[k] as int
  {
    if s == [] then [] else [s[0] as int] + EncodeAscii(s[1..])
  }

  /** `b.decode("utf-8")` restricted to ASCII: a byte of 128 or more is a decoding error. */
  function DecodeAscii(b: seq<byte>): (r: Option<string>)
    ensures r.Some? ==> |r.value| == |b|
  {
    if b == [] then Some([])
    else if b[0] >= 128 then None
    else match DecodeAscii(b[1..])
      case None => None
      case Some(t) => Some([b[0] as char] + t)
  }

  /** Decoding reverses encoding. */
  lemma {:induction false} DecodeEncode(s: string)
    requires IsAscii(s)
    ensures DecodeAscii(EncodeAscii(s)) == Some(s)
  {
    if s != [] {
      DecodeEncode(s[1..]);
      var b := EncodeAscii(s);
      assert b == [s[0] as int] + EncodeAscii(s[1..]);
      assert b[1..] == EncodeAscii(s[1..]) && b[0] < 128;
      assert (s[0] as int) as char == s[0];
      assert DecodeAscii(b) == Some([b[0] as char] + s[1..]);
      assert s == [s[0]] + s[1..];
    }
  }

  const NEWLINE: byte := 10

  /** A string followed by trailing whitespace strips to itself when its ends are not
      whitespace. */
  lemma StripTrailingNewline(t: string)
    requires t != [] && !IsSpace(t[0]) && !IsSpace(t[|t| - 1])
    ensures Strip(t + "\n") == t
  {
    var s := t + "\n";
    assert LStrip(s) == s;
    assert s[..|s| - 1] == t;
    assert RStrip(s) == RStrip(t);
    StripNoEdgeSpace(t);
    assert LStrip(t) == t;
  }

  /** `int(x)` for a float `x`: truncation toward zero. */
  function Trunc(x: real): int
  {
    if x >= 0.0 then x.Floor else -((-x).Floor)
  }

  /** ASCII lower-casing, the part of `str.lower()` that file suffixes use. */
  function LowerAscii(s: string): (r: string)
    ensures |r| == |s|
  {
    if s == [] then [] else [if 'A' <= s[0] <= 'Z' then (s[0] as int + 32) as char else s[0]] + LowerAscii(s[1..])
  }}
