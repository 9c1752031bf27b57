/** The validators and sanitisers of src/talkat/security.py. Each validator either returns its
    input (possibly normalised) or names the exception it raises. */
module Security {
  import opened Wrappers
  import opened Seqs
  import opened Text
  import Json

  /** The exceptions the validators raise. `SecurityError` derives from `Exception` only, so an
      `except (ValueError, TypeError)` does not catch it. */
  datatype Failure = ValueError | TypeError | SecurityError

  // ---------------------------------------------------------------------------------------
  // validate_port

  const MIN_PORT: int := 1
  const MAX_PORT: int := 65535

  /** `validate_port`: `int(port)`, then the range check; both failures are a ValueError. */
  function ValidatePort(port: Json.Value): (r: Result<int, Failure>)
    ensures r.Err? ==> r.error == ValueError
    ensures r.Ok? ==> MIN_PORT <= r.value <= MAX_PORT
    ensures r.Ok? <==> Json.ToInt(port).Ok? && MIN_PORT <= Json.ToInt(port).value <= MAX_PORT
  {
    match Json.ToInt(port)
    case Err(_) => Err(ValueError)
    case Ok(n) => if MIN_PORT <= n <= MAX_PORT then Ok(n) else Err(ValueError)
  }

  /** A port given as a number or as its decimal text is accepted exactly when it lies in
      1..65535, and comes back as itself. */
  lemma PortRoundTrip(n: int)
    ensures ValidatePort(Json.Str(IntToString(n))) == (if MIN_PORT <= n <= MAX_PORT then Ok(n) else Err(ValueError))
    ensures ValidatePort(Json.Int(n)) == ValidatePort(Json.Str(IntToString(n)))
  {
    ParseIntOfString(n);
  }

  // ---------------------------------------------------------------------------------------
  // validate_model_name

  /** The class `[a-zA-Z0-9._/-]`. */
  predicate IsNameChar(c: char)
  {
    ('a' <= c <= 'z') || ('A' <= c <= 'Z') || ('0' <= c <= '9') || c == '.' || c == '_' || c == '/' || c == '-'
  }

  predicate AllNameChars(s: string)
  {
    forall i | 0 <= i < |s| :: IsNameChar(s[i])
  }

  /** The length of the leading run of name characters, which the greedy `+` consumes. */
  function NameRun(s: string): (n: nat)
    ensures n <= |s|
  {
    if s != [] && IsNameChar(s[0]) then 1 + NameRun(s[1..]) else 0
  }

  /** `re.match(r"^[a-zA-Z0-9._/-]+$", s)`: a run of at least one name character that reaches
      the end of the string, or stops at a newline that is its last character (Python's `$`
      also matches before a final newline). */
  predicate NamePattern(s: string)
  {
    var n := NameRun(s);
    n > 0 && (n == |s| || (n == |s| - 1 && s[n] == '\n'))
  }

  lemma {:induction false} NameRunIs(s: string, k: nat)
    requires k <= |s| && AllNameChars(s[..k]) && (k == |s| || !IsNameChar(s[k]))
    ensures NameRun(s) == k
  {
    if k > 0 {
      assert s[0] == s[..k][0];
      assert s[1..][..k - 1] == s[..k][1..];
      NameRunIs(s[1..], k - 1);
    }
  }

  lemma {:induction false} NameRunSpans(s: string)
    ensures AllNameChars(s[..NameRun(s)])
    ensures NameRun(s) == |s| || !IsNameChar(s[NameRun(s)])
  {
    if s != [] && IsNameChar(s[0]) {
      NameRunSpans(s[1..]);
      assert s[..NameRun(s)] == [s[0]] + s[1..][..NameRun(s[1..])];
    }
  }

  /** What the pattern accepts: a non-empty string of name characters, optionally followed by
      one newline. */
  lemma NamePatternMeans(s: string)
    ensures NamePattern(s) <==>
      (s != [] && AllNameChars(s)) || (|s| >= 2 && s[|s| - 1] == '\n' && AllNameChars(s[..|s| - 1]))
  {
    NameRunSpans(s);
    assert s[..|s|] == s;
    if s != [] && AllNameChars(s) {
      NameRunIs(s, |s|);
    } else if |s| >= 2 && s[|s| - 1] == '\n' && AllNameChars(s[..|s| - 1]) {
      NameRunIs(s, |s| - 1);
    }
  }

  const MAX_NAME: nat := 256

  /** `validate_model_name`: the pattern, then no "..", then at most 256 characters; the name
      is returned unchanged. */
  function ValidateModelName(name: string): (r: Result<string, Failure>)
    ensures r.Err? ==> r.error == ValueError
    ensures r.Ok? ==> r.value == name
  {
    if !NamePattern(name) then Err(ValueError)
    else if Contains(name, "..") then Err(ValueError)
    else if |name| > MAX_NAME then Err(ValueError)
    else Ok(name)
  }

  /** The names accepted are exactly the non-empty strings over `[a-zA-Z0-9._/-]`, with an
      optional final newline, that hold no ".." and have at most 256 characters. */
  lemma ModelNameAccepted(name: string)
    ensures ValidateModelName(name).Ok? <==>
      ((name != [] && AllNameChars(name)) || (|name| >= 2 && name[|name| - 1] == '\n' && AllNameChars(name[..|name| - 1]))) &&
      !Contains(name, "..") && |name| <= MAX_NAME
  {
    NamePatternMeans(name);
  }

  /** A newline at the end slips through the pattern. */
  lemma TrailingNewlineName()
    ensures ValidateModelName("base.en\n") == Ok("base.en\n")
  {
    var s := "base.en\n";
    NamePatternMeans(s);
    assert s[..|s| - 1] == "base.en";
    assert AllNameChars("base.en");
    NoDoubleDot(s);
  }

  /** A string with no two neighbouring dots does not contain "..". */
  lemma NoDoubleDot(s: string)
    requires forall i | 0 <= i < |s| - 1 :: !(s[i] == '.' && s[i + 1] == '.')
    ensures !Contains(s, "..")
  {
    forall i | 0 <= i <= |s| - 2 ensures !OccursAt(s, "..", i) {
      assert s[i..i + 2][0] == s[i] && s[i..i + 2][1] == s[i + 1];
    }
  }

  // ---------------------------------------------------------------------------------------
  // validate_command

  /** The substrings `validate_command` refuses; the last two are a backslash followed by the
      letter n or r, not line breaks. */
  const DANGEROUS: seq<string> := [";", "&", "|", "`", "$", "(", ")", "{", "}", "<", ">", "\\n", "\\r"]

  predicate Dangerous(arg: string)
  {
    exists d | d in DANGEROUS :: Contains(arg, d)
  }

  /** `validate_command`: ValueError for an empty command, SecurityError when an argument holds
      a dangerous substring; otherwise the command is returned unchanged. */
  function ValidateCommand(command: seq<string>): (r: Result<seq<string>, Failure>)
    ensures r.Ok? ==> r.value == command
    ensures r.Err? && r.error == ValueError <==> command == []
  {
    if command == [] then Err(ValueError)
    else if exists k | 0 <= k < |command| :: Dangerous(command[k]) then Err(SecurityError)
    else Ok(command)
  }

  /** A shell metacharacter of the list. */
  predicate IsMeta(c: char)
  {
    c == ';' || c == '&' || c == '|' || c == '`' || c == '$' || c == '(' || c == ')' ||
    c == '{' || c == '}' || c == '<' || c == '>'
  }

  /** An argument is safe when it holds no metacharacter and no backslash followed by `n` or
      `r`. */
  predicate SafeArg(arg: string)
  {
    forall i | 0 <= i < |arg| ::
      !IsMeta(arg[i]) && !(arg[i] == '\\' && i + 1 < |arg| && (arg[i + 1] == 'n' || arg[i + 1] == 'r'))
  }

  lemma OneCharOccurs(arg: string, i: nat)
    requires i < |arg|
    ensures OccursAt(arg, [arg[i]], i)
  {
    assert arg[i..i + 1] == [arg[i]];
  }

  lemma TwoCharOccurs(arg: string, i: nat)
    requires i + 1 < |arg|
    ensures OccursAt(arg, [arg[i], arg[i + 1]], i)
  {
    assert arg[i..i + 2] == [arg[i], arg[i + 1]];
  }

  /** The substring check and the character-level description agree. */
  lemma DangerousMeans(arg: string)
    ensures Dangerous(arg) <==> !SafeArg(arg)
  {
    if Dangerous(arg) {
      var d :| d in DANGEROUS && Contains(arg, d);
      var i :| 0 <= i <= |arg| - |d| && OccursAt(arg, d, i);
      assert arg[i..i + |d|] == d;
      assert arg[i] == d[0];
      if |d| == 2 {
        assert arg[i + 1] == d[1];
      }
    }
    if !SafeArg(arg) {
      var i :| 0 <= i < |arg| &&
        (IsMeta(arg[i]) || (arg[i] == '\\' && i + 1 < |arg| && (arg[i + 1] == 'n' || arg[i + 1] == 'r')));
      if IsMeta(arg[i]) {
        OneCharOccurs(arg, i);
        assert [arg[i]] in DANGEROUS;
        assert Contains(arg, [arg[i]]);
      } else {
        TwoCharOccurs(arg, i);
        assert [arg[i], arg[i + 1]] in DANGEROUS;
        assert Contains(arg, [arg[i], arg[i + 1]]);
      }
    }
  }

  /** A command passes exactly when it is non-empty and every argument is safe. */
  /** A prefix with no metacharacter and no backslash neither makes an argument unsafe nor
      hides an unsafe one. */
  lemma SafeAfterPlain(prefix: string, arg: string)
    requires forall i | 0 <= i < |prefix| :: !IsMeta(prefix[i]) && prefix[i] != '\\'
    ensures SafeArg(prefix + arg) <==> SafeArg(arg)
  {
    var s := prefix + arg;
    if SafeArg(s) {
      forall i | 0 <= i < |arg|
        ensures !IsMeta(arg[i]) && !(arg[i] == '\\' && i + 1 < |arg| && (arg[i + 1] == 'n' || arg[i + 1] == 'r'))
      {
        assert s[|prefix| + i] == arg[i];
        if i + 1 < |arg| {
          assert s[|prefix| + i + 1] == arg[i + 1];
        }
      }
    }
    if SafeArg(arg) {
      forall i | 0 <= i < |s|
        ensures !IsMeta(s[i]) && !(s[i] == '\\' && i + 1 < |s| && (s[i + 1] == 'n' || s[i + 1] == 'r'))
      {
        if i >= |prefix| {
          assert s[i] == arg[i - |prefix|];
          if i + 1 < |s| {
            assert s[i + 1] == arg[i - |prefix| + 1];
          }
        }
      }
    }
  }

  lemma CommandAccepted(command: seq<string>)
    ensures ValidateCommand(command).Ok? <==> command != [] && forall k | 0 <= k < |command| :: SafeArg(command[k])
  {
    forall k | 0 <= k < |command| {
      DangerousMeans(command[k]);
    }
  }

  /** A real line break inside an argument is not refused. */
  lemma LineBreakArgumentPasses()
    ensures ValidateCommand(["ydotool", "type", "a\nb"]) == Ok(["ydotool", "type", "a\nb"])
  {
    CommandAccepted(["ydotool", "type", "a\nb"]);
  }

  // ---------------------------------------------------------------------------------------
  // sanitize_text_for_clipboard

  /** `text[:max_length]`. */
  function Truncated(text: string, maxLength: nat): (r: string)
    ensures |r| <= maxLength && |r| <= |text| && r == text[..|r|]
  {
    if |text| > maxLength then text[..maxLength] else text
  }

  predicate NotNul(c: char)
  {
    c != '\0'
  }

  predicate IsLineBreak(c: char)
  {
    c == '\r' || c == '\n'
  }

  predicate IsBlank(c: char)
  {
    c == ' ' || c == '\t'
  }

  /** The length of the leading run of characters in the class. */
  function RunLen(s: string, inClass: char -> bool): (n: nat)
    ensures n <= |s|
    ensures n == |s| || !inClass(s[n])
    ensures s != [] && inClass(s[0]) ==> n > 0
    ensures forall i | 0 <= i < n :: inClass(s[i])
  {
    if s != [] && inClass(s[0]) then 1 + RunLen(s[1..], inClass) else 0
  }

  /** `re.sub("[...]+", c, s)` for a character class: every maximal run of characters in the
      class becomes the one character `c`. */
  function Collapse(s: string, inClass: char -> bool, c: char): (r: string)
    ensures |r| <= |s|
    decreases |s|
  {
    if s == [] then []
    else if inClass(s[0]) then [c] + Collapse(s[RunLen(s, inClass)..], inClass, c)
    else [s[0]] + Collapse(s[1..], inClass, c)
  }

  /** No two neighbours both satisfy `p`. */
  predicate Apart(s: string, p: char -> bool)
  {
    forall k | 0 <= k < |s| - 1 :: !(p(s[k]) && p(s[k + 1]))
  }

  /** After collapsing, no two neighbours are in the class, and each character is either `c`
      or a character of the input outside the class. */
  lemma {:induction false} CollapseShape(s: string, inClass: char -> bool, c: char)
    requires inClass(c)
    ensures Apart(Collapse(s, inClass, c), inClass)
    ensures forall k | 0 <= k < |Collapse(s, inClass, c)| ::
      Collapse(s, inClass, c)[k] == c || (!inClass(Collapse(s, inClass, c)[k]) && Collapse(s, inClass, c)[k] in s)
    decreases |s|
  {
    if s != [] {
      var r := Collapse(s, inClass, c);
      var t := if inClass(s[0]) then s[RunLen(s, inClass)..] else s[1..];
      CollapseShape(t, inClass, c);
      var rt := Collapse(t, inClass, c);
      assert forall x | x in t :: x in s;
      if inClass(s[0]) {
        assert r == [c] + rt;
        if rt != [] {
          assert rt[0] == t[0];
        }
      } else {
        assert r == [s[0]] + rt;
      }
    }
  }

  /** Collapsing one class keeps neighbours of a disjoint class apart, when the replacement is
      outside that class. */
  lemma {:induction false} CollapseKeepsApart(s: string, inClass: char -> bool, c: char, q: char -> bool)
    requires Apart(s, q) && !q(c)
    requires forall x: char :: inClass(x) ==> !q(x)
    ensures Apart(Collapse(s, inClass, c), q)
    decreases |s|
  {
    if s != [] {
      var m := if inClass(s[0]) then RunLen(s, inClass) else 1;
      var t := s[m..];
      assert forall k | 0 <= k < |t| :: t[k] == s[m + k];
      CollapseKeepsApart(t, inClass, c, q);
      var rt := Collapse(t, inClass, c);
      if !inClass(s[0]) && rt != [] {
        assert rt[0] == (if inClass(t[0]) then c else t[0]);
        assert t[0] == s[1];
      }
    }
  }

  lemma {:induction false} NonSpaceOfSpaces(a: string)
    requires forall i | 0 <= i < |a| :: IsSpace(a[i])
    ensures NonSpace(a) == []
  {
    if a != [] {
      NonSpaceOfSpaces(a[1..]);
    }
  }

  /** Collapsing runs of whitespace into one whitespace character keeps every other character
      in order. */
  lemma {:induction false} CollapseNonSpace(s: string, inClass: char -> bool, c: char)
    requires IsSpace(c) && forall x: char :: inClass(x) ==> IsSpace(x)
    ensures NonSpace(Collapse(s, inClass, c)) == NonSpace(s)
    decreases |s|
  {
    if s != [] {
      var m := if inClass(s[0]) then RunLen(s, inClass) else 1;
      var t := s[m..];
      CollapseNonSpace(t, inClass, c);
      assert s == s[..m] + t;
      NonSpaceAppend(s[..m], t);
      var head := if inClass(s[0]) then [c] else [s[0]];
      NonSpaceAppend(head, Collapse(t, inClass, c));
      if inClass(s[0]) {
        NonSpaceOfSpaces(s[..m]);
      } else {
        assert s[..m] == head;
      }
    }
  }

  /** `strip()` keeps a contiguous piece and drops only whitespace around it. */
  lemma StripSlice(s: string) returns (a: nat, b: nat)
    ensures a <= b <= |s| && Strip(s) == s[a..b]
    ensures forall i | 0 <= i < a :: IsSpace(s[i])
    ensures forall i | b <= i < |s| :: IsSpace(s[i])
  {
    var l := LStrip(s);
    LStripSuffix(s);
    RStripPrefix(l);
    a := |s| - |l|;
    b := a + |RStrip(l)|;
    assert l == s[a..];
    assert Strip(s) == l[..|RStrip(l)|];
    assert l[..|RStrip(l)|] == s[a..b];
    forall i | b <= i < |s| ensures IsSpace(s[i]) {
      assert |RStrip(l)| <= i - a < |l|;
      assert s[i] == l[i - a];
    }
  }

  lemma StripNonSpace(s: string)
    ensures NonSpace(Strip(s)) == NonSpace(s)
  {
    var a, b := StripSlice(s);
    assert s == s[..a] + s[a..b] + s[b..];
    NonSpaceAppend(s[..a] + s[a..b], s[b..]);
    NonSpaceAppend(s[..a], s[a..b]);
    NonSpaceOfSpaces(s[..a]);
    NonSpaceOfSpaces(s[b..]);
  }

  /** `sanitize_text_for_clipboard`: truncate, drop NUL characters, turn each run of line
      breaks into one newline and each run of spaces and tabs into one space, strip. */
  function SanitizeForClipboard(text: string, maxLength: nat): (r: string)
  {
    if text == "" then "" else Tidy(Filter(Truncated(text, maxLength), NotNul))
  }

  /** The whitespace steps of the sanitiser: line-break runs to one newline, blank runs to
      one space, then the ends stripped. */
  function Tidy(t: string): string
  {
    Strip(Collapse(Collapse(t, IsLineBreak, '\n'), IsBlank, ' '))
  }

  /** What the clipboard text is promised to be: no longer than the limit, free of NUL,
      carriage returns and tabs, without an empty line or a double space, without whitespace
      at either end, and with every other character of the truncated text kept in order. */
  lemma ClipboardClean(text: string, maxLength: nat)
    ensures var r := SanitizeForClipboard(text, maxLength);
      |r| <= maxLength &&
      (forall k | 0 <= k < |r| :: r[k] != '\0' && r[k] != '\r' && r[k] != '\t') &&
      (forall k | 0 <= k < |r| - 1 :: !(r[k] == '\n' && r[k + 1] == '\n') && !(r[k] == ' ' && r[k + 1] == ' ')) &&
      (r == [] || (!IsSpace(r[0]) && !IsSpace(r[|r| - 1]))) &&
      NonSpace(r) == NonSpace(Filter(Truncated(text, maxLength), NotNul))
  {
    if text != "" {
      var t1 := Filter(Truncated(text, maxLength), NotNul);
      FilterKeeps(Truncated(text, maxLength), NotNul);
      TidyChars(t1);
      TidyPairs(t1);
      TidyText(t1);
    }
  }

  /** Tidying keeps the length within bounds, the ends free of whitespace and every other
      character in order. */
  lemma TidyText(t: string)
    ensures var r := Tidy(t);
      |r| <= |t| && (r == [] || (!IsSpace(r[0]) && !IsSpace(r[|r| - 1]))) && NonSpace(r) == NonSpace(t)
  {
    var t2 := Collapse(t, IsLineBreak, '\n');
    var t3 := Collapse(t2, IsBlank, ' ');
    CollapseNonSpace(t, IsLineBreak, '\n');
    CollapseNonSpace(t2, IsBlank, ' ');
    StripNonSpace(t3);
    StripIdempotent(t3);
    var a, b := StripSlice(t3);
  }

  /** Tidying a text without NUL leaves no NUL, carriage return or tab. */
  lemma TidyChars(t: string)
    requires forall x | x in t :: NotNul(x)
    ensures var r := Tidy(t); forall k | 0 <= k < |r| :: r[k] != '\0' && r[k] != '\r' && r[k] != '\t'
  {
    var t2 := Collapse(t, IsLineBreak, '\n');
    var t3 := Collapse(t2, IsBlank, ' ');
    var r := Strip(t3);
    CollapseShape(t, IsLineBreak, '\n');
    CollapseShape(t2, IsBlank, ' ');
    var a, b := StripSlice(t3);
    forall k | 0 <= k < |r| ensures r[k] != '\0' && r[k] != '\r' && r[k] != '\t' {
      var x := t3[a + k];
      assert r[k] == x;
      assert x == ' ' || (!IsBlank(x) && x in t2);
      if x != ' ' {
        assert x == '\n' || (!IsLineBreak(x) && x in t);
      }
    }
  }

  /** Tidying leaves no two newlines and no two spaces side by side. */
  lemma TidyPairs(t: string)
    ensures var r := Tidy(t);
      forall k | 0 <= k < |r| - 1 :: !(r[k] == '\n' && r[k + 1] == '\n') && !(r[k] == ' ' && r[k + 1] == ' ')
  {
    var t2 := Collapse(t, IsLineBreak, '\n');
    var t3 := Collapse(t2, IsBlank, ' ');
    var r := Strip(t3);
    CollapseShape(t, IsLineBreak, '\n');
    CollapseShape(t2, IsBlank, ' ');
    CollapseKeepsApart(t2, IsBlank, ' ', IsLineBreak);
    var a, b := StripSlice(t3);
    forall k | 0 <= k < |r| - 1 ensures !(r[k] == '\n' && r[k + 1] == '\n') && !(r[k] == ' ' && r[k + 1] == ' ') {
      assert r[k] == t3[a + k] && r[k + 1] == t3[a + k + 1];
    }
  }

  /** The elements `Filter` keeps satisfy the predicate. */
  lemma {:induction false} FilterKeeps<T>(s: seq<T>, p: T -> bool)
    ensures forall x | x in Filter(s, p) :: p(x)
  {
    if s != [] {
      FilterKeeps(s[1..], p);
    }
  }

  // ---------------------------------------------------------------------------------------
  // sanitize_text_for_typing

  /** The control characters the typing sanitiser removes: 0x00-0x08, 0x0B, 0x0C, 0x0E-0x1F
      and 0x7F. Tab, newline and carriage return stay. */
  predicate IsControl(c: char)
  {
    ('\0' <= c <= '\U{08}') || c == '\U{0B}' || c == '\U{0C}' || ('\U{0E}' <= c <= '\U{1F}') || c == '\U{7F}'
  }

  predicate NotControl(c: char)
  {
    !IsControl(c)
  }

  /** The characters the typing sanitiser escapes with a backslash. */
  predicate IsSpecial(c: char)
  {
    c == '\\' || c == '"' || c == '\'' || c == '$' || c == '`'
  }

  /** `s.replace(x, rep)` for a one-character `x`. */
  function ReplaceChar(s: string, x: char, rep: string): (r: string)
  {
    if s == [] then [] else (if s[0] == x then rep else [s[0]]) + ReplaceChar(s[1..], x, rep)
  }

  lemma {:induction false} ReplaceCharAppend(a: string, b: string, x: char, rep: string)
    ensures ReplaceChar(a + b, x, rep) == ReplaceChar(a, x, rep) + ReplaceChar(b, x, rep)
  {
    if a != [] {
      assert (a + b)[0] == a[0];
      assert (a + b)[1..] == a[1..] + b;
      ReplaceCharAppend(a[1..], b, x, rep);
    } else {
      assert a + b == b;
    }
  }

  /** The five replacements, backslash first, as the source applies them. */
  function EscapeByReplace(s: string): string
  {
    var s1 := ReplaceChar(s, '\\', "\\\\");
    var s2 := ReplaceChar(s1, '"', "\\\"");
    var s3 := ReplaceChar(s2, '\'', "\\'");
    var s4 := ReplaceChar(s3, '$', "\\$");
    ReplaceChar(s4, '`', "\\`")
  }

  /** A backslash in front of every special character, one character at a time. */
  function EscapeEach(s: string): (r: string)
    ensures |r| <= 2 * |s|
  {
    if s == [] then [] else (if IsSpecial(s[0]) then ['\\', s[0]] else [s[0]]) + EscapeEach(s[1..])
  }

  lemma EscapeByReplaceAppend(a: string, b: string)
    ensures EscapeByReplace(a + b) == EscapeByReplace(a) + EscapeByReplace(b)
  {
    var a1, b1 := ReplaceChar(a, '\\', "\\\\"), ReplaceChar(b, '\\', "\\\\");
    ReplaceCharAppend(a, b, '\\', "\\\\");
    var a2, b2 := ReplaceChar(a1, '"', "\\\""), ReplaceChar(b1, '"', "\\\"");
    ReplaceCharAppend(a1, b1, '"', "\\\"");
    var a3, b3 := ReplaceChar(a2, '\'', "\\'"), ReplaceChar(b2, '\'', "\\'");
    ReplaceCharAppend(a2, b2, '\'', "\\'");
    var a4, b4 := ReplaceChar(a3, '$', "\\$"), ReplaceChar(b3, '$', "\\$");
    ReplaceCharAppend(a3, b3, '$', "\\$");
    ReplaceCharAppend(a4, b4, '`', "\\`");
  }

  /** Replacing inside a string none of whose characters is `x` changes nothing. */
  lemma {:induction false} ReplaceAbsent(s: string, x: char, rep: string)
    requires x !in s
    ensures ReplaceChar(s, x, rep) == s
  {
    if s != [] {
      ReplaceAbsent(s[1..], x, rep);
    }
  }

  lemma ReplaceOne(c: char, x: char, rep: string)
    ensures ReplaceChar([c], x, rep) == if c == x then rep else [c]
  {
    assert [c][1..] == [];
  }

  lemma EscapeOne(c: char)
    ensures EscapeByReplace([c]) == if IsSpecial(c) then ['\\', c] else [c]
  {
    ReplaceOne(c, '\\', "\\\\");
    var s1 := ReplaceChar([c], '\\', "\\\\");
    if c == '"' {
      ReplaceOne(c, '"', "\\\"");
    } else {
      ReplaceAbsent(s1, '"', "\\\"");
    }
    var s2 := ReplaceChar(s1, '"', "\\\"");
    if c == '\'' {
      ReplaceOne(c, '\'', "\\'");
    } else {
      ReplaceAbsent(s2, '\'', "\\'");
    }
    var s3 := ReplaceChar(s2, '\'', "\\'");
    if c == '$' {
      ReplaceOne(c, '$', "\\$");
    } else {
      ReplaceAbsent(s3, '$', "\\$");
    }
    var s4 := ReplaceChar(s3, '$', "\\$");
    if c == '`' {
      ReplaceOne(c, '`', "\\`");
    } else {
      ReplaceAbsent(s4, '`', "\\`");
    }
  }

  /** Escaping the backslash first is what makes the five replacements equal to escaping each
      special character once: no backslash a later step adds is escaped again. */
  lemma {:induction false} EscapeOrder(s: string)
    ensures EscapeByReplace(s) == EscapeEach(s)
  {
    if s != [] {
      assert s == [s[0]] + s[1..];
      EscapeByReplaceAppend([s[0]], s[1..]);
      EscapeOne(s[0]);
      EscapeOrder(s[1..]);
    }
  }

  /** Deleting each escaping backslash. */
  function Unescape(s: string): string
  {
    if |s| >= 2 && s[0] == '\\' then [s[1]] + Unescape(s[2..])
    else if s == [] then []
    else [s[0]] + Unescape(s[1..])
  }

  lemma {:induction false} UnescapeEscape(s: string)
    ensures Unescape(EscapeEach(s)) == s
  {
    if s != [] {
      UnescapeEscape(s[1..]);
      var e := EscapeEach(s);
      if IsSpecial(s[0]) {
        assert e == ['\\', s[0]] + EscapeEach(s[1..]);
        assert e[2..] == EscapeEach(s[1..]);
      } else {
        assert e == [s[0]] + EscapeEach(s[1..]);
        assert e[1..] == EscapeEach(s[1..]);
      }
    }
  }

  /** `sanitize_text_for_typing`: truncate, drop control characters, escape. */
  function SanitizeForTyping(text: string, maxLength: nat): (r: string)
  {
    if text == "" then "" else EscapeByReplace(Filter(Truncated(text, maxLength), NotControl))
  }

  /** The typing text escapes each special character of the filtered, truncated text exactly
      once, so that deleting the escape backslashes gives that text back; it holds no control
      character and is at most twice the limit. */
  lemma TypingRoundTrip(text: string, maxLength: nat)
    ensures var r := SanitizeForTyping(text, maxLength);
      var kept := Filter(Truncated(text, maxLength), NotControl);
      r == EscapeEach(kept) && Unescape(r) == kept && |r| <= 2 * maxLength &&
      forall k | 0 <= k < |r| :: !IsControl(r[k])
  {
    var kept := Filter(Truncated(text, maxLength), NotControl);
    EscapeOrder(kept);
    UnescapeEscape(kept);
    FilterKeeps(Truncated(text, maxLength), NotControl);
    EscapeKeepsChars(kept);
    var r := EscapeEach(kept);
    forall k | 0 <= k < |r| ensures !IsControl(r[k]) {
      assert r[k] in r;
    }
  }

  lemma {:induction false} EscapeKeepsChars(s: string)
    ensures forall x | x in EscapeEach(s) :: x == '\\' || x in s
  {
    if s != [] {
      EscapeKeepsChars(s[1..]);
    }
  }

  // ---------------------------------------------------------------------------------------
  // validate_audio_params

  const SAMPLE_RATES: seq<int> := [8000, 16000, 22050, 44100, 48000]

  /** Python's `a & b` on non-negative integers, bit by bit. */
  function BitAnd(a: nat, b: nat): nat
  {
    if a == 0 || b == 0 then 0 else 2 * BitAnd(a / 2, b / 2) + (if a % 2 == 1 && b % 2 == 1 then 1 else 0)
  }

  predicate IsPowerOfTwo(n: nat)
  {
    n == 1 || (n >= 2 && n % 2 == 0 && IsPowerOfTwo(n / 2))
  }

  lemma {:induction false} BitAndSelf(n: nat)
    ensures BitAnd(n, n) == n
  {
    if n > 0 {
      BitAndSelf(n / 2);
    }
  }

  /** `n & (n - 1) == 0` is the power-of-two test. */
  lemma {:induction false} PowerOfTwoTest(n: nat)
    requires n >= 1
    ensures BitAnd(n, n - 1) == 0 <==> IsPowerOfTwo(n)
  {
    if n > 1 {
      if n % 2 == 1 {
        BitAndSelf(n / 2);
        assert (n - 1) / 2 == n / 2;
      } else {
        assert (n - 1) / 2 == n / 2 - 1 && (n - 1) % 2 == 1;
        PowerOfTwoTest(n / 2);
      }
    }
  }

  /** `validate_audio_params`: the triple unchanged, or a ValueError. */
  function ValidateAudioParams(rate: int, channels: int, chunk: int): (r: Result<(int, int, int), Failure>)
    ensures r.Ok? ==> r.value == (rate, channels, chunk)
    ensures r.Err? ==> r.error == ValueError
  {
    if rate !in SAMPLE_RATES then Err(ValueError)
    else if channels != 1 && channels != 2 then Err(ValueError)
    else if !(256 <= chunk <= 8192 && BitAnd(chunk, chunk - 1) == 0) then Err(ValueError)
    else Ok((rate, channels, chunk))
  }

  /** The accepted parameters: one of the five rates, one or two channels, and a chunk size
      that is a power of two between 256 and 8192. */
  lemma AudioParamsAccepted(rate: int, channels: int, chunk: int)
    ensures ValidateAudioParams(rate, channels, chunk).Ok? <==>
      rate in SAMPLE_RATES && (channels == 1 || channels == 2) && 256 <= chunk <= 8192 && IsPowerOfTwo(chunk)
  {
    if 256 <= chunk <= 8192 {
      PowerOfTwoTest(chunk);
    }
  }

  // ---------------------------------------------------------------------------------------
  // validate_file_path, validate_json_config

  /** The raw path names a parent directory: "../" or "..\" occurs in it. */
  predicate Traversal(path: string)
  {
    Contains(path, "../") || Contains(path, "..\\")
  }

  /** The string part of `validate_file_path`: SecurityError on a traversal, otherwise the
      resolved path. `resolve` is `Path(p).expanduser().resolve()`, which reads the file
      system. */
  function ValidateFilePath(path: string, resolve: string -> string): (r: Result<string, Failure>)
    ensures r.Err? <==> Traversal(path)
    ensures r.Err? ==> r.error == SecurityError
    ensures r.Ok? ==> r.value == resolve(path)
  {
    if Traversal(path) then Err(SecurityError) else Ok(resolve(path))
  }

  /** A parent step anywhere in the raw string is refused, whatever surrounds it. */
  lemma TraversalAnywhere(a: string, b: string, slash: char, resolve: string -> string)
    requires slash == '/' || slash == '\\'
    ensures ValidateFilePath(a + ".." + [slash] + b, resolve) == Err(SecurityError)
  {
    var s := a + ".." + [slash] + b;
    assert s[|a|..|a| + 3] == ".." + [slash];
    assert OccursAt(s, ".." + [slash], |a|);
    if slash == '/' {
      assert ".." + [slash] == "../";
      assert Contains(s, "../");
    } else {
      assert ".." + [slash] == "..\\";
      assert Contains(s, "..\\");
    }
  }

  const PATH_KEYS: seq<string> := ["transcript_dir", "model_cache_dir"]

  /** The numeric keys and their closed ranges. */
  const NUMERIC: map<string, (real, real)> := map["silence_threshold" := (0.0, 10000.0), "fw_device_index" := (0.0, 100.0)]

  const BOOL_KEYS: seq<string> := ["clipboard_on_long", "save_transcripts"]

  /** The keys that take one of a fixed list of strings. */
  const CHOICES: map<string, seq<string>> := map[
    "model_type" := ["faster-whisper", "distil-whisper", "vosk"],
    "fw_device" := ["cpu", "cuda", "auto"],
    "fw_compute_type" := ["int8", "float16", "float32"],
    "device" := ["cpu", "cuda", "auto"]]

  type Config = map<string, Json.Value>

  /** Validating one path key: a non-string raises TypeError in `Path()`, a traversal raises
      SecurityError, otherwise the value becomes the resolved path. */
  function PathStep(config: Config, key: string, resolve: string -> string): (r: Result<Config, Failure>)
  {
    if key !in config then Ok(config)
    else if !config[key].Str? then Err(TypeError)
    else match ValidateFilePath(config[key].s, resolve)
      case Err(e) => Err(e)
      case Ok(p) => Ok(config[key := Json.Str(p)])
  }

  predicate NumberOk(config: Config, key: string)
    requires key in NUMERIC
  {
    key in config ==>
      var v := Json.ToReal(config[key]);
      v.Ok? && NUMERIC[key].0 <= v.value <= NUMERIC[key].1
  }

  predicate ChoiceOk(config: Config, key: string)
    requires key in CHOICES
  {
    key in config ==> config[key].Str? && config[key].s in CHOICES[key]
  }

  /** The value checks that follow the path keys; each failure is a ValueError. */
  predicate ValuesOk(config: Config)
  {
    NumberOk(config, "silence_threshold") && NumberOk(config, "fw_device_index") &&
    (forall k | k in BOOL_KEYS :: k in config ==> config[k].Bool?) &&
    ChoiceOk(config, "model_type") && ChoiceOk(config, "fw_device") &&
    ChoiceOk(config, "fw_compute_type") && ChoiceOk(config, "device")
  }

  /** `validate_json_config`, in the order the source checks: `model_name`, the two path keys,
      then the numeric, boolean and choice keys. A key that is absent is not checked. */
  function ValidateJsonConfig(config: Config, resolve: string -> string): (r: Result<Config, Failure>)
  {
    if "model_name" in config && !config["model_name"].Str? then Err(TypeError)
    else if "model_name" in config && ValidateModelName(config["model_name"].s).Err? then Err(ValueError)
    else match PathStep(config, "transcript_dir", resolve)
      case Err(e) => Err(e)
      case Ok(c1) =>
        match PathStep(c1, "model_cache_dir", resolve)
        case Err(e) => Err(e)
        case Ok(c2) => if ValuesOk(c2) then Ok(c2) else Err(ValueError)
  }

  /** All that a configuration accepted by `validate_json_config` satisfies, read off the input. */
  predicate Acceptable(config: Config)
  {
    ("model_name" in config ==> config["model_name"].Str? && ValidateModelName(config["model_name"].s).Ok?) &&
    (forall k | k in PATH_KEYS :: k in config ==> config[k].Str? && !Traversal(config[k].s)) &&
    ValuesOk(config)
  }

  lemma ValuesOkIgnorePaths(config: Config, key: string, v: Json.Value)
    requires key in PATH_KEYS
    ensures ValuesOk(config[key := v]) <==> ValuesOk(config)
  {
    var c := config[key := v];
    assert forall k | k in BOOL_KEYS :: (k in c <==> k in config) && (k in config ==> c[k] == config[k]);
    assert NumberOk(c, "silence_threshold") == NumberOk(config, "silence_threshold");
    assert NumberOk(c, "fw_device_index") == NumberOk(config, "fw_device_index");
    assert ChoiceOk(c, "model_type") == ChoiceOk(config, "model_type");
    assert ChoiceOk(c, "fw_device") == ChoiceOk(config, "fw_device");
    assert ChoiceOk(c, "fw_compute_type") == ChoiceOk(config, "fw_compute_type");
    assert ChoiceOk(c, "device") == ChoiceOk(config, "device");
  }

  /** The validator accepts exactly the acceptable configurations; it keeps every key, replaces
      each path by its resolved form and leaves every other value as it was. */
  lemma ValidateJsonConfigSpec(config: Config, resolve: string -> string)
    ensures ValidateJsonConfig(config, resolve).Ok? <==> Acceptable(config)
    ensures var r := ValidateJsonConfig(config, resolve);
      r.Ok? ==> (r.value.Keys == config.Keys &&
        (forall k | k in config && k !in PATH_KEYS :: r.value[k] == config[k]) &&
        (forall k | k in config && k in PATH_KEYS :: r.value[k] == Json.Str(resolve(config[k].s))))
    ensures ValidateJsonConfig(config, resolve) == Err(SecurityError) ==>
      exists k | k in PATH_KEYS :: k in config && config[k].Str? && Traversal(config[k].s)
  {
    ValidateAcceptsExactly(config, resolve);
    ValidateResolvesPaths(config, resolve);
    ValidateRejectsTraversal(config, resolve);
  }

  lemma ValidateAcceptsExactly(config: Config, resolve: string -> string)
    ensures ValidateJsonConfig(config, resolve).Ok? <==> Acceptable(config)
  {
    var c1 := if "transcript_dir" in config && config["transcript_dir"].Str? then
      config["transcript_dir" := Json.Str(resolve(config["transcript_dir"].s))] else config;
    if "transcript_dir" in config && config["transcript_dir"].Str? {
      ValuesOkIgnorePaths(config, "transcript_dir", Json.Str(resolve(config["transcript_dir"].s)));
    }
    if "model_cache_dir" in c1 && c1["model_cache_dir"].Str? {
      ValuesOkIgnorePaths(c1, "model_cache_dir", Json.Str(resolve(c1["model_cache_dir"].s)));
    }
  }

  lemma ValidateResolvesPaths(config: Config, resolve: string -> string)
    ensures var r := ValidateJsonConfig(config, resolve);
      r.Ok? ==> (r.value.Keys == config.Keys &&
        (forall k | k in config && k !in PATH_KEYS :: r.value[k] == config[k]) &&
        (forall k | k in config && k in PATH_KEYS :: r.value[k] == Json.Str(resolve(config[k].s))))
  {
  }

  lemma ValidateRejectsTraversal(config: Config, resolve: string -> string)
    ensures ValidateJsonConfig(config, resolve) == Err(SecurityError) ==>
      exists k | k in PATH_KEYS :: k in config && config[k].Str? && Traversal(config[k].s)
  {
  }

  /** The keys `validate_json_config` looks up. */
  predicate CheckedKey(k: string)
  {
    k == "model_name" || k in PATH_KEYS || k in NUMERIC || k in BOOL_KEYS || k in CHOICES
  }

  /** `"<key>" in config` on a list: some element is that string. */
  predicate Mentions(items: seq<Json.Value>, key: string)
  {
    Json.Str(key) in items
  }

  /** `validate_json_config` handed a list instead of a dict: each `"<key>" in config` test
      compares the key with the elements, and the first test that succeeds makes `config[key]`
      raise TypeError. The numeric checks catch it, but the message of the ValueError they
      would raise evaluates `config[param]` again, so a TypeError escapes there too. The
      branches follow the order of the checks. A list naming none of the checked keys comes
      back unchanged, so nothing in it is validated. */
  function ValidateJsonList(items: seq<Json.Value>): (r: Result<seq<Json.Value>, Failure>)
    ensures r.Err? <==> exists i | 0 <= i < |items| :: items[i].Str? && CheckedKey(items[i].s)
    ensures r.Ok? ==> r.value == items
    ensures r.Err? ==> r.error == TypeError
  {
    if Mentions(items, "model_name") || Mentions(items, "transcript_dir") || Mentions(items, "model_cache_dir") then
      Err(TypeError)
    else if Mentions(items, "silence_threshold") || Mentions(items, "fw_device_index") then Err(TypeError)
    else if Mentions(items, "clipboard_on_long") || Mentions(items, "save_transcripts") || Mentions(items, "model_type")
         || Mentions(items, "fw_device") || Mentions(items, "fw_compute_type") || Mentions(items, "device") then
      Err(TypeError)
    else
      assert forall i | 0 <= i < |items| && items[i].Str? :: !CheckedKey(items[i].s) by {
        forall i | 0 <= i < |items| && items[i].Str?
          ensures !CheckedKey(items[i].s)
        {
          assert items[i] in items;
        }
      }
      Ok(items)
  }

  /** A configuration without any of the checked keys passes unchanged. */
  lemma UncheckedKeysPass(config: Config, resolve: string -> string)
    requires forall k | k in config :: k != "model_name" && k !in PATH_KEYS && k !in NUMERIC && k !in BOOL_KEYS && k !in CHOICES
    ensures ValidateJsonConfig(config, resolve) == Ok(config)
  {
  }

  /** A list naming a numeric key fails with the TypeError of the second `config[param]`, not
      with the ValueError the `except` meant to raise. */
  lemma NumericKeyListRaisesTypeError()
    ensures ValidateJsonList([Json.Str("silence_threshold")]) == Err(TypeError)
  {
    assert Mentions([Json.Str("silence_threshold")], "silence_threshold");
  }
}
