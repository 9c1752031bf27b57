/** The part of Python's `json` module the wire format relies on: `json.dumps({"rate": n})`
    and `json.loads` restricted to scalars and flat objects (values null, booleans, integers and
    strings without escapes). */
module Json {
  import opened Wrappers
  import opened Text

  /** A JSON-compatible Python value. `Loads` below produces only the scalar and flat-object
      forms; floats and lists appear as configuration values. */
  datatype Value =
    | Null | Bool(b: bool) | Int(i: int) | Real(r: real) | Str(s: string)
    | List(items: seq<Value>) | Object(fields: map<string, Value>)

  /** Python truthiness of a value. */
  predicate Truthy(v: Value)
  {
    match v
    case Null => false
    case Bool(b) => b
    case Int(i) => i != 0
    case Real(r) => r != 0.0
    case Str(s) => s != ""
    case List(items) => items != []
    case Object(fields) => fields != map[]
  }

  /** Why `int(v)` or `float(v)` fails: a ValueError for a string that does not spell a
      number, a TypeError for a value of a type the conversion does not take. */
  datatype ConversionFailure = NotANumber | WrongType

  /** `int(v)`: integers as they are, booleans as 1 and 0, floats truncated toward zero,
      strings parsed in base 10. */
  function ToInt(v: Value): (r: Result<int, ConversionFailure>)
    ensures r.Err? && r.error == NotANumber <==> v.Str? && ParseInt(v.s).None?
    ensures r.Err? && r.error == WrongType <==> v.Null? || v.List? || v.Object?
  {
    match v
    case Int(i) => Ok(i)
    case Bool(b) => Ok(if b then 1 else 0)
    case Real(x) => Ok(Trunc(x))
    case Str(s) => if ParseInt(s).Some? then Ok(ParseInt(s).value) else Err(NotANumber)
    case _ => Err(WrongType)
  }

  /** `float(v)` for the values a configuration file holds. Strings are read as base-10
      integers only; fractional and exponent spellings are not modelled. */
  function ToReal(v: Value): (r: Result<real, ConversionFailure>)
    ensures r.Err? && r.error == WrongType <==> v.Null? || v.List? || v.Object?
    ensures v.Int? ==> r == Ok(v.i as real)
  {
    match v
    case Int(i) => Ok(i as real)
    case Bool(b) => Ok(if b then 1.0 else 0.0)
    case Real(x) => Ok(x)
    case Str(s) => if ParseInt(s).Some? then Ok(ParseInt(s).value as real) else Err(NotANumber)
    case _ => Err(WrongType)
  }

  /** Whitespace as JSON defines it. */
  predicate IsJsonSpace(c: char)
  {
    c == ' ' || c == '\t' || c == '\n' || c == '\r'
  }

  function SkipSpace(s: string, i: nat): (j: nat)
    requires i <= |s|
    ensures i <= j <= |s|
    ensures j == |s| || !IsJsonSpace(s[j])
    decreases |s| - i
  {
    if i < |s| && IsJsonSpace(s[i]) then SkipSpace(s, i + 1) else i
  }

  /** The end of the run of decimal digits starting at `i`. */
  function DigitsEnd(s: string, i: nat): (j: nat)
    requires i <= |s|
    ensures i <= j <= |s|
    ensures forall k | i <= k < j :: IsDigit(s[k])
    decreases |s| - i
  {
    if i < |s| && IsDigit(s[i]) then DigitsEnd(s, i + 1) else i
  }

  lemma {:induction false} DigitsEndAt(s: string, i: nat, k: nat)
    requires i <= k <= |s|
    requires forall m | i <= m < k :: IsDigit(s[m])
    requires k == |s| || !IsDigit(s[k])
    ensures DigitsEnd(s, i) == k
    decreases k - i
  {
    if i < k {
      DigitsEndAt(s, i + 1, k);
    }
  }

  /** A character that may stand unescaped inside a JSON string. */
  predicate IsPlain(c: char)
  {
    c != '"' && c != '\\' && c >= ' '
  }

  /** The end of the run of plain string characters starting at `i`. */
  function PlainEnd(s: string, i: nat): (j: nat)
    requires i <= |s|
    ensures i <= j <= |s|
    decreases |s| - i
  {
    if i < |s| && IsPlain(s[i]) then PlainEnd(s, i + 1) else i
  }

  lemma {:induction false} PlainEndAt(s: string, i: nat, k: nat)
    requires i <= k <= |s|
    requires forall m | i <= m < k :: IsPlain(s[m])
    requires k == |s| || !IsPlain(s[k])
    ensures PlainEnd(s, i) == k
    decreases k - i
  {
    if i < k {
      PlainEndAt(s, i + 1, k);
    }
  }

  /** A string literal at `i` without escapes: its content and the index after it. */
  function ParseString(s: string, i: nat): (r: Option<(string, nat)>)
    requires i < |s| && s[i] == '"'
    ensures r.Some? ==> i < r.value.1 <= |s|
  {
    var e := PlainEnd(s, i + 1);
    if e < |s| && s[e] == '"' then Some((s[i + 1..e], e + 1)) else None
  }

  /** An integer literal `-?(0|[1-9][0-9]*)` at `i`, not continued by a fraction or exponent. */
  function ParseNumber(s: string, i: nat): (r: Option<(int, nat)>)
    requires i <= |s|
    ensures r.Some? ==> i < r.value.1 <= |s|
  {
    var start := if i < |s| && s[i] == '-' then i + 1 else i;
    var end := DigitsEnd(s, start);
    var v: int := DigitsValue(s[start..end]);
    if end == start || (s[start] == '0' && end > start + 1) then None
    else if end < |s| && (s[end] == '.' || s[end] == 'e' || s[end] == 'E') then None
    else Some((if start > i then -v else v, end))
  }

  predicate HasAt(s: string, i: nat, word: string)
  {
    i + |word| <= |s| && s[i..i + |word|] == word
  }

  lemma HasAtFirst(s: string, i: nat, word: string)
    requires |word| > 0
    ensures HasAt(s, i, word) ==> s[i] == word[0]
  {
    if HasAt(s, i, word) {
      assert s[i..i + |word|][0] == s[i];
    }
  }

  /** A scalar at `i`: a string, `null`, `true`, `false` or an integer. */
  function ParseScalar(s: string, i: nat): (r: Option<(Value, nat)>)
    requires i <= |s|
    ensures r.Some? ==> i < r.value.1 <= |s|
  {
    if i == |s| then None
    else if s[i] == '"' then
      match ParseString(s, i)
      case None => None
      case Some((t, j)) => Some((Str(t), j))
    else if HasAt(s, i, "null") then Some((Null, i + 4))
    else if HasAt(s, i, "true") then Some((Bool(true), i + 4))
    else if HasAt(s, i, "false") then Some((Bool(false), i + 5))
    else
      match ParseNumber(s, i)
      case None => None
      case Some((n, j)) => Some((Int(n), j))
  }

  /** The members of an object from the key at `i` to the closing brace; a repeated key keeps
      its last value, as a Python dict does. */
  function ParseMembers(s: string, i: nat, acc: map<string, Value>): (r: Option<(map<string, Value>, nat)>)
    requires i <= |s|
    ensures r.Some? ==> i < r.value.1 <= |s|
    decreases |s| - i
  {
    if i < |s| && s[i] == '"' then
      match ParseString(s, i)
      case None => None
      case Some((k, j)) =>
        var j1 := SkipSpace(s, j);
        if j1 < |s| && s[j1] == ':' then
          var j2 := SkipSpace(s, j1 + 1);
          match ParseScalar(s, j2)
          case None => None
          case Some((v, j3)) =>
            var j4 := SkipSpace(s, j3);
            if j4 < |s| && s[j4] == ',' then ParseMembers(s, SkipSpace(s, j4 + 1), acc[k := v])
            else if j4 < |s| && s[j4] == '}' then Some((acc[k := v], j4 + 1))
            else None
        else None
    else None
  }

  function ParseValue(s: string, i: nat): (r: Option<(Value, nat)>)
    requires i <= |s|
    ensures r.Some? ==> i < r.value.1 <= |s|
  {
    if i < |s| && s[i] == '{' then
      var j := SkipSpace(s, i + 1);
      if j < |s| && s[j] == '}' then Some((Object(map[]), j + 1))
      else match ParseMembers(s, j, map[])
        case None => None
        case Some((m, k)) => Some((Object(m), k))
    else ParseScalar(s, i)
  }

  /** `json.loads(s)`: one value, surrounded by optional whitespace. */
  function Loads(s: string): Option<Value>
  {
    var i := SkipSpace(s, 0);
    match ParseValue(s, i)
    case None => None
    case Some((v, j)) => if SkipSpace(s, j) == |s| then Some(v) else None
  }

  /** `json.dumps({"rate": rate})` with the default separators. */
  function RateText(rate: int): string
  {
    "{\"rate\": " + IntToString(rate) + "}"
  }

  /** `str(n)` starts with a nonzero digit unless `n` is 0, so JSON reads it as one integer. */
  lemma {:induction false} NatToStringLead(n: nat)
    ensures NatToString(n)[0] == '0' ==> n == 0 && |NatToString(n)| == 1
  {
    if n >= 10 {
      NatToStringLead(n / 10);
      assert NatToString(n)[0] == NatToString(n / 10)[0];
    }
  }

  /** An integer followed by a non-digit that is neither a fraction nor an exponent reads back. */
  lemma IntLiteralReads(s: string, i: nat, n: int)
    requires i + |IntToString(n)| < |s| && s[i..i + |IntToString(n)|] == IntToString(n)
    requires !IsDigit(s[i + |IntToString(n)|]) && s[i + |IntToString(n)|] != '.'
    requires s[i + |IntToString(n)|] != 'e' && s[i + |IntToString(n)|] != 'E'
    ensures ParseNumber(s, i) == Some((n, i + |IntToString(n)|))
  {
    var t := IntToString(n);
    var m := if n < 0 then -n else n;
    var d := NatToString(m);
    var start := if n < 0 then i + 1 else i;
    var end := i + |t|;
    assert s[start..end] == d by {
      if n < 0 {
        assert t == "-" + d;
      }
    }
    assert s[i] == t[0];
    forall k | start <= k < end ensures IsDigit(s[k]) {
      assert s[k] == d[k - start];
    }
    DigitsEndAt(s, start, end);
    NatToStringLead(m);
    DigitsValueOfNatToString(m);
    assert s[start] == d[0];
  }

  /** The metadata text is plain ASCII and holds no line break. */
  lemma RateTextAscii(rate: int)
    ensures forall k | 0 <= k < |RateText(rate)| :: RateText(rate)[k] as int < 128 && RateText(rate)[k] != '\n'
  {
    var d := IntToString(rate);
    forall k | 0 <= k < |d| ensures d[k] as int < 128 && d[k] != '\n' {
      if rate < 0 {
        assert k > 0 ==> d[k] == NatToString(-rate)[k - 1];
      }
    }
    assert RateText(rate) == "{\"rate\": " + d + "}";
  }

  /** The characters of the metadata text around the number. */
  lemma RateTextShape(rate: int)
    ensures var s := RateText(rate); var n := |IntToString(rate)|;
      |s| == 10 + n && s[0] == '{' && s[1] == '"' && s[2..6] == "rate" && s[6] == '"' &&
      s[7] == ':' && s[8] == ' ' && s[9..9 + n] == IntToString(rate) && s[9 + n] == '}'
  {
  }

  lemma RateMembers(rate: int)
    ensures ParseMembers(RateText(rate), 1, map[]) == Some((map["rate" := Int(rate)], 10 + |IntToString(rate)|))
  {
    var d := IntToString(rate);
    var s := RateText(rate);
    RateTextShape(rate);
    PlainEndAt(s, 2, 6);
    assert ParseString(s, 1) == Some(("rate", 7));
    assert SkipSpace(s, 7) == 7;
    assert SkipSpace(s, 9) == 9;
    assert SkipSpace(s, 8) == 9;
    IntLiteralReads(s, 9, rate);
    assert s[9] == d[0];
    assert s[9] == '-' || IsDigit(s[9]);
    HasAtFirst(s, 9, "null");
    HasAtFirst(s, 9, "true");
    HasAtFirst(s, 9, "false");
    assert ParseScalar(s, 9) == Some((Int(rate), 9 + |d|));
    assert SkipSpace(s, 9 + |d|) == 9 + |d|;
  }

  /** The metadata line the client writes is read back by `json.loads` as the one-member object
      it was made from. */
  lemma RateTextLoads(rate: int)
    ensures Loads(RateText(rate)) == Some(Object(map["rate" := Int(rate)]))
  {
    var s := RateText(rate);
    RateTextShape(rate);
    RateMembers(rate);
    assert SkipSpace(s, 0) == 0;
    assert SkipSpace(s, 1) == 1;
    assert SkipSpace(s, |s|) == |s|;
  }
}
