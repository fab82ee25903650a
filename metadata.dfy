/** The metadata a region carries in its 'Data' user string: tokens separated
    by "/", where a token mentioning FALLOFF or PATTERN is an assignment
    `KEY=literal` that overrides that key for the region. The source runs each
    such token through Python's eval; this module reads it with a parser for
    the literals those assignments use and reports where eval would raise. */
module Metadata {
  import opened Builtins

  /** The value handed through to the layout data function: a list of integers. */
  type Pattern = seq<int>

  const FalloffKey: string := "FALLOFF"
  const PatternKey: string := "PATTERN"

  /** The separator of the metadata tokens. */
  const TokenSeparator: char := '/'

  // ---------------------------------------------------------------- literals

  function DigitsValue(s: string): nat
    requires AllDigits(s)
    decreases |s|
  {
    if s == [] then 0 else DigitsValue(s[..|s| - 1]) * 10 + (s[|s| - 1] as int - '0' as int)
  }

  /** A natural-number literal: decimal digits without a redundant leading
      zero (Python 2 would read `010` as octal). */
  function ParseNat(s: string): Option<nat>
  {
    if s != [] && AllDigits(s) && (s[0] != '0' || |s| == 1) then Some(DigitsValue(s)) else None
  }

  /** An integer literal, possibly negated. */
  function ParseInt(s: string): Option<int>
  {
    if |s| > 0 && s[0] == '-' then
      match ParseNat(s[1..])
      case Some(n) => Some(-(n as int))
      case None => None
    else
      match ParseNat(s)
      case Some(n) => Some(n)
      case None => None
  }

  function Pow10(k: nat): (p: nat)
    ensures p >= 1
  {
    if k == 0 then 1 else 10 * Pow10(k - 1)
  }

  /** The value of the literal `whole.frac`, whole being n. */
  function DecimalValue(n: nat, frac: string): real
    requires AllDigits(frac)
  {
    n as real + DigitsValue(frac) as real / Pow10(|frac|) as real
  }

  /** An unsigned decimal literal: `digits` or `digits.digits`. */
  function ParseUnsigned(s: string): Option<real>
  {
    match IndexOf(s, '.')
    case None =>
      (match ParseNat(s)
       case Some(n) => Some(n as real)
       case None => None)
    case Some(k) =>
      var whole, frac := s[..k], s[k + 1..];
      match ParseNat(whole)
      case Some(n) =>
        if frac != [] && AllDigits(frac)
        then Some(DecimalValue(n, frac))
        else None
      case None => None
  }

  /** A numeric literal for FALLOFF, possibly negated. */
  function ParseNumber(s: string): Option<real>
  {
    if |s| > 0 && s[0] == '-' then
      match ParseUnsigned(s[1..])
      case Some(v) => Some(-v)
      case None => None
    else ParseUnsigned(s)
  }

  lemma NoDigitAbsent(s: string, c: char)
    requires AllDigits(s) && !IsDigit(c)
    ensures c !in s
  {
  }

  /** How the model prints an integer, as Python's str() does. */
  function ShowInt(i: int): string
  {
    if i < 0 then "-" + NatToString(-i) else NatToString(i)
  }

  lemma {:induction false} DigitsValueOfShown(n: nat)
    ensures DigitsValue(NatToString(n)) == n
    decreases n
  {
    if n >= 10 {
      var s := NatToString(n);
      DigitsValueOfShown(n / 10);
      assert s[..|s| - 1] == NatToString(n / 10);
    }
  }

  /** Printing a natural number and reading it back gives the number. */
  lemma ParseNatShow(n: nat)
    ensures ParseNat(NatToString(n)) == Some(n)
  {
    DigitsValueOfShown(n);
  }

  /** Printing an integer and reading it back gives the integer. */
  lemma ParseIntShow(i: int)
    ensures ParseInt(ShowInt(i)) == Some(i)
  {
    if i < 0 {
      ParseNatShow(-i);
      assert ShowInt(i)[1..] == NatToString(-i);
    } else {
      ParseNatShow(i);
    }
  }

  /** An integer written as a FALLOFF literal reads back as that number. */
  lemma ParseNumberShow(i: int)
    ensures ParseNumber(ShowInt(i)) == Some(i as real)
  {
    var n: nat := if i < 0 then -i else i;
    var digits := NatToString(n);
    ParseNatShow(n);
    NoDigitAbsent(digits, '.');
    if i < 0 {
      assert ShowInt(i)[1..] == digits;
    }
  }

  // ------------------------------------------------------------- blank space

  predicate IsBlank(c: char) { c == ' ' || c == '\t' }

  function TrimLeft(s: string): (r: string)
    ensures r == [] || !IsBlank(r[0])
    decreases |s|
  {
    if s != [] && IsBlank(s[0]) then TrimLeft(s[1..]) else s
  }

  function TrimRight(s: string): (r: string)
    ensures r == [] || !IsBlank(r[|r| - 1])
    decreases |s|
  {
    if s != [] && IsBlank(s[|s| - 1]) then TrimRight(s[..|s| - 1]) else s
  }

  function Trim(s: string): string
  {
    TrimRight(TrimLeft(s))
  }

  // ---------------------------------------------------------------- patterns

  function ParseInts(pieces: seq<string>): Option<Pattern>
    decreases |pieces|
  {
    if pieces == [] then Some([])
    else
      match ParseInt(Trim(pieces[0]))
      case None => None
      case Some(i) =>
        match ParseInts(pieces[1..])
        case None => None
        case Some(rest) => Some([i] + rest)
  }

  /** A PATTERN literal: `[]` or `[i, j, ...]` of integer literals. */
  function ParsePattern(s: string): Option<Pattern>
  {
    if |s| >= 2 && s[0] == '[' && s[|s| - 1] == ']' then
      var inner := s[1..|s| - 1];
      if Trim(inner) == "" then Some([]) else ParseInts(Split(inner, ','))
    else None
  }

  function ShowInts(p: Pattern): (r: seq<string>)
    ensures |r| == |p|
    ensures forall k :: 0 <= k < |r| ==> r[k] == ShowInt(p[k])
  {
    if p == [] then [] else [ShowInt(p[0])] + ShowInts(p[1..])
  }

  /** How the model prints a pattern, as Python's str() does without blanks. */
  function ShowPattern(p: Pattern): string
  {
    "[" + Join(ShowInts(p), ',') + "]"
  }

  lemma ShowIntShape(i: int)
    ensures |ShowInt(i)| >= 1
    ensures !IsBlank(ShowInt(i)[0]) && !IsBlank(ShowInt(i)[|ShowInt(i)| - 1])
    ensures ',' !in ShowInt(i)
  {
    var n: nat := if i < 0 then -i else i;
    var digits := NatToString(n);
    NoDigitAbsent(digits, ',');
    assert IsDigit(digits[|digits| - 1]);
    if i < 0 {
      assert ShowInt(i) == ['-'] + digits;
    }
  }

  lemma TrimUnblanked(s: string)
    requires s != [] && !IsBlank(s[0]) && !IsBlank(s[|s| - 1])
    ensures Trim(s) == s
  {
  }

  lemma {:induction false} ParseIntsShow(p: Pattern)
    ensures ParseInts(ShowInts(p)) == Some(p)
    decreases |p|
  {
    if p != [] {
      ShowIntShape(p[0]);
      TrimUnblanked(ShowInt(p[0]));
      ParseIntShow(p[0]);
      assert ShowInts(p)[1..] == ShowInts(p[1..]);
      ParseIntsShow(p[1..]);
      assert [p[0]] + p[1..] == p;
    }
  }

  lemma {:induction false} JoinStartsWith(parts: seq<string>, sep: char)
    requires |parts| >= 1 && |parts[0]| >= 1
    ensures |Join(parts, sep)| >= 1 && Join(parts, sep)[0] == parts[0][0]
  {
  }

  lemma {:induction false} JoinEndsWith(parts: seq<string>, sep: char)
    requires |parts| >= 1 && |parts[|parts| - 1]| >= 1
    ensures |Join(parts, sep)| >= 1
    ensures Join(parts, sep)[|Join(parts, sep)| - 1] == parts[|parts| - 1][|parts[|parts| - 1]| - 1]
    decreases |parts|
  {
    if |parts| > 1 {
      JoinEndsWith(parts[1..], sep);
    }
  }

  /** Printing a pattern and reading it back gives the pattern. */
  lemma ParsePatternShow(p: Pattern)
    ensures ParsePattern(ShowPattern(p)) == Some(p)
  {
    var shown := ShowInts(p);
    var inner := Join(shown, ',');
    var s := ShowPattern(p);
    assert s[1..|s| - 1] == inner;
    if p != [] {
      InnerOfShown(p);
      assert ParsePattern(s) == ParseInts(Split(inner, ','));
      ParseIntsShow(p);
    }
  }

  lemma InnerOfShown(p: Pattern)
    requires p != []
    ensures Trim(Join(ShowInts(p), ',')) != ""
    ensures Split(Join(ShowInts(p), ','), ',') == ShowInts(p)
  {
    var shown := ShowInts(p);
    var inner := Join(shown, ',');
    ShowIntShape(p[0]);
    ShowIntShape(p[|p| - 1]);
    JoinStartsWith(shown, ',');
    JoinEndsWith(shown, ',');
    TrimUnblanked(inner);
    forall k | 0 <= k < |shown| ensures ',' !in shown[k] {
      ShowIntShape(p[k]);
    }
    SplitJoin(shown, ',');
  }

  /** The first position of x in a + b, where a does not hold x. */
  lemma {:induction false} IndexOfPastPrefix(a: string, b: string, x: char)
    requires x !in a
    ensures IndexOf(a + b, x) == match IndexOf(b, x) case None => None case Some(i) => Some(|a| + i)
    decreases |a|
  {
    if a != [] {
      assert (a + b)[1..] == a[1..] + b;
      IndexOfPastPrefix(a[1..], b, x);
    } else {
      assert a + b == b;
    }
  }

  lemma FirstDot(whole: string, frac: string)
    requires AllDigits(whole)
    ensures IndexOf(whole + "." + frac, '.') == Some(|whole|)
  {
    NoDigitAbsent(whole, '.');
    assert whole + "." + frac == whole + ("." + frac);
    IndexOfPastPrefix(whole, "." + frac, '.');
  }

  lemma ParseUnsignedDot(whole: string, frac: string, n: nat)
    requires ParseNat(whole) == Some(n) && frac != [] && AllDigits(frac)
    ensures ParseUnsigned(whole + "." + frac) == Some(DecimalValue(n, frac))
  {
    var s := whole + "." + frac;
    FirstDot(whole, frac);
    assert s[..|whole|] == whole;
    assert s[|whole| + 1..] == frac;
  }

  lemma ParseNumberNegated(s: string)
    ensures ParseNumber("-" + s) == match ParseUnsigned(s) case Some(v) => Some(-v) case None => None
  {
    assert ("-" + s)[1..] == s;
  }

  /** A decimal literal `w.frac` reads back as its value. */
  lemma ParseDecimalShow(w: nat, frac: string)
    requires frac != [] && AllDigits(frac)
    ensures ParseNumber(NatToString(w) + "." + frac) == Some(DecimalValue(w, frac))
  {
    var whole := NatToString(w);
    ParseNatShow(w);
    ParseUnsignedDot(whole, frac, w);
    assert (whole + "." + frac)[0] == whole[0];
  }

  /** A negated decimal literal `-w.frac` reads back as minus its value. */
  lemma ParseNegatedDecimalShow(w: nat, frac: string)
    requires frac != [] && AllDigits(frac)
    ensures ParseNumber("-" + (NatToString(w) + "." + frac)) == Some(-DecimalValue(w, frac))
  {
    ParseNatShow(w);
    ParseUnsignedDot(NatToString(w), frac, w);
    ParseNumberNegated(NatToString(w) + "." + frac);
  }

  /** The usual half-cell falloff `0.5` reads as one half. */
  lemma ParseHalf()
    ensures ParseNumber("0.5") == Some(0.5)
  {
    ParseDecimalShow(0, "5");
    assert NatToString(0) + "." + "5" == "0.5";
    assert DigitsValue("5") == 5;
  }

  // ------------------------------------------------------------- assignments

  /** What eval of the token `key = literal` assigns to key: Some(value) for a
      well-formed assignment, None where eval would raise. Blanks may stand
      around "=" and after the literal; a leading blank is a Python
      indentation error. */
  function Assignment<T>(token: string, key: string, parse: string -> Option<T>): Option<T>
  {
    if |key| <= |token| && token[..|key|] == key then
      var rest := TrimLeft(token[|key|..]);
      if |rest| > 0 && rest[0] == '=' then parse(Trim(rest[1..])) else None
    else None
  }

  /** The value of key after evaluating, in order, every token that mentions
      key, starting from `current`: the last such token wins, and the first
      malformed one raises. */
  function LastAssignment<T>(tokens: seq<string>, key: string, parse: string -> Option<T>, current: T): (r: Result<T>)
    ensures r.Err? ==> r.error == EvalError
    ensures (exists i :: 0 <= i < |tokens| && Contains(tokens[i], key)) || r == Ok(current)
    decreases |tokens|
  {
    if tokens == [] then Ok(current)
    else if !Contains(tokens[0], key) then LastAssignment(tokens[1..], key, parse, current)
    else
      match Assignment(tokens[0], key, parse)
      case None => Err(EvalError)
      case Some(v) => LastAssignment(tokens[1..], key, parse, v)
  }

  /** The FALLOFF of a region's tokens, defaulting to the controller's own falloff. */
  function FalloffOf(tokens: seq<string>, globalFalloff: real): Result<real>
  {
    LastAssignment(tokens, FalloffKey, ParseNumber, globalFalloff)
  }

  /** The PATTERN of a region's tokens, defaulting to the empty list. */
  function PatternOf(tokens: seq<string>): Result<Pattern>
  {
    LastAssignment(tokens, PatternKey, ParsePattern, [])
  }

  /** Without a token that mentions key, the starting value stands. */
  lemma {:induction false} NoMentionKeepsValue<T>(tokens: seq<string>, key: string, parse: string -> Option<T>, current: T)
    requires forall i :: 0 <= i < |tokens| ==> !Contains(tokens[i], key)
    ensures LastAssignment(tokens, key, parse, current) == Ok(current)
    decreases |tokens|
  {
    if tokens != [] {
      NoMentionKeepsValue(tokens[1..], key, parse, current);
    }
  }

  /** The last token that mentions key decides its value, provided every
      earlier one is well formed. */
  lemma {:induction false} LastMentionWins<T>(pre: seq<string>, t: string, post: seq<string>,
                                               key: string, parse: string -> Option<T>, current: T, v: T)
    requires forall i :: 0 <= i < |pre| && Contains(pre[i], key) ==> Assignment(pre[i], key, parse).Some?
    requires Contains(t, key) && Assignment(t, key, parse) == Some(v)
    requires forall i :: 0 <= i < |post| ==> !Contains(post[i], key)
    ensures LastAssignment(pre + [t] + post, key, parse, current) == Ok(v)
    decreases |pre|
  {
    if pre == [] {
      assert ([t] + post)[1..] == post;
      NoMentionKeepsValue(post, key, parse, v);
    } else {
      assert (pre + [t] + post)[1..] == pre[1..] + [t] + post;
      var next := if Contains(pre[0], key) then Assignment(pre[0], key, parse).value else current;
      LastMentionWins(pre[1..], t, post, key, parse, next, v);
    }
  }

  /** A malformed token that mentions key makes eval raise, whatever follows. */
  lemma {:induction false} MalformedMentionRaises<T>(tokens: seq<string>, k: nat, key: string, parse: string -> Option<T>, current: T)
    requires k < |tokens| && Contains(tokens[k], key) && Assignment(tokens[k], key, parse).None?
    ensures LastAssignment(tokens, key, parse, current) == Err(EvalError)
    decreases k
  {
    if k > 0 && Contains(tokens[0], key) && Assignment(tokens[0], key, parse).Some? {
      MalformedMentionRaises(tokens[1..], k - 1, key, parse, Assignment(tokens[0], key, parse).value);
    } else if k > 0 && !Contains(tokens[0], key) {
      MalformedMentionRaises(tokens[1..], k - 1, key, parse, current);
    }
  }

  /** The token `key=text` assigns to key what the literal text denotes. */
  lemma AssignmentWritten<T>(key: string, text: string, parse: string -> Option<T>, v: T)
    requires text != [] && !IsBlank(text[0]) && !IsBlank(text[|text| - 1])
    requires parse(text) == Some(v)
    ensures Contains(key + "=" + text, key)
    ensures Assignment(key + "=" + text, key, parse) == Some(v)
  {
    var token := key + "=" + text;
    ContainsAt(token, key, 0);
    assert token[..|key|] == key;
    assert token[|key|..] == "=" + text;
    assert ("=" + text)[1..] == text;
    TrimUnblanked(text);
  }

  lemma ShownFreeOfSeparator(i: int)
    ensures TokenSeparator !in ShowInt(i)
  {
    var n: nat := if i < 0 then -i else i;
    NoDigitAbsent(NatToString(n), TokenSeparator);
  }

  /** A region whose metadata is `FALLOFF=<i>` resolves to that falloff. */
  lemma FalloffNamed(i: int, globalFalloff: real)
    ensures FalloffOf(Split(FalloffKey + "=" + ShowInt(i), TokenSeparator), globalFalloff) == Ok(i as real)
  {
    var token := FalloffKey + "=" + ShowInt(i);
    ShownFreeOfSeparator(i);
    assert TokenSeparator !in token;
    SplitNoSeparator(token, TokenSeparator);
    ShowIntShape(i);
    ParseNumberShow(i);
    AssignmentWritten(FalloffKey, ShowInt(i), ParseNumber, i as real);
    LastMentionWins([], token, [], FalloffKey, ParseNumber, globalFalloff, i as real);
    assert [] + [token] + [] == [token];
  }

  /** The metadata `FALLOFF=0.5` resolves the region's falloff to one half. */
  lemma FalloffHalf(globalFalloff: real)
    ensures FalloffOf(Split(FalloffKey + "=" + "0.5", TokenSeparator), globalFalloff) == Ok(0.5)
  {
    var token := FalloffKey + "=" + "0.5";
    assert TokenSeparator !in token;
    SplitNoSeparator(token, TokenSeparator);
    ParseHalf();
    AssignmentWritten(FalloffKey, "0.5", ParseNumber, 0.5);
    LastMentionWins([], token, [], FalloffKey, ParseNumber, globalFalloff, 0.5);
    assert [] + [token] + [] == [token];
  }

  /** A method with a loop, as in the source, that evaluates the tokens in
      order and stops at the first one eval cannot run. */
  method ResolveAssignment<T>(tokens: seq<string>, key: string, parse: string -> Option<T>, initial: T)
    returns (r: Result<T>)
    ensures r == LastAssignment(tokens, key, parse, initial)
  {
    var value := initial;
    for i := 0 to |tokens|
      invariant LastAssignment(tokens, key, parse, initial) == LastAssignment(tokens[i..], key, parse, value)
    {
      assert tokens[i..][1..] == tokens[i + 1..];
      var data := tokens[i];
      if Contains(data, key) {
        match Assignment(data, key, parse)
        case None =>
          return Err(EvalError);
        case Some(v) =>
          value := v;
      }
    }
    return Ok(value);
  }
}
