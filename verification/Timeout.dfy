/** Tool timeouts: parsing, printing and resolution (timeout.go). Durations are int64
    nanoseconds, as in Go; the types below make Dafny prove that no arithmetic wraps. */
module Timeout {
  import opened Results
  import opened Text

  const MAX_INT64: nat := 0x7FFF_FFFF_FFFF_FFFF
  newtype int64 = x: int | -0x8000_0000_0000_0000 <= x <= 0x7FFF_FFFF_FFFF_FFFF
  newtype uint64 = x: int | 0 <= x <= 0xFFFF_FFFF_FFFF_FFFF

  const SECOND: nat := 1_000_000_000

  datatype ParseError = ExpectedDigits | InvalidUnit | AmountTooLarge | Overflow | Empty

  // ----- the grammar

  predicate IsDigit(c: char) { '0' <= c <= '9' }

  predicate IsBlank(c: char) { c == ' ' || c == '\t' }

  predicate IsUnit(c: char) { c == 's' || c == 'm' || c == 'h' }

  predicate AllDigits(s: string) { forall k :: 0 <= k < |s| ==> IsDigit(s[k]) }

  predicate AllBlanks(s: string) { forall k :: 0 <= k < |s| ==> IsBlank(s[k]) }

  /** One <digits><unit> token. */
  datatype RawToken = Token(digits: string, unit: char)

  predicate WellFormed(t: RawToken) { t.digits != [] && AllDigits(t.digits) && IsUnit(t.unit) }

  type Token = t: RawToken | WellFormed(t) witness Token("0", 's')

  function TokenText(t: Token): string { t.digits + [t.unit] }

  /** The text of tokens with blanks around them: gaps[i] before token i, one gap at the end. */
  function Written(tokens: seq<Token>, gaps: seq<string>): string
    requires |gaps| == |tokens| + 1
  {
    if tokens == [] then gaps[0]
    else gaps[0] + (TokenText(tokens[0]) + Written(tokens[1..], gaps[1..]))
  }

  /** The text matches the grammar with these tokens. */
  ghost predicate Matches(raw: string, tokens: seq<Token>, gaps: seq<string>) {
    && |gaps| == |tokens| + 1
    && (forall i :: 0 <= i < |gaps| ==> AllBlanks(gaps[i]))
    && raw == Written(tokens, gaps)
  }

  // ----- amounts

  function Value(digits: string): nat
    requires AllDigits(digits)
  {
    if digits == [] then 0
    else
      var last := digits[|digits| - 1];
      assert IsDigit(last);
      Value(digits[..|digits| - 1]) * 10 + (last as int - '0' as int)
  }

  function UnitSeconds(unit: char): (n: nat)
    requires IsUnit(unit)
    ensures n > 0
  {
    if unit == 's' then 1 else if unit == 'm' then 60 else 3600
  }

  function Nanoseconds(unit: char): (n: nat)
    requires IsUnit(unit)
    ensures n > 0
  {
    UnitSeconds(unit) * SECOND
  }

  /** Amount times unit, over the unbounded integers. */
  function Term(t: Token): nat { Value(t.digits) * Nanoseconds(t.unit) }

  function Sum(tokens: seq<Token>): nat {
    if tokens == [] then 0 else Term(tokens[0]) + Sum(tokens[1..])
  }

  // ----- reading tokens

  function DropBlanks(s: string): (t: string)
    ensures |t| <= |s| && (t != [] ==> !IsBlank(t[0]))
    ensures AllBlanks(s[..|s| - |t|]) && t == s[|s| - |t|..]
  {
    if s != [] && IsBlank(s[0]) then
      var t := DropBlanks(s[1..]);
      assert s[..|s| - |t|] == [s[0]] + s[1..][..|s| - 1 - |t|];
      t
    else s
  }

  function DigitLen(s: string): (n: nat)
    ensures n <= |s| && AllDigits(s[..n])
    ensures n < |s| ==> !IsDigit(s[n])
  {
    if s != [] && IsDigit(s[0]) then
      var n := DigitLen(s[1..]);
      assert s[..n + 1] == [s[0]] + s[1..][..n];
      n + 1
    else 0
  }

  datatype Scan = AtEnd | NoToken | Next(token: Token, rest: string)

  /** The token at the start of a text without leading blanks. */
  function ScanWord(t: string): (r: Scan)
    ensures r.Next? ==> |r.rest| < |t|
  {
    var n := DigitLen(t);
    if t == [] then AtEnd
    else if n == 0 || n == |t| || !IsUnit(t[n]) then NoToken
    else Next(Token(t[..n], t[n]), t[n + 1..])
  }

  function ScanToken(s: string): (r: Scan)
    ensures r.Next? ==> |r.rest| < |s|
  {
    ScanWord(DropBlanks(s))
  }

  function Prepend(t: Token, r: Option<seq<Token>>): Option<seq<Token>> {
    if r.None? then None else Some([t] + r.value)
  }

  function Tokenize(s: string): Option<seq<Token>>
    decreases |s|
  {
    match ScanToken(s)
    case AtEnd => Some([])
    case NoToken => None
    case Next(token, rest) => Prepend(token, Tokenize(rest))
  }

  lemma ScanWordSound(t: string)
    requires ScanWord(t).Next?
    ensures t == TokenText(ScanWord(t).token) + ScanWord(t).rest
  {
    var n := DigitLen(t);
    assert t == t[..n] + [t[n]] + t[n + 1..];
  }

  lemma ScanSound(s: string) returns (gap: string)
    ensures AllBlanks(gap)
    ensures ScanToken(s).AtEnd? ==> s == gap
    ensures ScanToken(s).Next? ==> s == gap + (TokenText(ScanToken(s).token) + ScanToken(s).rest)
  {
    var t := DropBlanks(s);
    gap := s[..|s| - |t|];
    assert s == gap + t;
    if ScanWord(t).Next? {
      ScanWordSound(t);
    }
  }

  lemma {:induction false} DropBlanksOf(gap: string, t: string)
    requires AllBlanks(gap)
    requires t != [] ==> !IsBlank(t[0])
    ensures DropBlanks(gap + t) == t
  {
    if gap == [] {
      assert gap + t == t;
    } else {
      assert (gap + t)[1..] == gap[1..] + t;
      DropBlanksOf(gap[1..], t);
    }
  }

  lemma {:induction false} DigitLenOf(digits: string, t: string)
    requires AllDigits(digits)
    requires t != [] ==> !IsDigit(t[0])
    ensures DigitLen(digits + t) == |digits|
  {
    if digits == [] {
      assert digits + t == t;
    } else {
      assert (digits + t)[1..] == digits[1..] + t;
      DigitLenOf(digits[1..], t);
    }
  }

  lemma ScanWordOf(digits: string, unit: char, rest: string)
    requires digits != [] && AllDigits(digits) && IsUnit(unit)
    ensures ScanWord(digits + [unit] + rest) == Next(Token(digits, unit), rest)
  {
    var t := digits + [unit] + rest;
    assert t == digits + ([unit] + rest);
    DigitLenOf(digits, [unit] + rest);
    assert t[..|digits|] == digits && t[|digits| + 1..] == rest;
  }

  lemma ScanComplete(gap: string, token: Token, rest: string)
    requires AllBlanks(gap)
    ensures ScanToken(gap + (TokenText(token) + rest)) == Next(token, rest)
  {
    ScanWordOf(token.digits, token.unit, rest);
    assert IsDigit(token.digits[0]);
    DropBlanksOf(gap, TokenText(token) + rest);
  }

  lemma TokenizeNext(s: string, token: Token, rest: string)
    requires ScanToken(s) == Next(token, rest)
    ensures Tokenize(s) == Prepend(token, Tokenize(rest))
  {
  }

  lemma ScanEnd(gap: string)
    requires AllBlanks(gap)
    ensures ScanToken(gap) == AtEnd
  {
    DropBlanksOf(gap, "");
    assert gap + "" == gap;
  }

  lemma WrittenCons(t: Token, ts: seq<Token>, g: string, gs: seq<string>)
    requires |gs| == |ts| + 1
    ensures Written([t] + ts, [g] + gs) == g + (TokenText(t) + Written(ts, gs))
  {
    assert ([t] + ts)[1..] == ts && ([g] + gs)[1..] == gs;
  }

  lemma MatchesCons(t: Token, rest: string, ts: seq<Token>, g: string, gs: seq<string>)
    requires Matches(rest, ts, gs) && AllBlanks(g)
    ensures Matches(g + (TokenText(t) + rest), [t] + ts, [g] + gs)
  {
    WrittenCons(t, ts, g, gs);
  }

  /** The reader finds exactly the tokens of the grammar. */
  lemma {:induction false} TokenizeSound(s: string, tokens: seq<Token>) returns (gaps: seq<string>)
    requires Tokenize(s) == Some(tokens)
    ensures Matches(s, tokens, gaps)
    decreases |s|
  {
    var gap := ScanSound(s);
    match ScanToken(s)
    case AtEnd =>
      gaps := [gap];
    case Next(token, rest) =>
      var ts := Tokenize(rest).value;
      var more := TokenizeSound(rest, ts);
      gaps := [gap] + more;
      MatchesCons(token, rest, ts, gap, more);
  }

  lemma TokenizeCons(gap: string, token: Token, rest: string, ts: seq<Token>)
    requires AllBlanks(gap) && Tokenize(rest) == Some(ts)
    ensures Tokenize(gap + (TokenText(token) + rest)) == Some([token] + ts)
  {
    ScanComplete(gap, token, rest);
    TokenizeNext(gap + (TokenText(token) + rest), token, rest);
  }

  lemma TokenizeStops(s: string)
    ensures ScanToken(s).AtEnd? ==> Tokenize(s) == Some([])
    ensures ScanToken(s).NoToken? ==> Tokenize(s) == None
  {
  }

  lemma TokenizeBlank(s: string)
    requires AllBlanks(s)
    ensures Tokenize(s) == Some([])
  {
    ScanEnd(s);
  }

  lemma MatchesTail(s: string, tokens: seq<Token>, gaps: seq<string>) returns (rest: string)
    requires Matches(s, tokens, gaps) && tokens != []
    ensures Matches(rest, tokens[1..], gaps[1..]) && AllBlanks(gaps[0])
    ensures s == gaps[0] + (TokenText(tokens[0]) + rest)
  {
    rest := Written(tokens[1..], gaps[1..]);
  }

  lemma {:induction false} TokenizeWritten(s: string, tokens: seq<Token>, gaps: seq<string>)
    requires Matches(s, tokens, gaps)
    ensures Tokenize(s) == Some(tokens)
    decreases |tokens|
  {
    hide Tokenize;
    if tokens == [] {
      TokenizeBlank(s);
    } else {
      var rest := MatchesTail(s, tokens, gaps);
      TokenizeWritten(rest, tokens[1..], gaps[1..]);
      TokenizeCons(gaps[0], tokens[0], rest, tokens[1..]);
      assert [tokens[0]] + tokens[1..] == tokens;
    }
  }

  // ----- what the parser accepts

  /** NONE, in any case and with any white space around it. */
  predicate IsNone(raw: string) {
    var t := TrimSpace(raw);
    |t| == 4 && t[0] in "Nn" && t[1] in "Oo" && t[2] in "Nn" && t[3] in "Ee"
  }

  /** NONE in some mixture of cases. */
  predicate CaseVariantOfNone(t: string) {
    && |t| == 4
    && (t[0] == 'N' || t[0] == 'n') && (t[1] == 'O' || t[1] == 'o')
    && (t[2] == 'N' || t[2] == 'n') && (t[3] == 'E' || t[3] == 'e')
  }

  /** Every case variant of NONE, with any white space around it, and nothing else. */
  lemma NoneIff(raw: string)
    ensures IsNone(raw) <==>
            exists before, t, behind ::
              raw == before + t + behind && AllSpaces(before) && AllSpaces(behind) && CaseVariantOfNone(t)
    ensures IsNone(raw) ==> Meaning(raw) == Some(0)
  {
    var a, b := TrimSpaceIs(raw);
    hide TrimSpace;
    if IsNone(raw) {
      assert CaseVariantOfNone(TrimSpace(raw));
    }
    forall before, t, behind
      | raw == before + t + behind && AllSpaces(before) && AllSpaces(behind) && CaseVariantOfNone(t)
      ensures IsNone(raw)
    {
      AsciiSpace(t[0]);
      AsciiSpace(t[3]);
      TrimSpaceBetween(before, t, behind);
    }
  }

  /** The duration that a text stands for: 0 for NONE, otherwise the exact sum of its
      tokens, as long as there are any and the sum is an int64. */
  function Meaning(raw: string): (r: Option<int64>)
  {
    if IsNone(raw) then Some(0)
    else
      match Tokenize(raw)
      case None => None
      case Some(tokens) => if tokens != [] && Sum(tokens) <= MAX_INT64 then Some(Sum(tokens) as int64) else None
  }

  /** The acceptance condition in terms of the grammar alone. */
  lemma AcceptedIffGrammar(raw: string)
    requires !IsNone(raw)
    ensures Meaning(raw).Some? <==>
            exists tokens, gaps :: Matches(raw, tokens, gaps) && tokens != [] && Sum(tokens) <= MAX_INT64
    ensures forall tokens, gaps :: Matches(raw, tokens, gaps) && Meaning(raw).Some? ==>
            Meaning(raw).value as int == Sum(tokens)
  {
    if Meaning(raw).Some? {
      var gaps := TokenizeSound(raw, Tokenize(raw).value);
    }
    forall tokens, gaps | Matches(raw, tokens, gaps)
      ensures Tokenize(raw) == Some(tokens)
    {
      TokenizeWritten(raw, tokens, gaps);
    }
  }

  lemma {:induction false} SumConcat(a: seq<Token>, b: seq<Token>)
    ensures Sum(a + b) == Sum(a) + Sum(b)
  {
    if a == [] {
      assert a + b == b;
    } else {
      assert (a + b)[1..] == a[1..] + b;
      SumConcat(a[1..], b);
    }
  }

  function Append(done: seq<Token>, r: Option<seq<Token>>): Option<seq<Token>> {
    if r.None? then None else Some(done + r.value)
  }

  lemma AppendPrepend(done: seq<Token>, t: Token, r: Option<seq<Token>>)
    ensures Append(done, Prepend(t, r)) == Append(done + [t], r)
  {
    if r.Some? {
      assert done + ([t] + r.value) == done + [t] + r.value;
    }
  }

  lemma SumOne(done: seq<Token>, t: Token)
    ensures Sum(done + [t]) == Sum(done) + Term(t)
  {
    SumConcat(done, [t]);
    assert [t][1..] == [];
  }

  lemma SumGrows(done: seq<Token>, r: Option<seq<Token>>)
    requires r.Some?
    ensures Sum(Append(done, r).value) >= Sum(done)
  {
    SumConcat(done, r.value);
  }

  /** The tokens read so far, with those of the rest, are the tokens of the whole text. */
  ghost predicate ReadSoFar(all: Option<seq<Token>>, done: seq<Token>, rest: string) {
    all == Append(done, Tokenize(rest))
  }

  /** Reading one more token. */
  lemma ReadOne(all: Option<seq<Token>>, done: seq<Token>, rest: string, token: Token, after: string)
    requires ReadSoFar(all, done, rest) && ScanToken(rest) == Next(token, after)
    ensures ReadSoFar(all, done + [token], after)
    ensures Sum(done + [token]) == Sum(done) + Term(token)
    ensures all.Some? ==> Sum(all.value) >= Sum(done) + Term(token)
  {
    var r := Tokenize(after);
    AppendPrepend(done, token, r);
    SumOne(done, token);
    if r.Some? {
      SumGrows(done + [token], r);
    }
  }

  /** Dividing first tests the product without computing it. */
  lemma DivisionGuard(n: nat, m: nat, max: nat)
    requires m > 0
    ensures n > max / m <==> n * m > max
  {
    if n > max / m {
      assert n >= max / m + 1;
      assert n * m >= (max / m + 1) * m == max / m * m + m;
    } else {
      assert n * m <= max / m * m;
    }
  }

  /** strconv.ParseUint(digits, 10, 63). */
  method ParseUint63(digits: string) returns (r: Option<uint64>)
    requires AllDigits(digits)
    ensures r == if Value(digits) <= MAX_INT64 then Some(Value(digits) as uint64) else None
  {
    var v := Value(digits);
    r := if v <= MAX_INT64 then Some(v as uint64) else None;
  }

  method MatchTimeoutUnit(s: string) returns (r: Option<(int64, string)>)
    ensures r == if s != [] && IsUnit(s[0]) then Some((Nanoseconds(s[0]) as int64, s[1..])) else None
  {
    if s != [] && s[0] == 's' {
      return Some((1_000_000_000, s[1..]));
    }
    if s != [] && s[0] == 'm' {
      return Some((60_000_000_000, s[1..]));
    }
    if s != [] && s[0] == 'h' {
      return Some((3600_000_000_000, s[1..]));
    }
    return None;
  }

  lemma TermAtLeastAmount(amount: nat, multiplier: nat)
    requires multiplier > 0
    ensures amount * multiplier >= amount
  {
  }

  /** The guards and the arithmetic of one token: the total grows by exactly the amount
      times the unit, or the exact sum does not fit. */
  method AddTerm(total: int64, digits: string, multiplier: int64) returns (r: Result<int64, ParseError>)
    requires total >= 0 && multiplier > 0 && AllDigits(digits)
    ensures r.Ok? ==> r.value as int == total as int + Value(digits) * multiplier as int
    ensures r.Err? ==>
            r.error in {AmountTooLarge, Overflow} && total as int + Value(digits) * multiplier as int > MAX_INT64
  {
    TermAtLeastAmount(Value(digits), multiplier as int);
    DivisionGuard(Value(digits), multiplier as int, MAX_INT64);
    var parsed := ParseUint63(digits);
    if parsed.None? {
      return Err(AmountTooLarge);
    }
    var n := parsed.value;
    if n > 0x7FFF_FFFF_FFFF_FFFF / multiplier as uint64 {
      return Err(Overflow);
    }
    var term := n as int64 * multiplier;
    if total > 0x7FFF_FFFF_FFFF_FFFF - term {
      return Err(Overflow);
    }
    return Ok(total + term);
  }

  datatype TermScan = NoMore | Rejected(error: ParseError) | Term'(digits: string, multiplier: int64, rest: string)

  /** The scanning part of one iteration. */
  method NextTerm(rest: string) returns (r: TermScan)
    ensures r.NoMore? <==> ScanToken(rest).AtEnd?
    ensures r.Rejected? <==> ScanToken(rest).NoToken?
    ensures r.Rejected? ==> r.error in {ExpectedDigits, InvalidUnit}
    ensures r.Term'? ==> ScanToken(rest).Next? && AllDigits(r.digits)
                         && (var Next(token, after) := ScanToken(rest);
                             r.digits == token.digits && r.rest == after
                                 && r.multiplier as int == Nanoseconds(token.unit))
  {
    var t := DropBlanks(rest);
    if t == "" {
      return NoMore;
    }
    var i := DigitLen(t);
    if i == 0 {
      return Rejected(ExpectedDigits);
    }
    var unit := MatchTimeoutUnit(t[i..]);
    if unit.None? {
      return Rejected(InvalidUnit);
    }
    assert t[i..][1..] == t[i + 1..];
    return Term'(t[..i], unit.value.0, unit.value.1);
  }

  /** Accepts exactly the meaningful texts and returns exactly their duration. Every product
      and sum is computed in int64 after its guard, so none of them wraps. */
  method ParseTimeoutDuration(raw: string) returns (r: Result<int64, ParseError>)
    ensures r.Ok? <==> Meaning(raw).Some?
    ensures r.Ok? ==> Some(r.value) == Meaning(raw)
    ensures r == Err(Empty) <==> !IsNone(raw) && Tokenize(raw) == Some([])
    ensures r == Err(ExpectedDigits) || r == Err(InvalidUnit) ==> Tokenize(raw).None?
    ensures r == Err(AmountTooLarge) || r == Err(Overflow) ==>
            Tokenize(raw).None? || Sum(Tokenize(raw).value) > MAX_INT64
  {
    hide Tokenize;
    hide ScanToken;
    hide IsNone;
    if IsNone(raw) {
      return Ok(0);
    }
    var total: int64, seen, rest := 0, false, raw;
    ghost var done: seq<Token>, all := [], Tokenize(raw);
    assert ReadSoFar(all, done, rest) by {
      if all.Some? {
        assert [] + all.value == all.value;
      }
    }
    while |rest| > 0
      invariant ReadSoFar(all, done, rest)
      invariant total as int == Sum(done)
      invariant seen == (done != [])
      decreases |rest|
    {
      TokenizeStops(rest);
      var step := NextTerm(rest);
      if step.NoMore? {
        break;
      }
      if step.Rejected? {
        return Err(step.error);
      }
      ghost var token := ScanToken(rest).token;
      ReadOne(all, done, rest, token, step.rest);
      var sum := AddTerm(total, step.digits, step.multiplier);
      if sum.Err? {
        return Err(sum.error);
      }
      total, rest, seen := sum.value, step.rest, true;
      done := done + [token];
    }
    assert all == Some(done) by {
      if rest == "" {
        TokenizeBlank(rest);
      }
      assert done + [] == done;
    }
    if !seen {
      return Err(Empty);
    }
    return Ok(total);
  }

  // ----- whole seconds, printing

  lemma {:induction false} SumWholeSeconds(tokens: seq<Token>) returns (seconds: nat)
    ensures Sum(tokens) == seconds * SECOND
  {
    if tokens == [] {
      seconds := 0;
    } else {
      var rest := SumWholeSeconds(tokens[1..]);
      var amount := Value(tokens[0].digits) * UnitSeconds(tokens[0].unit);
      seconds := amount + rest;
      Associate(Value(tokens[0].digits), UnitSeconds(tokens[0].unit));
    }
  }

  lemma Associate(v: nat, n: nat)
    ensures v * (n * SECOND) == v * n * SECOND
  {
  }

  function Digits(n: nat): (d: string)
    ensures d != [] && AllDigits(d)
  {
    if n < 10 then [('0' as int + n) as char] else Digits(n / 10) + [('0' as int + n % 10) as char]
  }

  lemma {:induction false} ValueOfDigits(n: nat)
    ensures Value(Digits(n)) == n
  {
    var d := Digits(n);
    if n >= 10 {
      ValueOfDigits(n / 10);
      assert d[..|d| - 1] == Digits(n / 10);
    } else {
      assert d[..0] == "";
    }
  }

  /** time.Duration.String for a whole number of seconds. */
  function DurationTokens(seconds: nat): seq<Token> {
    var s := Token(Digits(seconds % 60), 's');
    var m := Token(Digits(seconds / 60 % 60), 'm');
    if seconds < 60 then [s]
    else if seconds < 3600 then [m, s]
    else [Token(Digits(seconds / 3600), 'h'), m, s]
  }

  function DurationText(tokens: seq<Token>): string {
    if tokens == [] then "" else TokenText(tokens[0]) + DurationText(tokens[1..])
  }

  /** The text inside the parentheses of timeoutSuffix. */
  function TimeoutText(d: int): string {
    if d > 0 then DurationText(DurationTokens(d / SECOND)) else "none"
  }

  function TimeoutSuffix(d: int): string { "(timeout: " + TimeoutText(d) + ")" }

  lemma {:induction false} DurationMatches(tokens: seq<Token>)
    ensures Matches(DurationText(tokens), tokens, seq(|tokens| + 1, _ => ""))
  {
    if tokens != [] {
      DurationMatches(tokens[1..]);
      MatchesCons(tokens[0], DurationText(tokens[1..]), tokens[1..], "", seq(|tokens|, _ => ""));
      assert [""] + seq(|tokens|, _ => "") == seq(|tokens| + 1, _ => "");
      assert [tokens[0]] + tokens[1..] == tokens;
      assert "" + DurationText(tokens) == DurationText(tokens);
    }
  }

  lemma SumOfThree(h: Token, m: Token, s: Token)
    ensures Sum([s]) == Term(s) && Sum([m, s]) == Term(m) + Term(s) && Sum([h, m, s]) == Term(h) + Term(m) + Term(s)
  {
    assert [s][1..] == [] && [m, s][1..] == [s] && [h, m, s][1..] == [m, s];
  }

  lemma TermOf(n: nat, unit: char)
    requires IsUnit(unit)
    ensures Term(Token(Digits(n), unit)) == n * UnitSeconds(unit) * SECOND
  {
    ValueOfDigits(n);
    Associate(n, UnitSeconds(unit));
  }

  lemma Sexagesimal(n: nat)
    ensures n == n / 3600 * 3600 + n / 60 % 60 * 60 + n % 60
  {
    var minutes := n / 60;
    assert n == minutes * 60 + n % 60;
    assert minutes == minutes / 60 * 60 + minutes % 60;
    assert n / 3600 == minutes / 60;
  }

  lemma DurationSum(seconds: nat)
    ensures Sum(DurationTokens(seconds)) == seconds * SECOND
  {
    var h, m, s := seconds / 3600, seconds / 60 % 60, seconds % 60;
    TermOf(h, 'h');
    TermOf(m, 'm');
    TermOf(s, 's');
    SumOfThree(Token(Digits(h), 'h'), Token(Digits(m), 'm'), Token(Digits(s), 's'));
    Sexagesimal(seconds);
  }

  lemma DigitNotNone(s: string)
    requires s != [] && IsDigit(s[0])
    ensures !IsNone(s)
  {
    AsciiSpace(s[0]);
    assert TrimLeft(s) == s;
  }

  lemma NoneMeansZero()
    ensures Meaning("none") == Some(0)
  {
    AsciiSpace('n');
    AsciiSpace('e');
    assert TrimLeft("none") == "none" && TrimRight("none") == "none";
  }

  lemma {:induction false} DurationTextStart(tokens: seq<Token>)
    requires tokens != []
    ensures DurationText(tokens) != [] && IsDigit(DurationText(tokens)[0])
  {
    assert IsDigit(tokens[0].digits[0]);
  }

  lemma PrintParseSeconds(seconds: nat)
    requires 0 < seconds * SECOND <= MAX_INT64
    ensures Meaning(DurationText(DurationTokens(seconds))) == Some((seconds * SECOND) as int64)
  {
    var tokens := DurationTokens(seconds);
    DurationSum(seconds);
    DurationMatches(tokens);
    TokenizeWritten(DurationText(tokens), tokens, seq(|tokens| + 1, _ => ""));
    DurationTextStart(tokens);
    DigitNotNone(DurationText(tokens));
  }

  /** Printing a whole-second duration and parsing it gives the duration back. */
  lemma PrintParse(d: int64, seconds: nat)
    requires d as int == seconds * SECOND
    ensures Meaning(TimeoutText(d as int)) == Some(d)
  {
    if d > 0 {
      assert d as int / SECOND == seconds;
      PrintParseSeconds(seconds);
    } else {
      NoneMeansZero();
    }
  }

  /** Every accepted text has a whole-second meaning, which printing and parsing keep. */
  lemma ParsePrintParse(raw: string) returns (seconds: nat)
    requires Meaning(raw).Some?
    ensures Meaning(raw).value as int == seconds * SECOND
    ensures Meaning(TimeoutText(Meaning(raw).value as int)) == Meaning(raw)
  {
    seconds := WholeSeconds(raw);
    PrintParse(Meaning(raw).value, seconds);
  }

  lemma WholeSeconds(raw: string) returns (seconds: nat)
    requires Meaning(raw).Some?
    ensures Meaning(raw).value as int == seconds * SECOND
  {
    if IsNone(raw) {
      seconds := 0;
    } else {
      seconds := SumWholeSeconds(Tokenize(raw).value);
    }
  }

  // ----- resolution

  /** A tool's own timeout wins over the global one, even over "no timeout". */
  function Resolve(own: Option<int64>, global: int64): int64 {
    if own.Some? then own.value else global
  }
}
