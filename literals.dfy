/** Turning a raw token into a value: integer parsing, symbol lookup, and the
    interpreter chain in which the first interpreter that accepts a token wins. */
module Literals {
  import opened Results
  import opened Values

  predicate IsDigit(ch: char) {
    '0' <= ch <= '9'
  }

  /** Decimal digits, where single underscores may separate two digits, as
      integer parsing accepts them ("1_000"). */
  predicate IsDigitGroups(s: string) {
    && |s| > 0
    && IsDigit(s[0])
    && IsDigit(s[|s| - 1])
    && (forall i :: 0 <= i < |s| ==> IsDigit(s[i]) || s[i] == '_')
    && (forall i :: 0 <= i < |s| - 1 && s[i] == '_' ==> IsDigit(s[i + 1]))
  }

  /** The number a digit string denotes, skipping the separating underscores. */
  function DigitsValue(s: string): nat {
    if s == [] then 0
    else
      var last := s[|s| - 1];
      if IsDigit(last) then 10 * DigitsValue(s[..|s| - 1]) + (last as int - '0' as int)
      else DigitsValue(s[..|s| - 1])
  }

  /** Integer parsing of a token: an optional sign followed by digit groups.
      Anything else is rejected. */
  function ParseInt(s: string): (r: Option<int>)
    ensures r.Some? <==> IsDigitGroups(s) || (|s| > 0 && s[0] in "+-" && IsDigitGroups(s[1..]))
    ensures r.Some? && IsDigit(s[0]) ==> r.value == DigitsValue(s)
    ensures r.Some? && s[0] == '-' ==> r.value == -(DigitsValue(s[1..]) as int)
    ensures r.Some? && s[0] == '+' ==> r.value == DigitsValue(s[1..]) as int
  {
    if IsDigitGroups(s) then Some(DigitsValue(s) as int)
    else if |s| > 0 && s[0] == '-' && IsDigitGroups(s[1..]) then Some(-(DigitsValue(s[1..]) as int))
    else if |s| > 0 && s[0] == '+' && IsDigitGroups(s[1..]) then Some(DigitsValue(s[1..]) as int)
    else None
  }

  function DigitChar(d: nat): char
    requires d < 10
  {
    ('0' as int + d) as char
  }

  /** The decimal numeral of a natural number, as the tokenizer yields it. */
  function Show(n: nat): (s: string)
    ensures |s| > 0
    ensures forall i :: 0 <= i < |s| ==> IsDigit(s[i])
  {
    if n < 10 then [DigitChar(n)] else Show(n / 10) + [DigitChar(n % 10)]
  }

  lemma {:induction false} ShowValue(n: nat)
    ensures DigitsValue(Show(n)) == n
  {
    if n >= 10 {
      var s := Show(n);
      assert s[..|s| - 1] == Show(n / 10);
      ShowValue(n / 10);
    }
  }

  /** Parsing a numeral gives back the number it was printed from. */
  lemma ParseShow(n: nat)
    ensures ParseInt(Show(n)) == Some(n as int)
  {
    ShowValue(n);
  }

  /** One interpreter of the chain: integer parsing, or a symbol table whose
      `get` answers None for a missing name instead of failing. */
  datatype Interpreter = IntParse | SymbolTable(symbols: map<string, Value>)

  function InterpretWith(i: Interpreter, token: string): (r: Option<Value>)
    ensures i.IntParse? ==> (r.Some? <==> ParseInt(token).Some?)
    ensures i.IntParse? && r.Some? ==> r.value == Num(ParseInt(token).value)
    ensures i.SymbolTable? ==> r.Some?
    ensures i.SymbolTable? && token in i.symbols ==> r.value == i.symbols[token]
    ensures i.SymbolTable? && token !in i.symbols ==> r.value == NoneValue
  {
    match i
    case IntParse =>
      (match ParseInt(token)
       case Some(n) => Some(Num(n))
       case None => None)
    case SymbolTable(m) => Some(if token in m then m[token] else NoneValue)
  }

  /** The interpreter chain: the value of the first interpreter, in order, that
      accepts the token; if none does, the token is not interpretable. */
  function InterpretToken(chain: seq<Interpreter>, token: string): (r: Result<Value>)
    ensures r.Ok? <==> exists i :: 0 <= i < |chain| && InterpretWith(chain[i], token).Some?
    ensures r.Ok? ==> exists i :: 0 <= i < |chain| && InterpretWith(chain[i], token) == Some(r.value)
                                   && forall j :: 0 <= j < i ==> InterpretWith(chain[j], token).None?
    ensures r.Err? ==> r.error == NotInterpretable(token)
  {
    if chain == [] then Err(NotInterpretable(token))
    else match InterpretWith(chain[0], token)
      case Some(v) => Ok(v)
      case None =>
        InterpretToken(chain[1..], token)
  }
}
