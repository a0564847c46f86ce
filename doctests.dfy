/** The documented examples of the calculator, evaluated on the default
    calculator and on one whose interpreter chain ends with a symbol table. */
module Doctests {
  import opened Results
  import opened Values
  import opened Literals
  import opened Operators
  import opened Tokens
  import opened Calculators
  import opened Defaults
  import opened Properties

  /** A one-digit numeral is an integer literal outside the table's symbols. */
  lemma Digit(n: nat, chain: seq<Interpreter>)
    requires n < 10 && |chain| > 0 && chain[0] == IntParse
    ensures Show(n) == [DigitChar(n)]
    ensures InterpretToken(chain, Show(n)) == Ok(Num(n))
    ensures Plain(Show(n))
  {
    ParseShow(n);
    assert IsDigit(Show(n)[0]);
  }

  /** A calculator with the default operator table whose interpreter chain
      starts with the integer parser. */
  ghost predicate Integral(c: Calculator) {
    ArithmeticTable(c.operators) && |c.interpreters| > 0 && c.interpreters[0] == IntParse
  }

  /** A one-digit numeral is read by the literal operator as its value, and
      after a value by the adjacency operator. */
  lemma Numeral(c: Calculator, token: string, n: nat)
    requires Integral(c) && n < 10 && token == [DigitChar(n)]
    ensures InterpretToken(c.interpreters, token) == Ok(Num(n))
    ensures Lookup(c.operators, token, 0) == Some(LiteralOp)
    ensures Lookup(c.operators, token, 1) == Some(AdjacentOp)
  {
    Digit(n, c.interpreters);
  }

  /** A numeral alone, ended by the stop token or by the end of input. */
  lemma Lone(c: Calculator, all: seq<string>, n: nat, stop: string, floor: int, fuel: nat)
    requires Integral(c) && n < 10 && |all| > 0 && all[0] == [DigitChar(n)] && all[0] != stop
    requires EndsAt(c, all[1..], stop, floor)
    ensures Calc(c, all, stop, floor, fuel + 2) == Ok((Num(n), if |all| == 1 then [EndOfInput] else all[1..]))
  {
    Numeral(c, all[0], n);
    Atom(c, all, Num(n), stop, floor, fuel);
  }

  // 1+(1) == 2

  lemma ParenOne(c: Calculator, fuel: nat)
    requires Integral(c)
    ensures Calc(c, ["(", "1", ")"], EndOfInput, 2100, fuel + 3) == Ok((Num(1), [EndOfInput]))
  {
    Lone(c, ["1", ")"], 1, ")", 0, fuel);
    Parenthesized(c, ["(", "1", ")"], EndOfInput, 2100, fuel + 2, Num(1), [")"]);
    Ends(c, [], EndOfInput, 2100, Num(1), fuel + 1);
  }

  lemma OnePlusParenOne(c: Calculator, fuel: nat)
    requires Integral(c)
    ensures Evaluation(c, ["1", "+", "(", "1", ")"], fuel + 5) == Ok(Num(2))
  {
    Numeral(c, "1", 1);
    ParenOne(c, fuel);
    ArithmeticCall(Add, 1, 1);
    Literal(c, ["1", "+", "(", "1", ")"], EndOfInput, 0, fuel + 4, Num(1));
    Infix(c, Num(1), ["+", "(", "1", ")"], EndOfInput, 0, fuel + 3, AddOp, Num(1), [EndOfInput], Num(2));
    Ends(c, [EndOfInput], EndOfInput, 0, Num(2), fuel + 2);
  }

  // (((1))+(2)) == 3

  lemma DoubleParenOne(c: Calculator, fuel: nat)
    requires Integral(c)
    ensures Calc(c, ["(", "1", ")", ")", "+", "(", "2", ")", ")"], ")", 0, fuel + 3)
            == Ok((Num(1), [")", "+", "(", "2", ")", ")"]))
  {
    Lone(c, ["1", ")", ")", "+", "(", "2", ")", ")"], 1, ")", 0, fuel);
    Parenthesized(c, ["(", "1", ")", ")", "+", "(", "2", ")", ")"], ")", 0, fuel + 2, Num(1),
                  [")", ")", "+", "(", "2", ")", ")"]);
    Ends(c, [")", "+", "(", "2", ")", ")"], ")", 0, Num(1), fuel + 1);
  }

  lemma ParenTwoInGroup(c: Calculator, fuel: nat)
    requires Integral(c)
    ensures Calc(c, ["(", "2", ")", ")"], ")", 2100, fuel + 3) == Ok((Num(2), [")"]))
  {
    Lone(c, ["2", ")", ")"], 2, ")", 0, fuel);
    Parenthesized(c, ["(", "2", ")", ")"], ")", 2100, fuel + 2, Num(2), [")", ")"]);
    Ends(c, [")"], ")", 2100, Num(2), fuel + 1);
  }

  lemma GroupedSum(c: Calculator, fuel: nat)
    requires Integral(c)
    ensures Calc(c, ["(", "(", "1", ")", ")", "+", "(", "2", ")", ")"], ")", 0, fuel + 5) == Ok((Num(3), [")"]))
  {
    DoubleParenOne(c, fuel + 1);
    ParenTwoInGroup(c, fuel);
    ArithmeticCall(Add, 1, 2);
    Parenthesized(c, ["(", "(", "1", ")", ")", "+", "(", "2", ")", ")"], ")", 0, fuel + 4, Num(1),
                  [")", "+", "(", "2", ")", ")"]);
    Infix(c, Num(1), ["+", "(", "2", ")", ")"], ")", 0, fuel + 3, AddOp, Num(2), [")"], Num(3));
    Ends(c, [")"], ")", 0, Num(3), fuel + 2);
  }

  lemma NestedGroups(c: Calculator, fuel: nat)
    requires Integral(c)
    ensures Evaluation(c, ["(", "(", "(", "1", ")", ")", "+", "(", "2", ")", ")"], fuel + 6) == Ok(Num(3))
  {
    GroupedSum(c, fuel);
    Parenthesized(c, ["(", "(", "(", "1", ")", ")", "+", "(", "2", ")", ")"], EndOfInput, 0, fuel + 5, Num(3), [")"]);
    Ends(c, [], EndOfInput, 0, Num(3), fuel + 4);
  }

  // 2+3*4^2 == 50

  lemma FourSquared(c: Calculator, fuel: nat)
    requires Integral(c)
    ensures Calc(c, ["4", "^", "2"], EndOfInput, 2200, fuel + 4) == Ok((Num(16), [EndOfInput]))
  {
    Numeral(c, "4", 4);
    Lone(c, ["2"], 2, EndOfInput, 2300, fuel);
    PowerCall(4, 2);
    Literal(c, ["4", "^", "2"], EndOfInput, 2200, fuel + 3, Num(4));
    Infix(c, Num(4), ["^", "2"], EndOfInput, 2200, fuel + 2, PowOp, Num(2), [EndOfInput], Num(16));
    Ends(c, [EndOfInput], EndOfInput, 2200, Num(16), fuel + 1);
  }

  lemma ThreeTimesFourSquared(c: Calculator, fuel: nat)
    requires Integral(c)
    ensures Calc(c, ["3", "*", "4", "^", "2"], EndOfInput, 2100, fuel + 6) == Ok((Num(48), [EndOfInput]))
  {
    Numeral(c, "3", 3);
    FourSquared(c, fuel);
    ArithmeticCall(Mul, 3, 16);
    Literal(c, ["3", "*", "4", "^", "2"], EndOfInput, 2100, fuel + 5, Num(3));
    Infix(c, Num(3), ["*", "4", "^", "2"], EndOfInput, 2100, fuel + 4, MulOp, Num(16), [EndOfInput], Num(48));
    Ends(c, [EndOfInput], EndOfInput, 2100, Num(48), fuel + 3);
  }

  lemma MixedPrecedence(c: Calculator, fuel: nat)
    requires Integral(c)
    ensures Evaluation(c, ["2", "+", "3", "*", "4", "^", "2"], fuel + 8) == Ok(Num(50))
  {
    Numeral(c, "2", 2);
    ThreeTimesFourSquared(c, fuel);
    ArithmeticCall(Add, 2, 48);
    Literal(c, ["2", "+", "3", "*", "4", "^", "2"], EndOfInput, 0, fuel + 7, Num(2));
    Infix(c, Num(2), ["+", "3", "*", "4", "^", "2"], EndOfInput, 0, fuel + 6, AddOp, Num(48), [EndOfInput], Num(50));
    Ends(c, [EndOfInput], EndOfInput, 0, Num(50), fuel + 5);
  }

  // 2^2^2 == 16

  lemma TwoSquaredInExponent(c: Calculator, fuel: nat)
    requires Integral(c)
    ensures Calc(c, ["2", "^", "2"], EndOfInput, 2300, fuel + 4) == Ok((Num(4), [EndOfInput]))
  {
    Numeral(c, "2", 2);
    Lone(c, ["2"], 2, EndOfInput, 2300, fuel);
    PowerCall(2, 2);
    Literal(c, ["2", "^", "2"], EndOfInput, 2300, fuel + 3, Num(2));
    Infix(c, Num(2), ["^", "2"], EndOfInput, 2300, fuel + 2, PowOp, Num(2), [EndOfInput], Num(4));
    Ends(c, [EndOfInput], EndOfInput, 2300, Num(4), fuel + 1);
  }

  lemma PowerRightAssociative(c: Calculator, fuel: nat)
    requires Integral(c)
    ensures Evaluation(c, ["2", "^", "2", "^", "2"], fuel + 6) == Ok(Num(16))
  {
    Numeral(c, "2", 2);
    TwoSquaredInExponent(c, fuel);
    PowerCall(2, 4);
    Literal(c, ["2", "^", "2", "^", "2"], EndOfInput, 0, fuel + 5, Num(2));
    Infix(c, Num(2), ["^", "2", "^", "2"], EndOfInput, 0, fuel + 4, PowOp, Num(4), [EndOfInput], Num(16));
    Ends(c, [EndOfInput], EndOfInput, 0, Num(16), fuel + 3);
  }

  // ---3 == -3

  lemma MinusThree(c: Calculator, fuel: nat)
    requires Integral(c)
    ensures Calc(c, ["-", "3"], EndOfInput, 2305, fuel + 3) == Ok((Num(-3), [EndOfInput]))
  {
    Lone(c, ["3"], 3, EndOfInput, 2305, fuel);
    SignCall(Neg, 3);
    Prefix(c, ["-", "3"], EndOfInput, 2305, fuel + 2, MinusOp, Num(3), [EndOfInput], Num(-3));
    Ends(c, [EndOfInput], EndOfInput, 2305, Num(-3), fuel + 1);
  }

  lemma MinusMinusThree(c: Calculator, fuel: nat)
    requires Integral(c)
    ensures Calc(c, ["-", "-", "3"], EndOfInput, 2305, fuel + 4) == Ok((Num(3), [EndOfInput]))
  {
    MinusThree(c, fuel);
    SignCall(Neg, -3);
    Prefix(c, ["-", "-", "3"], EndOfInput, 2305, fuel + 3, MinusOp, Num(-3), [EndOfInput], Num(3));
    Ends(c, [EndOfInput], EndOfInput, 2305, Num(3), fuel + 2);
  }

  lemma RepeatedNegation(c: Calculator, fuel: nat)
    requires Integral(c)
    ensures Evaluation(c, ["-", "-", "-", "3"], fuel + 5) == Ok(Num(-3))
  {
    MinusMinusThree(c, fuel);
    SignCall(Neg, 3);
    Prefix(c, ["-", "-", "-", "3"], EndOfInput, 0, fuel + 4, MinusOp, Num(3), [EndOfInput], Num(-3));
    Ends(c, [EndOfInput], EndOfInput, 0, Num(-3), fuel + 3);
  }

  // -3^2 == -9

  lemma ThreeSquaredUnderSign(c: Calculator, fuel: nat)
    requires Integral(c)
    ensures Calc(c, ["3", "^", "2"], EndOfInput, 2305, fuel + 4) == Ok((Num(9), [EndOfInput]))
  {
    Numeral(c, "3", 3);
    Lone(c, ["2"], 2, EndOfInput, 2300, fuel);
    PowerCall(3, 2);
    Literal(c, ["3", "^", "2"], EndOfInput, 2305, fuel + 3, Num(3));
    Infix(c, Num(3), ["^", "2"], EndOfInput, 2305, fuel + 2, PowOp, Num(2), [EndOfInput], Num(9));
    Ends(c, [EndOfInput], EndOfInput, 2305, Num(9), fuel + 1);
  }

  lemma PowerBeforeNegation(c: Calculator, fuel: nat)
    requires Integral(c)
    ensures Evaluation(c, ["-", "3", "^", "2"], fuel + 5) == Ok(Num(-9))
  {
    ThreeSquaredUnderSign(c, fuel);
    SignCall(Neg, 9);
    Prefix(c, ["-", "3", "^", "2"], EndOfInput, 0, fuel + 4, MinusOp, Num(9), [EndOfInput], Num(-9));
    Ends(c, [EndOfInput], EndOfInput, 0, Num(-9), fuel + 3);
  }

  // ---1 + 1 == 0

  lemma MinusOneBeforePlus(c: Calculator, fuel: nat)
    requires Integral(c)
    ensures Calc(c, ["-", "1", "+", "1"], EndOfInput, 2305, fuel + 3) == Ok((Num(-1), ["+", "1"]))
  {
    Lone(c, ["1", "+", "1"], 1, EndOfInput, 2305, fuel);
    SignCall(Neg, 1);
    Prefix(c, ["-", "1", "+", "1"], EndOfInput, 2305, fuel + 2, MinusOp, Num(1), ["+", "1"], Num(-1));
    Ends(c, ["+", "1"], EndOfInput, 2305, Num(-1), fuel + 1);
  }

  lemma MinusMinusOneBeforePlus(c: Calculator, fuel: nat)
    requires Integral(c)
    ensures Calc(c, ["-", "-", "1", "+", "1"], EndOfInput, 2305, fuel + 4) == Ok((Num(1), ["+", "1"]))
  {
    MinusOneBeforePlus(c, fuel);
    SignCall(Neg, -1);
    Prefix(c, ["-", "-", "1", "+", "1"], EndOfInput, 2305, fuel + 3, MinusOp, Num(-1), ["+", "1"], Num(1));
    Ends(c, ["+", "1"], EndOfInput, 2305, Num(1), fuel + 2);
  }

  lemma NegationBeforeSum(c: Calculator, fuel: nat)
    requires Integral(c)
    ensures Evaluation(c, ["-", "-", "-", "1", "+", "1"], fuel + 5) == Ok(Num(0))
  {
    MinusMinusOneBeforePlus(c, fuel);
    Lone(c, ["1"], 1, EndOfInput, 2100, fuel + 1);
    SignCall(Neg, 1);
    ArithmeticCall(Add, -1, 1);
    Prefix(c, ["-", "-", "-", "1", "+", "1"], EndOfInput, 0, fuel + 4, MinusOp, Num(1), ["+", "1"], Num(-1));
    Infix(c, Num(-1), ["+", "1"], EndOfInput, 0, fuel + 3, AddOp, Num(1), [EndOfInput], Num(0));
    Ends(c, [EndOfInput], EndOfInput, 0, Num(0), fuel + 2);
  }

  // 3(5) == 15

  lemma ParenFive(c: Calculator, fuel: nat)
    requires Integral(c)
    ensures Calc(c, ["(", "5", ")"], EndOfInput, 2400, fuel + 3) == Ok((Num(5), [EndOfInput]))
  {
    Lone(c, ["5", ")"], 5, ")", 0, fuel);
    Parenthesized(c, ["(", "5", ")"], EndOfInput, 2400, fuel + 2, Num(5), [")"]);
    Ends(c, [], EndOfInput, 2400, Num(5), fuel + 1);
  }

  lemma ImplicitProduct(c: Calculator, fuel: nat)
    requires Integral(c)
    ensures Evaluation(c, ["3", "(", "5", ")"], fuel + 5) == Ok(Num(15))
  {
    Numeral(c, "3", 3);
    ParenFive(c, fuel);
    Literal(c, ["3", "(", "5", ")"], EndOfInput, 0, fuel + 4, Num(3));
    Adjacent(c, Num(3), ["(", "5", ")"], EndOfInput, 0, fuel + 3, Num(5), [EndOfInput], Num(15));
    Ends(c, [EndOfInput], EndOfInput, 0, Num(15), fuel + 2);
  }

  // 2^3*4+5*6 == 62

  lemma FiveTimesSix(c: Calculator, fuel: nat)
    requires Integral(c)
    ensures Calc(c, ["5", "*", "6"], EndOfInput, 2100, fuel + 4) == Ok((Num(30), [EndOfInput]))
  {
    Numeral(c, "5", 5);
    Lone(c, ["6"], 6, EndOfInput, 2200, fuel);
    ArithmeticCall(Mul, 5, 6);
    Literal(c, ["5", "*", "6"], EndOfInput, 2100, fuel + 3, Num(5));
    Infix(c, Num(5), ["*", "6"], EndOfInput, 2100, fuel + 2, MulOp, Num(6), [EndOfInput], Num(30));
    Ends(c, [EndOfInput], EndOfInput, 2100, Num(30), fuel + 1);
  }

  /** After `2^3*4` the loop at floor 0 holds 32 and meets `+5*6`. */
  lemma SumStage(c: Calculator, fuel: nat)
    requires Integral(c)
    ensures Loop(c, ["+", "5", "*", "6"], EndOfInput, 0, [Num(32)], fuel + 5) == Ok((Num(62), [EndOfInput]))
  {
    FiveTimesSix(c, fuel);
    ArithmeticCall(Add, 32, 30);
    Infix(c, Num(32), ["+", "5", "*", "6"], EndOfInput, 0, fuel + 4, AddOp, Num(30), [EndOfInput], Num(62));
    Ends(c, [EndOfInput], EndOfInput, 0, Num(62), fuel + 3);
  }

  /** After `2^3` the loop at floor 0 holds 8 and meets `*4+5*6`. */
  lemma ProductStage(c: Calculator, fuel: nat)
    requires Integral(c)
    ensures Loop(c, ["*", "4", "+", "5", "*", "6"], EndOfInput, 0, [Num(8)], fuel + 6) == Ok((Num(62), [EndOfInput]))
  {
    SumStage(c, fuel);
    Lone(c, ["4", "+", "5", "*", "6"], 4, EndOfInput, 2200, fuel + 3);
    ArithmeticCall(Mul, 8, 4);
    Infix(c, Num(8), ["*", "4", "+", "5", "*", "6"], EndOfInput, 0, fuel + 5, MulOp, Num(4), ["+", "5", "*", "6"], Num(32));
  }

  lemma LeftToRightLevels(c: Calculator, fuel: nat)
    requires Integral(c)
    ensures Evaluation(c, ["2", "^", "3", "*", "4", "+", "5", "*", "6"], fuel + 8) == Ok(Num(62))
  {
    ProductStage(c, fuel);
    Numeral(c, "2", 2);
    Lone(c, ["3", "*", "4", "+", "5", "*", "6"], 3, EndOfInput, 2300, fuel + 4);
    PowerCall(2, 3);
    Literal(c, ["2", "^", "3", "*", "4", "+", "5", "*", "6"], EndOfInput, 0, fuel + 7, Num(2));
    Infix(c, Num(2), ["^", "3", "*", "4", "+", "5", "*", "6"], EndOfInput, 0, fuel + 6, PowOp, Num(3),
          ["*", "4", "+", "5", "*", "6"], Num(8));
  }

  // Associativity: 2^3^2 == 512 groups to the right, 8-3-2 == 3 to the left

  lemma PowerGroupsRight(c: Calculator, fuel: nat)
    requires Integral(c)
    ensures Evaluation(c, ["2", "^", "3", "^", "2"], fuel + 6) == Ok(Num(512))
  {
    var all := ["2", "^", "3", "^", "2"];
    var ops := all[1..];
    assert ops == ["^", "3", "^", "2"];
    assert TwoInfix(c, ops, 0, PowOp, PowOp, Num(3), Num(2)) by {
      Numeral(c, "3", 3);
      Numeral(c, "2", 2);
      assert ops[1..] == ["3", "^", "2"] && ops[2..] == ["^", "2"] && ops[3..] == ["2"];
    }
    assert Loop(c, ops, EndOfInput, 0, [Num(2)], fuel + 5) == Ok((Num(512), [EndOfInput])) by {
      PowerCall(3, 2);
      PowerCall(2, 9);
      assert Power(3, 2) == 9 && Power(2, 9) == 512;
      RightGrouping(c, Num(2), ops, 0, fuel, PowOp, PowOp, Num(3), Num(2), Num(9), Num(512));
    }
    assert LiteralAt(c, all, EndOfInput, Num(2)) by {
      Numeral(c, "2", 2);
    }
    Literal(c, all, EndOfInput, 0, fuel + 5, Num(2));
  }

  lemma MinusGroupsLeft(c: Calculator, fuel: nat)
    requires Integral(c)
    ensures Evaluation(c, ["8", "-", "3", "-", "2"], fuel + 5) == Ok(Num(3))
  {
    var all := ["8", "-", "3", "-", "2"];
    var ops := all[1..];
    assert ops == ["-", "3", "-", "2"];
    assert TwoInfix(c, ops, 0, SubOp, SubOp, Num(3), Num(2)) by {
      Numeral(c, "3", 3);
      Numeral(c, "2", 2);
      assert ops[1..] == ["3", "-", "2"] && ops[2..] == ["-", "2"] && ops[3..] == ["2"];
    }
    assert Loop(c, ops, EndOfInput, 0, [Num(8)], fuel + 4) == Ok((Num(3), [EndOfInput])) by {
      ArithmeticCall(Sub, 8, 3);
      ArithmeticCall(Sub, 5, 2);
      LeftGrouping(c, Num(8), ops, 0, fuel, SubOp, SubOp, Num(3), Num(2), Num(5), Num(3));
    }
    assert LiteralAt(c, all, EndOfInput, Num(8)) by {
      Numeral(c, "8", 8);
    }
    Literal(c, all, EndOfInput, 0, fuel + 4, Num(8));
  }

  /** The symbols of the examples: three numbers and, standing in for the
      square root, a function defined on 4. */
  const Symbols: map<string, Value> := map["a" := Num(1), "b" := Num(2), "c" := Num(3), "sqrt" := Fn(map[4 := 2])]

  /** A calculator with the default operator table whose interpreters are the
      integer parser and then a lookup in the symbols above. */
  ghost predicate Symbolic(c: Calculator) {
    Integral(c) && c.interpreters == [IntParse, SymbolTable(Symbols)]
  }

  /** The symbols are neither numerals nor tokens with entries of their own. */
  lemma SymbolsArePlain()
    ensures forall t :: t in Symbols ==> Plain(t) && ParseInt(t).None?
  {
    assert Symbols.Keys == {"a", "b", "c", "sqrt"};
  }

  /** A symbol is not a numeral, so the symbol table supplies its value. */
  lemma Symbol(c: Calculator, token: string)
    requires Symbolic(c) && token in Symbols
    ensures InterpretToken(c.interpreters, token) == Ok(Symbols[token])
    ensures Lookup(c.operators, token, 0) == Some(LiteralOp)
    ensures Lookup(c.operators, token, 1) == Some(AdjacentOp)
  {
    SymbolsArePlain();
    assert c.interpreters[1..] == [SymbolTable(Symbols)];
  }

  /** A symbol alone, ended by the end of input. */
  lemma LoneSymbol(c: Calculator, token: string, floor: int, fuel: nat)
    requires Symbolic(c) && token in Symbols
    ensures Calc(c, [token], EndOfInput, floor, fuel + 2) == Ok((Symbols[token], [EndOfInput]))
  {
    Symbol(c, token);
    SymbolsArePlain();
    Atom(c, [token], Symbols[token], EndOfInput, floor, fuel);
  }

  // a+b*c == 7

  lemma BTimesC(c: Calculator, fuel: nat)
    requires Symbolic(c)
    ensures Calc(c, ["b", "*", "c"], EndOfInput, 2100, fuel + 4) == Ok((Num(6), [EndOfInput]))
  {
    Symbol(c, "b");
    LoneSymbol(c, "c", 2200, fuel);
    ArithmeticCall(Mul, 2, 3);
    Literal(c, ["b", "*", "c"], EndOfInput, 2100, fuel + 3, Num(2));
    Infix(c, Num(2), ["*", "c"], EndOfInput, 2100, fuel + 2, MulOp, Num(3), [EndOfInput], Num(6));
    Ends(c, [EndOfInput], EndOfInput, 2100, Num(6), fuel + 1);
  }

  lemma SymbolArithmetic(c: Calculator, fuel: nat)
    requires Symbolic(c)
    ensures Evaluation(c, ["a", "+", "b", "*", "c"], fuel + 6) == Ok(Num(7))
  {
    Symbol(c, "a");
    BTimesC(c, fuel);
    ArithmeticCall(Add, 1, 6);
    Literal(c, ["a", "+", "b", "*", "c"], EndOfInput, 0, fuel + 5, Num(1));
    Infix(c, Num(1), ["+", "b", "*", "c"], EndOfInput, 0, fuel + 4, AddOp, Num(6), [EndOfInput], Num(7));
    Ends(c, [EndOfInput], EndOfInput, 0, Num(7), fuel + 3);
  }

  // sqrt(4) == 2

  lemma ParenFour(c: Calculator, fuel: nat)
    requires Integral(c)
    ensures Calc(c, ["(", "4", ")"], EndOfInput, 2400, fuel + 3) == Ok((Num(4), [EndOfInput]))
  {
    Lone(c, ["4", ")"], 4, ")", 0, fuel);
    Parenthesized(c, ["(", "4", ")"], EndOfInput, 2400, fuel + 2, Num(4), [")"]);
    Ends(c, [], EndOfInput, 2400, Num(4), fuel + 1);
  }

  lemma CallWithParentheses(c: Calculator, fuel: nat)
    requires Symbolic(c)
    ensures Evaluation(c, ["sqrt", "(", "4", ")"], fuel + 5) == Ok(Num(2))
  {
    Symbol(c, "sqrt");
    ParenFour(c, fuel);
    Literal(c, ["sqrt", "(", "4", ")"], EndOfInput, 0, fuel + 4, Fn(map[4 := 2]));
    Adjacent(c, Fn(map[4 := 2]), ["(", "4", ")"], EndOfInput, 0, fuel + 3, Num(4), [EndOfInput], Num(2));
    Ends(c, [EndOfInput], EndOfInput, 0, Num(2), fuel + 2);
  }

  // sqrt 4 + 1 == 3

  /** After `sqrt 4` the loop at floor 0 holds 2 and meets `+1`. */
  lemma PlusOneStage(c: Calculator, fuel: nat)
    requires Integral(c)
    ensures Loop(c, ["+", "1"], EndOfInput, 0, [Num(2)], fuel + 3) == Ok((Num(3), [EndOfInput]))
  {
    Lone(c, ["1"], 1, EndOfInput, 2100, fuel);
    ArithmeticCall(Add, 2, 1);
    Infix(c, Num(2), ["+", "1"], EndOfInput, 0, fuel + 2, AddOp, Num(1), [EndOfInput], Num(3));
    Ends(c, [EndOfInput], EndOfInput, 0, Num(3), fuel + 1);
  }

  /** After `sqrt` the loop at floor 0 holds the function and meets `4+1`:
      the adjacency operand stops before `+`. */
  lemma ApplicationStage(c: Calculator, fuel: nat)
    requires Symbolic(c)
    ensures Loop(c, ["4", "+", "1"], EndOfInput, 0, [Fn(map[4 := 2])], fuel + 4) == Ok((Num(3), [EndOfInput]))
  {
    Numeral(c, "4", 4);
    Lone(c, ["4", "+", "1"], 4, EndOfInput, 2400, fuel + 1);
    PlusOneStage(c, fuel);
    Adjacent(c, Fn(map[4 := 2]), ["4", "+", "1"], EndOfInput, 0, fuel + 3, Num(4), ["+", "1"], Num(2));
  }

  lemma CallBindsTighter(c: Calculator, fuel: nat)
    requires Symbolic(c)
    ensures Evaluation(c, ["sqrt", "4", "+", "1"], fuel + 5) == Ok(Num(3))
  {
    Symbol(c, "sqrt");
    ApplicationStage(c, fuel);
    Literal(c, ["sqrt", "4", "+", "1"], EndOfInput, 0, fuel + 4, Fn(map[4 := 2]));
  }

  // Failures

  /** With nothing before the end of input there is no value to return. */
  lemma EmptyInput(c: Calculator, fuel: nat)
    requires ValidTable(c.operators)
    ensures Evaluation(c, [], fuel + 1) == Err(ArityMismatch(EndOfInput, 0))
  {
    NothingBeforeStop(c, [], EndOfInput, 0, fuel);
  }

  /** An empty group: its contents end at once at the closer. */
  lemma EmptyGroup(c: Calculator, fuel: nat)
    requires Integral(c)
    ensures Evaluation(c, ["(", ")"], fuel + 2) == Err(ArityMismatch(")", 0))
  {
    NothingBeforeStop(c, [")"], ")", 0, fuel);
    GroupStep(c, ParenOp, [")"], "(", EndOfInput, fuel + 1);
    Fails(c, ["(", ")"], EndOfInput, 0, [], fuel + 1, ParenOp, ArityMismatch(")", 0));
  }

  /** The end of input, read as an operand, is not a numeral. */
  lemma EndAsOperand(c: Calculator, fuel: nat)
    requires ArithmeticTable(c.operators) && c.interpreters == DefaultInterpreters
    ensures Calc(c, [EndOfInput], ")", 2400, fuel + 1) == Err(NotInterpretable(EndOfInput))
  {
    assert Plain(EndOfInput);
    assert InterpretToken(c.interpreters, EndOfInput) == Err(NotInterpretable(EndOfInput));
    LiteralReadsOneToken(c, [], EndOfInput, ")", fuel);
    Fails(c, [EndOfInput], ")", 2400, [], fuel, LiteralOp, NotInterpretable(EndOfInput));
  }

  /** Inside a group the end of input is not the closer: it falls to the
      adjacency operator, whose operand it cannot be. */
  lemma OneThenEnd(c: Calculator, fuel: nat)
    requires ArithmeticTable(c.operators) && c.interpreters == DefaultInterpreters
    ensures Calc(c, ["1"], ")", 0, fuel + 3) == Err(NotInterpretable(EndOfInput))
  {
    Numeral(c, "1", 1);
    assert Plain(EndOfInput);
    EndAsOperand(c, fuel);
    Literal(c, ["1"], ")", 0, fuel + 2, Num(1));
    assert [EndOfInput] + [] == [EndOfInput];
    PrecedenceStep(c, AdjacentOp, [], EndOfInput, ")", [Num(1)], fuel + 1);
    Fails(c, [], ")", 0, [Num(1)], fuel + 1, AdjacentOp, NotInterpretable(EndOfInput));
  }

  /** `(1` fails, not with a mismatched-group error, but because the end of
      input that the adjacency operator hands to the literal is not interpretable. */
  lemma UnclosedGroup(c: Calculator, fuel: nat)
    requires ArithmeticTable(c.operators) && c.interpreters == DefaultInterpreters
    ensures Evaluation(c, ["(", "1"], fuel + 5) == Err(NotInterpretable(EndOfInput))
  {
    OneThenEnd(c, fuel + 1);
    GroupStep(c, ParenOp, ["1"], "(", EndOfInput, fuel + 4);
    Fails(c, ["(", "1"], EndOfInput, 0, [], fuel + 4, ParenOp, NotInterpretable(EndOfInput));
  }

  /** Parentheses are not transparent: a lone `)` is a symbol, read as None
      because no symbol has that name ... */
  lemma CloserAsSymbol(c: Calculator, fuel: nat)
    requires Symbolic(c)
    ensures Evaluation(c, [")"], fuel + 2) == Ok(NoneValue)
  {
    assert Plain(")");
    assert ParseInt(")").None?;
    assert InterpretToken(c.interpreters, ")") == Ok(NoneValue) by {
      assert c.interpreters[1..] == [SymbolTable(Symbols)];
    }
    Atom(c, [")"], NoneValue, EndOfInput, 0, fuel);
  }

  /** ... while inside parentheses it closes the group at once, leaving the
      group empty. */
  lemma CloserAfterEmptyGroup(c: Calculator, fuel: nat)
    requires Integral(c)
    ensures Evaluation(c, ["(", ")", ")"], fuel + 2) == Err(ArityMismatch(")", 0))
  {
    NothingBeforeStop(c, [")", ")"], ")", 0, fuel);
    GroupStep(c, ParenOp, [")", ")"], "(", EndOfInput, fuel + 1);
    assert ["(", ")", ")"][1..] == [")", ")"];
    Fails(c, ["(", ")", ")"], EndOfInput, 0, [], fuel + 1, ParenOp, ArityMismatch(")", 0));
  }

  /** With the default operators no group ever reports a mismatched closer. */
  lemma DefaultGroupsClose(rest: seq<string>, closer: string, fuel: nat)
    ensures var r := Calc(DefaultCalculator, rest, closer, 0, fuel);
            r.Ok? ==> Next(r.value.1).0 == closer
  {
    DefaultTableValid();
    DefaultTrumps();
    GroupsClose(DefaultCalculator, rest, closer, fuel);
  }

  /** With the default operators, an opening parenthesis whose closer never
      follows never yields a value, whatever comes after it: the evaluation
      raises, or runs out of fuel where it does not terminate. */
  lemma UnclosedParenFails(c: Calculator, e: seq<string>, fuel: nat)
    requires ArithmeticTable(c.operators) && ")" !in e
    ensures Evaluation(c, ["("] + e, fuel).Err?
  {
    var all := ["("] + e;
    if fuel > 0 {
      assert Next(all) == ("(", e) by {
        assert all[1..] == e;
      }
      UnclosedGroupFails(c, ")", e, EndOfInput, fuel - 1);
      assert ParenOp.steps[1..] == [];
      assert ProcessResult(c, ParenOp, e, "(", EndOfInput, [], fuel - 1).Err?;
      LoopApplies(c, all, EndOfInput, 0, [], fuel, ParenOp);
    }
  }

  /** The calculator built with the integer parser and the symbol table as its
      interpreters and the default operators. */
  const SymbolCalculator := Calculator([IntParse, SymbolTable(Symbols)], DefaultTable)

  lemma SymbolCalculatorBuilt()
    ensures NewCalculator([IntParse, SymbolTable(Symbols)], []) == SymbolCalculator
  {
    DefaultTableBuilt();
  }

  /** The documented examples on the calculator built with no arguments. */
  lemma DefaultExamples(fuel: nat)
    ensures Evaluation(DefaultCalculator, ["1", "+", "(", "1", ")"], fuel + 5) == Ok(Num(2))
    ensures Evaluation(DefaultCalculator, ["(", "(", "(", "1", ")", ")", "+", "(", "2", ")", ")"], fuel + 6) == Ok(Num(3))
    ensures Evaluation(DefaultCalculator, ["2", "+", "3", "*", "4", "^", "2"], fuel + 8) == Ok(Num(50))
    ensures Evaluation(DefaultCalculator, ["2", "^", "2", "^", "2"], fuel + 6) == Ok(Num(16))
    ensures Evaluation(DefaultCalculator, ["-", "-", "-", "3"], fuel + 5) == Ok(Num(-3))
    ensures Evaluation(DefaultCalculator, ["-", "3", "^", "2"], fuel + 5) == Ok(Num(-9))
    ensures Evaluation(DefaultCalculator, ["-", "-", "-", "1", "+", "1"], fuel + 5) == Ok(Num(0))
    ensures Evaluation(DefaultCalculator, ["3", "(", "5", ")"], fuel + 5) == Ok(Num(15))
    ensures Evaluation(DefaultCalculator, ["2", "^", "3", "*", "4", "+", "5", "*", "6"], fuel + 8) == Ok(Num(62))
  {
    DefaultArithmetic();
    var c := DefaultCalculator;
    OnePlusParenOne(c, fuel);
    NestedGroups(c, fuel);
    MixedPrecedence(c, fuel);
    PowerRightAssociative(c, fuel);
    RepeatedNegation(c, fuel);
    PowerBeforeNegation(c, fuel);
    NegationBeforeSum(c, fuel);
    ImplicitProduct(c, fuel);
    LeftToRightLevels(c, fuel);
  }

  /** The documented examples on the calculator that also reads symbols. */
  lemma SymbolExamples(fuel: nat)
    ensures Evaluation(SymbolCalculator, ["a", "+", "b", "*", "c"], fuel + 6) == Ok(Num(7))
    ensures Evaluation(SymbolCalculator, ["sqrt", "(", "4", ")"], fuel + 5) == Ok(Num(2))
    ensures Evaluation(SymbolCalculator, ["sqrt", "4", "+", "1"], fuel + 5) == Ok(Num(3))
  {
    DefaultArithmetic();
    var c := SymbolCalculator;
    SymbolArithmetic(c, fuel);
    CallWithParentheses(c, fuel);
    CallBindsTighter(c, fuel);
  }

  /** The failures above on the calculator built with no arguments. */
  lemma DefaultFailures(fuel: nat)
    ensures Evaluation(DefaultCalculator, [], fuel + 1) == Err(ArityMismatch(EndOfInput, 0))
    ensures Evaluation(DefaultCalculator, ["(", ")"], fuel + 2) == Err(ArityMismatch(")", 0))
    ensures Evaluation(DefaultCalculator, ["(", "1"], fuel + 5) == Err(NotInterpretable(EndOfInput))
  {
    DefaultArithmetic();
    EmptyInput(DefaultCalculator, fuel);
    EmptyGroup(DefaultCalculator, fuel);
    UnclosedGroup(DefaultCalculator, fuel);
  }

  /** Right and left grouping on the calculator built with no arguments. */
  lemma AssociativityExamples(fuel: nat)
    ensures Evaluation(DefaultCalculator, ["2", "^", "3", "^", "2"], fuel + 6) == Ok(Num(512))
    ensures Evaluation(DefaultCalculator, ["8", "-", "3", "-", "2"], fuel + 5) == Ok(Num(3))
  {
    DefaultArithmetic();
    PowerGroupsRight(DefaultCalculator, fuel);
    MinusGroupsLeft(DefaultCalculator, fuel);
  }

  /** Wrapping an expression in parentheses can change its outcome: on the
      calculator that reads symbols, `)` is None but `())` fails, and on the
      default calculator the empty input and `()` fail at different tokens. */
  lemma GroupingNotTransparent(fuel: nat)
    ensures Evaluation(SymbolCalculator, [")"], fuel + 2) == Ok(NoneValue)
    ensures Evaluation(SymbolCalculator, ["(", ")", ")"], fuel + 2) == Err(ArityMismatch(")", 0))
    ensures Evaluation(DefaultCalculator, [], fuel + 1) == Err(ArityMismatch(EndOfInput, 0))
    ensures Evaluation(DefaultCalculator, ["(", ")"], fuel + 2) == Err(ArityMismatch(")", 0))
  {
    DefaultArithmetic();
    CloserAsSymbol(SymbolCalculator, fuel);
    CloserAfterEmptyGroup(SymbolCalculator, fuel);
    EmptyInput(DefaultCalculator, fuel);
    EmptyGroup(DefaultCalculator, fuel);
  }
}
