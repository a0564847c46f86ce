/** Properties of the evaluation loop and of operator processing that hold for
    every calculator: how one operator application advances the stream, where
    a sub-evaluation can stop, and what its remainder can contain. */
module Properties {
  import opened Results
  import opened Values
  import opened Literals
  import opened Operators
  import opened Tokens
  import opened Calculators

  /** The literal operator puts its token back and its interpreting step reads
      that same token again: the stream is left as it was after the token, and
      the value is the token's interpretation. */
  lemma LiteralReadsOneToken(c: Calculator, rest: seq<string>, token: string, stop: string, fuel: nat)
    requires ValidTable(c.operators)
    ensures var r := ProcessResult(c, LiteralOp, rest, token, stop, [], fuel);
            && (r.Ok? <==> InterpretToken(c.interpreters, token).Ok?)
            && (r.Ok? ==> r.value == (InterpretToken(c.interpreters, token).value, rest))
            && (r.Err? ==> r.error == NotInterpretable(token))
  {
    var rest0 := [token] + rest;
    assert Next(rest0) == (token, rest) by {
      assert rest0[1..] == rest;
    }
    assert LiteralOp.steps[1..] == [];
    match InterpretToken(c.interpreters, token)
    case Ok(v) =>
      assert RunStep(c, Interp, rest0, stop, fuel) == Ok((v, rest));
      assert [] + [v] == [v];
      assert Steps(c, LiteralOp.steps[1..], rest, stop, [] + [v], fuel) == Ok(([v], rest));
      assert Steps(c, LiteralOp.steps, rest0, stop, [], fuel) == Ok(([v], rest));
    case Err(e) =>
      assert RunStep(c, Interp, rest0, stop, fuel) == Err(e);
  }

  /** An operator with a single precedence step evaluates the rest of the
      expression at that floor, with the caller's stop token, and applies its
      action to the pending values followed by the result. A wildcard
      operator evaluates from its own token, which it put back. */
  lemma PrecedenceStep(c: Calculator, op: Operator, rest: seq<string>, token: string, stop: string,
                       args: seq<Value>, fuel: nat)
    requires ValidTable(c.operators)
    requires |op.steps| == 1 && op.steps[0].Prec? && op.action.Apply?
    ensures var rest0 := if op.token == Wild then [token] + rest else rest;
            var operand := Calc(c, rest0, stop, op.steps[0].floor, fuel);
            var r := ProcessResult(c, op, rest, token, stop, args, fuel);
            && (operand.Err? ==> r == Err(operand.error))
            && (operand.Ok? ==> r == match Call(op.action.f, args + [operand.value.0])
                                     case Ok(v) => Ok((v, operand.value.1))
                                     case Err(e) => Err(e))
  {
    var rest0 := if op.token == Wild then [token] + rest else rest;
    assert op.steps[1..] == [];
    assert Steps(c, op.steps, rest0, stop, args, fuel)
        == match Calc(c, rest0, stop, op.steps[0].floor, fuel)
           case Err(e) => Err(e)
           case Ok((v, rest1)) => Steps(c, [], rest1, stop, args + [v], fuel);
  }

  /** A group evaluates up to its closer at floor 0 and then demands the closer:
      any other next token, including the end of input, is a mismatched group. */
  lemma GroupStep(c: Calculator, op: Operator, rest: seq<string>, token: string, stop: string, fuel: nat)
    requires ValidTable(c.operators)
    requires op.token != Wild && |op.steps| == 1 && op.steps[0].Group? && op.action == Identity
    ensures var inner := Calc(c, rest, op.steps[0].closer, 0, fuel);
            var r := ProcessResult(c, op, rest, token, stop, [], fuel);
            && (inner.Err? ==> r == Err(inner.error))
            && (inner.Ok? && Next(inner.value.1).0 == op.steps[0].closer ==>
                  r == Ok((inner.value.0, Next(inner.value.1).1)))
            && (inner.Ok? && Next(inner.value.1).0 != op.steps[0].closer ==>
                  r == Err(MismatchedGroup(op.steps[0].closer, Next(inner.value.1).0)))
  {
    assert op.steps[1..] == [];
    var closer := op.steps[0].closer;
    match Calc(c, rest, closer, 0, fuel)
    case Err(e) =>
      assert RunStep(c, op.steps[0], rest, stop, fuel) == Err(e);
    case Ok((v, rest1)) =>
      var (end, rest2) := Next(rest1);
      if end == closer {
        assert RunStep(c, op.steps[0], rest, stop, fuel) == Ok((v, rest2));
        assert [] + [v] == [v];
        assert Steps(c, op.steps[1..], rest2, stop, [] + [v], fuel) == Ok(([v], rest2));
        assert Steps(c, op.steps, rest, stop, [], fuel) == Ok(([v], rest2));
      } else {
        assert RunStep(c, op.steps[0], rest, stop, fuel) == Err(MismatchedGroup(closer, end));
      }
  }

  /** The next token ends a loop with one pending value: it is the stop token
      or an operator that the floor outranks. */
  ghost predicate EndsAt(c: Calculator, rest: seq<string>, stop: string, floor: int) {
    var token := Next(rest).0;
    && ValidTable(c.operators)
    && (token == stop || (Lookup(c.operators, token, 1).Some? && Outranked(Lookup(c.operators, token, 1).value.trump, floor)))
  }

  /** The loop ends with its single pending value when the next token is the
      stop token or names an operator that the floor outranks; the token that
      ended it stays unread. */
  lemma Ends(c: Calculator, rest: seq<string>, stop: string, floor: int, x: Value, fuel: nat)
    requires EndsAt(c, rest, stop, floor)
    ensures Loop(c, rest, stop, floor, [x], fuel + 1) == Ok((x, if rest == [] then [EndOfInput] else rest))
  {
    LoopEnds(c, rest, stop, floor, [x], fuel + 1);
    var (token, rest1) := Next(rest);
    assert Loop(c, rest, stop, floor, [x], fuel + 1) == Ok((x, [token] + rest1));
    if rest == [] {
      assert [token] + rest1 == [EndOfInput];
    }
  }

  /** The first token of `all` is not the stop token and, with `count` values
      pending, is taken by `op`. */
  ghost predicate Reads(c: Calculator, all: seq<string>, stop: string, count: nat, op: Operator) {
    ValidTable(c.operators) && |all| > 0 && all[0] != stop && Lookup(c.operators, all[0], count) == Some(op)
  }

  /** One iteration of the loop in which the operator found for the next token
      takes all pending values: the loop goes on with its single result. */
  lemma Applied(c: Calculator, all: seq<string>, stop: string, floor: int, values: seq<Value>, fuel: nat,
                op: Operator, v: Value, rest': seq<string>)
    requires Reads(c, all, stop, |values|, op) && |values| <= 1
    requires op.precount == |values| && !Outranked(op.trump, floor)
    requires ProcessResult(c, op, all[1..], all[0], stop, values, fuel) == Ok((v, rest'))
    ensures Loop(c, all, stop, floor, values, fuel + 1) == Loop(c, rest', stop, floor, [v], fuel)
  {
    assert Next(all) == (all[0], all[1..]);
    assert values[|values| - op.precount..] == values;
    assert values[..|values| - op.precount] + [v] == [v];
    LoopApplies(c, all, stop, floor, values, fuel + 1, op);
  }

  /** The first token of `all` is a literal whose interpretation is `v`. */
  ghost predicate LiteralAt(c: Calculator, all: seq<string>, stop: string, v: Value) {
    Reads(c, all, stop, 0, LiteralOp) && InterpretToken(c.interpreters, all[0]) == Ok(v)
  }

  /** Evaluating `all` at `floor` gives `v` and leaves `rest` unread. */
  ghost predicate Yields(c: Calculator, all: seq<string>, stop: string, floor: int, fuel: nat,
                         v: Value, rest: seq<string>) {
    ValidTable(c.operators) && Calc(c, all, stop, floor, fuel) == Ok((v, rest))
  }

  /** `op` takes `precount` pending values and one operand evaluated at its own
      floor, applies a function, and is not outranked by `floor`. */
  predicate Binds(op: Operator, precount: nat, floor: int) {
    && op.precount == precount && op.token != Wild
    && |op.steps| == 1 && op.steps[0].Prec? && op.action.Apply?
    && !Outranked(op.trump, floor)
  }

  /** A token read by the literal operator becomes the single pending value. */
  lemma Literal(c: Calculator, all: seq<string>, stop: string, floor: int, fuel: nat, v: Value)
    requires LiteralAt(c, all, stop, v)
    ensures Calc(c, all, stop, floor, fuel + 1) == Loop(c, all[1..], stop, floor, [v], fuel)
  {
    assert all == [all[0]] + all[1..];
    LiteralReadsOneToken(c, all[1..], all[0], stop, fuel);
    Applied(c, all, stop, floor, [], fuel, LiteralOp, v, all[1..]);
  }

  /** A single literal followed by a token that ends the evaluation. */
  lemma Atom(c: Calculator, all: seq<string>, v: Value, stop: string, floor: int, fuel: nat)
    requires LiteralAt(c, all, stop, v) && EndsAt(c, all[1..], stop, floor)
    ensures Calc(c, all, stop, floor, fuel + 2) == Ok((v, if |all| == 1 then [EndOfInput] else all[1..]))
  {
    Literal(c, all, stop, floor, fuel + 1, v);
    Ends(c, all[1..], stop, floor, v, fuel);
  }

  /** An infix operator after the pending value `x`: its right operand is
      evaluated at the operator's floor and the loop continues with the result. */
  lemma Infix(c: Calculator, x: Value, all: seq<string>, stop: string, floor: int, fuel: nat,
              op: Operator, y: Value, rest': seq<string>, z: Value)
    requires Reads(c, all, stop, 1, op) && Binds(op, 1, floor)
    requires Yields(c, all[1..], stop, op.steps[0].floor, fuel, y, rest')
    requires Call(op.action.f, [x] + [y]) == Ok(z)
    ensures Loop(c, all, stop, floor, [x], fuel + 1) == Loop(c, rest', stop, floor, [z], fuel)
  {
    assert ProcessResult(c, op, all[1..], all[0], stop, [x], fuel) == Ok((z, rest')) by {
      PrecedenceStep(c, op, all[1..], all[0], stop, [x], fuel);
    }
    Applied(c, all, stop, floor, [x], fuel, op, z, rest');
  }

  /** A prefix operator with nothing pending: its operand is evaluated at the
      operator's floor and becomes, transformed, the pending value. */
  lemma Prefix(c: Calculator, all: seq<string>, stop: string, floor: int, fuel: nat,
               op: Operator, y: Value, rest': seq<string>, z: Value)
    requires Reads(c, all, stop, 0, op) && Binds(op, 0, floor)
    requires Yields(c, all[1..], stop, op.steps[0].floor, fuel, y, rest')
    requires Call(op.action.f, [] + [y]) == Ok(z)
    ensures Calc(c, all, stop, floor, fuel + 1) == Loop(c, rest', stop, floor, [z], fuel)
  {
    assert ProcessResult(c, op, all[1..], all[0], stop, [], fuel) == Ok((z, rest')) by {
      PrecedenceStep(c, op, all[1..], all[0], stop, [], fuel);
    }
    Applied(c, all, stop, floor, [], fuel, op, z, rest');
  }

  /** A token after the pending value `x` that only the adjacency operator
      takes: the operand starts at that token and is evaluated at the
      operator's floor. */
  lemma Adjacent(c: Calculator, x: Value, all: seq<string>, stop: string, floor: int, fuel: nat,
                 y: Value, rest': seq<string>, z: Value)
    requires Reads(c, all, stop, 1, AdjacentOp) && !Outranked(AdjacentOp.trump, floor)
    requires Yields(c, all, stop, AdjacentOp.steps[0].floor, fuel, y, rest')
    requires ApplyOrMultiply(x, y) == Ok(z)
    ensures Loop(c, all, stop, floor, [x], fuel + 1) == Loop(c, rest', stop, floor, [z], fuel)
  {
    assert ProcessResult(c, AdjacentOp, all[1..], all[0], stop, [x], fuel) == Ok((z, rest')) by {
      assert all == [all[0]] + all[1..];
      PrecedenceStep(c, AdjacentOp, all[1..], all[0], stop, [x], fuel);
      assert [x] + [y] == [x, y];
    }
    Applied(c, all, stop, floor, [x], fuel, AdjacentOp, z, rest');
  }

  /** A parenthesised group with nothing pending: its contents are evaluated up
      to the closing parenthesis, which is consumed. */
  lemma Parenthesized(c: Calculator, all: seq<string>, stop: string, floor: int, fuel: nat,
                      v: Value, after: seq<string>)
    requires Reads(c, all, stop, 0, ParenOp)
    requires Yields(c, all[1..], ")", 0, fuel, v, after) && Next(after).0 == ")"
    ensures Calc(c, all, stop, floor, fuel + 1) == Loop(c, Next(after).1, stop, floor, [v], fuel)
  {
    assert all == [all[0]] + all[1..];
    GroupStep(c, ParenOp, all[1..], all[0], stop, fuel);
    Applied(c, all, stop, floor, [], fuel, ParenOp, v, Next(after).1);
  }

  /** Two infix operators with literal operands, `x op1 y op2 z` after a pending
      value `x`: the tokens are op1, y, op2 and z, and the expression ends there. */
  ghost predicate TwoInfix(c: Calculator, all: seq<string>, floor: int, op1: Operator, op2: Operator,
                           y: Value, z: Value) {
    && |all| == 4
    && Reads(c, all, EndOfInput, 1, op1) && Binds(op1, 1, floor)
    && LiteralAt(c, all[1..], EndOfInput, y)
    && Reads(c, all[2..], EndOfInput, 1, op2) && op2.precount == 1
    && op2.token != Wild && |op2.steps| == 1 && op2.steps[0].Prec? && op2.action.Apply?
    && LiteralAt(c, all[3..], EndOfInput, z)
  }

  /** When the second operator is outranked by the first one's operand floor,
      the first one is applied first: `(x op1 y) op2 z`. This is how operators
      of one level whose trump is below their floor (+, -, *, /) group to the left. */
  lemma LeftGrouping(c: Calculator, x: Value, all: seq<string>, floor: int, fuel: nat,
                     op1: Operator, op2: Operator, y: Value, z: Value, xy: Value, r: Value)
    requires TwoInfix(c, all, floor, op1, op2, y, z)
    requires Outranked(op2.trump, op1.steps[0].floor) && !Outranked(op2.trump, floor)
    requires Call(op1.action.f, [x] + [y]) == Ok(xy) && Call(op2.action.f, [xy] + [z]) == Ok(r)
    ensures Loop(c, all, EndOfInput, floor, [x], fuel + 4) == Ok((r, [EndOfInput]))
  {
    var p1 := op1.steps[0].floor;
    var p2 := op2.steps[0].floor;
    assert all[1..][1..] == all[2..] && all[2..][1..] == all[3..] && all[3..][1..] == [];
    assert Yields(c, all[1..], EndOfInput, p1, fuel + 3, y, all[2..]) by {
      Atom(c, all[1..], y, EndOfInput, p1, fuel + 1);
    }
    Infix(c, x, all, EndOfInput, floor, fuel + 3, op1, y, all[2..], xy);
    assert Yields(c, all[3..], EndOfInput, p2, fuel + 2, z, [EndOfInput]) by {
      Atom(c, all[3..], z, EndOfInput, p2, fuel);
    }
    Infix(c, xy, all[2..], EndOfInput, floor, fuel + 2, op2, z, [EndOfInput], r);
    Ends(c, [EndOfInput], EndOfInput, floor, r, fuel + 1);
  }

  /** When the second operator is not outranked by the first one's operand
      floor, it is applied first, inside that operand: `x op1 (y op2 z)`. This is
      how ^, whose trump is above its floor, groups to the right. */
  lemma RightGrouping(c: Calculator, x: Value, all: seq<string>, floor: int, fuel: nat,
                      op1: Operator, op2: Operator, y: Value, z: Value, yz: Value, r: Value)
    requires TwoInfix(c, all, floor, op1, op2, y, z)
    requires !Outranked(op2.trump, op1.steps[0].floor)
    requires Call(op2.action.f, [y] + [z]) == Ok(yz) && Call(op1.action.f, [x] + [yz]) == Ok(r)
    ensures Loop(c, all, EndOfInput, floor, [x], fuel + 5) == Ok((r, [EndOfInput]))
  {
    var p1 := op1.steps[0].floor;
    var p2 := op2.steps[0].floor;
    assert all[1..][1..] == all[2..] && all[2..][1..] == all[3..] && all[3..][1..] == [];
    assert Yields(c, all[1..], EndOfInput, p1, fuel + 4, yz, [EndOfInput]) by {
      assert Yields(c, all[3..], EndOfInput, p2, fuel + 2, z, [EndOfInput]) by {
        Atom(c, all[3..], z, EndOfInput, p2, fuel);
      }
      Literal(c, all[1..], EndOfInput, p1, fuel + 3, y);
      Infix(c, y, all[2..], EndOfInput, p1, fuel + 2, op2, z, [EndOfInput], yz);
      Ends(c, [EndOfInput], EndOfInput, p1, yz, fuel + 1);
    }
    Infix(c, x, all, EndOfInput, floor, fuel + 4, op1, yz, [EndOfInput], r);
    Ends(c, [EndOfInput], EndOfInput, floor, r, fuel + 3);
  }

  /** A loop ended by `token` returns, if anything, its single pending value
      with `token` unread; `token` then ends a loop at that floor. */
  lemma FinishEnds(c: Calculator, values: seq<Value>, token: string, rest: seq<string>, stop: string, floor: int)
    requires ValidTable(c.operators) && |values| <= 1
    requires token == stop || (Lookup(c.operators, token, |values|).Some?
                               && Outranked(Lookup(c.operators, token, |values|).value.trump, floor))
    ensures var r := Finish(values, token, rest);
            r.Ok? ==> r.value.1 != [] && EndsAt(c, r.value.1, stop, floor)
  {
    assert Next([token] + rest) == (token, rest) by {
      assert ([token] + rest)[1..] == rest;
    }
  }

  /** An evaluation that succeeds stopped at a token that ends it, the stop
      token or an operator that the floor outranks, and left that token unread
      at the head of its remainder. */
  lemma {:induction false} LoopBoundary(c: Calculator, rest: seq<string>, stop: string, floor: int,
                                        values: seq<Value>, fuel: nat)
    requires ValidTable(c.operators) && |values| <= 1
    ensures var r := Loop(c, rest, stop, floor, values, fuel);
            r.Ok? ==> r.value.1 != [] && EndsAt(c, r.value.1, stop, floor)
    decreases fuel
  {
    var r := Loop(c, rest, stop, floor, values, fuel);
    if fuel > 0 {
      var (token, rest1) := Next(rest);
      LoopEnds(c, rest, stop, floor, values, fuel);
      if token == stop {
        FinishEnds(c, values, token, rest1, stop, floor);
        assert r == Finish(values, token, rest1);
      } else if Lookup(c.operators, token, |values|).Some? {
        var op := Lookup(c.operators, token, |values|).value;
        if Outranked(op.trump, floor) {
          FinishEnds(c, values, token, rest1, stop, floor);
          assert r == Finish(values, token, rest1);
        } else {
          LoopApplies(c, rest, stop, floor, values, fuel, op);
          var keep := |values| - op.precount;
          var applied := ProcessResult(c, op, rest1, token, stop, values[keep..], fuel - 1);
          if applied.Ok? {
            var values' := values[..keep] + [applied.value.0];
            if |values'| <= 1 {
              LoopBoundary(c, applied.value.1, stop, floor, values', fuel - 1);
              assert r == Loop(c, applied.value.1, stop, floor, values', fuel - 1);
            } else {
              assert r.Err?;
            }
          } else {
            assert r.Err?;
          }
        }
      } else {
        assert r.Err?;
      }
    }
  }

  lemma CalcBoundary(c: Calculator, rest: seq<string>, stop: string, floor: int, fuel: nat)
    requires ValidTable(c.operators)
    ensures var r := Calc(c, rest, stop, floor, fuel);
            r.Ok? ==> r.value.1 != [] && EndsAt(c, r.value.1, stop, floor)
  {
    LoopBoundary(c, rest, stop, floor, [], fuel);
  }

  /** An evaluation whose first token is its stop token has no value to
      return: no operator took zero values. */
  lemma NothingBeforeStop(c: Calculator, rest: seq<string>, stop: string, floor: int, fuel: nat)
    requires ValidTable(c.operators) && Next(rest).0 == stop
    ensures Calc(c, rest, stop, floor, fuel + 1) == Err(ArityMismatch(stop, 0))
  {
  }

  /** With a wildcard entry at count 0, which every built calculator has, a
      lookup at a non-negative count always finds an operator. */
  lemma {:induction false} WildcardCatchesAll(table: map<Key, Operator>, token: string, count: int)
    requires (Wild, 0) in table && count >= 0
    ensures Lookup(table, token, count).Some?
    decreases count
  {
    if count > 0 && Entry(table, token, count).None? {
      WildcardCatchesAll(table, token, count - 1);
    }
  }

  /** A built calculator never reports that no operator takes a token. */
  lemma BuiltCalculatorsFindOperators(interpreters: seq<Interpreter>, operators: seq<Operator>,
                                      token: string, count: nat)
    ensures Lookup(NewCalculator(interpreters, operators).operators, token, count).Some?
  {
    WildcardCatchesAll(NewCalculator(interpreters, operators).operators, token, count);
  }

  /** The operator a lookup answers is one of the table's entries. */
  lemma {:induction false} LookupInTable(table: map<Key, Operator>, token: string, count: int)
    ensures Lookup(table, token, count).Some? ==> Lookup(table, token, count).value in table.Values
    decreases count + 1
  {
    if count >= 0 {
      if Entry(table, token, count).Some? {
        if (Sym(token), count) in table {
          assert table[(Sym(token), count)] in table.Values;
        } else {
          assert table[(Wild, count)] in table.Values;
        }
      } else {
        LookupInTable(table, token, count - 1);
      }
    }
  }

  /** An operator that the loop selected and whose processing fails makes the
      whole evaluation fail with the same error. */
  lemma Fails(c: Calculator, rest: seq<string>, stop: string, floor: int, values: seq<Value>, fuel: nat,
              op: Operator, e: Error)
    requires ValidTable(c.operators) && |values| <= 1
    requires Next(rest).0 != stop && Lookup(c.operators, Next(rest).0, |values|) == Some(op)
    requires op.precount == |values| && !Outranked(op.trump, floor)
    requires ProcessResult(c, op, Next(rest).1, Next(rest).0, stop, values, fuel) == Err(e)
    ensures Loop(c, rest, stop, floor, values, fuel + 1) == Err(e)
  {
    assert values[|values| - op.precount..] == values;
    LoopApplies(c, rest, stop, floor, values, fuel + 1, op);
  }

  /** When no entry of the table is outranked at floor 0, the contents of a
      group that evaluate successfully always end at the closer, so the
      mismatched-group error cannot arise. */
  lemma GroupsClose(c: Calculator, rest: seq<string>, closer: string, fuel: nat)
    requires ValidTable(c.operators)
    requires forall k :: k in c.operators ==> !Outranked(c.operators[k].trump, 0)
    ensures var r := Calc(c, rest, closer, 0, fuel);
            r.Ok? ==> Next(r.value.1).0 == closer
  {
    CalcBoundary(c, rest, closer, 0, fuel);
    var r := Calc(c, rest, closer, 0, fuel);
    if r.Ok? {
      var token := Next(r.value.1).0;
      LookupInTable(c.operators, token, 1);
      if Lookup(c.operators, token, 1).Some? {
        var op := Lookup(c.operators, token, 1).value;
        var k :| k in c.operators && c.operators[k] == op;
      }
    }
  }
  /** Every token of `out` was already in `input`, or is the end-of-input token. */
  ghost predicate Drawn(out: seq<string>, input: seq<string>) {
    forall t :: t in out ==> t in input || t == EndOfInput
  }

  lemma NextDrawn(rest: seq<string>)
    ensures Drawn([Next(rest).0] + Next(rest).1, rest)
  {
  }

  /** A sub-evaluation never invents a token: whatever remainder it leaves holds
      only tokens of its input and the end-of-input token. The five lemmas
      follow the mutual recursion of the evaluator. */
  lemma {:induction false} CalcDrawn(c: Calculator, rest: seq<string>, stop: string, floor: int, fuel: nat)
    requires ValidTable(c.operators)
    decreases fuel, 1, 0
    ensures var r := Calc(c, rest, stop, floor, fuel);
            r.Ok? ==> Drawn(r.value.1, rest)
  {
    LoopDrawn(c, rest, stop, floor, [], fuel);
  }

  lemma {:induction false} LoopDrawn(c: Calculator, rest: seq<string>, stop: string, floor: int,
                                     values: seq<Value>, fuel: nat)
    requires ValidTable(c.operators) && |values| <= 1
    decreases fuel, 0, 0
    ensures var r := Loop(c, rest, stop, floor, values, fuel);
            r.Ok? ==> Drawn(r.value.1, rest)
  {
    if fuel > 0 {
      var (token, rest1) := Next(rest);
      NextDrawn(rest);
      if token != stop && Lookup(c.operators, token, |values|).Some? {
        var op := Lookup(c.operators, token, |values|).value;
        if !Outranked(op.trump, floor) {
          var keep := |values| - op.precount;
          var applied := ProcessResult(c, op, rest1, token, stop, values[keep..], fuel - 1);
          ProcessDrawn(c, op, rest1, token, stop, values[keep..], fuel - 1);
          if applied.Ok? {
            var values' := values[..keep] + [applied.value.0];
            if |values'| <= 1 {
              LoopDrawn(c, applied.value.1, stop, floor, values', fuel - 1);
            }
          }
        }
      }
    }
  }

  lemma {:induction false} ProcessDrawn(c: Calculator, op: Operator, rest: seq<string>, token: string,
                                        stop: string, args: seq<Value>, fuel: nat)
    requires ValidTable(c.operators)
    decreases fuel, 4, 0
    ensures var r := ProcessResult(c, op, rest, token, stop, args, fuel);
            r.Ok? ==> Drawn(r.value.1, [token] + rest)
  {
    var rest0 := if op.token == Wild then [token] + rest else rest;
    StepsDrawn(c, op.steps, rest0, stop, args, fuel);
  }

  lemma {:induction false} StepsDrawn(c: Calculator, steps: seq<Step>, rest: seq<string>, stop: string,
                                      args: seq<Value>, fuel: nat)
    requires ValidTable(c.operators)
    decreases fuel, 3, |steps|
    ensures var r := Steps(c, steps, rest, stop, args, fuel);
            r.Ok? ==> Drawn(r.value.1, rest)
  {
    if steps != [] {
      var first := RunStep(c, steps[0], rest, stop, fuel);
      RunStepDrawn(c, steps[0], rest, stop, fuel);
      if first.Ok? {
        StepsDrawn(c, steps[1..], first.value.1, stop, args + [first.value.0], fuel);
      }
    }
  }

  lemma {:induction false} RunStepDrawn(c: Calculator, step: Step, rest: seq<string>, stop: string, fuel: nat)
    requires ValidTable(c.operators)
    decreases fuel, 2, 0
    ensures var r := RunStep(c, step, rest, stop, fuel);
            r.Ok? ==> Drawn(r.value.1, rest)
  {
    match step
    case Group(closer) =>
      CalcDrawn(c, rest, closer, 0, fuel);
      var inner := Calc(c, rest, closer, 0, fuel);
      if inner.Ok? {
        NextDrawn(inner.value.1);
      }
    case Interp =>
      NextDrawn(rest);
    case Prec(p) =>
      CalcDrawn(c, rest, stop, p, fuel);
  }

  /** A group whose closer does not occur in the rest of the input never yields
      a value: it raises, or runs out of fuel where the evaluation does not
      terminate. */
  lemma UnclosedGroupFails(c: Calculator, closer: string, rest: seq<string>, stop: string, fuel: nat)
    requires ValidTable(c.operators) && closer != EndOfInput && closer !in rest
    ensures RunStep(c, Group(closer), rest, stop, fuel).Err?
  {
    CalcDrawn(c, rest, closer, 0, fuel);
    var inner := Calc(c, rest, closer, 0, fuel);
    if inner.Ok? {
      NextDrawn(inner.value.1);
      assert Next(inner.value.1).0 in [Next(inner.value.1).0] + Next(inner.value.1).1;
    }
  }
}
