/** Operators: how an argument list is classified into an operator record, how an
    operator's action is applied, and the default operator list restricted to integers. */
module Operators {
  import opened Results
  import opened Values

  /** One argument of the Operator constructor: a string, None, a number, or a callable. */
  datatype OpArg = AStr(s: string) | ANone | ANum(n: int) | AFn(f: Callable)

  /** Binding power: infinite for leaf and prefix forms, which never face a left operand. */
  datatype Trump = Inf | Fin(n: int)

  /** The token an operator is keyed on; Wild is the None token that matches when
      no concrete entry does (the literal and the adjacency operators). */
  datatype Tok = Sym(s: string) | Wild

  /** A continuation step: evaluate up to a closing token and check it, feed one
      raw token to the interpreter chain, or evaluate at a precedence floor. */
  datatype Step = Group(closer: string) | Interp | Prec(floor: int)

  /** An operator's action: the identity default, a callable, or a truthy value
      that is not callable (calling it fails). */
  datatype Action = Identity | Apply(f: Callable) | NotCallable

  datatype Operator = Operator(trump: Trump, precount: nat, token: Tok, steps: seq<Step>, action: Action)

  /** An operator is outranked under a floor when its trump is below it. */
  predicate Outranked(t: Trump, floor: int) {
    t.Fin? && t.n < floor
  }

  /** The falsy arguments: None, the empty string and zero. */
  predicate Falsy(a: OpArg) {
    a == ANone || a == AStr("") || a == ANum(0)
  }

  function ActionOf(a: OpArg): Action {
    if Falsy(a) then Identity else if a.AFn? then Apply(a.f) else NotCallable
  }

  function TokOf(a: OpArg): Option<Tok> {
    match a
    case AStr(s) => Some(Sym(s))
    case ANone => Some(Wild)
    case _ => None
  }

  /** A string is a group closer, a number a precedence floor, and the
      interpreter chain an interpreting step. */
  function StepOf(a: OpArg): Option<Step> {
    match a
    case AStr(s) => Some(Group(s))
    case ANum(n) => Some(Prec(n))
    case AFn(f) => if f == Interpret then Some(Interp) else None
    case ANone => None
  }

  function StepsOf(args: seq<OpArg>): (r: Option<seq<Step>>)
    ensures r.Some? <==> forall i :: 0 <= i < |args| ==> StepOf(args[i]).Some?
    ensures r.Some? ==> |r.value| == |args| && forall i :: 0 <= i < |args| ==> StepOf(args[i]) == Some(r.value[i])
  {
    if args == [] then Some([])
    else match (StepOf(args[0]), StepsOf(args[1..]))
      case (Some(s), Some(rest)) => Some([s] + rest)
      case _ => None
  }

  /** The slice args[from:-1]: everything between position `from` and the last argument. */
  function Middle(args: seq<OpArg>, from: nat): seq<OpArg> {
    if |args| - 1 >= from then args[from..|args| - 1] else []
  }

  /** The operators the constructor can produce: leaf and prefix forms have
      precount 0 and infinite trump, infix and postfix forms precount 1 and a number. */
  predicate WellFormed(op: Operator) {
    (op.precount == 0 && op.trump == Inf) || (op.precount == 1 && op.trump.Fin?)
  }

  /** The Operator constructor. A string or None first argument makes a leaf or
      prefix form, whose middle arguments are its steps; otherwise the first two
      arguments are the trump and the token and the arguments between them and
      the last are the steps. A falsy last argument gives the identity action. */
  function MakeOperator(args: seq<OpArg>): (r: Result<Operator>)
    ensures |args| == 0 ==> r == Err(BadArguments)
    ensures |args| == 1 && !(args[0].AStr? || args[0].ANone?) ==> r == Err(BadArguments)
    ensures r.Ok? ==> WellFormed(r.value)
    ensures r.Ok? ==> (r.value.precount == 0 <==> args[0].AStr? || args[0].ANone?)
    ensures r.Ok? && r.value.precount == 0 ==>
              Some(r.value.token) == TokOf(args[0]) && |r.value.steps| == |Middle(args, 1)|
    ensures r.Ok? && r.value.precount == 1 ==>
              args[0].ANum? && r.value.trump == Fin(args[0].n) && Some(r.value.token) == TokOf(args[1])
              && |r.value.steps| == |Middle(args, 2)|
    ensures r.Ok? ==> forall i :: 0 <= i < |r.value.steps| ==>
              StepOf(args[i + 1 + r.value.precount]) == Some(r.value.steps[i])
    ensures r.Ok? ==> (r.value.action == Identity <==> Falsy(args[|args| - 1]))
    ensures r.Ok? ==> r.value.action == ActionOf(args[|args| - 1])
    ensures |args| > 0 && (args[0].AStr? || args[0].ANone?) && StepsOf(Middle(args, 1)).Some? ==> r.Ok?
    ensures |args| >= 2 && args[0].ANum? && TokOf(args[1]).Some? && StepsOf(Middle(args, 2)).Some? ==> r.Ok?
  {
    if |args| == 0 then Err(BadArguments)
    else if args[0].AStr? || args[0].ANone? then
      match StepsOf(Middle(args, 1))
      case None => Err(Unmodelled)
      case Some(steps) => Ok(Operator(Inf, 0, TokOf(args[0]).value, steps, ActionOf(args[|args| - 1])))
    else if |args| < 2 then Err(BadArguments)
    else if !args[0].ANum? || TokOf(args[1]).None? then Err(Unmodelled)
    else
      match StepsOf(Middle(args, 2))
      case None => Err(Unmodelled)
      case Some(steps) => Ok(Operator(Fin(args[0].n), 1, TokOf(args[1]).value, steps, ActionOf(args[|args| - 1])))
  }

  function TokArg(t: Tok): (arg: OpArg) {
    match t
    case Sym(s) => AStr(s)
    case Wild => ANone
  }

  function StepArg(s: Step): (arg: OpArg) {
    match s
    case Group(c) => AStr(c)
    case Interp => AFn(Interpret)
    case Prec(n) => ANum(n)
  }

  function ActionArg(a: Action): (arg: OpArg) {
    match a
    case Identity => ANone
    case Apply(f) => AFn(f)
    case NotCallable => ANum(1)
  }

  function StepArgs(steps: seq<Step>): (r: seq<OpArg>)
    ensures |r| == |steps| && forall i :: 0 <= i < |steps| ==> r[i] == StepArg(steps[i])
  {
    if steps == [] then [] else [StepArg(steps[0])] + StepArgs(steps[1..])
  }

  /** An argument list that the constructor classifies back into `op`. */
  function Render(op: Operator): (args: seq<OpArg>)
    requires WellFormed(op)
  {
    (if op.precount == 0 then [TokArg(op.token)] else [ANum(op.trump.n), TokArg(op.token)])
    + StepArgs(op.steps) + [ActionArg(op.action)]
  }

  lemma {:induction false} StepsOfStepArgs(steps: seq<Step>)
    ensures StepsOf(StepArgs(steps)) == Some(steps)
  {
    if steps != [] {
      StepsOfStepArgs(steps[1..]);
      var args := StepArgs(steps);
      assert args[1..] == StepArgs(steps[1..]);
      assert StepOf(args[0]) == Some(steps[0]);
      assert [steps[0]] + steps[1..] == steps;
    }
  }

  /** Every operator the constructor can produce is produced from its rendering:
      the classification loses nothing. */
  lemma RenderRoundTrip(op: Operator)
    requires WellFormed(op)
    ensures MakeOperator(Render(op)) == Ok(op)
  {
    var args := Render(op);
    StepsOfStepArgs(op.steps);
    assert args[|args| - 1] == ActionArg(op.action);
    assert ActionOf(ActionArg(op.action)) == op.action;
    if op.precount == 0 {
      assert args[0] == TokArg(op.token) && TokOf(args[0]) == Some(op.token);
      assert Middle(args, 1) == StepArgs(op.steps);
      assert MakeOperator(args) == Ok(Operator(Inf, 0, op.token, op.steps, op.action));
    } else {
      assert args[0] == ANum(op.trump.n);
      assert args[1] == TokArg(op.token) && TokOf(args[1]) == Some(op.token);
      assert Middle(args, 2) == StepArgs(op.steps);
      assert MakeOperator(args) == Ok(Operator(Fin(op.trump.n), 1, op.token, op.steps, op.action));
    }
  }


  /** The action applied to the operator's collected operands. */
  function ApplyAction(a: Action, args: seq<Value>): (r: Result<Value>)
    ensures a == Identity ==> (r.Ok? <==> |args| == 1) && (r.Ok? ==> r.value == args[0])
    ensures a == NotCallable ==> r == Err(TypeError)
  {
    match a
    case Identity => if |args| == 1 then Ok(args[0]) else Err(TypeError)
    case Apply(f) => Call(f, args)
    case NotCallable => Err(TypeError)
  }

  // The default operator list, restricted to integers, as argument lists and as records.

  const AssignArgs := [ANum(510), AStr("="), ANum(500), AFn(Assign)]
  const EqArgs := [ANum(1090), AStr("=="), ANum(1100), AFn(Eq)]
  const LeArgs := [ANum(1090), AStr("<="), ANum(1100), AFn(Le)]
  const GeArgs := [ANum(1090), AStr(">="), ANum(1100), AFn(Ge)]
  const NeArgs := [ANum(1090), AStr("!="), ANum(1100), AFn(Ne)]
  const LtArgs := [ANum(1090), AStr("<"), ANum(1100), AFn(Lt)]
  const GtArgs := [ANum(1090), AStr(">"), ANum(1100), AFn(Gt)]
  const AddArgs := [ANum(2090), AStr("+"), ANum(2100), AFn(Add)]
  const SubArgs := [ANum(2090), AStr("-"), ANum(2100), AFn(Sub)]
  const MulArgs := [ANum(2190), AStr("*"), ANum(2200), AFn(Mul)]
  const DivArgs := [ANum(2190), AStr("/"), ANum(2200), AFn(TrueDiv)]
  const PowArgs := [ANum(2310), AStr("^"), ANum(2300), AFn(Pow)]
  const AdjacentArgs := [ANum(2390), ANone, ANum(2400), AFn(ApplyOrMul)]
  const IndexArgs := [ANum(3000), AStr("["), AStr("]"), AFn(GetItem)]
  const PercentArgs := [ANum(2295), AStr("%"), AFn(Scale)]
  const PlusArgs := [AStr("+"), ANum(2305), AFn(Pos)]
  const MinusArgs := [AStr("-"), ANum(2305), AFn(Neg)]
  const ParenArgs := [AStr("("), AStr(")"), ANone]
  /** The literal operator the calculator appends: the interpreter chain as a leaf. */
  const LiteralArgs := [ANone, AFn(Interpret), ANone]

  const DefaultOperatorArgs: seq<seq<OpArg>> := [
    AssignArgs, EqArgs, LeArgs, GeArgs, NeArgs, LtArgs, GtArgs,
    AddArgs, SubArgs, MulArgs, DivArgs, PowArgs, AdjacentArgs,
    IndexArgs, PercentArgs, PlusArgs, MinusArgs, ParenArgs
  ]

  const AssignOp := Operator(Fin(510), 1, Sym("="), [Prec(500)], Apply(Assign))
  const EqOp := Operator(Fin(1090), 1, Sym("=="), [Prec(1100)], Apply(Eq))
  const LeOp := Operator(Fin(1090), 1, Sym("<="), [Prec(1100)], Apply(Le))
  const GeOp := Operator(Fin(1090), 1, Sym(">="), [Prec(1100)], Apply(Ge))
  const NeOp := Operator(Fin(1090), 1, Sym("!="), [Prec(1100)], Apply(Ne))
  const LtOp := Operator(Fin(1090), 1, Sym("<"), [Prec(1100)], Apply(Lt))
  const GtOp := Operator(Fin(1090), 1, Sym(">"), [Prec(1100)], Apply(Gt))
  const AddOp := Operator(Fin(2090), 1, Sym("+"), [Prec(2100)], Apply(Add))
  const SubOp := Operator(Fin(2090), 1, Sym("-"), [Prec(2100)], Apply(Sub))
  const MulOp := Operator(Fin(2190), 1, Sym("*"), [Prec(2200)], Apply(Mul))
  const DivOp := Operator(Fin(2190), 1, Sym("/"), [Prec(2200)], Apply(TrueDiv))
  const PowOp := Operator(Fin(2310), 1, Sym("^"), [Prec(2300)], Apply(Pow))
  const AdjacentOp := Operator(Fin(2390), 1, Wild, [Prec(2400)], Apply(ApplyOrMul))
  const IndexOp := Operator(Fin(3000), 1, Sym("["), [Group("]")], Apply(GetItem))
  const PercentOp := Operator(Fin(2295), 1, Sym("%"), [], Apply(Scale))
  const PlusOp := Operator(Inf, 0, Sym("+"), [Prec(2305)], Apply(Pos))
  const MinusOp := Operator(Inf, 0, Sym("-"), [Prec(2305)], Apply(Neg))
  const ParenOp := Operator(Inf, 0, Sym("("), [Group(")")], Identity)
  const LiteralOp := Operator(Inf, 0, Wild, [Interp], Identity)

  const DefaultOperators: seq<Operator> := [
    AssignOp, EqOp, LeOp, GeOp, NeOp, LtOp, GtOp,
    AddOp, SubOp, MulOp, DivOp, PowOp, AdjacentOp,
    IndexOp, PercentOp, PlusOp, MinusOp, ParenOp
  ]

  lemma StepsOfSingle(step: OpArg)
    requires StepOf(step).Some?
    ensures StepsOf([step]) == Some([StepOf(step).value])
  {
    assert [step][1..] == [];
    assert StepsOf([]) == Some([]);
    assert [StepOf(step).value] + [] == [StepOf(step).value];
  }

  lemma InfixClassified(trump: int, token: string, step: OpArg, f: Callable)
    requires StepOf(step).Some?
    ensures MakeOperator([ANum(trump), AStr(token), step, AFn(f)])
            == Ok(Operator(Fin(trump), 1, Sym(token), [StepOf(step).value], Apply(f)))
  {
    var args := [ANum(trump), AStr(token), step, AFn(f)];
    assert Middle(args, 2) == [step];
    StepsOfSingle(step);
  }

  lemma PrefixClassified(token: OpArg, step: OpArg, last: OpArg)
    requires TokOf(token).Some? && StepOf(step).Some?
    ensures MakeOperator([token, step, last])
            == Ok(Operator(Inf, 0, TokOf(token).value, [StepOf(step).value], ActionOf(last)))
  {
    var args := [token, step, last];
    assert Middle(args, 1) == [step];
    StepsOfSingle(step);
  }

  lemma ClassifiedAssignment(i: nat)
    requires i < 4
    ensures MakeOperator(DefaultOperatorArgs[i]) == Ok(DefaultOperators[i])
  {
    if i == 0 { InfixClassified(510, "=", ANum(500), Assign); }
    else if i == 1 { InfixClassified(1090, "==", ANum(1100), Eq); }
    else if i == 2 { InfixClassified(1090, "<=", ANum(1100), Le); }
    else { InfixClassified(1090, ">=", ANum(1100), Ge); }
  }

  lemma ClassifiedComparisons(i: nat)
    requires 4 <= i < 7
    ensures MakeOperator(DefaultOperatorArgs[i]) == Ok(DefaultOperators[i])
  {
    if i == 4 { InfixClassified(1090, "!=", ANum(1100), Ne); }
    else if i == 5 { InfixClassified(1090, "<", ANum(1100), Lt); }
    else { InfixClassified(1090, ">", ANum(1100), Gt); }
  }

  lemma ClassifiedSums(i: nat)
    requires 7 <= i < 10
    ensures MakeOperator(DefaultOperatorArgs[i]) == Ok(DefaultOperators[i])
  {
    if i == 7 { InfixClassified(2090, "+", ANum(2100), Add); }
    else if i == 8 { InfixClassified(2090, "-", ANum(2100), Sub); }
    else { InfixClassified(2190, "*", ANum(2200), Mul); }
  }

  lemma ClassifiedProducts(i: nat)
    requires 10 <= i < 13
    ensures MakeOperator(DefaultOperatorArgs[i]) == Ok(DefaultOperators[i])
  {
    if i == 10 { InfixClassified(2190, "/", ANum(2200), TrueDiv); }
    else if i == 11 { InfixClassified(2310, "^", ANum(2300), Pow); }
    else {
      assert Middle(AdjacentArgs, 2) == [ANum(2400)];
      StepsOfSingle(ANum(2400));
    }
  }

  lemma ClassifiedOthers(i: nat)
    requires 13 <= i < 18
    ensures MakeOperator(DefaultOperatorArgs[i]) == Ok(DefaultOperators[i])
  {
    if i == 13 { InfixClassified(3000, "[", AStr("]"), GetItem); }
    else if i == 14 {
      assert Middle(PercentArgs, 2) == [];
      assert StepsOf([]) == Some([]);
    }
    else if i == 15 { PrefixClassified(AStr("+"), ANum(2305), AFn(Pos)); }
    else if i == 16 { PrefixClassified(AStr("-"), ANum(2305), AFn(Neg)); }
    else { PrefixClassified(AStr("("), AStr(")"), ANone); }
  }

  /** The records above are what the constructor makes of the default argument lists. */
  lemma DefaultOperatorsClassified()
    ensures |DefaultOperatorArgs| == |DefaultOperators|
    ensures forall i :: 0 <= i < |DefaultOperators| ==> MakeOperator(DefaultOperatorArgs[i]) == Ok(DefaultOperators[i])
    ensures MakeOperator(LiteralArgs) == Ok(LiteralOp)
  {
    forall i | 0 <= i < |DefaultOperators|
      ensures MakeOperator(DefaultOperatorArgs[i]) == Ok(DefaultOperators[i])
    {
      if i < 4 { ClassifiedAssignment(i); }
      else if i < 7 { ClassifiedComparisons(i); }
      else if i < 10 { ClassifiedSums(i); }
      else if i < 13 { ClassifiedProducts(i); }
      else { ClassifiedOthers(i); }
    }
    PrefixClassified(ANone, AFn(Interpret), ANone);
  }
}
