/** The evaluator: the operator table, operator lookup, and the
    precedence-climbing loop with its operator continuations. The loop is
    specified by functions over the unread remainder of the token stream and
    implemented by methods over a TokenStream. */
module Calculators {
  import opened Results
  import opened Values
  import opened Literals
  import opened Operators
  import opened Tokens

  /** Operators are keyed on their token and on how many pending values they take. */
  type Key = (Tok, nat)

  function KeyOf(op: Operator): (k: Key) {
    (op.token, op.precount)
  }

  /** Every entry is stored under its own token and precount. */
  predicate ValidTable(table: map<Key, Operator>) {
    forall k :: k in table ==> KeyOf(table[k]) == k
  }

  function KeysOf(ops: seq<Operator>): (keys: set<Key>) {
    set op | op in ops :: KeyOf(op)
  }

  /** The table built from an operator list, in order: each operator is stored
      under its key, replacing whatever an earlier operator stored there. */
  function BuildTable(ops: seq<Operator>): (table: map<Key, Operator>) {
    if ops == [] then map[]
    else BuildTable(ops[..|ops| - 1])[KeyOf(ops[|ops| - 1]) := ops[|ops| - 1]]
  }

  /** The built table is keyed consistently, has exactly the keys of the list,
      and the last operator of the list always owns its key. */
  lemma {:induction false} BuildTableShape(ops: seq<Operator>)
    ensures ValidTable(BuildTable(ops))
    ensures BuildTable(ops).Keys == KeysOf(ops)
    ensures ops != [] ==> BuildTable(ops)[KeyOf(ops[|ops| - 1])] == ops[|ops| - 1]
  {
    if ops != [] {
      var last := ops[|ops| - 1];
      var init := ops[..|ops| - 1];
      BuildTableShape(init);
      assert ops == init + [last];
      KeysOfAppend(init, last);
    }
  }

  lemma KeysOfAppend(ops: seq<Operator>, op: Operator)
    ensures KeysOf(ops + [op]) == KeysOf(ops) + {KeyOf(op)}
  {
    var all := ops + [op];
    forall k | k in KeysOf(all)
      ensures k in KeysOf(ops) + {KeyOf(op)}
    {
      var o :| o in all && KeyOf(o) == k;
      if o != op {
        assert o in ops;
      }
    }
    forall k | k in KeysOf(ops)
      ensures k in KeysOf(all)
    {
      var o :| o in ops && KeyOf(o) == k;
      assert o in all;
    }
    assert op in all;
  }

  /** `ops[i]` is the last operator of the list stored under key `k`. */
  ghost predicate LastWith(ops: seq<Operator>, k: Key, i: int) {
    0 <= i < |ops| && KeyOf(ops[i]) == k && forall j :: i < j < |ops| ==> KeyOf(ops[j]) != k
  }

  /** Later entries overwrite earlier ones: each key holds the last operator
      of the list with that key. */
  lemma {:induction false} LaterEntriesWin(ops: seq<Operator>)
    ensures forall k :: k in BuildTable(ops) ==> exists i :: LastWith(ops, k, i) && BuildTable(ops)[k] == ops[i]
  {
    if ops != [] {
      var n := |ops| - 1;
      var init := ops[..n];
      LaterEntriesWin(init);
      BuildTableShape(init);
      forall k | k in BuildTable(ops)
        ensures exists i :: LastWith(ops, k, i) && BuildTable(ops)[k] == ops[i]
      {
        assert ops == init + [ops[n]];
        assert BuildTable(ops) == BuildTable(init)[KeyOf(ops[n]) := ops[n]];
        if k == KeyOf(ops[n]) {
          assert LastWith(ops, k, n);
        } else {
          assert k in BuildTable(init);
          var i :| LastWith(init, k, i) && BuildTable(init)[k] == init[i];
          forall j | i < j < |ops|
            ensures KeyOf(ops[j]) != k
          {
            if j < n {
              assert ops[j] == init[j];
            }
          }
          assert LastWith(ops, k, i);
        }
      }
    }
  }

  /** A calculator: its interpreter chain and its operator table. Both are fixed
      at construction. */
  datatype Calculator = Calculator(interpreters: seq<Interpreter>, operators: map<Key, Operator>)

  const DefaultInterpreters: seq<Interpreter> := [IntParse]

  /** Building a calculator: empty arguments select the defaults, and the literal
      operator is appended last, so it owns the wildcard precount-0 slot. */
  function NewCalculator(interpreters: seq<Interpreter>, operators: seq<Operator>): (c: Calculator)
    ensures ValidTable(c.operators)
    ensures c.interpreters == if interpreters == [] then DefaultInterpreters else interpreters
    ensures c.operators.Keys == KeysOf(if operators == [] then DefaultOperators else operators) + {(Wild, 0)}
    ensures c.operators[(Wild, 0)] == LiteralOp
  {
    var given := if operators == [] then DefaultOperators else operators;
    var ops := given + [LiteralOp];
    KeysOfAppend(given, LiteralOp);
    BuildTableShape(ops);
    Calculator(if interpreters == [] then DefaultInterpreters else interpreters, BuildTable(ops))
  }

  /** The table entry for a token at one pending count: the token's own entry
      comes before the wildcard entry. */
  function Entry(table: map<Key, Operator>, token: string, count: int): (r: Option<Operator>)
    ensures r.Some? <==> (Sym(token), count) in table || (Wild, count) in table
    ensures r.Some? ==> r.value in table.Values
    ensures (Sym(token), count) in table ==> r == Some(table[(Sym(token), count)])
    ensures (Sym(token), count) !in table && (Wild, count) in table ==> r == Some(table[(Wild, count)])
  {
    if (Sym(token), count) in table then Some(table[(Sym(token), count)])
    else if (Wild, count) in table then Some(table[(Wild, count)])
    else None
  }

  /** The operator for a token when `count` values are pending: the first entry
      found trying the counts from `count` down to 0. */
  function Lookup(table: map<Key, Operator>, token: string, count: int): (r: Option<Operator>)
    decreases count + 1
    ensures r.Some? && ValidTable(table) ==>
              r.value.precount <= count && (r.value.token == Sym(token) || r.value.token == Wild)
  {
    if count < 0 then None
    else if Entry(table, token, count).Some? then Entry(table, token, count)
    else Lookup(table, token, count - 1)
  }

  /** Lookup fails only when no count from `count` down to 0 has an entry, and
      otherwise answers the entry at the highest count that has one. */
  lemma {:induction false} LookupOrder(table: map<Key, Operator>, token: string, count: int)
    decreases count + 1
    ensures Lookup(table, token, count).None? <==> forall k :: 0 <= k <= count ==> Entry(table, token, k).None?
    ensures Lookup(table, token, count).Some? ==>
              exists k :: 0 <= k <= count && Entry(table, token, k) == Lookup(table, token, count)
                && forall k' :: k < k' <= count ==> Entry(table, token, k').None?
  {
    if count >= 0 && Entry(table, token, count).None? {
      LookupOrder(table, token, count - 1);
    }
  }

  /** The lookup loop of the evaluator: counts from `count` down to 0, the
      token's own entry before the wildcard entry at each count. */
  method FindOperator(table: map<Key, Operator>, token: string, count: nat) returns (found: Option<Operator>)
    ensures found == Lookup(table, token, count)
  {
    var k: int := count;
    found := None;
    while k >= 0
      invariant -1 <= k <= count
      invariant found == None
      invariant Lookup(table, token, k) == Lookup(table, token, count)
    {
      if (Sym(token), k) in table {
        found := Some(table[(Sym(token), k)]);
        return;
      } else if (Wild, k) in table {
        found := Some(table[(Wild, k)]);
        return;
      }
      k := k - 1;
    }
  }

  /** The end of one (sub-)evaluation: the token that ended the loop is pushed
      back, and exactly one pending value is the result. */
  function Finish(values: seq<Value>, token: string, rest: seq<string>): (r: Result<(Value, seq<string>)>)
    ensures r.Ok? <==> |values| == 1
    ensures r.Ok? ==> r.value == (values[0], [token] + rest)
    ensures r.Err? ==> r.error == ArityMismatch(token, |values|)
  {
    if |values| == 1 then Ok((values[0], [token] + rest)) else Err(ArityMismatch(token, |values|))
  }

  /** One sub-evaluation: read tokens until the stop token or an outranked
      operator, starting with no pending value. The result carries the unread
      remainder of the stream. `fuel` bounds the number of loop iterations on
      every path of the recursion. */
  function Calc(c: Calculator, rest: seq<string>, stop: string, floor: int, fuel: nat): (r: Result<(Value, seq<string>)>)
    requires ValidTable(c.operators)
    decreases fuel, 1, 0
    ensures fuel == 0 ==> r == Err(OutOfFuel)
  {
    Loop(c, rest, stop, floor, [], fuel)
  }

  /** The evaluation loop from a state with at most one pending value. */
  function Loop(c: Calculator, rest: seq<string>, stop: string, floor: int, values: seq<Value>, fuel: nat)
    : (r: Result<(Value, seq<string>)>)
    requires ValidTable(c.operators) && |values| <= 1
    decreases fuel, 0, 0
    ensures r.Ok? ==> fuel > 0
  {
    if fuel == 0 then Err(OutOfFuel)
    else
      var (token, rest1) := Next(rest);
      if token == stop then Finish(values, token, rest1)
      else match Lookup(c.operators, token, |values|)
        case None => Err(NoOperator(token))
        case Some(op) =>
          if Outranked(op.trump, floor) then Finish(values, token, rest1)
          else
            var keep := |values| - op.precount;
            match ProcessResult(c, op, rest1, token, stop, values[keep..], fuel - 1)
            case Err(e) => Err(e)
            case Ok((v, rest2)) =>
              var values' := values[..keep] + [v];
              if |values'| <= 1 then Loop(c, rest2, stop, floor, values', fuel - 1)
              else Finish(values', token, rest2)
  }

  /** Applying an operator that the loop selected on `token`: a wildcard
      operator first puts the token back, then the steps collect the operands
      after the pending ones in `args`, then the action combines them. */
  function ProcessResult(c: Calculator, op: Operator, rest: seq<string>, token: string, stop: string,
                         args: seq<Value>, fuel: nat): (r: Result<(Value, seq<string>)>)
    requires ValidTable(c.operators)
    decreases fuel, 4, 0
    ensures op.action == NotCallable ==> r.Err?
    ensures op.action == Identity && r.Ok? ==> |args| + |op.steps| == 1
  {
    var rest0 := if op.token == Wild then [token] + rest else rest;
    match Steps(c, op.steps, rest0, stop, args, fuel)
    case Err(e) => Err(e)
    case Ok((operands, rest1)) =>
      match ApplyAction(op.action, operands)
      case Err(e) => Err(e)
      case Ok(v) => Ok((v, rest1))
  }

  /** Running continuation steps in order, appending each one's value to `args`. */
  function Steps(c: Calculator, steps: seq<Step>, rest: seq<string>, stop: string, args: seq<Value>, fuel: nat)
    : (r: Result<(seq<Value>, seq<string>)>)
    requires ValidTable(c.operators)
    decreases fuel, 3, |steps|
    ensures r.Ok? ==> |r.value.0| == |args| + |steps| && r.value.0[..|args|] == args
  {
    if steps == [] then Ok((args, rest))
    else match RunStep(c, steps[0], rest, stop, fuel)
      case Err(e) => Err(e)
      case Ok((v, rest1)) => Steps(c, steps[1..], rest1, stop, args + [v], fuel)
  }

  /** One continuation step. A group evaluates up to its closer at floor 0 and
      then requires the closer to be the next token; an interpreting step
      consumes exactly one token; a precedence step evaluates at that floor
      with the caller's stop token. */
  function RunStep(c: Calculator, step: Step, rest: seq<string>, stop: string, fuel: nat)
    : (r: Result<(Value, seq<string>)>)
    requires ValidTable(c.operators)
    decreases fuel, 2, 0
    ensures step.Interp? ==> (r.Ok? <==> InterpretToken(c.interpreters, Next(rest).0).Ok?)
    ensures step.Interp? && r.Ok? ==> r.value == (InterpretToken(c.interpreters, Next(rest).0).value, Next(rest).1)
  {
    match step
    case Group(closer) =>
      (match Calc(c, rest, closer, 0, fuel)
       case Err(e) => Err(e)
       case Ok((v, rest1)) =>
         var (end, rest2) := Next(rest1);
         if end != closer then Err(MismatchedGroup(closer, end)) else Ok((v, rest2)))
    case Interp =>
      var (token, rest1) := Next(rest);
      (match InterpretToken(c.interpreters, token)
       case Err(e) => Err(e)
       case Ok(v) => Ok((v, rest1)))
    case Prec(p) => Calc(c, rest, stop, p, fuel)
  }

  /** A method's outcome agrees with a specification outcome when the values or
      errors are the same and, on success, the stream holds the predicted remainder. */
  ghost predicate Agrees<T>(r: Result<T>, spec: Result<(T, seq<string>)>, rest: seq<string>) {
    match spec
    case Ok((v, rest')) => r == Ok(v) && rest == rest'
    case Err(e) => r == Err(e)
  }

  /** One iteration of the loop that ends it: the stop token, a token without
      an operator, or an operator outranked by the floor. */
  lemma LoopEnds(c: Calculator, rest: seq<string>, stop: string, floor: int, values: seq<Value>, fuel: nat)
    requires ValidTable(c.operators) && |values| <= 1 && fuel > 0
    ensures Next(rest).0 == stop ==>
              Loop(c, rest, stop, floor, values, fuel) == Finish(values, Next(rest).0, Next(rest).1)
    ensures Next(rest).0 != stop && Lookup(c.operators, Next(rest).0, |values|).None? ==>
              Loop(c, rest, stop, floor, values, fuel) == Err(NoOperator(Next(rest).0))
    ensures Next(rest).0 != stop && Lookup(c.operators, Next(rest).0, |values|).Some?
            && Outranked(Lookup(c.operators, Next(rest).0, |values|).value.trump, floor) ==>
              Loop(c, rest, stop, floor, values, fuel) == Finish(values, Next(rest).0, Next(rest).1)
  {
  }

  /** One iteration of the loop that applies `op` to the pending values: an
      error ends the loop, a value continues it or ends it with two pending. */
  lemma LoopApplies(c: Calculator, rest: seq<string>, stop: string, floor: int, values: seq<Value>, fuel: nat,
                    op: Operator)
    requires ValidTable(c.operators) && |values| <= 1 && fuel > 0
    requires Next(rest).0 != stop && Lookup(c.operators, Next(rest).0, |values|) == Some(op)
    requires !Outranked(op.trump, floor)
    ensures var applied := ProcessResult(c, op, Next(rest).1, Next(rest).0, stop, values[|values| - op.precount..], fuel - 1);
            && (applied.Err? ==> Loop(c, rest, stop, floor, values, fuel) == Err(applied.error))
            && (applied.Ok? && |values[..|values| - op.precount] + [applied.value.0]| <= 1 ==>
                  Loop(c, rest, stop, floor, values, fuel)
                  == Loop(c, applied.value.1, stop, floor, values[..|values| - op.precount] + [applied.value.0], fuel - 1))
            && (applied.Ok? && |values[..|values| - op.precount] + [applied.value.0]| == 2 ==>
                  Loop(c, rest, stop, floor, values, fuel)
                  == Finish(values[..|values| - op.precount] + [applied.value.0], Next(rest).0, applied.value.1))
  {
  }

  /** Evaluates one sub-expression from the stream, leaving the token that ended
      it unread. */
  method Calculate(c: Calculator, ts: TokenStream, stop: string, floor: int, fuel: nat) returns (r: Result<Value>)
    requires ValidTable(c.operators) && ts.Valid()
    modifies ts
    decreases fuel, 0
    ensures ts.Valid()
    ensures Agrees(r, Calc(c, old(ts.Rest()), stop, floor, fuel), ts.Rest())
  {
    ghost var spec := Calc(c, ts.Rest(), stop, floor, fuel);
    var values: seq<Value> := [];
    var token := EndOfInput;
    var budget: nat := fuel;
    while |values| <= 1
      invariant ts.Valid() && budget <= fuel && |values| <= 2
      invariant |values| <= 1 ==> spec == Loop(c, ts.Rest(), stop, floor, values, budget)
      invariant |values| == 2 ==> spec == Finish(values, token, ts.Rest())
      decreases budget, 2 - |values|
    {
      if budget == 0 {
        return Err(OutOfFuel);
      }
      ghost var before := ts.Rest();
      token := ts.GetToken();
      assert (token, ts.Rest()) == Next(before);
      LoopEnds(c, before, stop, floor, values, budget);
      if token == stop {
        break;
      }
      var found := FindOperator(c.operators, token, |values|);
      if found.None? {
        return Err(NoOperator(token));
      }
      var op := found.value;
      if Outranked(op.trump, floor) {
        break;
      }
      LoopApplies(c, before, stop, floor, values, budget, op);
      var keep := |values| - op.precount;
      var v := Process(c, op, ts, token, stop, values[keep..], budget - 1);
      if v.Err? {
        return Err(v.error);
      }
      values := values[..keep] + [v.value];
      budget := budget - 1;
    }
    ts.PushToken(token);
    if |values| == 1 {
      r := Ok(values[0]);
    } else {
      r := Err(ArityMismatch(token, |values|));
    }
  }

  /** Applies an operator selected on `token`, collecting its operands from the stream. */
  method Process(c: Calculator, op: Operator, ts: TokenStream, token: string, stop: string,
                 pending: seq<Value>, fuel: nat) returns (r: Result<Value>)
    requires ValidTable(c.operators) && ts.Valid()
    modifies ts
    decreases fuel, 1
    ensures ts.Valid()
    ensures Agrees(r, ProcessResult(c, op, old(ts.Rest()), token, stop, pending, fuel), ts.Rest())
  {
    if op.token == Wild {
      ts.PushToken(token);
    }
    ghost var spec := Steps(c, op.steps, ts.Rest(), stop, pending, fuel);
    var args := pending;
    var i := 0;
    while i < |op.steps|
      invariant ts.Valid() && i <= |op.steps|
      invariant spec == Steps(c, op.steps[i..], ts.Rest(), stop, args, fuel)
    {
      match op.steps[i] {
        case Group(closer) =>
          var v := Calculate(c, ts, closer, 0, fuel);
          if v.Err? {
            return Err(v.error);
          }
          var end := ts.GetToken();
          if end != closer {
            return Err(MismatchedGroup(closer, end));
          }
          args := args + [v.value];
        case Interp =>
          var t := ts.GetToken();
          var v := InterpretToken(c.interpreters, t);
          if v.Err? {
            return Err(v.error);
          }
          args := args + [v.value];
        case Prec(p) =>
          var v := Calculate(c, ts, stop, p, fuel);
          if v.Err? {
            return Err(v.error);
          }
          args := args + [v.value];
      }
      i := i + 1;
    }
    r := ApplyAction(op.action, args);
  }

  /** The value of a whole token list: one evaluation with the end-of-input
      token as stop and floor 0. */
  function Evaluation(c: Calculator, tokens: seq<string>, fuel: nat): (r: Result<Value>)
    requires ValidTable(c.operators)
    ensures tokens == [] && fuel > 0 ==> r == Err(ArityMismatch(EndOfInput, 0))
  {
    assert tokens == [] && fuel > 0 ==>
      Calc(c, tokens, EndOfInput, 0, fuel) == Finish([], EndOfInput, []);
    match Calc(c, tokens, EndOfInput, 0, fuel)
    case Ok((v, _)) => Ok(v)
    case Err(e) => Err(e)
  }

  /** Evaluates a whole token list with the end-of-input token as stop and floor 0. */
  method Evaluate(c: Calculator, tokens: seq<string>, fuel: nat) returns (r: Result<Value>)
    requires ValidTable(c.operators)
    ensures r == Evaluation(c, tokens, fuel)
  {
    var ts := new TokenStream(tokens);
    r := Calculate(c, ts, EndOfInput, 0, fuel);
  }
}
