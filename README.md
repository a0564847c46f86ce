# calculator — a Dafny model of the operator-precedence evaluator

`calculator.py` is a small expression evaluator that builds no syntax tree.

- **Operator records.** Each operator is made from a positional argument list: a trump (binding power) and a token for the infix and postfix forms, or just a token for the leaf, prefix and group forms; then the continuation steps; then an action.
- **Operator table.** Operators are stored in a table keyed on (token, precount), where precount is how many pending values the operator takes.
- **Evaluation loop.** The loop reads a token, looks up an operator for the current number of pending values (its own token before the wildcard `None`, counts from high to low), and stops at the stop token or at an operator whose trump is below the current floor. Otherwise it runs the operator's steps and applies its action to the pending values and the step results. A step is a group closer, the interpreter chain, or a precedence floor for a recursive sub-evaluation.
- **Literal operator.** Every calculator appends a wildcard leaf operator that reads a token through the interpreter chain, where the first interpreter that accepts the token wins.
- **Adjacency operator.** A wildcard infix operator that calls the left value on the right one, or else multiplies them.

The model has these modules:

- `Results`: outcomes and the error kinds.
- `Values`: integers, None, callables as finite partial functions, and the arithmetic of the default table.
- `Literals`: integer parsing, symbol tables and the interpreter chain.
- `Tokens`: the token stream as a class with a pushback stack.
- `Operators`: the `Operator` constructor's classification, the operator actions and the default operator list.
- `Calculators`:
  - building the table, and lookup;
  - the evaluation loop, specified by mutually recursive functions (`Calc`, `Loop`, `ProcessResult`, `Steps`, `RunStep`) over the unread token remainder;
  - `calculate` and `process` as methods over a `TokenStream`, proved to agree with those functions.
- `Defaults`: the table that the calculator built without arguments holds, and the lookups it answers.
- `Properties`: facts about the loop that hold for every calculator.
- `Doctests`: the module docstring's integer examples, proved as evaluations of the built calculators.

The specification functions carry a `fuel` budget. Every loop iteration costs one unit, and a sub-evaluation inherits what is left. The source can loop without end (for example, a wildcard infix operator with no steps) or recurse without bound. The model reports both as `OutOfFuel`. Each documented example is proved for every budget at or above a fixed bound.

Things the model makes explicit about the code:

- **One operator per key, no backtracking.** The code stores one operator per (token, precount) key. A later entry of the list replaces an earlier one (`calculator.py:53`). The first operator found is applied, and its failure aborts the whole evaluation. Nothing tries another candidate, and there is no aggregated failure.
- **No missing operator.** Every built calculator has the wildcard literal operator at precount 0, so the lookup never fails (`Properties.BuiltCalculatorsFindOperators`).
- **No mismatched group with the default operators.** Every default operator outranks floor 0, so a group that evaluates successfully always ends at its closer, and the mismatched-group error cannot arise (`Doctests.DefaultGroupsClose`).
- **An unclosed group never yields a value.** A sub-evaluation never invents a token: the remainder it leaves holds only tokens of its input and the end-of-input token (`Properties.CalcDrawn`). So a group whose closer does not occur in the rest of the input never yields a value, whatever the calculator (`Properties.UnclosedGroupFails`). It raises, or, where the source does not terminate, runs out of fuel. For example, a wildcard postfix operator without steps takes the end-of-input token forever. With the default operators, an opening parenthesis without a later `)` likewise never yields a value (`Doctests.UnclosedParenFails`).
- **How an unclosed group fails depends on its contents.** On the calculator built without arguments, `(1` does not fail with a mismatched group. The end-of-input token `""` follows the `1`, the wildcard adjacency operator takes it, and the end-of-input token is then read as a literal that no interpreter accepts (`Doctests.UnclosedGroup`). Other inputs fail earlier or differently, for example with a zero division inside the group.

## Model

| member | source | states |
|---|---|---|
| Values.Divide | calculator.py:161 | True division never yields a value of the model, because its result is always a float; it is a ZeroDivision error exactly when the divisor is zero |
| Values.Exponent | calculator.py:162 | Integer power succeeds exactly for a non-negative exponent and is the repeated product; zero to a negative power is a ZeroDivision error |
| Values.Unary | calculator.py:167-170 | The prefix signs keep and negate an integer; only they succeed, and only on an integer; a non-integer is a TypeError |
| Values.Compare | calculator.py:153-157 | An ordering comparison succeeds exactly on two integers and gives 1 exactly when the ordering holds, else 0; otherwise it is a TypeError |
| Values.Binary | calculator.py:151-163 | Arithmetic and ordering on a non-integer are TypeErrors, as are assignment and indexing; == and != give 1 or 0 by equality; division never yields a value of the model; adjacency is apply-or-multiply |
| Values.ApplyOrMultiply | calculator.py:108-112 | Succeeds exactly when the right value is an integer and the left one is an integer or a callable defined there; a callable gives its value, an integer gives the product, every other case is a TypeError |
| Values.Call | calculator.py:151-170 | A call with the wrong number of arguments is a TypeError; a successful add, sub, mul and neg gives the sum, difference, product and negation of integer arguments |
| Values.ArithmeticCall | calculator.py:158-160 | The +, - and * actions applied to two integers give their sum, difference and product |
| Values.PowerCall | calculator.py:162 | The ^ action applied to an integer and a natural gives the power |
| Values.SignCall | calculator.py:169-170 | The prefix + and - actions keep and negate an integer |
| Literals.ParseInt | calculator.py:115 | Integer parsing accepts exactly an optional sign followed by underscore-separated digit groups, and gives the value of the digits, negated after a minus sign |
| Literals.ParseShow | calculator.py:115 | Parsing the decimal numeral of a natural number gives that number back |
| Literals.InterpretWith | calculator.py:96-103 | The integer interpreter accepts exactly what integer parsing accepts, with the parsed integer; a symbol-table interpreter accepts every token, with the entry's value for a present name and None for a missing one |
| Literals.InterpretToken | calculator.py:96-105 | The chain succeeds exactly when some interpreter accepts the token, with the value of the first one that does, every earlier one having rejected it; otherwise it fails naming the token |
| Tokens.Next | calculator.py:68 | Reading yields the head of the remainder, or the end-of-input token and an unchanged empty remainder |
| Tokens.TokenStream.constructor | calculator.py:64 | A fresh stream will yield exactly the given tokens |
| Tokens.TokenStream.GetToken | calculator.py:68 | Reading yields the next token and leaves the remainder that Next predicts, reading pushed-back tokens first |
| Tokens.TokenStream.PushToken | calculator.py:90 | A pushed-back token is the next one read, ahead of everything that was unread |
| Operators.StepsOf | calculator.py:126-130 | The steps are classified exactly when every middle argument is a closer, a floor or the interpreter chain, one step per argument, in order |
| Operators.MakeOperator | calculator.py:123-131 | A string or None first argument gives precount 0, infinite trump and that token; otherwise trump and token are the first two arguments and precount is 1; the steps are the arguments between those and the last; a falsy last argument gives the identity action; an empty list is rejected, and every list whose token, trump and steps classify is built |
| Operators.RenderRoundTrip | calculator.py:123-131 | Every operator the constructor can produce is produced back from its rendering as an argument list |
| Operators.ApplyAction | calculator.py:131 | The identity action succeeds exactly on one operand and returns it; a non-callable action fails |
| Operators.InfixClassified | calculator.py:127-130 | A number, a token, one step and a callable give an infix operator with that trump, token, step and action |
| Operators.PrefixClassified | calculator.py:124-126 | A token, one step and a last argument give a precount-0 operator with infinite trump |
| Operators.ClassifiedAssignment | calculator.py:151-154 | The assignment and first comparison entries classify to the records of the model |
| Operators.ClassifiedComparisons | calculator.py:155-157 | The remaining comparison entries classify to the records of the model |
| Operators.ClassifiedSums | calculator.py:158-160 | The +, - and * entries classify to the records of the model |
| Operators.ClassifiedProducts | calculator.py:161-163 | The /, ^ and adjacency entries classify to the records of the model |
| Operators.ClassifiedOthers | calculator.py:165-172 | The index, percent, prefix and parenthesis entries classify to the records of the model |
| Operators.DefaultOperatorsClassified | calculator.py:150-173 | Every default argument list, and the appended literal operator's, classifies to the corresponding record |
| Calculators.BuildTable | calculator.py:53 | The table of an operator list; its properties are stated by BuildTableShape and LaterEntriesWin |
| Calculators.BuildTableShape | calculator.py:53 | The built table stores each operator under its own key, has exactly the keys of the list, and the last operator owns its key |
| Calculators.LaterEntriesWin | calculator.py:53 | Every key holds the last operator of the list with that key |
| Calculators.NewCalculator | calculator.py:49-54 | Empty arguments select the defaults; the table has the keys of the operators plus the wildcard precount-0 key, which the literal operator owns |
| Calculators.Entry | calculator.py:72-77 | An entry exists at a count exactly when the token or the wildcard has one there; the token's own entry is preferred, and the wildcard's answers only when the token has none |
| Calculators.Lookup | calculator.py:71-79 | A found operator takes at most the pending count and carries the token or the wildcard |
| Calculators.LookupOrder | calculator.py:71-79 | Lookup fails exactly when no count from the pending count down to 0 has an entry, and otherwise answers the entry at the highest count that has one, the token's own before the wildcard |
| Calculators.FindOperator | calculator.py:71-79 | The lookup loop answers the lookup |
| Calculators.Finish | calculator.py:90-94 | An evaluation ends successfully exactly with one pending value, which it returns with the ending token put back; otherwise it reports the token and the pending count |
| Calculators.Calc | calculator.py:60-94 | One sub-evaluation from no pending value; with no budget it runs out of fuel; its boundary is stated by Properties.CalcBoundary |
| Calculators.Loop | calculator.py:67-94 | The evaluation loop; it succeeds only after at least one iteration; its steps are stated by LoopEnds and LoopApplies and its boundary by Properties.LoopBoundary |
| Calculators.ProcessResult | calculator.py:133-147 | Applying a selected operator: a non-callable action always fails, and the identity action succeeds only with exactly one operand in all |
| Calculators.Steps | calculator.py:136-146 | The steps append exactly one operand each, after the pending values, which stay first and unchanged |
| Calculators.RunStep | calculator.py:138-146 | An interpreting step succeeds exactly when the next token is interpretable, consumes exactly that one token, and yields its interpretation |
| Calculators.LoopEnds | calculator.py:67-85 | The stop token and an outranked operator end the loop, and a token without an operator fails it |
| Calculators.LoopApplies | calculator.py:84-88 | An applied operator replaces the pending values it takes by its result, or its failure fails the loop; two pending values end the loop |
| Calculators.Calculate | calculator.py:60-94 | The loop over the stream returns what the specification predicts and leaves the predicted remainder unread |
| Calculators.Process | calculator.py:133-147 | Processing over the stream returns what the specification predicts and leaves the predicted remainder unread |
| Calculators.Evaluation | calculator.py:57-66 | The value of a token list; empty input fails with no pending value at the end-of-input token |
| Calculators.Evaluate | calculator.py:57-66 | Evaluating a token list is one evaluation with the end-of-input token as stop and floor 0 |
| Defaults.DefaultTableBuilt | calculator.py:150-173 | The default list plus the literal operator builds the written-out table |
| Defaults.DefaultCalculatorBuilt | calculator.py:49-54 | The calculator built without arguments has the default interpreters and that table |
| Defaults.DefaultTableValid | calculator.py:53 | The default table stores each operator under its own key |
| Defaults.PlainLookup | calculator.py:71-79 | A token with no entry of its own is read by the literal operator with nothing pending and by the adjacency operator after a value |
| Defaults.DefaultTrumps | calculator.py:150-173 | No default operator is outranked at floor 0 |
| Defaults.DefaultArithmetic | calculator.py:150-173 | The default table answers the lookups of the arithmetic operators, the prefix signs and the parentheses |
| Properties.LiteralReadsOneToken | calculator.py:133-144 | The literal operator puts its token back and reads exactly that token again: it yields the token's interpretation and leaves the stream as after the token, or fails naming the token |
| Properties.PrecedenceStep | calculator.py:145-147 | A single precedence step evaluates the rest at its floor with the caller's stop token and applies the action to the pending values and that result; a wildcard operator starts from its own token |
| Properties.GroupStep | calculator.py:138-142 | A group evaluates to its closer at floor 0 and consumes the closer; any other next token is a mismatched group |
| Properties.Ends | calculator.py:69-92 | A single pending value is returned when the next token is the stop token or an outranked operator, which stays unread |
| Properties.Applied | calculator.py:84-88 | An operator taking all pending values continues the loop with its result alone |
| Properties.Literal | calculator.py:86-88 | A literal with nothing pending continues the loop with its interpretation after one token |
| Properties.Atom | calculator.py:67-92 | A literal followed by an ending token evaluates to its interpretation |
| Properties.Infix | calculator.py:84-88 | An infix operator combines the pending value with its operand evaluated at the operator's floor |
| Properties.Prefix | calculator.py:169-170 | A prefix operator transforms its operand evaluated at the operator's floor |
| Properties.Adjacent | calculator.py:163 | The adjacency operator's operand starts at the token it was chosen for and is combined by apply-or-multiply |
| Properties.Parenthesized | calculator.py:172 | A parenthesised group becomes the pending value, and the closing parenthesis is consumed |
| Properties.LeftGrouping | calculator.py:84-88 | In `x op1 y op2 z`, when op2's trump is below op1's operand floor, op1 is applied first: the result is `(x op1 y) op2 z` |
| Properties.RightGrouping | calculator.py:84-88 | In `x op1 y op2 z`, when op2's trump is not below op1's operand floor, op2 is applied inside op1's operand: the result is `x op1 (y op2 z)` |
| Properties.FinishEnds | calculator.py:90-92 | A successful end leaves the ending token unread at the head of the remainder |
| Properties.LoopBoundary | calculator.py:67-92 | A successful loop leaves unread, at the head of its remainder, a token that ends it: the stop token or an outranked operator |
| Properties.CalcBoundary | calculator.py:60-92 | A successful sub-evaluation ends at the stop token or an outranked operator, left unread |
| Properties.NothingBeforeStop | calculator.py:69-94 | An evaluation whose first token is its stop token fails with no pending value |
| Properties.WildcardCatchesAll | calculator.py:71-79 | With a wildcard entry at count 0 every lookup finds an operator |
| Properties.BuiltCalculatorsFindOperators | calculator.py:52-53 | In every built calculator the lookup never fails, so the no-operator error cannot arise |
| Properties.LookupInTable | calculator.py:72-76 | A found operator is an entry of the table |
| Properties.Fails | calculator.py:88 | A failing operator fails the whole evaluation with its error |
| Properties.NextDrawn | calculator.py:68 | The token read and the remainder after it hold only tokens of the stream and the end-of-input token |
| Properties.CalcDrawn | calculator.py:60-94 | The remainder a successful sub-evaluation leaves holds only tokens of its input and the end-of-input token |
| Properties.LoopDrawn | calculator.py:67-92 | The remainder a successful loop leaves holds only tokens of its input and the end-of-input token, including the ending token it pushes back |
| Properties.ProcessDrawn | calculator.py:133-147 | The remainder after applying an operator holds only its token, tokens of the input and the end-of-input token |
| Properties.StepsDrawn | calculator.py:136-146 | The remainder after the steps holds only tokens of their input and the end-of-input token |
| Properties.RunStepDrawn | calculator.py:138-146 | The remainder after one step, including a group's consumed closer, holds only tokens of its input and the end-of-input token |
| Properties.UnclosedGroupFails | calculator.py:138-142 | A group whose closer is not the end-of-input token and does not occur in the rest of the input never yields a value: it raises, or runs out of fuel where the source does not terminate |
| Properties.GroupsClose | calculator.py:138-142 | When no entry is outranked at floor 0, a successful group evaluation always ends at its closer |
| Doctests.OnePlusParenOne | calculator.py:3-4 | `1+(1)` evaluates to 2 |
| Doctests.NestedGroups | calculator.py:5-6 | `(((1))+(2))` evaluates to 3 |
| Doctests.MixedPrecedence | calculator.py:7-8 | `2+3*4^2` evaluates to 50 |
| Doctests.PowerRightAssociative | calculator.py:9-10 | `2^2^2` evaluates to 16 |
| Doctests.PowerGroupsRight | calculator.py:162 | `2^3^2` evaluates to 512, not 64: ^ groups to the right |
| Doctests.MinusGroupsLeft | calculator.py:159 | `8-3-2` evaluates to 3, not 7: - groups to the left |
| Doctests.RepeatedNegation | calculator.py:11-12 | `---3` evaluates to -3 |
| Doctests.PowerBeforeNegation | calculator.py:13-14 | `-3^2` evaluates to -9 |
| Doctests.NegationBeforeSum | calculator.py:17-18 | `---1 + 1` evaluates to 0 |
| Doctests.ImplicitProduct | calculator.py:23-24 | `3(5)` evaluates to 15 |
| Doctests.LeftToRightLevels | calculator.py:25-26 | `2^3*4+5*6` evaluates to 62 |
| Doctests.SymbolArithmetic | calculator.py:30-31 | `a+b*c` evaluates to 7 with the symbols a=1, b=2, c=3 |
| Doctests.CallWithParentheses | calculator.py:35-36 | `sqrt(4)` evaluates to 2 |
| Doctests.CallBindsTighter | calculator.py:37-38 | `sqrt 4 + 1` evaluates to 3: the call binds tighter than + |
| Doctests.EmptyInput | calculator.py:91-94 | Empty input fails with no pending value at the end-of-input token |
| Doctests.EmptyGroup | calculator.py:91-94 | `()` fails with no pending value at the closer |
| Doctests.UnclosedGroup | calculator.py:96-105 | `(1` fails because the end-of-input token is not interpretable |
| Doctests.UnclosedParenFails | calculator.py:172 | With the default operators, `(` followed by any tokens without a `)` never yields a value: it raises, or runs out of fuel where the source does not terminate |
| Doctests.DefaultGroupsClose | calculator.py:138-142 | With the default operators a successful group evaluation always ends at its closer, whatever the closer |
| Doctests.CloserAsSymbol | calculator.py:96-105 | With a symbol table, a lone `)` evaluates to None |
| Doctests.CloserAfterEmptyGroup | calculator.py:138-142 | `())` fails because the group is empty |
| Doctests.SymbolCalculatorBuilt | calculator.py:29 | The calculator with the symbol interpreter and no operators has the default table |
| Doctests.DefaultExamples | calculator.py:2-26 | The integer examples hold on the calculator built without arguments |
| Doctests.SymbolExamples | calculator.py:28-38 | The symbol examples hold on the calculator built with the symbol interpreter |
| Doctests.AssociativityExamples | calculator.py:159-162 | `2^3^2` is 512 and `8-3-2` is 3 on the calculator built without arguments |
| Doctests.GroupingNotTransparent | calculator.py:138-142 | Wrapping an expression in parentheses can change its outcome: `)` against `())` with the symbol table, and empty input against `()` |
| Doctests.DefaultFailures | calculator.py:90-105 | Empty input, an empty group and an unclosed group fail as stated above on the calculator built without arguments |

## Left out

- The shlex tokenizer is not modelled. Expressions are given as token lists, and the end-of-input token is the empty string, as shlex yields it.
- Floating point is not modelled. True division (which gives a float even for an exact quotient), a negative exponent and the postfix `%` give floats, and the model reports `Unmodelled` for them. This is why the docstring examples `-3^-2`, `5%+7%` and `1%%%` are left out.
- The float interpreter is left out of the default interpreter chain, which is the integer parser alone. Tokens that only float parsing accepts, such as `1.5`, `inf` or `nan`, are not interpretable in the model.
- Doctests.SymbolCalculatorBuilt: the chain is the integer parser and then the symbol table, without the float parser that `calculator.py:29` puts between them. A token that only float parsing accepts therefore reaches the symbol table and reads as None: the token `inf` evaluates to None where the source gives infinity, and the token list `1.5`, `+`, `1` (which a tokenizer other than shlex can produce) is a type error where the source gives 2.5. None of the documented symbol examples uses such a token.
- Operators.MakeOperator: argument lists that the constructor at `calculator.py:123-131` accepts without complaint are reported as `Unmodelled` when the model has no record for them: a first argument that is neither a string, None nor a number; a token that is neither a string nor None; and a middle argument that is None or a callable other than the interpreter chain. In the source these build an operator that fails only when it is used, if at all.
- Literals.ParseInt: the whitespace around the digits and the non-ASCII digits that integer parsing also accepts are not modelled.
- `math.sqrt` is modelled as a function defined on 4 with value 2, in place of the float result 2.0.
- Values that are lists, the `hello[-1]` example, and the `assign` method called by `=` are not modelled. Indexing and assignment fail with a type error.
- Comparing two callables with `==` or `!=` compares object identity in the source. The model reports `Unmodelled`.
- `max_precount` (`calculator.py:54`) is computed but never used by the loop, so it is not modelled.
- Python exception types, and the wording of their messages, are replaced by the `Error` kinds. The bare `Exception` raised when no operator is found is `NoOperator`, which a built calculator never reaches.
- `OutOfFuel` has no counterpart in the source. It stands for evaluations that do not terminate.
- That a parenthesised expression evaluates like the expression itself is not proved, because it does not hold in the source. A lone `)` read by a symbol table is None, while `())` fails. Empty input and `()` fail at different tokens. `Doctests.GroupingNotTransparent` states these cases.
- Monotonicity in the fuel is not proved. Each example is instead stated for every budget from its bound on.
- The `Calculator` is a datatype, because nothing updates it after construction. Passing an existing token stream to `calculate` is modelled by `Calculators.Calculate`, and passing a string by `Calculators.Evaluate` on a token list.
- The doctest runner (`calculator.py:176-178`) and `__call__` beyond evaluation are not part of this model.
