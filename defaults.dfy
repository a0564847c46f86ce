/** The calculator built with no arguments: its operator table written out,
    and how that table answers the lookups of the evaluation loop. */
module Defaults {
  import opened Results
  import opened Values
  import opened Literals
  import opened Operators
  import opened Calculators

  /** The table that the default operator list and the literal operator build,
      in the order of the list. */
  const DefaultTable: map<Key, Operator> := map[
    (Sym("="), 1) := AssignOp, (Sym("=="), 1) := EqOp, (Sym("<="), 1) := LeOp, (Sym(">="), 1) := GeOp,
    (Sym("!="), 1) := NeOp, (Sym("<"), 1) := LtOp, (Sym(">"), 1) := GtOp, (Sym("+"), 1) := AddOp,
    (Sym("-"), 1) := SubOp, (Sym("*"), 1) := MulOp, (Sym("/"), 1) := DivOp, (Sym("^"), 1) := PowOp,
    (Wild, 1) := AdjacentOp, (Sym("["), 1) := IndexOp, (Sym("%"), 1) := PercentOp,
    (Sym("+"), 0) := PlusOp, (Sym("-"), 0) := MinusOp, (Sym("("), 0) := ParenOp, (Wild, 0) := LiteralOp]

  /** The tokens that have an entry of their own in the default table. */
  const DefaultSymbols: set<string> := {"=", "==", "<=", ">=", "!=", "<", ">", "+", "-", "*", "/", "^", "[", "%", "("}

  /** A token without an entry of its own in the default table. */
  predicate Plain(token: string) {
    token !in DefaultSymbols
  }

  /** The calculator built with no arguments. */
  const DefaultCalculator := Calculator(DefaultInterpreters, DefaultTable)

  lemma BuildStep(ops: seq<Operator>, k: nat)
    requires k < |ops|
    ensures BuildTable(ops[..k + 1]) == BuildTable(ops[..k])[KeyOf(ops[k]) := ops[k]]
  {
    assert ops[..k + 1][..k] == ops[..k];
  }

  /** The table built from the first `k` entries of the default list, for the
      cut points used below, extended one entry at a time. */
  lemma BuildEntries0To3(d: seq<Operator>)
    requires d == DefaultOperators + [LiteralOp]
    ensures BuildTable(d[..3]) == map[][(Sym("="), 1) := AssignOp][(Sym("=="), 1) := EqOp][(Sym("<="), 1) := LeOp]
  {
    assert d[..0] == [];
    assert d[0] == AssignOp; BuildStep(d, 0);
    assert d[1] == EqOp; BuildStep(d, 1);
    assert d[2] == LeOp; BuildStep(d, 2);
  }

  lemma BuildEntries3To6(d: seq<Operator>)
    requires d == DefaultOperators + [LiteralOp]
    ensures BuildTable(d[..6]) == BuildTable(d[..3])[(Sym(">="), 1) := GeOp][(Sym("!="), 1) := NeOp][(Sym("<"), 1) := LtOp]
  {
    assert d[3] == GeOp; BuildStep(d, 3);
    assert d[4] == NeOp; BuildStep(d, 4);
    assert d[5] == LtOp; BuildStep(d, 5);
  }

  lemma BuildEntries6To9(d: seq<Operator>)
    requires d == DefaultOperators + [LiteralOp]
    ensures BuildTable(d[..9]) == BuildTable(d[..6])[(Sym(">"), 1) := GtOp][(Sym("+"), 1) := AddOp][(Sym("-"), 1) := SubOp]
  {
    assert d[6] == GtOp; BuildStep(d, 6);
    assert d[7] == AddOp; BuildStep(d, 7);
    assert d[8] == SubOp; BuildStep(d, 8);
  }

  lemma BuildEntries9To12(d: seq<Operator>)
    requires d == DefaultOperators + [LiteralOp]
    ensures BuildTable(d[..12]) == BuildTable(d[..9])[(Sym("*"), 1) := MulOp][(Sym("/"), 1) := DivOp][(Sym("^"), 1) := PowOp]
  {
    assert d[9] == MulOp; BuildStep(d, 9);
    assert d[10] == DivOp; BuildStep(d, 10);
    assert d[11] == PowOp; BuildStep(d, 11);
  }

  lemma BuildEntries12To15(d: seq<Operator>)
    requires d == DefaultOperators + [LiteralOp]
    ensures BuildTable(d[..15]) == BuildTable(d[..12])[(Wild, 1) := AdjacentOp][(Sym("["), 1) := IndexOp][(Sym("%"), 1) := PercentOp]
  {
    assert d[12] == AdjacentOp; BuildStep(d, 12);
    assert d[13] == IndexOp; BuildStep(d, 13);
    assert d[14] == PercentOp; BuildStep(d, 14);
  }

  lemma BuildEntries15To17(d: seq<Operator>)
    requires d == DefaultOperators + [LiteralOp]
    ensures BuildTable(d[..17]) == BuildTable(d[..15])[(Sym("+"), 0) := PlusOp][(Sym("-"), 0) := MinusOp]
  {
    assert d[15] == PlusOp; BuildStep(d, 15);
    assert d[16] == MinusOp; BuildStep(d, 16);
  }

  lemma BuildEntries17To19(d: seq<Operator>)
    requires d == DefaultOperators + [LiteralOp]
    ensures BuildTable(d) == BuildTable(d[..17])[(Sym("("), 0) := ParenOp][(Wild, 0) := LiteralOp]
  {
    assert d[17] == ParenOp; BuildStep(d, 17);
    assert d[18] == LiteralOp; BuildStep(d, 18);
    assert d[..19] == d;
  }

  lemma DefaultTableBuilt()
    ensures BuildTable(DefaultOperators + [LiteralOp]) == DefaultTable
  {
    var d := DefaultOperators + [LiteralOp];
    BuildEntries0To3(d);
    BuildEntries3To6(d);
    BuildEntries6To9(d);
    BuildEntries9To12(d);
    BuildEntries12To15(d);
    BuildEntries15To17(d);
    BuildEntries17To19(d);
  }

  lemma DefaultCalculatorBuilt()
    ensures NewCalculator([], []) == DefaultCalculator
  {
    DefaultTableBuilt();
  }

  lemma DefaultTableValid()
    ensures ValidTable(DefaultTable)
  {
    DefaultCalculatorBuilt();
  }

  /** A token without an entry of its own is read by the literal operator when
      nothing is pending and by the adjacency operator after a value. */
  lemma PlainLookup(token: string)
    requires token !in DefaultSymbols
    ensures Lookup(DefaultTable, token, 0) == Some(LiteralOp)
    ensures Lookup(DefaultTable, token, 1) == Some(AdjacentOp)
  {
    assert (Sym(token), 0) !in DefaultTable;
    assert (Sym(token), 1) !in DefaultTable;
  }

  /** Every default operator ranks above floor 0, so a top-level or grouped
      evaluation can only end at its stop token. */
  lemma DefaultTrumps()
    ensures forall k :: k in DefaultTable ==> !Outranked(DefaultTable[k].trump, 0)
  {
  }

  /** The lookups that the documented arithmetic examples rely on. */
  ghost predicate ArithmeticTable(table: map<Key, Operator>) {
    && ValidTable(table)
    && Lookup(table, "+", 1) == Some(AddOp)
    && Lookup(table, "-", 1) == Some(SubOp)
    && Lookup(table, "*", 1) == Some(MulOp)
    && Lookup(table, "^", 1) == Some(PowOp)
    && Lookup(table, "+", 0) == Some(PlusOp)
    && Lookup(table, "-", 0) == Some(MinusOp)
    && Lookup(table, "(", 0) == Some(ParenOp)
    && Lookup(table, "(", 1) == Some(AdjacentOp)
    && (forall t {:trigger Plain(t)} :: Plain(t) ==> Lookup(table, t, 0) == Some(LiteralOp))
    && (forall t {:trigger Plain(t)} :: Plain(t) ==> Lookup(table, t, 1) == Some(AdjacentOp))
  }

  lemma DefaultArithmetic()
    ensures ArithmeticTable(DefaultTable)
  {
    DefaultTableValid();
    forall t | Plain(t)
      ensures Lookup(DefaultTable, t, 0) == Some(LiteralOp) && Lookup(DefaultTable, t, 1) == Some(AdjacentOp)
    {
      PlainLookup(t);
    }
  }
}
