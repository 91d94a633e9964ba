/**
 * The library's own expected outputs of `ShuntingParser::parse`
 * (src/parser.rs:114-211), over the tokens the tokenizer yields for each
 * test string. A function token arrives with argument count 0 and leaves
 * with the counted one. Each run is checked token by token against the
 * reference `Rpn`, a few tokens per lemma.
 */
module ShuntingVectors {
  import opened Wrappers
  import opened Shunting

  /** `a * sin(b) / (c! % -d) * max(e, f)`, as tokens. */
  function MixedTokens(a: MathToken, b: MathToken, c: MathToken, d: MathToken, e: MathToken, f: MathToken): seq<MathToken>
  {
    [a, BOp("*"), Function("sin", 0), OParen, b, CParen, BOp("/"), OParen, c, UOp("!"), BOp("%"), UOp("-"), d, CParen, BOp("*"), Function("max", 0), OParen, e, Comma, f, CParen]
  }

  /** The converter's state before token `k` of `MixedTokens`, or after the last. */
  function MixedState(k: nat, a: MathToken, b: MathToken, c: MathToken, d: MathToken, e: MathToken, f: MathToken): Shunt
  {
    if k == 0 then Shunt([], [], [])
    else if k == 1 then Shunt([a], [], [])
    else if k == 2 then Shunt([a], [BOp("*")], [])
    else if k == 3 then Shunt([a], [BOp("*"), Function("sin", 0)], [1])
    else if k == 4 then Shunt([a], [BOp("*"), Function("sin", 0), OParen], [1])
    else if k == 5 then Shunt([a, b], [BOp("*"), Function("sin", 0), OParen], [1])
    else if k == 6 then Shunt([a, b, Function("sin", 1)], [BOp("*")], [])
    else if k == 7 then Shunt([a, b, Function("sin", 1), BOp("*")], [BOp("/")], [])
    else if k == 8 then Shunt([a, b, Function("sin", 1), BOp("*")], [BOp("/"), OParen], [])
    else if k == 9 then Shunt([a, b, Function("sin", 1), BOp("*"), c], [BOp("/"), OParen], [])
    else if k == 10 then Shunt([a, b, Function("sin", 1), BOp("*"), c], [BOp("/"), OParen, UOp("!")], [])
    else if k == 11 then Shunt([a, b, Function("sin", 1), BOp("*"), c, UOp("!")], [BOp("/"), OParen, BOp("%")], [])
    else if k == 12 then Shunt([a, b, Function("sin", 1), BOp("*"), c, UOp("!")], [BOp("/"), OParen, BOp("%"), UOp("-")], [])
    else if k == 13 then Shunt([a, b, Function("sin", 1), BOp("*"), c, UOp("!"), d], [BOp("/"), OParen, BOp("%"), UOp("-")], [])
    else if k == 14 then Shunt([a, b, Function("sin", 1), BOp("*"), c, UOp("!"), d, UOp("-"), BOp("%")], [BOp("/")], [])
    else if k == 15 then Shunt([a, b, Function("sin", 1), BOp("*"), c, UOp("!"), d, UOp("-"), BOp("%"), BOp("/")], [BOp("*")], [])
    else if k == 16 then Shunt([a, b, Function("sin", 1), BOp("*"), c, UOp("!"), d, UOp("-"), BOp("%"), BOp("/")], [BOp("*"), Function("max", 0)], [1])
    else if k == 17 then Shunt([a, b, Function("sin", 1), BOp("*"), c, UOp("!"), d, UOp("-"), BOp("%"), BOp("/")], [BOp("*"), Function("max", 0), OParen], [1])
    else if k == 18 then Shunt([a, b, Function("sin", 1), BOp("*"), c, UOp("!"), d, UOp("-"), BOp("%"), BOp("/"), e], [BOp("*"), Function("max", 0), OParen], [1])
    else if k == 19 then Shunt([a, b, Function("sin", 1), BOp("*"), c, UOp("!"), d, UOp("-"), BOp("%"), BOp("/"), e], [BOp("*"), Function("max", 0), OParen], [2])
    else if k == 20 then Shunt([a, b, Function("sin", 1), BOp("*"), c, UOp("!"), d, UOp("-"), BOp("%"), BOp("/"), e, f], [BOp("*"), Function("max", 0), OParen], [2])
    else Shunt([a, b, Function("sin", 1), BOp("*"), c, UOp("!"), d, UOp("-"), BOp("%"), BOp("/"), e, f, Function("max", 2)], [BOp("*")], [])
  }

  /** The converter's states along `MixedTokens`, first to last. */
  function MixedStates(a: MathToken, b: MathToken, c: MathToken, d: MathToken, e: MathToken, f: MathToken): seq<Shunt>
  {
    seq(22, k requires 0 <= k => MixedState(k, a, b, c, d, e, f))
  }

  /** Tokens 0 to 1 of `MixedTokens`. */
  lemma MixedSteps1(ts: seq<MathToken>, st: seq<Shunt>, a: MathToken, b: MathToken, c: MathToken, d: MathToken, e: MathToken, f: MathToken)
    requires IsOperand(a) && IsOperand(b) && IsOperand(c) && IsOperand(d) && IsOperand(e) && IsOperand(f)
    requires |ts| == 21 && |st| == 22
    requires ts[0] == a
    requires ts[1] == BOp("*")
    requires st[0] == Shunt([], [], [])
    requires st[1] == Shunt([a], [], [])
    requires st[2] == Shunt([a], [BOp("*")], [])
    requires Counted(st[0])
    ensures Counted(st[2]) && Traces(ts, st, 0, 2)
  {
    OperandStep(a, Shunt([], [], []), Shunt([a], [], []));
    PushStep(BOp("*"), Shunt([a], [], []), Shunt([a], [BOp("*")], []));
    assert Traces(ts, st, 2, 2);
    assert Traces(ts, st, 1, 2);
    assert Traces(ts, st, 0, 2);
  }

  /** Tokens 2 to 3 of `MixedTokens`. */
  lemma MixedSteps2(ts: seq<MathToken>, st: seq<Shunt>, a: MathToken, b: MathToken, c: MathToken, d: MathToken, e: MathToken, f: MathToken)
    requires IsOperand(a) && IsOperand(b) && IsOperand(c) && IsOperand(d) && IsOperand(e) && IsOperand(f)
    requires |ts| == 21 && |st| == 22
    requires ts[2] == Function("sin", 0)
    requires ts[3] == OParen
    requires st[2] == Shunt([a], [BOp("*")], [])
    requires st[3] == Shunt([a], [BOp("*"), Function("sin", 0)], [1])
    requires st[4] == Shunt([a], [BOp("*"), Function("sin", 0), OParen], [1])
    requires Counted(st[2])
    ensures Counted(st[4]) && Traces(ts, st, 2, 4)
  {
    OpenStep(Function("sin", 0), Shunt([a], [BOp("*")], []), Shunt([a], [BOp("*"), Function("sin", 0)], [1]));
    OpenStep(OParen, Shunt([a], [BOp("*"), Function("sin", 0)], [1]), Shunt([a], [BOp("*"), Function("sin", 0), OParen], [1]));
    assert Traces(ts, st, 4, 4);
    assert Traces(ts, st, 3, 4);
    assert Traces(ts, st, 2, 4);
  }

  /** Tokens 4 to 5 of `MixedTokens`. */
  lemma MixedSteps3(ts: seq<MathToken>, st: seq<Shunt>, a: MathToken, b: MathToken, c: MathToken, d: MathToken, e: MathToken, f: MathToken)
    requires IsOperand(a) && IsOperand(b) && IsOperand(c) && IsOperand(d) && IsOperand(e) && IsOperand(f)
    requires |ts| == 21 && |st| == 22
    requires ts[4] == b
    requires ts[5] == CParen
    requires st[4] == Shunt([a], [BOp("*"), Function("sin", 0), OParen], [1])
    requires st[5] == Shunt([a, b], [BOp("*"), Function("sin", 0), OParen], [1])
    requires st[6] == Shunt([a, b, Function("sin", 1)], [BOp("*")], [])
    requires Counted(st[4])
    ensures Counted(st[6]) && Traces(ts, st, 4, 6)
  {
    OperandStep(b, Shunt([a], [BOp("*"), Function("sin", 0), OParen], [1]), Shunt([a, b], [BOp("*"), Function("sin", 0), OParen], [1]));
    CallCloseStep(CParen, Shunt([a, b], [BOp("*"), Function("sin", 0), OParen], [1]), Function("sin", 0), 1, Shunt([a, b, Function("sin", 1)], [BOp("*")], []));
    assert Traces(ts, st, 6, 6);
    assert Traces(ts, st, 5, 6);
    assert Traces(ts, st, 4, 6);
  }

  /** Tokens 6 to 7 of `MixedTokens`. */
  lemma MixedSteps4(ts: seq<MathToken>, st: seq<Shunt>, a: MathToken, b: MathToken, c: MathToken, d: MathToken, e: MathToken, f: MathToken)
    requires IsOperand(a) && IsOperand(b) && IsOperand(c) && IsOperand(d) && IsOperand(e) && IsOperand(f)
    requires |ts| == 21 && |st| == 22
    requires ts[6] == BOp("/")
    requires ts[7] == OParen
    requires st[6] == Shunt([a, b, Function("sin", 1)], [BOp("*")], [])
    requires st[7] == Shunt([a, b, Function("sin", 1), BOp("*")], [BOp("/")], [])
    requires st[8] == Shunt([a, b, Function("sin", 1), BOp("*")], [BOp("/"), OParen], [])
    requires Counted(st[6])
    ensures Counted(st[8]) && Traces(ts, st, 6, 8)
  {
    PopStep(BOp("/"), Shunt([a, b, Function("sin", 1)], [BOp("*")], []), BOp("*"), Shunt([a, b, Function("sin", 1), BOp("*")], [], []));
    PushStep(BOp("/"), Shunt([a, b, Function("sin", 1), BOp("*")], [], []), Shunt([a, b, Function("sin", 1), BOp("*")], [BOp("/")], []));
    OpenStep(OParen, Shunt([a, b, Function("sin", 1), BOp("*")], [BOp("/")], []), Shunt([a, b, Function("sin", 1), BOp("*")], [BOp("/"), OParen], []));
    assert Traces(ts, st, 8, 8);
    assert Traces(ts, st, 7, 8);
    assert Traces(ts, st, 6, 8);
  }

  /** Tokens 8 to 9 of `MixedTokens`. */
  lemma MixedSteps5(ts: seq<MathToken>, st: seq<Shunt>, a: MathToken, b: MathToken, c: MathToken, d: MathToken, e: MathToken, f: MathToken)
    requires IsOperand(a) && IsOperand(b) && IsOperand(c) && IsOperand(d) && IsOperand(e) && IsOperand(f)
    requires |ts| == 21 && |st| == 22
    requires ts[8] == c
    requires ts[9] == UOp("!")
    requires st[8] == Shunt([a, b, Function("sin", 1), BOp("*")], [BOp("/"), OParen], [])
    requires st[9] == Shunt([a, b, Function("sin", 1), BOp("*"), c], [BOp("/"), OParen], [])
    requires st[10] == Shunt([a, b, Function("sin", 1), BOp("*"), c], [BOp("/"), OParen, UOp("!")], [])
    requires Counted(st[8])
    ensures Counted(st[10]) && Traces(ts, st, 8, 10)
  {
    OperandStep(c, Shunt([a, b, Function("sin", 1), BOp("*")], [BOp("/"), OParen], []), Shunt([a, b, Function("sin", 1), BOp("*"), c], [BOp("/"), OParen], []));
    PushStep(UOp("!"), Shunt([a, b, Function("sin", 1), BOp("*"), c], [BOp("/"), OParen], []), Shunt([a, b, Function("sin", 1), BOp("*"), c], [BOp("/"), OParen, UOp("!")], []));
    assert Traces(ts, st, 10, 10);
    assert Traces(ts, st, 9, 10);
    assert Traces(ts, st, 8, 10);
  }

  /** Tokens 10 to 11 of `MixedTokens`. */
  lemma MixedSteps6(ts: seq<MathToken>, st: seq<Shunt>, a: MathToken, b: MathToken, c: MathToken, d: MathToken, e: MathToken, f: MathToken)
    requires IsOperand(a) && IsOperand(b) && IsOperand(c) && IsOperand(d) && IsOperand(e) && IsOperand(f)
    requires |ts| == 21 && |st| == 22
    requires ts[10] == BOp("%")
    requires ts[11] == UOp("-")
    requires st[10] == Shunt([a, b, Function("sin", 1), BOp("*"), c], [BOp("/"), OParen, UOp("!")], [])
    requires st[11] == Shunt([a, b, Function("sin", 1), BOp("*"), c, UOp("!")], [BOp("/"), OParen, BOp("%")], [])
    requires st[12] == Shunt([a, b, Function("sin", 1), BOp("*"), c, UOp("!")], [BOp("/"), OParen, BOp("%"), UOp("-")], [])
    requires Counted(st[10])
    ensures Counted(st[12]) && Traces(ts, st, 10, 12)
  {
    PopStep(BOp("%"), Shunt([a, b, Function("sin", 1), BOp("*"), c], [BOp("/"), OParen, UOp("!")], []), UOp("!"), Shunt([a, b, Function("sin", 1), BOp("*"), c, UOp("!")], [BOp("/"), OParen], []));
    PushStep(BOp("%"), Shunt([a, b, Function("sin", 1), BOp("*"), c, UOp("!")], [BOp("/"), OParen], []), Shunt([a, b, Function("sin", 1), BOp("*"), c, UOp("!")], [BOp("/"), OParen, BOp("%")], []));
    PushStep(UOp("-"), Shunt([a, b, Function("sin", 1), BOp("*"), c, UOp("!")], [BOp("/"), OParen, BOp("%")], []), Shunt([a, b, Function("sin", 1), BOp("*"), c, UOp("!")], [BOp("/"), OParen, BOp("%"), UOp("-")], []));
    assert Traces(ts, st, 12, 12);
    assert Traces(ts, st, 11, 12);
    assert Traces(ts, st, 10, 12);
  }

  /** Tokens 12 to 13 of `MixedTokens`. */
  lemma MixedSteps7(ts: seq<MathToken>, st: seq<Shunt>, a: MathToken, b: MathToken, c: MathToken, d: MathToken, e: MathToken, f: MathToken)
    requires IsOperand(a) && IsOperand(b) && IsOperand(c) && IsOperand(d) && IsOperand(e) && IsOperand(f)
    requires |ts| == 21 && |st| == 22
    requires ts[12] == d
    requires ts[13] == CParen
    requires st[12] == Shunt([a, b, Function("sin", 1), BOp("*"), c, UOp("!")], [BOp("/"), OParen, BOp("%"), UOp("-")], [])
    requires st[13] == Shunt([a, b, Function("sin", 1), BOp("*"), c, UOp("!"), d], [BOp("/"), OParen, BOp("%"), UOp("-")], [])
    requires st[14] == Shunt([a, b, Function("sin", 1), BOp("*"), c, UOp("!"), d, UOp("-"), BOp("%")], [BOp("/")], [])
    requires Counted(st[12])
    ensures Counted(st[14]) && Traces(ts, st, 12, 14)
  {
    OperandStep(d, Shunt([a, b, Function("sin", 1), BOp("*"), c, UOp("!")], [BOp("/"), OParen, BOp("%"), UOp("-")], []), Shunt([a, b, Function("sin", 1), BOp("*"), c, UOp("!"), d], [BOp("/"), OParen, BOp("%"), UOp("-")], []));
    UnwindStep(CParen, Shunt([a, b, Function("sin", 1), BOp("*"), c, UOp("!"), d], [BOp("/"), OParen, BOp("%"), UOp("-")], []), UOp("-"), Shunt([a, b, Function("sin", 1), BOp("*"), c, UOp("!"), d, UOp("-")], [BOp("/"), OParen, BOp("%")], []));
    UnwindStep(CParen, Shunt([a, b, Function("sin", 1), BOp("*"), c, UOp("!"), d, UOp("-")], [BOp("/"), OParen, BOp("%")], []), BOp("%"), Shunt([a, b, Function("sin", 1), BOp("*"), c, UOp("!"), d, UOp("-"), BOp("%")], [BOp("/"), OParen], []));
    GroupCloseStep(CParen, Shunt([a, b, Function("sin", 1), BOp("*"), c, UOp("!"), d, UOp("-"), BOp("%")], [BOp("/"), OParen], []), Shunt([a, b, Function("sin", 1), BOp("*"), c, UOp("!"), d, UOp("-"), BOp("%")], [BOp("/")], []));
    assert Traces(ts, st, 14, 14);
    assert Traces(ts, st, 13, 14);
    assert Traces(ts, st, 12, 14);
  }

  /** Tokens 14 to 15 of `MixedTokens`. */
  lemma MixedSteps8(ts: seq<MathToken>, st: seq<Shunt>, a: MathToken, b: MathToken, c: MathToken, d: MathToken, e: MathToken, f: MathToken)
    requires IsOperand(a) && IsOperand(b) && IsOperand(c) && IsOperand(d) && IsOperand(e) && IsOperand(f)
    requires |ts| == 21 && |st| == 22
    requires ts[14] == BOp("*")
    requires ts[15] == Function("max", 0)
    requires st[14] == Shunt([a, b, Function("sin", 1), BOp("*"), c, UOp("!"), d, UOp("-"), BOp("%")], [BOp("/")], [])
    requires st[15] == Shunt([a, b, Function("sin", 1), BOp("*"), c, UOp("!"), d, UOp("-"), BOp("%"), BOp("/")], [BOp("*")], [])
    requires st[16] == Shunt([a, b, Function("sin", 1), BOp("*"), c, UOp("!"), d, UOp("-"), BOp("%"), BOp("/")], [BOp("*"), Function("max", 0)], [1])
    requires Counted(st[14])
    ensures Counted(st[16]) && Traces(ts, st, 14, 16)
  {
    PopStep(BOp("*"), Shunt([a, b, Function("sin", 1), BOp("*"), c, UOp("!"), d, UOp("-"), BOp("%")], [BOp("/")], []), BOp("/"), Shunt([a, b, Function("sin", 1), BOp("*"), c, UOp("!"), d, UOp("-"), BOp("%"), BOp("/")], [], []));
    PushStep(BOp("*"), Shunt([a, b, Function("sin", 1), BOp("*"), c, UOp("!"), d, UOp("-"), BOp("%"), BOp("/")], [], []), Shunt([a, b, Function("sin", 1), BOp("*"), c, UOp("!"), d, UOp("-"), BOp("%"), BOp("/")], [BOp("*")], []));
    OpenStep(Function("max", 0), Shunt([a, b, Function("sin", 1), BOp("*"), c, UOp("!"), d, UOp("-"), BOp("%"), BOp("/")], [BOp("*")], []), Shunt([a, b, Function("sin", 1), BOp("*"), c, UOp("!"), d, UOp("-"), BOp("%"), BOp("/")], [BOp("*"), Function("max", 0)], [1]));
    assert Traces(ts, st, 16, 16);
    assert Traces(ts, st, 15, 16);
    assert Traces(ts, st, 14, 16);
  }

  /** Tokens 16 to 17 of `MixedTokens`. */
  lemma MixedSteps9(ts: seq<MathToken>, st: seq<Shunt>, a: MathToken, b: MathToken, c: MathToken, d: MathToken, e: MathToken, f: MathToken)
    requires IsOperand(a) && IsOperand(b) && IsOperand(c) && IsOperand(d) && IsOperand(e) && IsOperand(f)
    requires |ts| == 21 && |st| == 22
    requires ts[16] == OParen
    requires ts[17] == e
    requires st[16] == Shunt([a, b, Function("sin", 1), BOp("*"), c, UOp("!"), d, UOp("-"), BOp("%"), BOp("/")], [BOp("*"), Function("max", 0)], [1])
    requires st[17] == Shunt([a, b, Function("sin", 1), BOp("*"), c, UOp("!"), d, UOp("-"), BOp("%"), BOp("/")], [BOp("*"), Function("max", 0), OParen], [1])
    requires st[18] == Shunt([a, b, Function("sin", 1), BOp("*"), c, UOp("!"), d, UOp("-"), BOp("%"), BOp("/"), e], [BOp("*"), Function("max", 0), OParen], [1])
    requires Counted(st[16])
    ensures Counted(st[18]) && Traces(ts, st, 16, 18)
  {
    OpenStep(OParen, Shunt([a, b, Function("sin", 1), BOp("*"), c, UOp("!"), d, UOp("-"), BOp("%"), BOp("/")], [BOp("*"), Function("max", 0)], [1]), Shunt([a, b, Function("sin", 1), BOp("*"), c, UOp("!"), d, UOp("-"), BOp("%"), BOp("/")], [BOp("*"), Function("max", 0), OParen], [1]));
    OperandStep(e, Shunt([a, b, Function("sin", 1), BOp("*"), c, UOp("!"), d, UOp("-"), BOp("%"), BOp("/")], [BOp("*"), Function("max", 0), OParen], [1]), Shunt([a, b, Function("sin", 1), BOp("*"), c, UOp("!"), d, UOp("-"), BOp("%"), BOp("/"), e], [BOp("*"), Function("max", 0), OParen], [1]));
    assert Traces(ts, st, 18, 18);
    assert Traces(ts, st, 17, 18);
    assert Traces(ts, st, 16, 18);
  }

  /** Tokens 18 to 19 of `MixedTokens`. */
  lemma MixedSteps10(ts: seq<MathToken>, st: seq<Shunt>, a: MathToken, b: MathToken, c: MathToken, d: MathToken, e: MathToken, f: MathToken)
    requires IsOperand(a) && IsOperand(b) && IsOperand(c) && IsOperand(d) && IsOperand(e) && IsOperand(f)
    requires |ts| == 21 && |st| == 22
    requires ts[18] == Comma
    requires ts[19] == f
    requires st[18] == Shunt([a, b, Function("sin", 1), BOp("*"), c, UOp("!"), d, UOp("-"), BOp("%"), BOp("/"), e], [BOp("*"), Function("max", 0), OParen], [1])
    requires st[19] == Shunt([a, b, Function("sin", 1), BOp("*"), c, UOp("!"), d, UOp("-"), BOp("%"), BOp("/"), e], [BOp("*"), Function("max", 0), OParen], [2])
    requires st[20] == Shunt([a, b, Function("sin", 1), BOp("*"), c, UOp("!"), d, UOp("-"), BOp("%"), BOp("/"), e, f], [BOp("*"), Function("max", 0), OParen], [2])
    requires Counted(st[18])
    ensures Counted(st[20]) && Traces(ts, st, 18, 20)
  {
    CommaStep(Comma, Shunt([a, b, Function("sin", 1), BOp("*"), c, UOp("!"), d, UOp("-"), BOp("%"), BOp("/"), e], [BOp("*"), Function("max", 0), OParen], [1]), Shunt([a, b, Function("sin", 1), BOp("*"), c, UOp("!"), d, UOp("-"), BOp("%"), BOp("/"), e], [BOp("*"), Function("max", 0), OParen], [2]));
    OperandStep(f, Shunt([a, b, Function("sin", 1), BOp("*"), c, UOp("!"), d, UOp("-"), BOp("%"), BOp("/"), e], [BOp("*"), Function("max", 0), OParen], [2]), Shunt([a, b, Function("sin", 1), BOp("*"), c, UOp("!"), d, UOp("-"), BOp("%"), BOp("/"), e, f], [BOp("*"), Function("max", 0), OParen], [2]));
    assert Traces(ts, st, 20, 20);
    assert Traces(ts, st, 19, 20);
    assert Traces(ts, st, 18, 20);
  }

  /** Tokens 20 to 20 of `MixedTokens`. */
  lemma MixedSteps11(ts: seq<MathToken>, st: seq<Shunt>, a: MathToken, b: MathToken, c: MathToken, d: MathToken, e: MathToken, f: MathToken)
    requires IsOperand(a) && IsOperand(b) && IsOperand(c) && IsOperand(d) && IsOperand(e) && IsOperand(f)
    requires |ts| == 21 && |st| == 22
    requires ts[20] == CParen
    requires st[20] == Shunt([a, b, Function("sin", 1), BOp("*"), c, UOp("!"), d, UOp("-"), BOp("%"), BOp("/"), e, f], [BOp("*"), Function("max", 0), OParen], [2])
    requires st[21] == Shunt([a, b, Function("sin", 1), BOp("*"), c, UOp("!"), d, UOp("-"), BOp("%"), BOp("/"), e, f, Function("max", 2)], [BOp("*")], [])
    requires Counted(st[20])
    ensures Counted(st[21]) && Traces(ts, st, 20, 21)
  {
    CallCloseStep(CParen, Shunt([a, b, Function("sin", 1), BOp("*"), c, UOp("!"), d, UOp("-"), BOp("%"), BOp("/"), e, f], [BOp("*"), Function("max", 0), OParen], [2]), Function("max", 0), 2, Shunt([a, b, Function("sin", 1), BOp("*"), c, UOp("!"), d, UOp("-"), BOp("%"), BOp("/"), e, f, Function("max", 2)], [BOp("*")], []));
    assert Traces(ts, st, 21, 21);
    assert Traces(ts, st, 20, 21);
  }

  /** The tokens and states `MixedSteps1` works on. */
  lemma MixedSteps1At(a: MathToken, b: MathToken, c: MathToken, d: MathToken, e: MathToken, f: MathToken)
    ensures var ts, st := MixedTokens(a, b, c, d, e, f), MixedStates(a, b, c, d, e, f);
      |ts| == 21 && |st| == 22 &&
      ts[0] == a &&
      ts[1] == BOp("*") &&
      st[0] == Shunt([], [], []) &&
      st[1] == Shunt([a], [], []) &&
      st[2] == Shunt([a], [BOp("*")], [])
  {
  }

  /** The tokens and states `MixedSteps2` works on. */
  lemma MixedSteps2At(a: MathToken, b: MathToken, c: MathToken, d: MathToken, e: MathToken, f: MathToken)
    ensures var ts, st := MixedTokens(a, b, c, d, e, f), MixedStates(a, b, c, d, e, f);
      |ts| == 21 && |st| == 22 &&
      ts[2] == Function("sin", 0) &&
      ts[3] == OParen &&
      st[2] == Shunt([a], [BOp("*")], []) &&
      st[3] == Shunt([a], [BOp("*"), Function("sin", 0)], [1]) &&
      st[4] == Shunt([a], [BOp("*"), Function("sin", 0), OParen], [1])
  {
  }

  /** The tokens and states `MixedSteps3` works on. */
  lemma MixedSteps3At(a: MathToken, b: MathToken, c: MathToken, d: MathToken, e: MathToken, f: MathToken)
    ensures var ts, st := MixedTokens(a, b, c, d, e, f), MixedStates(a, b, c, d, e, f);
      |ts| == 21 && |st| == 22 &&
      ts[4] == b &&
      ts[5] == CParen &&
      st[4] == Shunt([a], [BOp("*"), Function("sin", 0), OParen], [1]) &&
      st[5] == Shunt([a, b], [BOp("*"), Function("sin", 0), OParen], [1]) &&
      st[6] == Shunt([a, b, Function("sin", 1)], [BOp("*")], [])
  {
  }

  /** The tokens and states `MixedSteps4` works on. */
  lemma MixedSteps4At(a: MathToken, b: MathToken, c: MathToken, d: MathToken, e: MathToken, f: MathToken)
    ensures var ts, st := MixedTokens(a, b, c, d, e, f), MixedStates(a, b, c, d, e, f);
      |ts| == 21 && |st| == 22 &&
      ts[6] == BOp("/") &&
      ts[7] == OParen &&
      st[6] == Shunt([a, b, Function("sin", 1)], [BOp("*")], []) &&
      st[7] == Shunt([a, b, Function("sin", 1), BOp("*")], [BOp("/")], []) &&
      st[8] == Shunt([a, b, Function("sin", 1), BOp("*")], [BOp("/"), OParen], [])
  {
  }

  /** The tokens and states `MixedSteps5` works on. */
  lemma MixedSteps5At(a: MathToken, b: MathToken, c: MathToken, d: MathToken, e: MathToken, f: MathToken)
    ensures var ts, st := MixedTokens(a, b, c, d, e, f), MixedStates(a, b, c, d, e, f);
      |ts| == 21 && |st| == 22 &&
      ts[8] == c &&
      ts[9] == UOp("!") &&
      st[8] == Shunt([a, b, Function("sin", 1), BOp("*")], [BOp("/"), OParen], []) &&
      st[9] == Shunt([a, b, Function("sin", 1), BOp("*"), c], [BOp("/"), OParen], []) &&
      st[10] == Shunt([a, b, Function("sin", 1), BOp("*"), c], [BOp("/"), OParen, UOp("!")], [])
  {
  }

  /** The tokens and states `MixedSteps6` works on. */
  lemma MixedSteps6At(a: MathToken, b: MathToken, c: MathToken, d: MathToken, e: MathToken, f: MathToken)
    ensures var ts, st := MixedTokens(a, b, c, d, e, f), MixedStates(a, b, c, d, e, f);
      |ts| == 21 && |st| == 22 &&
      ts[10] == BOp("%") &&
      ts[11] == UOp("-") &&
      st[10] == Shunt([a, b, Function("sin", 1), BOp("*"), c], [BOp("/"), OParen, UOp("!")], []) &&
      st[11] == Shunt([a, b, Function("sin", 1), BOp("*"), c, UOp("!")], [BOp("/"), OParen, BOp("%")], []) &&
      st[12] == Shunt([a, b, Function("sin", 1), BOp("*"), c, UOp("!")], [BOp("/"), OParen, BOp("%"), UOp("-")], [])
  {
  }

  /** The tokens and states `MixedSteps7` works on. */
  lemma MixedSteps7At(a: MathToken, b: MathToken, c: MathToken, d: MathToken, e: MathToken, f: MathToken)
    ensures var ts, st := MixedTokens(a, b, c, d, e, f), MixedStates(a, b, c, d, e, f);
      |ts| == 21 && |st| == 22 &&
      ts[12] == d &&
      ts[13] == CParen &&
      st[12] == Shunt([a, b, Function("sin", 1), BOp("*"), c, UOp("!")], [BOp("/"), OParen, BOp("%"), UOp("-")], []) &&
      st[13] == Shunt([a, b, Function("sin", 1), BOp("*"), c, UOp("!"), d], [BOp("/"), OParen, BOp("%"), UOp("-")], []) &&
      st[14] == Shunt([a, b, Function("sin", 1), BOp("*"), c, UOp("!"), d, UOp("-"), BOp("%")], [BOp("/")], [])
  {
  }

  /** The tokens and states `MixedSteps8` works on. */
  lemma MixedSteps8At(a: MathToken, b: MathToken, c: MathToken, d: MathToken, e: MathToken, f: MathToken)
    ensures var ts, st := MixedTokens(a, b, c, d, e, f), MixedStates(a, b, c, d, e, f);
      |ts| == 21 && |st| == 22 &&
      ts[14] == BOp("*") &&
      ts[15] == Function("max", 0) &&
      st[14] == Shunt([a, b, Function("sin", 1), BOp("*"), c, UOp("!"), d, UOp("-"), BOp("%")], [BOp("/")], []) &&
      st[15] == Shunt([a, b, Function("sin", 1), BOp("*"), c, UOp("!"), d, UOp("-"), BOp("%"), BOp("/")], [BOp("*")], []) &&
      st[16] == Shunt([a, b, Function("sin", 1), BOp("*"), c, UOp("!"), d, UOp("-"), BOp("%"), BOp("/")], [BOp("*"), Function("max", 0)], [1])
  {
  }

  /** The tokens and states `MixedSteps9` works on. */
  lemma MixedSteps9At(a: MathToken, b: MathToken, c: MathToken, d: MathToken, e: MathToken, f: MathToken)
    ensures var ts, st := MixedTokens(a, b, c, d, e, f), MixedStates(a, b, c, d, e, f);
      |ts| == 21 && |st| == 22 &&
      ts[16] == OParen &&
      ts[17] == e &&
      st[16] == Shunt([a, b, Function("sin", 1), BOp("*"), c, UOp("!"), d, UOp("-"), BOp("%"), BOp("/")], [BOp("*"), Function("max", 0)], [1]) &&
      st[17] == Shunt([a, b, Function("sin", 1), BOp("*"), c, UOp("!"), d, UOp("-"), BOp("%"), BOp("/")], [BOp("*"), Function("max", 0), OParen], [1]) &&
      st[18] == Shunt([a, b, Function("sin", 1), BOp("*"), c, UOp("!"), d, UOp("-"), BOp("%"), BOp("/"), e], [BOp("*"), Function("max", 0), OParen], [1])
  {
  }

  /** The tokens and states `MixedSteps10` works on. */
  lemma MixedSteps10At(a: MathToken, b: MathToken, c: MathToken, d: MathToken, e: MathToken, f: MathToken)
    ensures var ts, st := MixedTokens(a, b, c, d, e, f), MixedStates(a, b, c, d, e, f);
      |ts| == 21 && |st| == 22 &&
      ts[18] == Comma &&
      ts[19] == f &&
      st[18] == Shunt([a, b, Function("sin", 1), BOp("*"), c, UOp("!"), d, UOp("-"), BOp("%"), BOp("/"), e], [BOp("*"), Function("max", 0), OParen], [1]) &&
      st[19] == Shunt([a, b, Function("sin", 1), BOp("*"), c, UOp("!"), d, UOp("-"), BOp("%"), BOp("/"), e], [BOp("*"), Function("max", 0), OParen], [2]) &&
      st[20] == Shunt([a, b, Function("sin", 1), BOp("*"), c, UOp("!"), d, UOp("-"), BOp("%"), BOp("/"), e, f], [BOp("*"), Function("max", 0), OParen], [2])
  {
  }

  /** The tokens and states `MixedSteps11` works on. */
  lemma MixedSteps11At(a: MathToken, b: MathToken, c: MathToken, d: MathToken, e: MathToken, f: MathToken)
    ensures var ts, st := MixedTokens(a, b, c, d, e, f), MixedStates(a, b, c, d, e, f);
      |ts| == 21 && |st| == 22 &&
      ts[20] == CParen &&
      st[20] == Shunt([a, b, Function("sin", 1), BOp("*"), c, UOp("!"), d, UOp("-"), BOp("%"), BOp("/"), e, f], [BOp("*"), Function("max", 0), OParen], [2]) &&
      st[21] == Shunt([a, b, Function("sin", 1), BOp("*"), c, UOp("!"), d, UOp("-"), BOp("%"), BOp("/"), e, f, Function("max", 2)], [BOp("*")], [])
  {
  }

  /** All of `MixedTokens`, one converter step each. */
  lemma MixedTrace(a: MathToken, b: MathToken, c: MathToken, d: MathToken, e: MathToken, f: MathToken)
    requires IsOperand(a) && IsOperand(b) && IsOperand(c) && IsOperand(d) && IsOperand(e) && IsOperand(f)
    ensures Traces(MixedTokens(a, b, c, d, e, f), MixedStates(a, b, c, d, e, f), 0, 21)
  {
    var ts, st := MixedTokens(a, b, c, d, e, f), MixedStates(a, b, c, d, e, f);
    MixedSteps1At(a, b, c, d, e, f);
    MixedSteps1(ts, st, a, b, c, d, e, f);
    MixedSteps2At(a, b, c, d, e, f);
    MixedSteps2(ts, st, a, b, c, d, e, f);
    MixedSteps3At(a, b, c, d, e, f);
    MixedSteps3(ts, st, a, b, c, d, e, f);
    MixedSteps4At(a, b, c, d, e, f);
    MixedSteps4(ts, st, a, b, c, d, e, f);
    MixedSteps5At(a, b, c, d, e, f);
    MixedSteps5(ts, st, a, b, c, d, e, f);
    MixedSteps6At(a, b, c, d, e, f);
    MixedSteps6(ts, st, a, b, c, d, e, f);
    MixedSteps7At(a, b, c, d, e, f);
    MixedSteps7(ts, st, a, b, c, d, e, f);
    MixedSteps8At(a, b, c, d, e, f);
    MixedSteps8(ts, st, a, b, c, d, e, f);
    MixedSteps9At(a, b, c, d, e, f);
    MixedSteps9(ts, st, a, b, c, d, e, f);
    MixedSteps10At(a, b, c, d, e, f);
    MixedSteps10(ts, st, a, b, c, d, e, f);
    MixedSteps11At(a, b, c, d, e, f);
    MixedSteps11(ts, st, a, b, c, d, e, f);
    TracesJoin(ts, st, 0, 2, 4);
    TracesJoin(ts, st, 0, 4, 6);
    TracesJoin(ts, st, 0, 6, 8);
    TracesJoin(ts, st, 0, 8, 10);
    TracesJoin(ts, st, 0, 10, 12);
    TracesJoin(ts, st, 0, 12, 14);
    TracesJoin(ts, st, 0, 14, 16);
    TracesJoin(ts, st, 0, 16, 18);
    TracesJoin(ts, st, 0, 18, 20);
    TracesJoin(ts, st, 0, 20, 21);
  }

  /** The first and the last of `MixedStates`. */
  lemma MixedEnds(a: MathToken, b: MathToken, c: MathToken, d: MathToken, e: MathToken, f: MathToken)
    ensures var st := MixedStates(a, b, c, d, e, f);
      |st| == 22 && st[0] == Shunt([], [], []) && st[21] == Shunt([a, b, Function("sin", 1), BOp("*"), c, UOp("!"), d, UOp("-"), BOp("%"), BOp("/"), e, f, Function("max", 2)], [BOp("*")], [])
  {
  }

  /** The run over `MixedTokens` from the empty state reaches the state after token 20. */
  lemma MixedRun(a: MathToken, b: MathToken, c: MathToken, d: MathToken, e: MathToken, f: MathToken)
    requires IsOperand(a) && IsOperand(b) && IsOperand(c) && IsOperand(d) && IsOperand(e) && IsOperand(f)
    ensures Counted(Shunt([a, b, Function("sin", 1), BOp("*"), c, UOp("!"), d, UOp("-"), BOp("%"), BOp("/"), e, f, Function("max", 2)], [BOp("*")], []))
    ensures RunFrom(MixedTokens(a, b, c, d, e, f), 0, Shunt([], [], []))
      == RunFrom(MixedTokens(a, b, c, d, e, f), 21, Shunt([a, b, Function("sin", 1), BOp("*"), c, UOp("!"), d, UOp("-"), BOp("%"), BOp("/"), e, f, Function("max", 2)], [BOp("*")], []))
  {
    var ts, st := MixedTokens(a, b, c, d, e, f), MixedStates(a, b, c, d, e, f);
    MixedTrace(a, b, c, d, e, f);
    MixedEnds(a, b, c, d, e, f);
    TraceRunsBetween(ts, st, 0, 21, Shunt([], [], []), Shunt([a, b, Function("sin", 1), BOp("*"), c, UOp("!"), d, UOp("-"), BOp("%"), BOp("/"), e, f, Function("max", 2)], [BOp("*")], []));
  }

  /** `a * sin(b) / (c! % -d) * max(e, f)` gives `a b sin * c ! d - % / e f max *`, for any operands. */
  lemma MixedExample(a: MathToken, b: MathToken, c: MathToken, d: MathToken, e: MathToken, f: MathToken)
    requires IsOperand(a) && IsOperand(b) && IsOperand(c) && IsOperand(d) && IsOperand(e) && IsOperand(f)
    ensures Rpn(MixedTokens(a, b, c, d, e, f))
      == Ok([a, b, Function("sin", 1), BOp("*"), c, UOp("!"), d, UOp("-"), BOp("%"), BOp("/"), e, f, Function("max", 2), BOp("*")])
  {
    MixedRun(a, b, c, d, e, f);
    DrainAll([a, b, Function("sin", 1), BOp("*"), c, UOp("!"), d, UOp("-"), BOp("%"), BOp("/"), e, f, Function("max", 2)], [BOp("*")]);
    assert [a, b, Function("sin", 1), BOp("*"), c, UOp("!"), d, UOp("-"), BOp("%"), BOp("/"), e, f, Function("max", 2)] + Reverse([BOp("*")])
      == [a, b, Function("sin", 1), BOp("*"), c, UOp("!"), d, UOp("-"), BOp("%"), BOp("/"), e, f, Function("max", 2), BOp("*")];
  }

  /** The library's vector `3.4e-2 * sin(x)/(7! % -4) * max(2, x)` (src/parser.rs:136-154). */
  lemma MixedVector()
    ensures Rpn(MixedTokens(Number(0.034), Variable("x"), Number(7.0), Number(4.0), Number(2.0), Variable("x")))
      == Ok([Number(0.034), Variable("x"), Function("sin", 1), BOp("*"), Number(7.0), UOp("!"), Number(4.0), UOp("-"), BOp("%"), BOp("/"), Number(2.0), Variable("x"), Function("max", 2), BOp("*")])
  {
    MixedExample(Number(0.034), Variable("x"), Number(7.0), Number(4.0), Number(2.0), Variable("x"));
  }

  /** `sqrt(-(a - b^c) / (d + e^f))`, as tokens. */
  function RootTokens(a: MathToken, b: MathToken, c: MathToken, d: MathToken, e: MathToken, f: MathToken): seq<MathToken>
  {
    [Function("sqrt", 0), OParen, UOp("-"), OParen, a, BOp("-"), b, BOp("^"), c, CParen, BOp("/"), OParen, d, BOp("+"), e, BOp("^"), f, CParen, CParen]
  }

  /** The converter's state before token `k` of `RootTokens`, or after the last. */
  function RootState(k: nat, a: MathToken, b: MathToken, c: MathToken, d: MathToken, e: MathToken, f: MathToken): Shunt
  {
    if k == 0 then Shunt([], [], [])
    else if k == 1 then Shunt([], [Function("sqrt", 0)], [1])
    else if k == 2 then Shunt([], [Function("sqrt", 0), OParen], [1])
    else if k == 3 then Shunt([], [Function("sqrt", 0), OParen, UOp("-")], [1])
    else if k == 4 then Shunt([], [Function("sqrt", 0), OParen, UOp("-"), OParen], [1])
    else if k == 5 then Shunt([a], [Function("sqrt", 0), OParen, UOp("-"), OParen], [1])
    else if k == 6 then Shunt([a], [Function("sqrt", 0), OParen, UOp("-"), OParen, BOp("-")], [1])
    else if k == 7 then Shunt([a, b], [Function("sqrt", 0), OParen, UOp("-"), OParen, BOp("-")], [1])
    else if k == 8 then Shunt([a, b], [Function("sqrt", 0), OParen, UOp("-"), OParen, BOp("-"), BOp("^")], [1])
    else if k == 9 then Shunt([a, b, c], [Function("sqrt", 0), OParen, UOp("-"), OParen, BOp("-"), BOp("^")], [1])
    else if k == 10 then Shunt([a, b, c, BOp("^"), BOp("-")], [Function("sqrt", 0), OParen, UOp("-")], [1])
    else if k == 11 then Shunt([a, b, c, BOp("^"), BOp("-"), UOp("-")], [Function("sqrt", 0), OParen, BOp("/")], [1])
    else if k == 12 then Shunt([a, b, c, BOp("^"), BOp("-"), UOp("-")], [Function("sqrt", 0), OParen, BOp("/"), OParen], [1])
    else if k == 13 then Shunt([a, b, c, BOp("^"), BOp("-"), UOp("-"), d], [Function("sqrt", 0), OParen, BOp("/"), OParen], [1])
    else if k == 14 then Shunt([a, b, c, BOp("^"), BOp("-"), UOp("-"), d], [Function("sqrt", 0), OParen, BOp("/"), OParen, BOp("+")], [1])
    else if k == 15 then Shunt([a, b, c, BOp("^"), BOp("-"), UOp("-"), d, e], [Function("sqrt", 0), OParen, BOp("/"), OParen, BOp("+")], [1])
    else if k == 16 then Shunt([a, b, c, BOp("^"), BOp("-"), UOp("-"), d, e], [Function("sqrt", 0), OParen, BOp("/"), OParen, BOp("+"), BOp("^")], [1])
    else if k == 17 then Shunt([a, b, c, BOp("^"), BOp("-"), UOp("-"), d, e, f], [Function("sqrt", 0), OParen, BOp("/"), OParen, BOp("+"), BOp("^")], [1])
    else if k == 18 then Shunt([a, b, c, BOp("^"), BOp("-"), UOp("-"), d, e, f, BOp("^"), BOp("+")], [Function("sqrt", 0), OParen, BOp("/")], [1])
    else Shunt([a, b, c, BOp("^"), BOp("-"), UOp("-"), d, e, f, BOp("^"), BOp("+"), BOp("/"), Function("sqrt", 1)], [], [])
  }

  /** The converter's states along `RootTokens`, first to last. */
  function RootStates(a: MathToken, b: MathToken, c: MathToken, d: MathToken, e: MathToken, f: MathToken): seq<Shunt>
  {
    seq(20, k requires 0 <= k => RootState(k, a, b, c, d, e, f))
  }

  /** Tokens 0 to 1 of `RootTokens`. */
  lemma RootSteps1(ts: seq<MathToken>, st: seq<Shunt>, a: MathToken, b: MathToken, c: MathToken, d: MathToken, e: MathToken, f: MathToken)
    requires IsOperand(a) && IsOperand(b) && IsOperand(c) && IsOperand(d) && IsOperand(e) && IsOperand(f)
    requires |ts| == 19 && |st| == 20
    requires ts[0] == Function("sqrt", 0)
    requires ts[1] == OParen
    requires st[0] == Shunt([], [], [])
    requires st[1] == Shunt([], [Function("sqrt", 0)], [1])
    requires st[2] == Shunt([], [Function("sqrt", 0), OParen], [1])
    requires Counted(st[0])
    ensures Counted(st[2]) && Traces(ts, st, 0, 2)
  {
    OpenStep(Function("sqrt", 0), Shunt([], [], []), Shunt([], [Function("sqrt", 0)], [1]));
    OpenStep(OParen, Shunt([], [Function("sqrt", 0)], [1]), Shunt([], [Function("sqrt", 0), OParen], [1]));
    assert Traces(ts, st, 2, 2);
    assert Traces(ts, st, 1, 2);
    assert Traces(ts, st, 0, 2);
  }

  /** Tokens 2 to 3 of `RootTokens`. */
  lemma RootSteps2(ts: seq<MathToken>, st: seq<Shunt>, a: MathToken, b: MathToken, c: MathToken, d: MathToken, e: MathToken, f: MathToken)
    requires IsOperand(a) && IsOperand(b) && IsOperand(c) && IsOperand(d) && IsOperand(e) && IsOperand(f)
    requires |ts| == 19 && |st| == 20
    requires ts[2] == UOp("-")
    requires ts[3] == OParen
    requires st[2] == Shunt([], [Function("sqrt", 0), OParen], [1])
    requires st[3] == Shunt([], [Function("sqrt", 0), OParen, UOp("-")], [1])
    requires st[4] == Shunt([], [Function("sqrt", 0), OParen, UOp("-"), OParen], [1])
    requires Counted(st[2])
    ensures Counted(st[4]) && Traces(ts, st, 2, 4)
  {
    PushStep(UOp("-"), Shunt([], [Function("sqrt", 0), OParen], [1]), Shunt([], [Function("sqrt", 0), OParen, UOp("-")], [1]));
    OpenStep(OParen, Shunt([], [Function("sqrt", 0), OParen, UOp("-")], [1]), Shunt([], [Function("sqrt", 0), OParen, UOp("-"), OParen], [1]));
    assert Traces(ts, st, 4, 4);
    assert Traces(ts, st, 3, 4);
    assert Traces(ts, st, 2, 4);
  }

  /** Tokens 4 to 5 of `RootTokens`. */
  lemma RootSteps3(ts: seq<MathToken>, st: seq<Shunt>, a: MathToken, b: MathToken, c: MathToken, d: MathToken, e: MathToken, f: MathToken)
    requires IsOperand(a) && IsOperand(b) && IsOperand(c) && IsOperand(d) && IsOperand(e) && IsOperand(f)
    requires |ts| == 19 && |st| == 20
    requires ts[4] == a
    requires ts[5] == BOp("-")
    requires st[4] == Shunt([], [Function("sqrt", 0), OParen, UOp("-"), OParen], [1])
    requires st[5] == Shunt([a], [Function("sqrt", 0), OParen, UOp("-"), OParen], [1])
    requires st[6] == Shunt([a], [Function("sqrt", 0), OParen, UOp("-"), OParen, BOp("-")], [1])
    requires Counted(st[4])
    ensures Counted(st[6]) && Traces(ts, st, 4, 6)
  {
    OperandStep(a, Shunt([], [Function("sqrt", 0), OParen, UOp("-"), OParen], [1]), Shunt([a], [Function("sqrt", 0), OParen, UOp("-"), OParen], [1]));
    PushStep(BOp("-"), Shunt([a], [Function("sqrt", 0), OParen, UOp("-"), OParen], [1]), Shunt([a], [Function("sqrt", 0), OParen, UOp("-"), OParen, BOp("-")], [1]));
    assert Traces(ts, st, 6, 6);
    assert Traces(ts, st, 5, 6);
    assert Traces(ts, st, 4, 6);
  }

  /** Tokens 6 to 7 of `RootTokens`. */
  lemma RootSteps4(ts: seq<MathToken>, st: seq<Shunt>, a: MathToken, b: MathToken, c: MathToken, d: MathToken, e: MathToken, f: MathToken)
    requires IsOperand(a) && IsOperand(b) && IsOperand(c) && IsOperand(d) && IsOperand(e) && IsOperand(f)
    requires |ts| == 19 && |st| == 20
    requires ts[6] == b
    requires ts[7] == BOp("^")
    requires st[6] == Shunt([a], [Function("sqrt", 0), OParen, UOp("-"), OParen, BOp("-")], [1])
    requires st[7] == Shunt([a, b], [Function("sqrt", 0), OParen, UOp("-"), OParen, BOp("-")], [1])
    requires st[8] == Shunt([a, b], [Function("sqrt", 0), OParen, UOp("-"), OParen, BOp("-"), BOp("^")], [1])
    requires Counted(st[6])
    ensures Counted(st[8]) && Traces(ts, st, 6, 8)
  {
    OperandStep(b, Shunt([a], [Function("sqrt", 0), OParen, UOp("-"), OParen, BOp("-")], [1]), Shunt([a, b], [Function("sqrt", 0), OParen, UOp("-"), OParen, BOp("-")], [1]));
    PushStep(BOp("^"), Shunt([a, b], [Function("sqrt", 0), OParen, UOp("-"), OParen, BOp("-")], [1]), Shunt([a, b], [Function("sqrt", 0), OParen, UOp("-"), OParen, BOp("-"), BOp("^")], [1]));
    assert Traces(ts, st, 8, 8);
    assert Traces(ts, st, 7, 8);
    assert Traces(ts, st, 6, 8);
  }

  /** Tokens 8 to 9 of `RootTokens`. */
  lemma RootSteps5(ts: seq<MathToken>, st: seq<Shunt>, a: MathToken, b: MathToken, c: MathToken, d: MathToken, e: MathToken, f: MathToken)
    requires IsOperand(a) && IsOperand(b) && IsOperand(c) && IsOperand(d) && IsOperand(e) && IsOperand(f)
    requires |ts| == 19 && |st| == 20
    requires ts[8] == c
    requires ts[9] == CParen
    requires st[8] == Shunt([a, b], [Function("sqrt", 0), OParen, UOp("-"), OParen, BOp("-"), BOp("^")], [1])
    requires st[9] == Shunt([a, b, c], [Function("sqrt", 0), OParen, UOp("-"), OParen, BOp("-"), BOp("^")], [1])
    requires st[10] == Shunt([a, b, c, BOp("^"), BOp("-")], [Function("sqrt", 0), OParen, UOp("-")], [1])
    requires Counted(st[8])
    ensures Counted(st[10]) && Traces(ts, st, 8, 10)
  {
    OperandStep(c, Shunt([a, b], [Function("sqrt", 0), OParen, UOp("-"), OParen, BOp("-"), BOp("^")], [1]), Shunt([a, b, c], [Function("sqrt", 0), OParen, UOp("-"), OParen, BOp("-"), BOp("^")], [1]));
    UnwindStep(CParen, Shunt([a, b, c], [Function("sqrt", 0), OParen, UOp("-"), OParen, BOp("-"), BOp("^")], [1]), BOp("^"), Shunt([a, b, c, BOp("^")], [Function("sqrt", 0), OParen, UOp("-"), OParen, BOp("-")], [1]));
    UnwindStep(CParen, Shunt([a, b, c, BOp("^")], [Function("sqrt", 0), OParen, UOp("-"), OParen, BOp("-")], [1]), BOp("-"), Shunt([a, b, c, BOp("^"), BOp("-")], [Function("sqrt", 0), OParen, UOp("-"), OParen], [1]));
    GroupCloseStep(CParen, Shunt([a, b, c, BOp("^"), BOp("-")], [Function("sqrt", 0), OParen, UOp("-"), OParen], [1]), Shunt([a, b, c, BOp("^"), BOp("-")], [Function("sqrt", 0), OParen, UOp("-")], [1]));
    assert Traces(ts, st, 10, 10);
    assert Traces(ts, st, 9, 10);
    assert Traces(ts, st, 8, 10);
  }

  /** Tokens 10 to 11 of `RootTokens`. */
  lemma RootSteps6(ts: seq<MathToken>, st: seq<Shunt>, a: MathToken, b: MathToken, c: MathToken, d: MathToken, e: MathToken, f: MathToken)
    requires IsOperand(a) && IsOperand(b) && IsOperand(c) && IsOperand(d) && IsOperand(e) && IsOperand(f)
    requires |ts| == 19 && |st| == 20
    requires ts[10] == BOp("/")
    requires ts[11] == OParen
    requires st[10] == Shunt([a, b, c, BOp("^"), BOp("-")], [Function("sqrt", 0), OParen, UOp("-")], [1])
    requires st[11] == Shunt([a, b, c, BOp("^"), BOp("-"), UOp("-")], [Function("sqrt", 0), OParen, BOp("/")], [1])
    requires st[12] == Shunt([a, b, c, BOp("^"), BOp("-"), UOp("-")], [Function("sqrt", 0), OParen, BOp("/"), OParen], [1])
    requires Counted(st[10])
    ensures Counted(st[12]) && Traces(ts, st, 10, 12)
  {
    PopStep(BOp("/"), Shunt([a, b, c, BOp("^"), BOp("-")], [Function("sqrt", 0), OParen, UOp("-")], [1]), UOp("-"), Shunt([a, b, c, BOp("^"), BOp("-"), UOp("-")], [Function("sqrt", 0), OParen], [1]));
    PushStep(BOp("/"), Shunt([a, b, c, BOp("^"), BOp("-"), UOp("-")], [Function("sqrt", 0), OParen], [1]), Shunt([a, b, c, BOp("^"), BOp("-"), UOp("-")], [Function("sqrt", 0), OParen, BOp("/")], [1]));
    OpenStep(OParen, Shunt([a, b, c, BOp("^"), BOp("-"), UOp("-")], [Function("sqrt", 0), OParen, BOp("/")], [1]), Shunt([a, b, c, BOp("^"), BOp("-"), UOp("-")], [Function("sqrt", 0), OParen, BOp("/"), OParen], [1]));
    assert Traces(ts, st, 12, 12);
    assert Traces(ts, st, 11, 12);
    assert Traces(ts, st, 10, 12);
  }

  /** Tokens 12 to 13 of `RootTokens`. */
  lemma RootSteps7(ts: seq<MathToken>, st: seq<Shunt>, a: MathToken, b: MathToken, c: MathToken, d: MathToken, e: MathToken, f: MathToken)
    requires IsOperand(a) && IsOperand(b) && IsOperand(c) && IsOperand(d) && IsOperand(e) && IsOperand(f)
    requires |ts| == 19 && |st| == 20
    requires ts[12] == d
    requires ts[13] == BOp("+")
    requires st[12] == Shunt([a, b, c, BOp("^"), BOp("-"), UOp("-")], [Function("sqrt", 0), OParen, BOp("/"), OParen], [1])
    requires st[13] == Shunt([a, b, c, BOp("^"), BOp("-"), UOp("-"), d], [Function("sqrt", 0), OParen, BOp("/"), OParen], [1])
    requires st[14] == Shunt([a, b, c, BOp("^"), BOp("-"), UOp("-"), d], [Function("sqrt", 0), OParen, BOp("/"), OParen, BOp("+")], [1])
    requires Counted(st[12])
    ensures Counted(st[14]) && Traces(ts, st, 12, 14)
  {
    OperandStep(d, Shunt([a, b, c, BOp("^"), BOp("-"), UOp("-")], [Function("sqrt", 0), OParen, BOp("/"), OParen], [1]), Shunt([a, b, c, BOp("^"), BOp("-"), UOp("-"), d], [Function("sqrt", 0), OParen, BOp("/"), OParen], [1]));
    PushStep(BOp("+"), Shunt([a, b, c, BOp("^"), BOp("-"), UOp("-"), d], [Function("sqrt", 0), OParen, BOp("/"), OParen], [1]), Shunt([a, b, c, BOp("^"), BOp("-"), UOp("-"), d], [Function("sqrt", 0), OParen, BOp("/"), OParen, BOp("+")], [1]));
    assert Traces(ts, st, 14, 14);
    assert Traces(ts, st, 13, 14);
    assert Traces(ts, st, 12, 14);
  }

  /** Tokens 14 to 15 of `RootTokens`. */
  lemma RootSteps8(ts: seq<MathToken>, st: seq<Shunt>, a: MathToken, b: MathToken, c: MathToken, d: MathToken, e: MathToken, f: MathToken)
    requires IsOperand(a) && IsOperand(b) && IsOperand(c) && IsOperand(d) && IsOperand(e) && IsOperand(f)
    requires |ts| == 19 && |st| == 20
    requires ts[14] == e
    requires ts[15] == BOp("^")
    requires st[14] == Shunt([a, b, c, BOp("^"), BOp("-"), UOp("-"), d], [Function("sqrt", 0), OParen, BOp("/"), OParen, BOp("+")], [1])
    requires st[15] == Shunt([a, b, c, BOp("^"), BOp("-"), UOp("-"), d, e], [Function("sqrt", 0), OParen, BOp("/"), OParen, BOp("+")], [1])
    requires st[16] == Shunt([a, b, c, BOp("^"), BOp("-"), UOp("-"), d, e], [Function("sqrt", 0), OParen, BOp("/"), OParen, BOp("+"), BOp("^")], [1])
    requires Counted(st[14])
    ensures Counted(st[16]) && Traces(ts, st, 14, 16)
  {
    OperandStep(e, Shunt([a, b, c, BOp("^"), BOp("-"), UOp("-"), d], [Function("sqrt", 0), OParen, BOp("/"), OParen, BOp("+")], [1]), Shunt([a, b, c, BOp("^"), BOp("-"), UOp("-"), d, e], [Function("sqrt", 0), OParen, BOp("/"), OParen, BOp("+")], [1]));
    PushStep(BOp("^"), Shunt([a, b, c, BOp("^"), BOp("-"), UOp("-"), d, e], [Function("sqrt", 0), OParen, BOp("/"), OParen, BOp("+")], [1]), Shunt([a, b, c, BOp("^"), BOp("-"), UOp("-"), d, e], [Function("sqrt", 0), OParen, BOp("/"), OParen, BOp("+"), BOp("^")], [1]));
    assert Traces(ts, st, 16, 16);
    assert Traces(ts, st, 15, 16);
    assert Traces(ts, st, 14, 16);
  }

  /** Tokens 16 to 17 of `RootTokens`. */
  lemma RootSteps9(ts: seq<MathToken>, st: seq<Shunt>, a: MathToken, b: MathToken, c: MathToken, d: MathToken, e: MathToken, f: MathToken)
    requires IsOperand(a) && IsOperand(b) && IsOperand(c) && IsOperand(d) && IsOperand(e) && IsOperand(f)
    requires |ts| == 19 && |st| == 20
    requires ts[16] == f
    requires ts[17] == CParen
    requires st[16] == Shunt([a, b, c, BOp("^"), BOp("-"), UOp("-"), d, e], [Function("sqrt", 0), OParen, BOp("/"), OParen, BOp("+"), BOp("^")], [1])
    requires st[17] == Shunt([a, b, c, BOp("^"), BOp("-"), UOp("-"), d, e, f], [Function("sqrt", 0), OParen, BOp("/"), OParen, BOp("+"), BOp("^")], [1])
    requires st[18] == Shunt([a, b, c, BOp("^"), BOp("-"), UOp("-"), d, e, f, BOp("^"), BOp("+")], [Function("sqrt", 0), OParen, BOp("/")], [1])
    requires Counted(st[16])
    ensures Counted(st[18]) && Traces(ts, st, 16, 18)
  {
    OperandStep(f, Shunt([a, b, c, BOp("^"), BOp("-"), UOp("-"), d, e], [Function("sqrt", 0), OParen, BOp("/"), OParen, BOp("+"), BOp("^")], [1]), Shunt([a, b, c, BOp("^"), BOp("-"), UOp("-"), d, e, f], [Function("sqrt", 0), OParen, BOp("/"), OParen, BOp("+"), BOp("^")], [1]));
    UnwindStep(CParen, Shunt([a, b, c, BOp("^"), BOp("-"), UOp("-"), d, e, f], [Function("sqrt", 0), OParen, BOp("/"), OParen, BOp("+"), BOp("^")], [1]), BOp("^"), Shunt([a, b, c, BOp("^"), BOp("-"), UOp("-"), d, e, f, BOp("^")], [Function("sqrt", 0), OParen, BOp("/"), OParen, BOp("+")], [1]));
    UnwindStep(CParen, Shunt([a, b, c, BOp("^"), BOp("-"), UOp("-"), d, e, f, BOp("^")], [Function("sqrt", 0), OParen, BOp("/"), OParen, BOp("+")], [1]), BOp("+"), Shunt([a, b, c, BOp("^"), BOp("-"), UOp("-"), d, e, f, BOp("^"), BOp("+")], [Function("sqrt", 0), OParen, BOp("/"), OParen], [1]));
    GroupCloseStep(CParen, Shunt([a, b, c, BOp("^"), BOp("-"), UOp("-"), d, e, f, BOp("^"), BOp("+")], [Function("sqrt", 0), OParen, BOp("/"), OParen], [1]), Shunt([a, b, c, BOp("^"), BOp("-"), UOp("-"), d, e, f, BOp("^"), BOp("+")], [Function("sqrt", 0), OParen, BOp("/")], [1]));
    assert Traces(ts, st, 18, 18);
    assert Traces(ts, st, 17, 18);
    assert Traces(ts, st, 16, 18);
  }

  /** Tokens 18 to 18 of `RootTokens`. */
  lemma RootSteps10(ts: seq<MathToken>, st: seq<Shunt>, a: MathToken, b: MathToken, c: MathToken, d: MathToken, e: MathToken, f: MathToken)
    requires IsOperand(a) && IsOperand(b) && IsOperand(c) && IsOperand(d) && IsOperand(e) && IsOperand(f)
    requires |ts| == 19 && |st| == 20
    requires ts[18] == CParen
    requires st[18] == Shunt([a, b, c, BOp("^"), BOp("-"), UOp("-"), d, e, f, BOp("^"), BOp("+")], [Function("sqrt", 0), OParen, BOp("/")], [1])
    requires st[19] == Shunt([a, b, c, BOp("^"), BOp("-"), UOp("-"), d, e, f, BOp("^"), BOp("+"), BOp("/"), Function("sqrt", 1)], [], [])
    requires Counted(st[18])
    ensures Counted(st[19]) && Traces(ts, st, 18, 19)
  {
    UnwindStep(CParen, Shunt([a, b, c, BOp("^"), BOp("-"), UOp("-"), d, e, f, BOp("^"), BOp("+")], [Function("sqrt", 0), OParen, BOp("/")], [1]), BOp("/"), Shunt([a, b, c, BOp("^"), BOp("-"), UOp("-"), d, e, f, BOp("^"), BOp("+"), BOp("/")], [Function("sqrt", 0), OParen], [1]));
    CallCloseStep(CParen, Shunt([a, b, c, BOp("^"), BOp("-"), UOp("-"), d, e, f, BOp("^"), BOp("+"), BOp("/")], [Function("sqrt", 0), OParen], [1]), Function("sqrt", 0), 1, Shunt([a, b, c, BOp("^"), BOp("-"), UOp("-"), d, e, f, BOp("^"), BOp("+"), BOp("/"), Function("sqrt", 1)], [], []));
    assert Traces(ts, st, 19, 19);
    assert Traces(ts, st, 18, 19);
  }

  /** The tokens and states `RootSteps1` works on. */
  lemma RootSteps1At(a: MathToken, b: MathToken, c: MathToken, d: MathToken, e: MathToken, f: MathToken)
    ensures var ts, st := RootTokens(a, b, c, d, e, f), RootStates(a, b, c, d, e, f);
      |ts| == 19 && |st| == 20 &&
      ts[0] == Function("sqrt", 0) &&
      ts[1] == OParen &&
      st[0] == Shunt([], [], []) &&
      st[1] == Shunt([], [Function("sqrt", 0)], [1]) &&
      st[2] == Shunt([], [Function("sqrt", 0), OParen], [1])
  {
  }

  /** The tokens and states `RootSteps2` works on. */
  lemma RootSteps2At(a: MathToken, b: MathToken, c: MathToken, d: MathToken, e: MathToken, f: MathToken)
    ensures var ts, st := RootTokens(a, b, c, d, e, f), RootStates(a, b, c, d, e, f);
      |ts| == 19 && |st| == 20 &&
      ts[2] == UOp("-") &&
      ts[3] == OParen &&
      st[2] == Shunt([], [Function("sqrt", 0), OParen], [1]) &&
      st[3] == Shunt([], [Function("sqrt", 0), OParen, UOp("-")], [1]) &&
      st[4] == Shunt([], [Function("sqrt", 0), OParen, UOp("-"), OParen], [1])
  {
  }

  /** The tokens and states `RootSteps3` works on. */
  lemma RootSteps3At(a: MathToken, b: MathToken, c: MathToken, d: MathToken, e: MathToken, f: MathToken)
    ensures var ts, st := RootTokens(a, b, c, d, e, f), RootStates(a, b, c, d, e, f);
      |ts| == 19 && |st| == 20 &&
      ts[4] == a &&
      ts[5] == BOp("-") &&
      st[4] == Shunt([], [Function("sqrt", 0), OParen, UOp("-"), OParen], [1]) &&
      st[5] == Shunt([a], [Function("sqrt", 0), OParen, UOp("-"), OParen], [1]) &&
      st[6] == Shunt([a], [Function("sqrt", 0), OParen, UOp("-"), OParen, BOp("-")], [1])
  {
  }

  /** The tokens and states `RootSteps4` works on. */
  lemma RootSteps4At(a: MathToken, b: MathToken, c: MathToken, d: MathToken, e: MathToken, f: MathToken)
    ensures var ts, st := RootTokens(a, b, c, d, e, f), RootStates(a, b, c, d, e, f);
      |ts| == 19 && |st| == 20 &&
      ts[6] == b &&
      ts[7] == BOp("^") &&
      st[6] == Shunt([a], [Function("sqrt", 0), OParen, UOp("-"), OParen, BOp("-")], [1]) &&
      st[7] == Shunt([a, b], [Function("sqrt", 0), OParen, UOp("-"), OParen, BOp("-")], [1]) &&
      st[8] == Shunt([a, b], [Function("sqrt", 0), OParen, UOp("-"), OParen, BOp("-"), BOp("^")], [1])
  {
  }

  /** The tokens and states `RootSteps5` works on. */
  lemma RootSteps5At(a: MathToken, b: MathToken, c: MathToken, d: MathToken, e: MathToken, f: MathToken)
    ensures var ts, st := RootTokens(a, b, c, d, e, f), RootStates(a, b, c, d, e, f);
      |ts| == 19 && |st| == 20 &&
      ts[8] == c &&
      ts[9] == CParen &&
      st[8] == Shunt([a, b], [Function("sqrt", 0), OParen, UOp("-"), OParen, BOp("-"), BOp("^")], [1]) &&
      st[9] == Shunt([a, b, c], [Function("sqrt", 0), OParen, UOp("-"), OParen, BOp("-"), BOp("^")], [1]) &&
      st[10] == Shunt([a, b, c, BOp("^"), BOp("-")], [Function("sqrt", 0), OParen, UOp("-")], [1])
  {
  }

  /** The tokens and states `RootSteps6` works on. */
  lemma RootSteps6At(a: MathToken, b: MathToken, c: MathToken, d: MathToken, e: MathToken, f: MathToken)
    ensures var ts, st := RootTokens(a, b, c, d, e, f), RootStates(a, b, c, d, e, f);
      |ts| == 19 && |st| == 20 &&
      ts[10] == BOp("/") &&
      ts[11] == OParen &&
      st[10] == Shunt([a, b, c, BOp("^"), BOp("-")], [Function("sqrt", 0), OParen, UOp("-")], [1]) &&
      st[11] == Shunt([a, b, c, BOp("^"), BOp("-"), UOp("-")], [Function("sqrt", 0), OParen, BOp("/")], [1]) &&
      st[12] == Shunt([a, b, c, BOp("^"), BOp("-"), UOp("-")], [Function("sqrt", 0), OParen, BOp("/"), OParen], [1])
  {
  }

  /** The tokens and states `RootSteps7` works on. */
  lemma RootSteps7At(a: MathToken, b: MathToken, c: MathToken, d: MathToken, e: MathToken, f: MathToken)
    ensures var ts, st := RootTokens(a, b, c, d, e, f), RootStates(a, b, c, d, e, f);
      |ts| == 19 && |st| == 20 &&
      ts[12] == d &&
      ts[13] == BOp("+") &&
      st[12] == Shunt([a, b, c, BOp("^"), BOp("-"), UOp("-")], [Function("sqrt", 0), OParen, BOp("/"), OParen], [1]) &&
      st[13] == Shunt([a, b, c, BOp("^"), BOp("-"), UOp("-"), d], [Function("sqrt", 0), OParen, BOp("/"), OParen], [1]) &&
      st[14] == Shunt([a, b, c, BOp("^"), BOp("-"), UOp("-"), d], [Function("sqrt", 0), OParen, BOp("/"), OParen, BOp("+")], [1])
  {
  }

  /** The tokens and states `RootSteps8` works on. */
  lemma RootSteps8At(a: MathToken, b: MathToken, c: MathToken, d: MathToken, e: MathToken, f: MathToken)
    ensures var ts, st := RootTokens(a, b, c, d, e, f), RootStates(a, b, c, d, e, f);
      |ts| == 19 && |st| == 20 &&
      ts[14] == e &&
      ts[15] == BOp("^") &&
      st[14] == Shunt([a, b, c, BOp("^"), BOp("-"), UOp("-"), d], [Function("sqrt", 0), OParen, BOp("/"), OParen, BOp("+")], [1]) &&
      st[15] == Shunt([a, b, c, BOp("^"), BOp("-"), UOp("-"), d, e], [Function("sqrt", 0), OParen, BOp("/"), OParen, BOp("+")], [1]) &&
      st[16] == Shunt([a, b, c, BOp("^"), BOp("-"), UOp("-"), d, e], [Function("sqrt", 0), OParen, BOp("/"), OParen, BOp("+"), BOp("^")], [1])
  {
  }

  /** The tokens and states `RootSteps9` works on. */
  lemma RootSteps9At(a: MathToken, b: MathToken, c: MathToken, d: MathToken, e: MathToken, f: MathToken)
    ensures var ts, st := RootTokens(a, b, c, d, e, f), RootStates(a, b, c, d, e, f);
      |ts| == 19 && |st| == 20 &&
      ts[16] == f &&
      ts[17] == CParen &&
      st[16] == Shunt([a, b, c, BOp("^"), BOp("-"), UOp("-"), d, e], [Function("sqrt", 0), OParen, BOp("/"), OParen, BOp("+"), BOp("^")], [1]) &&
      st[17] == Shunt([a, b, c, BOp("^"), BOp("-"), UOp("-"), d, e, f], [Function("sqrt", 0), OParen, BOp("/"), OParen, BOp("+"), BOp("^")], [1]) &&
      st[18] == Shunt([a, b, c, BOp("^"), BOp("-"), UOp("-"), d, e, f, BOp("^"), BOp("+")], [Function("sqrt", 0), OParen, BOp("/")], [1])
  {
  }

  /** The tokens and states `RootSteps10` works on. */
  lemma RootSteps10At(a: MathToken, b: MathToken, c: MathToken, d: MathToken, e: MathToken, f: MathToken)
    ensures var ts, st := RootTokens(a, b, c, d, e, f), RootStates(a, b, c, d, e, f);
      |ts| == 19 && |st| == 20 &&
      ts[18] == CParen &&
      st[18] == Shunt([a, b, c, BOp("^"), BOp("-"), UOp("-"), d, e, f, BOp("^"), BOp("+")], [Function("sqrt", 0), OParen, BOp("/")], [1]) &&
      st[19] == Shunt([a, b, c, BOp("^"), BOp("-"), UOp("-"), d, e, f, BOp("^"), BOp("+"), BOp("/"), Function("sqrt", 1)], [], [])
  {
  }

  /** All of `RootTokens`, one converter step each. */
  lemma RootTrace(a: MathToken, b: MathToken, c: MathToken, d: MathToken, e: MathToken, f: MathToken)
    requires IsOperand(a) && IsOperand(b) && IsOperand(c) && IsOperand(d) && IsOperand(e) && IsOperand(f)
    ensures Traces(RootTokens(a, b, c, d, e, f), RootStates(a, b, c, d, e, f), 0, 19)
  {
    var ts, st := RootTokens(a, b, c, d, e, f), RootStates(a, b, c, d, e, f);
    RootSteps1At(a, b, c, d, e, f);
    RootSteps1(ts, st, a, b, c, d, e, f);
    RootSteps2At(a, b, c, d, e, f);
    RootSteps2(ts, st, a, b, c, d, e, f);
    RootSteps3At(a, b, c, d, e, f);
    RootSteps3(ts, st, a, b, c, d, e, f);
    RootSteps4At(a, b, c, d, e, f);
    RootSteps4(ts, st, a, b, c, d, e, f);
    RootSteps5At(a, b, c, d, e, f);
    RootSteps5(ts, st, a, b, c, d, e, f);
    RootSteps6At(a, b, c, d, e, f);
    RootSteps6(ts, st, a, b, c, d, e, f);
    RootSteps7At(a, b, c, d, e, f);
    RootSteps7(ts, st, a, b, c, d, e, f);
    RootSteps8At(a, b, c, d, e, f);
    RootSteps8(ts, st, a, b, c, d, e, f);
    RootSteps9At(a, b, c, d, e, f);
    RootSteps9(ts, st, a, b, c, d, e, f);
    RootSteps10At(a, b, c, d, e, f);
    RootSteps10(ts, st, a, b, c, d, e, f);
    TracesJoin(ts, st, 0, 2, 4);
    TracesJoin(ts, st, 0, 4, 6);
    TracesJoin(ts, st, 0, 6, 8);
    TracesJoin(ts, st, 0, 8, 10);
    TracesJoin(ts, st, 0, 10, 12);
    TracesJoin(ts, st, 0, 12, 14);
    TracesJoin(ts, st, 0, 14, 16);
    TracesJoin(ts, st, 0, 16, 18);
    TracesJoin(ts, st, 0, 18, 19);
  }

  /** The first and the last of `RootStates`. */
  lemma RootEnds(a: MathToken, b: MathToken, c: MathToken, d: MathToken, e: MathToken, f: MathToken)
    ensures var st := RootStates(a, b, c, d, e, f);
      |st| == 20 && st[0] == Shunt([], [], []) && st[19] == Shunt([a, b, c, BOp("^"), BOp("-"), UOp("-"), d, e, f, BOp("^"), BOp("+"), BOp("/"), Function("sqrt", 1)], [], [])
  {
  }

  /** The run over `RootTokens` from the empty state reaches the state after token 18. */
  lemma RootRun(a: MathToken, b: MathToken, c: MathToken, d: MathToken, e: MathToken, f: MathToken)
    requires IsOperand(a) && IsOperand(b) && IsOperand(c) && IsOperand(d) && IsOperand(e) && IsOperand(f)
    ensures Counted(Shunt([a, b, c, BOp("^"), BOp("-"), UOp("-"), d, e, f, BOp("^"), BOp("+"), BOp("/"), Function("sqrt", 1)], [], []))
    ensures RunFrom(RootTokens(a, b, c, d, e, f), 0, Shunt([], [], []))
      == RunFrom(RootTokens(a, b, c, d, e, f), 19, Shunt([a, b, c, BOp("^"), BOp("-"), UOp("-"), d, e, f, BOp("^"), BOp("+"), BOp("/"), Function("sqrt", 1)], [], []))
  {
    var ts, st := RootTokens(a, b, c, d, e, f), RootStates(a, b, c, d, e, f);
    RootTrace(a, b, c, d, e, f);
    RootEnds(a, b, c, d, e, f);
    TraceRunsBetween(ts, st, 0, 19, Shunt([], [], []), Shunt([a, b, c, BOp("^"), BOp("-"), UOp("-"), d, e, f, BOp("^"), BOp("+"), BOp("/"), Function("sqrt", 1)], [], []));
  }

  /** `sqrt(-(a - b^c) / (d + e^f))` gives `a b c ^ - - d e f ^ + / sqrt`, for any operands. */
  lemma RootExample(a: MathToken, b: MathToken, c: MathToken, d: MathToken, e: MathToken, f: MathToken)
    requires IsOperand(a) && IsOperand(b) && IsOperand(c) && IsOperand(d) && IsOperand(e) && IsOperand(f)
    ensures Rpn(RootTokens(a, b, c, d, e, f))
      == Ok([a, b, c, BOp("^"), BOp("-"), UOp("-"), d, e, f, BOp("^"), BOp("+"), BOp("/"), Function("sqrt", 1)])
  {
    RootRun(a, b, c, d, e, f);
    DrainAll([a, b, c, BOp("^"), BOp("-"), UOp("-"), d, e, f, BOp("^"), BOp("+"), BOp("/"), Function("sqrt", 1)], []);
    assert [a, b, c, BOp("^"), BOp("-"), UOp("-"), d, e, f, BOp("^"), BOp("+"), BOp("/"), Function("sqrt", 1)] + Reverse([])
      == [a, b, c, BOp("^"), BOp("-"), UOp("-"), d, e, f, BOp("^"), BOp("+"), BOp("/"), Function("sqrt", 1)];
  }

  /** The library's vector `sqrt(-(1-x^2) / (1 + x^2))` (src/parser.rs:158-175). */
  lemma RootVector()
    ensures Rpn(RootTokens(Number(1.0), Variable("x"), Number(2.0), Number(1.0), Variable("x"), Number(2.0)))
      == Ok([Number(1.0), Variable("x"), Number(2.0), BOp("^"), BOp("-"), UOp("-"), Number(1.0), Variable("x"), Number(2.0), BOp("^"), BOp("+"), BOp("/"), Function("sqrt", 1)])
  {
    RootExample(Number(1.0), Variable("x"), Number(2.0), Number(1.0), Variable("x"), Number(2.0));
  }

  /** `sin(a) + (max(b, gamma(c), gcd(d, e)) + sum(f, g, h))`, as tokens. */
  function ArityTokens(a: MathToken, b: MathToken, c: MathToken, d: MathToken, e: MathToken, f: MathToken, g: MathToken, h: MathToken): seq<MathToken>
  {
    [Function("sin", 0), OParen, a, CParen, BOp("+"), OParen, Function("max", 0), OParen, b, Comma, Function("gamma", 0), OParen, c, CParen, Comma, Function("gcd", 0), OParen, d, Comma, e, CParen, CParen, BOp("+"), Function("sum", 0), OParen, f, Comma, g, Comma, h, CParen, CParen]
  }

  /** The converter's state before token `k` of `ArityTokens`, or after the last. */
  function ArityState(k: nat, a: MathToken, b: MathToken, c: MathToken, d: MathToken, e: MathToken, f: MathToken, g: MathToken, h: MathToken): Shunt
  {
    if k == 0 then Shunt([], [], [])
    else if k == 1 then Shunt([], [Function("sin", 0)], [1])
    else if k == 2 then Shunt([], [Function("sin", 0), OParen], [1])
    else if k == 3 then Shunt([a], [Function("sin", 0), OParen], [1])
    else if k == 4 then Shunt([a, Function("sin", 1)], [], [])
    else if k == 5 then Shunt([a, Function("sin", 1)], [BOp("+")], [])
    else if k == 6 then Shunt([a, Function("sin", 1)], [BOp("+"), OParen], [])
    else if k == 7 then Shunt([a, Function("sin", 1)], [BOp("+"), OParen, Function("max", 0)], [1])
    else if k == 8 then Shunt([a, Function("sin", 1)], [BOp("+"), OParen, Function("max", 0), OParen], [1])
    else if k == 9 then Shunt([a, Function("sin", 1), b], [BOp("+"), OParen, Function("max", 0), OParen], [1])
    else if k == 10 then Shunt([a, Function("sin", 1), b], [BOp("+"), OParen, Function("max", 0), OParen], [2])
    else if k == 11 then Shunt([a, Function("sin", 1), b], [BOp("+"), OParen, Function("max", 0), OParen, Function("gamma", 0)], [2, 1])
    else if k == 12 then Shunt([a, Function("sin", 1), b], [BOp("+"), OParen, Function("max", 0), OParen, Function("gamma", 0), OParen], [2, 1])
    else if k == 13 then Shunt([a, Function("sin", 1), b, c], [BOp("+"), OParen, Function("max", 0), OParen, Function("gamma", 0), OParen], [2, 1])
    else if k == 14 then Shunt([a, Function("sin", 1), b, c, Function("gamma", 1)], [BOp("+"), OParen, Function("max", 0), OParen], [2])
    else if k == 15 then Shunt([a, Function("sin", 1), b, c, Function("gamma", 1)], [BOp("+"), OParen, Function("max", 0), OParen], [3])
    else if k == 16 then Shunt([a, Function("sin", 1), b, c, Function("gamma", 1)], [BOp("+"), OParen, Function("max", 0), OParen, Function("gcd", 0)], [3, 1])
    else if k == 17 then Shunt([a, Function("sin", 1), b, c, Function("gamma", 1)], [BOp("+"), OParen, Function("max", 0), OParen, Function("gcd", 0), OParen], [3, 1])
    else if k == 18 then Shunt([a, Function("sin", 1), b, c, Function("gamma", 1), d], [BOp("+"), OParen, Function("max", 0), OParen, Function("gcd", 0), OParen], [3, 1])
    else if k == 19 then Shunt([a, Function("sin", 1), b, c, Function("gamma", 1), d], [BOp("+"), OParen, Function("max", 0), OParen, Function("gcd", 0), OParen], [3, 2])
    else if k == 20 then Shunt([a, Function("sin", 1), b, c, Function("gamma", 1), d, e], [BOp("+"), OParen, Function("max", 0), OParen, Function("gcd", 0), OParen], [3, 2])
    else if k == 21 then Shunt([a, Function("sin", 1), b, c, Function("gamma", 1), d, e, Function("gcd", 2)], [BOp("+"), OParen, Function("max", 0), OParen], [3])
    else if k == 22 then Shunt([a, Function("sin", 1), b, c, Function("gamma", 1), d, e, Function("gcd", 2), Function("max", 3)], [BOp("+"), OParen], [])
    else if k == 23 then Shunt([a, Function("sin", 1), b, c, Function("gamma", 1), d, e, Function("gcd", 2), Function("max", 3)], [BOp("+"), OParen, BOp("+")], [])
    else if k == 24 then Shunt([a, Function("sin", 1), b, c, Function("gamma", 1), d, e, Function("gcd", 2), Function("max", 3)], [BOp("+"), OParen, BOp("+"), Function("sum", 0)], [1])
    else if k == 25 then Shunt([a, Function("sin", 1), b, c, Function("gamma", 1), d, e, Function("gcd", 2), Function("max", 3)], [BOp("+"), OParen, BOp("+"), Function("sum", 0), OParen], [1])
    else if k == 26 then Shunt([a, Function("sin", 1), b, c, Function("gamma", 1), d, e, Function("gcd", 2), Function("max", 3), f], [BOp("+"), OParen, BOp("+"), Function("sum", 0), OParen], [1])
    else if k == 27 then Shunt([a, Function("sin", 1), b, c, Function("gamma", 1), d, e, Function("gcd", 2), Function("max", 3), f], [BOp("+"), OParen, BOp("+"), Function("sum", 0), OParen], [2])
    else if k == 28 then Shunt([a, Function("sin", 1), b, c, Function("gamma", 1), d, e, Function("gcd", 2), Function("max", 3), f, g], [BOp("+"), OParen, BOp("+"), Function("sum", 0), OParen], [2])
    else if k == 29 then Shunt([a, Function("sin", 1), b, c, Function("gamma", 1), d, e, Function("gcd", 2), Function("max", 3), f, g], [BOp("+"), OParen, BOp("+"), Function("sum", 0), OParen], [3])
    else if k == 30 then Shunt([a, Function("sin", 1), b, c, Function("gamma", 1), d, e, Function("gcd", 2), Function("max", 3), f, g, h], [BOp("+"), OParen, BOp("+"), Function("sum", 0), OParen], [3])
    else if k == 31 then Shunt([a, Function("sin", 1), b, c, Function("gamma", 1), d, e, Function("gcd", 2), Function("max", 3), f, g, h, Function("sum", 3)], [BOp("+"), OParen, BOp("+")], [])
    else Shunt([a, Function("sin", 1), b, c, Function("gamma", 1), d, e, Function("gcd", 2), Function("max", 3), f, g, h, Function("sum", 3), BOp("+")], [BOp("+")], [])
  }

  /** The converter's states along `ArityTokens`, first to last. */
  function ArityStates(a: MathToken, b: MathToken, c: MathToken, d: MathToken, e: MathToken, f: MathToken, g: MathToken, h: MathToken): seq<Shunt>
  {
    seq(33, k requires 0 <= k => ArityState(k, a, b, c, d, e, f, g, h))
  }

  /** Tokens 0 to 1 of `ArityTokens`. */
  lemma AritySteps1(ts: seq<MathToken>, st: seq<Shunt>, a: MathToken, b: MathToken, c: MathToken, d: MathToken, e: MathToken, f: MathToken, g: MathToken, h: MathToken)
    requires IsOperand(a) && IsOperand(b) && IsOperand(c) && IsOperand(d) && IsOperand(e) && IsOperand(f) && IsOperand(g) && IsOperand(h)
    requires |ts| == 32 && |st| == 33
    requires ts[0] == Function("sin", 0)
    requires ts[1] == OParen
    requires st[0] == Shunt([], [], [])
    requires st[1] == Shunt([], [Function("sin", 0)], [1])
    requires st[2] == Shunt([], [Function("sin", 0), OParen], [1])
    requires Counted(st[0])
    ensures Counted(st[2]) && Traces(ts, st, 0, 2)
  {
    OpenStep(Function("sin", 0), Shunt([], [], []), Shunt([], [Function("sin", 0)], [1]));
    OpenStep(OParen, Shunt([], [Function("sin", 0)], [1]), Shunt([], [Function("sin", 0), OParen], [1]));
    assert Traces(ts, st, 2, 2);
    assert Traces(ts, st, 1, 2);
    assert Traces(ts, st, 0, 2);
  }

  /** Tokens 2 to 3 of `ArityTokens`. */
  lemma AritySteps2(ts: seq<MathToken>, st: seq<Shunt>, a: MathToken, b: MathToken, c: MathToken, d: MathToken, e: MathToken, f: MathToken, g: MathToken, h: MathToken)
    requires IsOperand(a) && IsOperand(b) && IsOperand(c) && IsOperand(d) && IsOperand(e) && IsOperand(f) && IsOperand(g) && IsOperand(h)
    requires |ts| == 32 && |st| == 33
    requires ts[2] == a
    requires ts[3] == CParen
    requires st[2] == Shunt([], [Function("sin", 0), OParen], [1])
    requires st[3] == Shunt([a], [Function("sin", 0), OParen], [1])
    requires st[4] == Shunt([a, Function("sin", 1)], [], [])
    requires Counted(st[2])
    ensures Counted(st[4]) && Traces(ts, st, 2, 4)
  {
    OperandStep(a, Shunt([], [Function("sin", 0), OParen], [1]), Shunt([a], [Function("sin", 0), OParen], [1]));
    CallCloseStep(CParen, Shunt([a], [Function("sin", 0), OParen], [1]), Function("sin", 0), 1, Shunt([a, Function("sin", 1)], [], []));
    assert Traces(ts, st, 4, 4);
    assert Traces(ts, st, 3, 4);
    assert Traces(ts, st, 2, 4);
  }

  /** Tokens 4 to 5 of `ArityTokens`. */
  lemma AritySteps3(ts: seq<MathToken>, st: seq<Shunt>, a: MathToken, b: MathToken, c: MathToken, d: MathToken, e: MathToken, f: MathToken, g: MathToken, h: MathToken)
    requires IsOperand(a) && IsOperand(b) && IsOperand(c) && IsOperand(d) && IsOperand(e) && IsOperand(f) && IsOperand(g) && IsOperand(h)
    requires |ts| == 32 && |st| == 33
    requires ts[4] == BOp("+")
    requires ts[5] == OParen
    requires st[4] == Shunt([a, Function("sin", 1)], [], [])
    requires st[5] == Shunt([a, Function("sin", 1)], [BOp("+")], [])
    requires st[6] == Shunt([a, Function("sin", 1)], [BOp("+"), OParen], [])
    requires Counted(st[4])
    ensures Counted(st[6]) && Traces(ts, st, 4, 6)
  {
    PushStep(BOp("+"), Shunt([a, Function("sin", 1)], [], []), Shunt([a, Function("sin", 1)], [BOp("+")], []));
    OpenStep(OParen, Shunt([a, Function("sin", 1)], [BOp("+")], []), Shunt([a, Function("sin", 1)], [BOp("+"), OParen], []));
    assert Traces(ts, st, 6, 6);
    assert Traces(ts, st, 5, 6);
    assert Traces(ts, st, 4, 6);
  }

  /** Tokens 6 to 7 of `ArityTokens`. */
  lemma AritySteps4(ts: seq<MathToken>, st: seq<Shunt>, a: MathToken, b: MathToken, c: MathToken, d: MathToken, e: MathToken, f: MathToken, g: MathToken, h: MathToken)
    requires IsOperand(a) && IsOperand(b) && IsOperand(c) && IsOperand(d) && IsOperand(e) && IsOperand(f) && IsOperand(g) && IsOperand(h)
    requires |ts| == 32 && |st| == 33
    requires ts[6] == Function("max", 0)
    requires ts[7] == OParen
    requires st[6] == Shunt([a, Function("sin", 1)], [BOp("+"), OParen], [])
    requires st[7] == Shunt([a, Function("sin", 1)], [BOp("+"), OParen, Function("max", 0)], [1])
    requires st[8] == Shunt([a, Function("sin", 1)], [BOp("+"), OParen, Function("max", 0), OParen], [1])
    requires Counted(st[6])
    ensures Counted(st[8]) && Traces(ts, st, 6, 8)
  {
    OpenStep(Function("max", 0), Shunt([a, Function("sin", 1)], [BOp("+"), OParen], []), Shunt([a, Function("sin", 1)], [BOp("+"), OParen, Function("max", 0)], [1]));
    OpenStep(OParen, Shunt([a, Function("sin", 1)], [BOp("+"), OParen, Function("max", 0)], [1]), Shunt([a, Function("sin", 1)], [BOp("+"), OParen, Function("max", 0), OParen], [1]));
    assert Traces(ts, st, 8, 8);
    assert Traces(ts, st, 7, 8);
    assert Traces(ts, st, 6, 8);
  }

  /** Tokens 8 to 9 of `ArityTokens`. */
  lemma AritySteps5(ts: seq<MathToken>, st: seq<Shunt>, a: MathToken, b: MathToken, c: MathToken, d: MathToken, e: MathToken, f: MathToken, g: MathToken, h: MathToken)
    requires IsOperand(a) && IsOperand(b) && IsOperand(c) && IsOperand(d) && IsOperand(e) && IsOperand(f) && IsOperand(g) && IsOperand(h)
    requires |ts| == 32 && |st| == 33
    requires ts[8] == b
    requires ts[9] == Comma
    requires st[8] == Shunt([a, Function("sin", 1)], [BOp("+"), OParen, Function("max", 0), OParen], [1])
    requires st[9] == Shunt([a, Function("sin", 1), b], [BOp("+"), OParen, Function("max", 0), OParen], [1])
    requires st[10] == Shunt([a, Function("sin", 1), b], [BOp("+"), OParen, Function("max", 0), OParen], [2])
    requires Counted(st[8])
    ensures Counted(st[10]) && Traces(ts, st, 8, 10)
  {
    OperandStep(b, Shunt([a, Function("sin", 1)], [BOp("+"), OParen, Function("max", 0), OParen], [1]), Shunt([a, Function("sin", 1), b], [BOp("+"), OParen, Function("max", 0), OParen], [1]));
    CommaStep(Comma, Shunt([a, Function("sin", 1), b], [BOp("+"), OParen, Function("max", 0), OParen], [1]), Shunt([a, Function("sin", 1), b], [BOp("+"), OParen, Function("max", 0), OParen], [2]));
    assert Traces(ts, st, 10, 10);
    assert Traces(ts, st, 9, 10);
    assert Traces(ts, st, 8, 10);
  }

  /** Tokens 10 to 11 of `ArityTokens`. */
  lemma AritySteps6(ts: seq<MathToken>, st: seq<Shunt>, a: MathToken, b: MathToken, c: MathToken, d: MathToken, e: MathToken, f: MathToken, g: MathToken, h: MathToken)
    requires IsOperand(a) && IsOperand(b) && IsOperand(c) && IsOperand(d) && IsOperand(e) && IsOperand(f) && IsOperand(g) && IsOperand(h)
    requires |ts| == 32 && |st| == 33
    requires ts[10] == Function("gamma", 0)
    requires ts[11] == OParen
    requires st[10] == Shunt([a, Function("sin", 1), b], [BOp("+"), OParen, Function("max", 0), OParen], [2])
    requires st[11] == Shunt([a, Function("sin", 1), b], [BOp("+"), OParen, Function("max", 0), OParen, Function("gamma", 0)], [2, 1])
    requires st[12] == Shunt([a, Function("sin", 1), b], [BOp("+"), OParen, Function("max", 0), OParen, Function("gamma", 0), OParen], [2, 1])
    requires Counted(st[10])
    ensures Counted(st[12]) && Traces(ts, st, 10, 12)
  {
    OpenStep(Function("gamma", 0), Shunt([a, Function("sin", 1), b], [BOp("+"), OParen, Function("max", 0), OParen], [2]), Shunt([a, Function("sin", 1), b], [BOp("+"), OParen, Function("max", 0), OParen, Function("gamma", 0)], [2, 1]));
    OpenStep(OParen, Shunt([a, Function("sin", 1), b], [BOp("+"), OParen, Function("max", 0), OParen, Function("gamma", 0)], [2, 1]), Shunt([a, Function("sin", 1), b], [BOp("+"), OParen, Function("max", 0), OParen, Function("gamma", 0), OParen], [2, 1]));
    assert Traces(ts, st, 12, 12);
    assert Traces(ts, st, 11, 12);
    assert Traces(ts, st, 10, 12);
  }

  /** Tokens 12 to 13 of `ArityTokens`. */
  lemma AritySteps7(ts: seq<MathToken>, st: seq<Shunt>, a: MathToken, b: MathToken, c: MathToken, d: MathToken, e: MathToken, f: MathToken, g: MathToken, h: MathToken)
    requires IsOperand(a) && IsOperand(b) && IsOperand(c) && IsOperand(d) && IsOperand(e) && IsOperand(f) && IsOperand(g) && IsOperand(h)
    requires |ts| == 32 && |st| == 33
    requires ts[12] == c
    requires ts[13] == CParen
    requires st[12] == Shunt([a, Function("sin", 1), b], [BOp("+"), OParen, Function("max", 0), OParen, Function("gamma", 0), OParen], [2, 1])
    requires st[13] == Shunt([a, Function("sin", 1), b, c], [BOp("+"), OParen, Function("max", 0), OParen, Function("gamma", 0), OParen], [2, 1])
    requires st[14] == Shunt([a, Function("sin", 1), b, c, Function("gamma", 1)], [BOp("+"), OParen, Function("max", 0), OParen], [2])
    requires Counted(st[12])
    ensures Counted(st[14]) && Traces(ts, st, 12, 14)
  {
    OperandStep(c, Shunt([a, Function("sin", 1), b], [BOp("+"), OParen, Function("max", 0), OParen, Function("gamma", 0), OParen], [2, 1]), Shunt([a, Function("sin", 1), b, c], [BOp("+"), OParen, Function("max", 0), OParen, Function("gamma", 0), OParen], [2, 1]));
    CallCloseStep(CParen, Shunt([a, Function("sin", 1), b, c], [BOp("+"), OParen, Function("max", 0), OParen, Function("gamma", 0), OParen], [2, 1]), Function("gamma", 0), 1, Shunt([a, Function("sin", 1), b, c, Function("gamma", 1)], [BOp("+"), OParen, Function("max", 0), OParen], [2]));
    assert Traces(ts, st, 14, 14);
    assert Traces(ts, st, 13, 14);
    assert Traces(ts, st, 12, 14);
  }

  /** Tokens 14 to 15 of `ArityTokens`. */
  lemma AritySteps8(ts: seq<MathToken>, st: seq<Shunt>, a: MathToken, b: MathToken, c: MathToken, d: MathToken, e: MathToken, f: MathToken, g: MathToken, h: MathToken)
    requires IsOperand(a) && IsOperand(b) && IsOperand(c) && IsOperand(d) && IsOperand(e) && IsOperand(f) && IsOperand(g) && IsOperand(h)
    requires |ts| == 32 && |st| == 33
    requires ts[14] == Comma
    requires ts[15] == Function("gcd", 0)
    requires st[14] == Shunt([a, Function("sin", 1), b, c, Function("gamma", 1)], [BOp("+"), OParen, Function("max", 0), OParen], [2])
    requires st[15] == Shunt([a, Function("sin", 1), b, c, Function("gamma", 1)], [BOp("+"), OParen, Function("max", 0), OParen], [3])
    requires st[16] == Shunt([a, Function("sin", 1), b, c, Function("gamma", 1)], [BOp("+"), OParen, Function("max", 0), OParen, Function("gcd", 0)], [3, 1])
    requires Counted(st[14])
    ensures Counted(st[16]) && Traces(ts, st, 14, 16)
  {
    CommaStep(Comma, Shunt([a, Function("sin", 1), b, c, Function("gamma", 1)], [BOp("+"), OParen, Function("max", 0), OParen], [2]), Shunt([a, Function("sin", 1), b, c, Function("gamma", 1)], [BOp("+"), OParen, Function("max", 0), OParen], [3]));
    OpenStep(Function("gcd", 0), Shunt([a, Function("sin", 1), b, c, Function("gamma", 1)], [BOp("+"), OParen, Function("max", 0), OParen], [3]), Shunt([a, Function("sin", 1), b, c, Function("gamma", 1)], [BOp("+"), OParen, Function("max", 0), OParen, Function("gcd", 0)], [3, 1]));
    assert Traces(ts, st, 16, 16);
    assert Traces(ts, st, 15, 16);
    assert Traces(ts, st, 14, 16);
  }

  /** Tokens 16 to 17 of `ArityTokens`. */
  lemma AritySteps9(ts: seq<MathToken>, st: seq<Shunt>, a: MathToken, b: MathToken, c: MathToken, d: MathToken, e: MathToken, f: MathToken, g: MathToken, h: MathToken)
    requires IsOperand(a) && IsOperand(b) && IsOperand(c) && IsOperand(d) && IsOperand(e) && IsOperand(f) && IsOperand(g) && IsOperand(h)
    requires |ts| == 32 && |st| == 33
    requires ts[16] == OParen
    requires ts[17] == d
    requires st[16] == Shunt([a, Function("sin", 1), b, c, Function("gamma", 1)], [BOp("+"), OParen, Function("max", 0), OParen, Function("gcd", 0)], [3, 1])
    requires st[17] == Shunt([a, Function("sin", 1), b, c, Function("gamma", 1)], [BOp("+"), OParen, Function("max", 0), OParen, Function("gcd", 0), OParen], [3, 1])
    requires st[18] == Shunt([a, Function("sin", 1), b, c, Function("gamma", 1), d], [BOp("+"), OParen, Function("max", 0), OParen, Function("gcd", 0), OParen], [3, 1])
    requires Counted(st[16])
    ensures Counted(st[18]) && Traces(ts, st, 16, 18)
  {
    OpenStep(OParen, Shunt([a, Function("sin", 1), b, c, Function("gamma", 1)], [BOp("+"), OParen, Function("max", 0), OParen, Function("gcd", 0)], [3, 1]), Shunt([a, Function("sin", 1), b, c, Function("gamma", 1)], [BOp("+"), OParen, Function("max", 0), OParen, Function("gcd", 0), OParen], [3, 1]));
    OperandStep(d, Shunt([a, Function("sin", 1), b, c, Function("gamma", 1)], [BOp("+"), OParen, Function("max", 0), OParen, Function("gcd", 0), OParen], [3, 1]), Shunt([a, Function("sin", 1), b, c, Function("gamma", 1), d], [BOp("+"), OParen, Function("max", 0), OParen, Function("gcd", 0), OParen], [3, 1]));
    assert Traces(ts, st, 18, 18);
    assert Traces(ts, st, 17, 18);
    assert Traces(ts, st, 16, 18);
  }

  /** Tokens 18 to 19 of `ArityTokens`. */
  lemma AritySteps10(ts: seq<MathToken>, st: seq<Shunt>, a: MathToken, b: MathToken, c: MathToken, d: MathToken, e: MathToken, f: MathToken, g: MathToken, h: MathToken)
    requires IsOperand(a) && IsOperand(b) && IsOperand(c) && IsOperand(d) && IsOperand(e) && IsOperand(f) && IsOperand(g) && IsOperand(h)
    requires |ts| == 32 && |st| == 33
    requires ts[18] == Comma
    requires ts[19] == e
    requires st[18] == Shunt([a, Function("sin", 1), b, c, Function("gamma", 1), d], [BOp("+"), OParen, Function("max", 0), OParen, Function("gcd", 0), OParen], [3, 1])
    requires st[19] == Shunt([a, Function("sin", 1), b, c, Function("gamma", 1), d], [BOp("+"), OParen, Function("max", 0), OParen, Function("gcd", 0), OParen], [3, 2])
    requires st[20] == Shunt([a, Function("sin", 1), b, c, Function("gamma", 1), d, e], [BOp("+"), OParen, Function("max", 0), OParen, Function("gcd", 0), OParen], [3, 2])
    requires Counted(st[18])
    ensures Counted(st[20]) && Traces(ts, st, 18, 20)
  {
    CommaStep(Comma, Shunt([a, Function("sin", 1), b, c, Function("gamma", 1), d], [BOp("+"), OParen, Function("max", 0), OParen, Function("gcd", 0), OParen], [3, 1]), Shunt([a, Function("sin", 1), b, c, Function("gamma", 1), d], [BOp("+"), OParen, Function("max", 0), OParen, Function("gcd", 0), OParen], [3, 2]));
    OperandStep(e, Shunt([a, Function("sin", 1), b, c, Function("gamma", 1), d], [BOp("+"), OParen, Function("max", 0), OParen, Function("gcd", 0), OParen], [3, 2]), Shunt([a, Function("sin", 1), b, c, Function("gamma", 1), d, e], [BOp("+"), OParen, Function("max", 0), OParen, Function("gcd", 0), OParen], [3, 2]));
    assert Traces(ts, st, 20, 20);
    assert Traces(ts, st, 19, 20);
    assert Traces(ts, st, 18, 20);
  }

  /** Tokens 20 to 21 of `ArityTokens`. */
  lemma AritySteps11(ts: seq<MathToken>, st: seq<Shunt>, a: MathToken, b: MathToken, c: MathToken, d: MathToken, e: MathToken, f: MathToken, g: MathToken, h: MathToken)
    requires IsOperand(a) && IsOperand(b) && IsOperand(c) && IsOperand(d) && IsOperand(e) && IsOperand(f) && IsOperand(g) && IsOperand(h)
    requires |ts| == 32 && |st| == 33
    requires ts[20] == CParen
    requires ts[21] == CParen
    requires st[20] == Shunt([a, Function("sin", 1), b, c, Function("gamma", 1), d, e], [BOp("+"), OParen, Function("max", 0), OParen, Function("gcd", 0), OParen], [3, 2])
    requires st[21] == Shunt([a, Function("sin", 1), b, c, Function("gamma", 1), d, e, Function("gcd", 2)], [BOp("+"), OParen, Function("max", 0), OParen], [3])
    requires st[22] == Shunt([a, Function("sin", 1), b, c, Function("gamma", 1), d, e, Function("gcd", 2), Function("max", 3)], [BOp("+"), OParen], [])
    requires Counted(st[20])
    ensures Counted(st[22]) && Traces(ts, st, 20, 22)
  {
    CallCloseStep(CParen, Shunt([a, Function("sin", 1), b, c, Function("gamma", 1), d, e], [BOp("+"), OParen, Function("max", 0), OParen, Function("gcd", 0), OParen], [3, 2]), Function("gcd", 0), 2, Shunt([a, Function("sin", 1), b, c, Function("gamma", 1), d, e, Function("gcd", 2)], [BOp("+"), OParen, Function("max", 0), OParen], [3]));
    CallCloseStep(CParen, Shunt([a, Function("sin", 1), b, c, Function("gamma", 1), d, e, Function("gcd", 2)], [BOp("+"), OParen, Function("max", 0), OParen], [3]), Function("max", 0), 3, Shunt([a, Function("sin", 1), b, c, Function("gamma", 1), d, e, Function("gcd", 2), Function("max", 3)], [BOp("+"), OParen], []));
    assert Traces(ts, st, 22, 22);
    assert Traces(ts, st, 21, 22);
    assert Traces(ts, st, 20, 22);
  }

  /** Tokens 22 to 23 of `ArityTokens`. */
  lemma AritySteps12(ts: seq<MathToken>, st: seq<Shunt>, a: MathToken, b: MathToken, c: MathToken, d: MathToken, e: MathToken, f: MathToken, g: MathToken, h: MathToken)
    requires IsOperand(a) && IsOperand(b) && IsOperand(c) && IsOperand(d) && IsOperand(e) && IsOperand(f) && IsOperand(g) && IsOperand(h)
    requires |ts| == 32 && |st| == 33
    requires ts[22] == BOp("+")
    requires ts[23] == Function("sum", 0)
    requires st[22] == Shunt([a, Function("sin", 1), b, c, Function("gamma", 1), d, e, Function("gcd", 2), Function("max", 3)], [BOp("+"), OParen], [])
    requires st[23] == Shunt([a, Function("sin", 1), b, c, Function("gamma", 1), d, e, Function("gcd", 2), Function("max", 3)], [BOp("+"), OParen, BOp("+")], [])
    requires st[24] == Shunt([a, Function("sin", 1), b, c, Function("gamma", 1), d, e, Function("gcd", 2), Function("max", 3)], [BOp("+"), OParen, BOp("+"), Function("sum", 0)], [1])
    requires Counted(st[22])
    ensures Counted(st[24]) && Traces(ts, st, 22, 24)
  {
    PushStep(BOp("+"), Shunt([a, Function("sin", 1), b, c, Function("gamma", 1), d, e, Function("gcd", 2), Function("max", 3)], [BOp("+"), OParen], []), Shunt([a, Function("sin", 1), b, c, Function("gamma", 1), d, e, Function("gcd", 2), Function("max", 3)], [BOp("+"), OParen, BOp("+")], []));
    OpenStep(Function("sum", 0), Shunt([a, Function("sin", 1), b, c, Function("gamma", 1), d, e, Function("gcd", 2), Function("max", 3)], [BOp("+"), OParen, BOp("+")], []), Shunt([a, Function("sin", 1), b, c, Function("gamma", 1), d, e, Function("gcd", 2), Function("max", 3)], [BOp("+"), OParen, BOp("+"), Function("sum", 0)], [1]));
    assert Traces(ts, st, 24, 24);
    assert Traces(ts, st, 23, 24);
    assert Traces(ts, st, 22, 24);
  }

  /** Tokens 24 to 25 of `ArityTokens`. */
  lemma AritySteps13(ts: seq<MathToken>, st: seq<Shunt>, a: MathToken, b: MathToken, c: MathToken, d: MathToken, e: MathToken, f: MathToken, g: MathToken, h: MathToken)
    requires IsOperand(a) && IsOperand(b) && IsOperand(c) && IsOperand(d) && IsOperand(e) && IsOperand(f) && IsOperand(g) && IsOperand(h)
    requires |ts| == 32 && |st| == 33
    requires ts[24] == OParen
    requires ts[25] == f
    requires st[24] == Shunt([a, Function("sin", 1), b, c, Function("gamma", 1), d, e, Function("gcd", 2), Function("max", 3)], [BOp("+"), OParen, BOp("+"), Function("sum", 0)], [1])
    requires st[25] == Shunt([a, Function("sin", 1), b, c, Function("gamma", 1), d, e, Function("gcd", 2), Function("max", 3)], [BOp("+"), OParen, BOp("+"), Function("sum", 0), OParen], [1])
    requires st[26] == Shunt([a, Function("sin", 1), b, c, Function("gamma", 1), d, e, Function("gcd", 2), Function("max", 3), f], [BOp("+"), OParen, BOp("+"), Function("sum", 0), OParen], [1])
    requires Counted(st[24])
    ensures Counted(st[26]) && Traces(ts, st, 24, 26)
  {
    OpenStep(OParen, Shunt([a, Function("sin", 1), b, c, Function("gamma", 1), d, e, Function("gcd", 2), Function("max", 3)], [BOp("+"), OParen, BOp("+"), Function("sum", 0)], [1]), Shunt([a, Function("sin", 1), b, c, Function("gamma", 1), d, e, Function("gcd", 2), Function("max", 3)], [BOp("+"), OParen, BOp("+"), Function("sum", 0), OParen], [1]));
    OperandStep(f, Shunt([a, Function("sin", 1), b, c, Function("gamma", 1), d, e, Function("gcd", 2), Function("max", 3)], [BOp("+"), OParen, BOp("+"), Function("sum", 0), OParen], [1]), Shunt([a, Function("sin", 1), b, c, Function("gamma", 1), d, e, Function("gcd", 2), Function("max", 3), f], [BOp("+"), OParen, BOp("+"), Function("sum", 0), OParen], [1]));
    assert Traces(ts, st, 26, 26);
    assert Traces(ts, st, 25, 26);
    assert Traces(ts, st, 24, 26);
  }

  /** Tokens 26 to 27 of `ArityTokens`. */
  lemma AritySteps14(ts: seq<MathToken>, st: seq<Shunt>, a: MathToken, b: MathToken, c: MathToken, d: MathToken, e: MathToken, f: MathToken, g: MathToken, h: MathToken)
    requires IsOperand(a) && IsOperand(b) && IsOperand(c) && IsOperand(d) && IsOperand(e) && IsOperand(f) && IsOperand(g) && IsOperand(h)
    requires |ts| == 32 && |st| == 33
    requires ts[26] == Comma
    requires ts[27] == g
    requires st[26] == Shunt([a, Function("sin", 1), b, c, Function("gamma", 1), d, e, Function("gcd", 2), Function("max", 3), f], [BOp("+"), OParen, BOp("+"), Function("sum", 0), OParen], [1])
    requires st[27] == Shunt([a, Function("sin", 1), b, c, Function("gamma", 1), d, e, Function("gcd", 2), Function("max", 3), f], [BOp("+"), OParen, BOp("+"), Function("sum", 0), OParen], [2])
    requires st[28] == Shunt([a, Function("sin", 1), b, c, Function("gamma", 1), d, e, Function("gcd", 2), Function("max", 3), f, g], [BOp("+"), OParen, BOp("+"), Function("sum", 0), OParen], [2])
    requires Counted(st[26])
    ensures Counted(st[28]) && Traces(ts, st, 26, 28)
  {
    CommaStep(Comma, Shunt([a, Function("sin", 1), b, c, Function("gamma", 1), d, e, Function("gcd", 2), Function("max", 3), f], [BOp("+"), OParen, BOp("+"), Function("sum", 0), OParen], [1]), Shunt([a, Function("sin", 1), b, c, Function("gamma", 1), d, e, Function("gcd", 2), Function("max", 3), f], [BOp("+"), OParen, BOp("+"), Function("sum", 0), OParen], [2]));
    OperandStep(g, Shunt([a, Function("sin", 1), b, c, Function("gamma", 1), d, e, Function("gcd", 2), Function("max", 3), f], [BOp("+"), OParen, BOp("+"), Function("sum", 0), OParen], [2]), Shunt([a, Function("sin", 1), b, c, Function("gamma", 1), d, e, Function("gcd", 2), Function("max", 3), f, g], [BOp("+"), OParen, BOp("+"), Function("sum", 0), OParen], [2]));
    assert Traces(ts, st, 28, 28);
    assert Traces(ts, st, 27, 28);
    assert Traces(ts, st, 26, 28);
  }

  /** Tokens 28 to 29 of `ArityTokens`. */
  lemma AritySteps15(ts: seq<MathToken>, st: seq<Shunt>, a: MathToken, b: MathToken, c: MathToken, d: MathToken, e: MathToken, f: MathToken, g: MathToken, h: MathToken)
    requires IsOperand(a) && IsOperand(b) && IsOperand(c) && IsOperand(d) && IsOperand(e) && IsOperand(f) && IsOperand(g) && IsOperand(h)
    requires |ts| == 32 && |st| == 33
    requires ts[28] == Comma
    requires ts[29] == h
    requires st[28] == Shunt([a, Function("sin", 1), b, c, Function("gamma", 1), d, e, Function("gcd", 2), Function("max", 3), f, g], [BOp("+"), OParen, BOp("+"), Function("sum", 0), OParen], [2])
    requires st[29] == Shunt([a, Function("sin", 1), b, c, Function("gamma", 1), d, e, Function("gcd", 2), Function("max", 3), f, g], [BOp("+"), OParen, BOp("+"), Function("sum", 0), OParen], [3])
    requires st[30] == Shunt([a, Function("sin", 1), b, c, Function("gamma", 1), d, e, Function("gcd", 2), Function("max", 3), f, g, h], [BOp("+"), OParen, BOp("+"), Function("sum", 0), OParen], [3])
    requires Counted(st[28])
    ensures Counted(st[30]) && Traces(ts, st, 28, 30)
  {
    CommaStep(Comma, Shunt([a, Function("sin", 1), b, c, Function("gamma", 1), d, e, Function("gcd", 2), Function("max", 3), f, g], [BOp("+"), OParen, BOp("+"), Function("sum", 0), OParen], [2]), Shunt([a, Function("sin", 1), b, c, Function("gamma", 1), d, e, Function("gcd", 2), Function("max", 3), f, g], [BOp("+"), OParen, BOp("+"), Function("sum", 0), OParen], [3]));
    OperandStep(h, Shunt([a, Function("sin", 1), b, c, Function("gamma", 1), d, e, Function("gcd", 2), Function("max", 3), f, g], [BOp("+"), OParen, BOp("+"), Function("sum", 0), OParen], [3]), Shunt([a, Function("sin", 1), b, c, Function("gamma", 1), d, e, Function("gcd", 2), Function("max", 3), f, g, h], [BOp("+"), OParen, BOp("+"), Function("sum", 0), OParen], [3]));
    assert Traces(ts, st, 30, 30);
    assert Traces(ts, st, 29, 30);
    assert Traces(ts, st, 28, 30);
  }

  /** Tokens 30 to 31 of `ArityTokens`. */
  lemma AritySteps16(ts: seq<MathToken>, st: seq<Shunt>, a: MathToken, b: MathToken, c: MathToken, d: MathToken, e: MathToken, f: MathToken, g: MathToken, h: MathToken)
    requires IsOperand(a) && IsOperand(b) && IsOperand(c) && IsOperand(d) && IsOperand(e) && IsOperand(f) && IsOperand(g) && IsOperand(h)
    requires |ts| == 32 && |st| == 33
    requires ts[30] == CParen
    requires ts[31] == CParen
    requires st[30] == Shunt([a, Function("sin", 1), b, c, Function("gamma", 1), d, e, Function("gcd", 2), Function("max", 3), f, g, h], [BOp("+"), OParen, BOp("+"), Function("sum", 0), OParen], [3])
    requires st[31] == Shunt([a, Function("sin", 1), b, c, Function("gamma", 1), d, e, Function("gcd", 2), Function("max", 3), f, g, h, Function("sum", 3)], [BOp("+"), OParen, BOp("+")], [])
    requires st[32] == Shunt([a, Function("sin", 1), b, c, Function("gamma", 1), d, e, Function("gcd", 2), Function("max", 3), f, g, h, Function("sum", 3), BOp("+")], [BOp("+")], [])
    requires Counted(st[30])
    ensures Counted(st[32]) && Traces(ts, st, 30, 32)
  {
    CallCloseStep(CParen, Shunt([a, Function("sin", 1), b, c, Function("gamma", 1), d, e, Function("gcd", 2), Function("max", 3), f, g, h], [BOp("+"), OParen, BOp("+"), Function("sum", 0), OParen], [3]), Function("sum", 0), 3, Shunt([a, Function("sin", 1), b, c, Function("gamma", 1), d, e, Function("gcd", 2), Function("max", 3), f, g, h, Function("sum", 3)], [BOp("+"), OParen, BOp("+")], []));
    UnwindStep(CParen, Shunt([a, Function("sin", 1), b, c, Function("gamma", 1), d, e, Function("gcd", 2), Function("max", 3), f, g, h, Function("sum", 3)], [BOp("+"), OParen, BOp("+")], []), BOp("+"), Shunt([a, Function("sin", 1), b, c, Function("gamma", 1), d, e, Function("gcd", 2), Function("max", 3), f, g, h, Function("sum", 3), BOp("+")], [BOp("+"), OParen], []));
    GroupCloseStep(CParen, Shunt([a, Function("sin", 1), b, c, Function("gamma", 1), d, e, Function("gcd", 2), Function("max", 3), f, g, h, Function("sum", 3), BOp("+")], [BOp("+"), OParen], []), Shunt([a, Function("sin", 1), b, c, Function("gamma", 1), d, e, Function("gcd", 2), Function("max", 3), f, g, h, Function("sum", 3), BOp("+")], [BOp("+")], []));
    assert Traces(ts, st, 32, 32);
    assert Traces(ts, st, 31, 32);
    assert Traces(ts, st, 30, 32);
  }

  /** The tokens and states `AritySteps1` works on. */
  lemma AritySteps1At(a: MathToken, b: MathToken, c: MathToken, d: MathToken, e: MathToken, f: MathToken, g: MathToken, h: MathToken)
    ensures var ts, st := ArityTokens(a, b, c, d, e, f, g, h), ArityStates(a, b, c, d, e, f, g, h);
      |ts| == 32 && |st| == 33 &&
      ts[0] == Function("sin", 0) &&
      ts[1] == OParen &&
      st[0] == Shunt([], [], []) &&
      st[1] == Shunt([], [Function("sin", 0)], [1]) &&
      st[2] == Shunt([], [Function("sin", 0), OParen], [1])
  {
  }

  /** The tokens and states `AritySteps2` works on. */
  lemma AritySteps2At(a: MathToken, b: MathToken, c: MathToken, d: MathToken, e: MathToken, f: MathToken, g: MathToken, h: MathToken)
    ensures var ts, st := ArityTokens(a, b, c, d, e, f, g, h), ArityStates(a, b, c, d, e, f, g, h);
      |ts| == 32 && |st| == 33 &&
      ts[2] == a &&
      ts[3] == CParen &&
      st[2] == Shunt([], [Function("sin", 0), OParen], [1]) &&
      st[3] == Shunt([a], [Function("sin", 0), OParen], [1]) &&
      st[4] == Shunt([a, Function("sin", 1)], [], [])
  {
  }

  /** The tokens and states `AritySteps3` works on. */
  lemma AritySteps3At(a: MathToken, b: MathToken, c: MathToken, d: MathToken, e: MathToken, f: MathToken, g: MathToken, h: MathToken)
    ensures var ts, st := ArityTokens(a, b, c, d, e, f, g, h), ArityStates(a, b, c, d, e, f, g, h);
      |ts| == 32 && |st| == 33 &&
      ts[4] == BOp("+") &&
      ts[5] == OParen &&
      st[4] == Shunt([a, Function("sin", 1)], [], []) &&
      st[5] == Shunt([a, Function("sin", 1)], [BOp("+")], []) &&
      st[6] == Shunt([a, Function("sin", 1)], [BOp("+"), OParen], [])
  {
  }

  /** The tokens and states `AritySteps4` works on. */
  lemma AritySteps4At(a: MathToken, b: MathToken, c: MathToken, d: MathToken, e: MathToken, f: MathToken, g: MathToken, h: MathToken)
    ensures var ts, st := ArityTokens(a, b, c, d, e, f, g, h), ArityStates(a, b, c, d, e, f, g, h);
      |ts| == 32 && |st| == 33 &&
      ts[6] == Function("max", 0) &&
      ts[7] == OParen &&
      st[6] == Shunt([a, Function("sin", 1)], [BOp("+"), OParen], []) &&
      st[7] == Shunt([a, Function("sin", 1)], [BOp("+"), OParen, Function("max", 0)], [1]) &&
      st[8] == Shunt([a, Function("sin", 1)], [BOp("+"), OParen, Function("max", 0), OParen], [1])
  {
  }

  /** The tokens and states `AritySteps5` works on. */
  lemma AritySteps5At(a: MathToken, b: MathToken, c: MathToken, d: MathToken, e: MathToken, f: MathToken, g: MathToken, h: MathToken)
    ensures var ts, st := ArityTokens(a, b, c, d, e, f, g, h), ArityStates(a, b, c, d, e, f, g, h);
      |ts| == 32 && |st| == 33 &&
      ts[8] == b &&
      ts[9] == Comma &&
      st[8] == Shunt([a, Function("sin", 1)], [BOp("+"), OParen, Function("max", 0), OParen], [1]) &&
      st[9] == Shunt([a, Function("sin", 1), b], [BOp("+"), OParen, Function("max", 0), OParen], [1]) &&
      st[10] == Shunt([a, Function("sin", 1), b], [BOp("+"), OParen, Function("max", 0), OParen], [2])
  {
  }

  /** The tokens and states `AritySteps6` works on. */
  lemma AritySteps6At(a: MathToken, b: MathToken, c: MathToken, d: MathToken, e: MathToken, f: MathToken, g: MathToken, h: MathToken)
    ensures var ts, st := ArityTokens(a, b, c, d, e, f, g, h), ArityStates(a, b, c, d, e, f, g, h);
      |ts| == 32 && |st| == 33 &&
      ts[10] == Function("gamma", 0) &&
      ts[11] == OParen &&
      st[10] == Shunt([a, Function("sin", 1), b], [BOp("+"), OParen, Function("max", 0), OParen], [2]) &&
      st[11] == Shunt([a, Function("sin", 1), b], [BOp("+"), OParen, Function("max", 0), OParen, Function("gamma", 0)], [2, 1]) &&
      st[12] == Shunt([a, Function("sin", 1), b], [BOp("+"), OParen, Function("max", 0), OParen, Function("gamma", 0), OParen], [2, 1])
  {
  }

  /** The tokens and states `AritySteps7` works on. */
  lemma AritySteps7At(a: MathToken, b: MathToken, c: MathToken, d: MathToken, e: MathToken, f: MathToken, g: MathToken, h: MathToken)
    ensures var ts, st := ArityTokens(a, b, c, d, e, f, g, h), ArityStates(a, b, c, d, e, f, g, h);
      |ts| == 32 && |st| == 33 &&
      ts[12] == c &&
      ts[13] == CParen &&
      st[12] == Shunt([a, Function("sin", 1), b], [BOp("+"), OParen, Function("max", 0), OParen, Function("gamma", 0), OParen], [2, 1]) &&
      st[13] == Shunt([a, Function("sin", 1), b, c], [BOp("+"), OParen, Function("max", 0), OParen, Function("gamma", 0), OParen], [2, 1]) &&
      st[14] == Shunt([a, Function("sin", 1), b, c, Function("gamma", 1)], [BOp("+"), OParen, Function("max", 0), OParen], [2])
  {
  }

  /** The tokens and states `AritySteps8` works on. */
  lemma AritySteps8At(a: MathToken, b: MathToken, c: MathToken, d: MathToken, e: MathToken, f: MathToken, g: MathToken, h: MathToken)
    ensures var ts, st := ArityTokens(a, b, c, d, e, f, g, h), ArityStates(a, b, c, d, e, f, g, h);
      |ts| == 32 && |st| == 33 &&
      ts[14] == Comma &&
      ts[15] == Function("gcd", 0) &&
      st[14] == Shunt([a, Function("sin", 1), b, c, Function("gamma", 1)], [BOp("+"), OParen, Function("max", 0), OParen], [2]) &&
      st[15] == Shunt([a, Function("sin", 1), b, c, Function("gamma", 1)], [BOp("+"), OParen, Function("max", 0), OParen], [3]) &&
      st[16] == Shunt([a, Function("sin", 1), b, c, Function("gamma", 1)], [BOp("+"), OParen, Function("max", 0), OParen, Function("gcd", 0)], [3, 1])
  {
  }

  /** The tokens and states `AritySteps9` works on. */
  lemma AritySteps9At(a: MathToken, b: MathToken, c: MathToken, d: MathToken, e: MathToken, f: MathToken, g: MathToken, h: MathToken)
    ensures var ts, st := ArityTokens(a, b, c, d, e, f, g, h), ArityStates(a, b, c, d, e, f, g, h);
      |ts| == 32 && |st| == 33 &&
      ts[16] == OParen &&
      ts[17] == d &&
      st[16] == Shunt([a, Function("sin", 1), b, c, Function("gamma", 1)], [BOp("+"), OParen, Function("max", 0), OParen, Function("gcd", 0)], [3, 1]) &&
      st[17] == Shunt([a, Function("sin", 1), b, c, Function("gamma", 1)], [BOp("+"), OParen, Function("max", 0), OParen, Function("gcd", 0), OParen], [3, 1]) &&
      st[18] == Shunt([a, Function("sin", 1), b, c, Function("gamma", 1), d], [BOp("+"), OParen, Function("max", 0), OParen, Function("gcd", 0), OParen], [3, 1])
  {
  }

  /** The tokens and states `AritySteps10` works on. */
  lemma AritySteps10At(a: MathToken, b: MathToken, c: MathToken, d: MathToken, e: MathToken, f: MathToken, g: MathToken, h: MathToken)
    ensures var ts, st := ArityTokens(a, b, c, d, e, f, g, h), ArityStates(a, b, c, d, e, f, g, h);
      |ts| == 32 && |st| == 33 &&
      ts[18] == Comma &&
      ts[19] == e &&
      st[18] == Shunt([a, Function("sin", 1), b, c, Function("gamma", 1), d], [BOp("+"), OParen, Function("max", 0), OParen, Function("gcd", 0), OParen], [3, 1]) &&
      st[19] == Shunt([a, Function("sin", 1), b, c, Function("gamma", 1), d], [BOp("+"), OParen, Function("max", 0), OParen, Function("gcd", 0), OParen], [3, 2]) &&
      st[20] == Shunt([a, Function("sin", 1), b, c, Function("gamma", 1), d, e], [BOp("+"), OParen, Function("max", 0), OParen, Function("gcd", 0), OParen], [3, 2])
  {
  }

  /** The tokens and states `AritySteps11` works on. */
  lemma AritySteps11At(a: MathToken, b: MathToken, c: MathToken, d: MathToken, e: MathToken, f: MathToken, g: MathToken, h: MathToken)
    ensures var ts, st := ArityTokens(a, b, c, d, e, f, g, h), ArityStates(a, b, c, d, e, f, g, h);
      |ts| == 32 && |st| == 33 &&
      ts[20] == CParen &&
      ts[21] == CParen &&
      st[20] == Shunt([a, Function("sin", 1), b, c, Function("gamma", 1), d, e], [BOp("+"), OParen, Function("max", 0), OParen, Function("gcd", 0), OParen], [3, 2]) &&
      st[21] == Shunt([a, Function("sin", 1), b, c, Function("gamma", 1), d, e, Function("gcd", 2)], [BOp("+"), OParen, Function("max", 0), OParen], [3]) &&
      st[22] == Shunt([a, Function("sin", 1), b, c, Function("gamma", 1), d, e, Function("gcd", 2), Function("max", 3)], [BOp("+"), OParen], [])
  {
  }

  /** The tokens and states `AritySteps12` works on. */
  lemma AritySteps12At(a: MathToken, b: MathToken, c: MathToken, d: MathToken, e: MathToken, f: MathToken, g: MathToken, h: MathToken)
    ensures var ts, st := ArityTokens(a, b, c, d, e, f, g, h), ArityStates(a, b, c, d, e, f, g, h);
      |ts| == 32 && |st| == 33 &&
      ts[22] == BOp("+") &&
      ts[23] == Function("sum", 0) &&
      st[22] == Shunt([a, Function("sin", 1), b, c, Function("gamma", 1), d, e, Function("gcd", 2), Function("max", 3)], [BOp("+"), OParen], []) &&
      st[23] == Shunt([a, Function("sin", 1), b, c, Function("gamma", 1), d, e, Function("gcd", 2), Function("max", 3)], [BOp("+"), OParen, BOp("+")], []) &&
      st[24] == Shunt([a, Function("sin", 1), b, c, Function("gamma", 1), d, e, Function("gcd", 2), Function("max", 3)], [BOp("+"), OParen, BOp("+"), Function("sum", 0)], [1])
  {
  }

  /** The tokens and states `AritySteps13` works on. */
  lemma AritySteps13At(a: MathToken, b: MathToken, c: MathToken, d: MathToken, e: MathToken, f: MathToken, g: MathToken, h: MathToken)
    ensures var ts, st := ArityTokens(a, b, c, d, e, f, g, h), ArityStates(a, b, c, d, e, f, g, h);
      |ts| == 32 && |st| == 33 &&
      ts[24] == OParen &&
      ts[25] == f &&
      st[24] == Shunt([a, Function("sin", 1), b, c, Function("gamma", 1), d, e, Function("gcd", 2), Function("max", 3)], [BOp("+"), OParen, BOp("+"), Function("sum", 0)], [1]) &&
      st[25] == Shunt([a, Function("sin", 1), b, c, Function("gamma", 1), d, e, Function("gcd", 2), Function("max", 3)], [BOp("+"), OParen, BOp("+"), Function("sum", 0), OParen], [1]) &&
      st[26] == Shunt([a, Function("sin", 1), b, c, Function("gamma", 1), d, e, Function("gcd", 2), Function("max", 3), f], [BOp("+"), OParen, BOp("+"), Function("sum", 0), OParen], [1])
  {
  }

  /** The tokens and states `AritySteps14` works on. */
  lemma AritySteps14At(a: MathToken, b: MathToken, c: MathToken, d: MathToken, e: MathToken, f: MathToken, g: MathToken, h: MathToken)
    ensures var ts, st := ArityTokens(a, b, c, d, e, f, g, h), ArityStates(a, b, c, d, e, f, g, h);
      |ts| == 32 && |st| == 33 &&
      ts[26] == Comma &&
      ts[27] == g &&
      st[26] == Shunt([a, Function("sin", 1), b, c, Function("gamma", 1), d, e, Function("gcd", 2), Function("max", 3), f], [BOp("+"), OParen, BOp("+"), Function("sum", 0), OParen], [1]) &&
      st[27] == Shunt([a, Function("sin", 1), b, c, Function("gamma", 1), d, e, Function("gcd", 2), Function("max", 3), f], [BOp("+"), OParen, BOp("+"), Function("sum", 0), OParen], [2]) &&
      st[28] == Shunt([a, Function("sin", 1), b, c, Function("gamma", 1), d, e, Function("gcd", 2), Function("max", 3), f, g], [BOp("+"), OParen, BOp("+"), Function("sum", 0), OParen], [2])
  {
  }

  /** The tokens and states `AritySteps15` works on. */
  lemma AritySteps15At(a: MathToken, b: MathToken, c: MathToken, d: MathToken, e: MathToken, f: MathToken, g: MathToken, h: MathToken)
    ensures var ts, st := ArityTokens(a, b, c, d, e, f, g, h), ArityStates(a, b, c, d, e, f, g, h);
      |ts| == 32 && |st| == 33 &&
      ts[28] == Comma &&
      ts[29] == h &&
      st[28] == Shunt([a, Function("sin", 1), b, c, Function("gamma", 1), d, e, Function("gcd", 2), Function("max", 3), f, g], [BOp("+"), OParen, BOp("+"), Function("sum", 0), OParen], [2]) &&
      st[29] == Shunt([a, Function("sin", 1), b, c, Function("gamma", 1), d, e, Function("gcd", 2), Function("max", 3), f, g], [BOp("+"), OParen, BOp("+"), Function("sum", 0), OParen], [3]) &&
      st[30] == Shunt([a, Function("sin", 1), b, c, Function("gamma", 1), d, e, Function("gcd", 2), Function("max", 3), f, g, h], [BOp("+"), OParen, BOp("+"), Function("sum", 0), OParen], [3])
  {
  }

  /** The tokens and states `AritySteps16` works on. */
  lemma AritySteps16At(a: MathToken, b: MathToken, c: MathToken, d: MathToken, e: MathToken, f: MathToken, g: MathToken, h: MathToken)
    ensures var ts, st := ArityTokens(a, b, c, d, e, f, g, h), ArityStates(a, b, c, d, e, f, g, h);
      |ts| == 32 && |st| == 33 &&
      ts[30] == CParen &&
      ts[31] == CParen &&
      st[30] == Shunt([a, Function("sin", 1), b, c, Function("gamma", 1), d, e, Function("gcd", 2), Function("max", 3), f, g, h], [BOp("+"), OParen, BOp("+"), Function("sum", 0), OParen], [3]) &&
      st[31] == Shunt([a, Function("sin", 1), b, c, Function("gamma", 1), d, e, Function("gcd", 2), Function("max", 3), f, g, h, Function("sum", 3)], [BOp("+"), OParen, BOp("+")], []) &&
      st[32] == Shunt([a, Function("sin", 1), b, c, Function("gamma", 1), d, e, Function("gcd", 2), Function("max", 3), f, g, h, Function("sum", 3), BOp("+")], [BOp("+")], [])
  {
  }

  /** All of `ArityTokens`, one converter step each. */
  lemma ArityTrace(a: MathToken, b: MathToken, c: MathToken, d: MathToken, e: MathToken, f: MathToken, g: MathToken, h: MathToken)
    requires IsOperand(a) && IsOperand(b) && IsOperand(c) && IsOperand(d) && IsOperand(e) && IsOperand(f) && IsOperand(g) && IsOperand(h)
    ensures Traces(ArityTokens(a, b, c, d, e, f, g, h), ArityStates(a, b, c, d, e, f, g, h), 0, 32)
  {
    var ts, st := ArityTokens(a, b, c, d, e, f, g, h), ArityStates(a, b, c, d, e, f, g, h);
    AritySteps1At(a, b, c, d, e, f, g, h);
    AritySteps1(ts, st, a, b, c, d, e, f, g, h);
    AritySteps2At(a, b, c, d, e, f, g, h);
    AritySteps2(ts, st, a, b, c, d, e, f, g, h);
    AritySteps3At(a, b, c, d, e, f, g, h);
    AritySteps3(ts, st, a, b, c, d, e, f, g, h);
    AritySteps4At(a, b, c, d, e, f, g, h);
    AritySteps4(ts, st, a, b, c, d, e, f, g, h);
    AritySteps5At(a, b, c, d, e, f, g, h);
    AritySteps5(ts, st, a, b, c, d, e, f, g, h);
    AritySteps6At(a, b, c, d, e, f, g, h);
    AritySteps6(ts, st, a, b, c, d, e, f, g, h);
    AritySteps7At(a, b, c, d, e, f, g, h);
    AritySteps7(ts, st, a, b, c, d, e, f, g, h);
    AritySteps8At(a, b, c, d, e, f, g, h);
    AritySteps8(ts, st, a, b, c, d, e, f, g, h);
    AritySteps9At(a, b, c, d, e, f, g, h);
    AritySteps9(ts, st, a, b, c, d, e, f, g, h);
    AritySteps10At(a, b, c, d, e, f, g, h);
    AritySteps10(ts, st, a, b, c, d, e, f, g, h);
    AritySteps11At(a, b, c, d, e, f, g, h);
    AritySteps11(ts, st, a, b, c, d, e, f, g, h);
    AritySteps12At(a, b, c, d, e, f, g, h);
    AritySteps12(ts, st, a, b, c, d, e, f, g, h);
    AritySteps13At(a, b, c, d, e, f, g, h);
    AritySteps13(ts, st, a, b, c, d, e, f, g, h);
    AritySteps14At(a, b, c, d, e, f, g, h);
    AritySteps14(ts, st, a, b, c, d, e, f, g, h);
    AritySteps15At(a, b, c, d, e, f, g, h);
    AritySteps15(ts, st, a, b, c, d, e, f, g, h);
    AritySteps16At(a, b, c, d, e, f, g, h);
    AritySteps16(ts, st, a, b, c, d, e, f, g, h);
    TracesJoin(ts, st, 0, 2, 4);
    TracesJoin(ts, st, 0, 4, 6);
    TracesJoin(ts, st, 0, 6, 8);
    TracesJoin(ts, st, 0, 8, 10);
    TracesJoin(ts, st, 0, 10, 12);
    TracesJoin(ts, st, 0, 12, 14);
    TracesJoin(ts, st, 0, 14, 16);
    TracesJoin(ts, st, 0, 16, 18);
    TracesJoin(ts, st, 0, 18, 20);
    TracesJoin(ts, st, 0, 20, 22);
    TracesJoin(ts, st, 0, 22, 24);
    TracesJoin(ts, st, 0, 24, 26);
    TracesJoin(ts, st, 0, 26, 28);
    TracesJoin(ts, st, 0, 28, 30);
    TracesJoin(ts, st, 0, 30, 32);
  }

  /** The first and the last of `ArityStates`. */
  lemma ArityEnds(a: MathToken, b: MathToken, c: MathToken, d: MathToken, e: MathToken, f: MathToken, g: MathToken, h: MathToken)
    ensures var st := ArityStates(a, b, c, d, e, f, g, h);
      |st| == 33 && st[0] == Shunt([], [], []) && st[32] == Shunt([a, Function("sin", 1), b, c, Function("gamma", 1), d, e, Function("gcd", 2), Function("max", 3), f, g, h, Function("sum", 3), BOp("+")], [BOp("+")], [])
  {
  }

  /** The run over `ArityTokens` from the empty state reaches the state after token 31. */
  lemma ArityRun(a: MathToken, b: MathToken, c: MathToken, d: MathToken, e: MathToken, f: MathToken, g: MathToken, h: MathToken)
    requires IsOperand(a) && IsOperand(b) && IsOperand(c) && IsOperand(d) && IsOperand(e) && IsOperand(f) && IsOperand(g) && IsOperand(h)
    ensures Counted(Shunt([a, Function("sin", 1), b, c, Function("gamma", 1), d, e, Function("gcd", 2), Function("max", 3), f, g, h, Function("sum", 3), BOp("+")], [BOp("+")], []))
    ensures RunFrom(ArityTokens(a, b, c, d, e, f, g, h), 0, Shunt([], [], []))
      == RunFrom(ArityTokens(a, b, c, d, e, f, g, h), 32, Shunt([a, Function("sin", 1), b, c, Function("gamma", 1), d, e, Function("gcd", 2), Function("max", 3), f, g, h, Function("sum", 3), BOp("+")], [BOp("+")], []))
  {
    var ts, st := ArityTokens(a, b, c, d, e, f, g, h), ArityStates(a, b, c, d, e, f, g, h);
    ArityTrace(a, b, c, d, e, f, g, h);
    ArityEnds(a, b, c, d, e, f, g, h);
    TraceRunsBetween(ts, st, 0, 32, Shunt([], [], []), Shunt([a, Function("sin", 1), b, c, Function("gamma", 1), d, e, Function("gcd", 2), Function("max", 3), f, g, h, Function("sum", 3), BOp("+")], [BOp("+")], []));
  }

  /** `sin(a) + (max(b, gamma(c), gcd(d, e)) + sum(f, g, h))` gives `a sin b c gamma d e gcd max f g h sum + +`, for any operands. */
  lemma ArityExample(a: MathToken, b: MathToken, c: MathToken, d: MathToken, e: MathToken, f: MathToken, g: MathToken, h: MathToken)
    requires IsOperand(a) && IsOperand(b) && IsOperand(c) && IsOperand(d) && IsOperand(e) && IsOperand(f) && IsOperand(g) && IsOperand(h)
    ensures Rpn(ArityTokens(a, b, c, d, e, f, g, h))
      == Ok([a, Function("sin", 1), b, c, Function("gamma", 1), d, e, Function("gcd", 2), Function("max", 3), f, g, h, Function("sum", 3), BOp("+"), BOp("+")])
  {
    ArityRun(a, b, c, d, e, f, g, h);
    DrainAll([a, Function("sin", 1), b, c, Function("gamma", 1), d, e, Function("gcd", 2), Function("max", 3), f, g, h, Function("sum", 3), BOp("+")], [BOp("+")]);
    assert [a, Function("sin", 1), b, c, Function("gamma", 1), d, e, Function("gcd", 2), Function("max", 3), f, g, h, Function("sum", 3), BOp("+")] + Reverse([BOp("+")])
      == [a, Function("sin", 1), b, c, Function("gamma", 1), d, e, Function("gcd", 2), Function("max", 3), f, g, h, Function("sum", 3), BOp("+"), BOp("+")];
  }

  /** The library's vector `sin(1)+(max(2, gamma(3.5), gcd(24, 8))+sum(i,0,10))`: `sin` counted 1, `max` 3, `gamma` 1, `gcd` 2, `sum` 3 (src/parser.rs:191-210). */
  lemma ArityVector()
    ensures Rpn(ArityTokens(Number(1.0), Number(2.0), Number(3.5), Number(24.0), Number(8.0), Variable("i"), Number(0.0), Number(10.0)))
      == Ok([Number(1.0), Function("sin", 1), Number(2.0), Number(3.5), Function("gamma", 1), Number(24.0), Number(8.0), Function("gcd", 2), Function("max", 3), Variable("i"), Number(0.0), Number(10.0), Function("sum", 3), BOp("+"), BOp("+")])
  {
    ArityExample(Number(1.0), Number(2.0), Number(3.5), Number(24.0), Number(8.0), Variable("i"), Number(0.0), Number(10.0));
  }

  /** `sqrt(-(a - b^c) / (d + e^f)`, as tokens. */
  function UnclosedTokens(a: MathToken, b: MathToken, c: MathToken, d: MathToken, e: MathToken, f: MathToken): seq<MathToken>
  {
    [Function("sqrt", 0), OParen, UOp("-"), OParen, a, BOp("-"), b, BOp("^"), c, CParen, BOp("/"), OParen, d, BOp("+"), e, BOp("^"), f, CParen]
  }

  /** The converter's state before token `k` of `UnclosedTokens`, or after the last. */
  function UnclosedState(k: nat, a: MathToken, b: MathToken, c: MathToken, d: MathToken, e: MathToken, f: MathToken): Shunt
  {
    if k == 0 then Shunt([], [], [])
    else if k == 1 then Shunt([], [Function("sqrt", 0)], [1])
    else if k == 2 then Shunt([], [Function("sqrt", 0), OParen], [1])
    else if k == 3 then Shunt([], [Function("sqrt", 0), OParen, UOp("-")], [1])
    else if k == 4 then Shunt([], [Function("sqrt", 0), OParen, UOp("-"), OParen], [1])
    else if k == 5 then Shunt([a], [Function("sqrt", 0), OParen, UOp("-"), OParen], [1])
    else if k == 6 then Shunt([a], [Function("sqrt", 0), OParen, UOp("-"), OParen, BOp("-")], [1])
    else if k == 7 then Shunt([a, b], [Function("sqrt", 0), OParen, UOp("-"), OParen, BOp("-")], [1])
    else if k == 8 then Shunt([a, b], [Function("sqrt", 0), OParen, UOp("-"), OParen, BOp("-"), BOp("^")], [1])
    else if k == 9 then Shunt([a, b, c], [Function("sqrt", 0), OParen, UOp("-"), OParen, BOp("-"), BOp("^")], [1])
    else if k == 10 then Shunt([a, b, c, BOp("^"), BOp("-")], [Function("sqrt", 0), OParen, UOp("-")], [1])
    else if k == 11 then Shunt([a, b, c, BOp("^"), BOp("-"), UOp("-")], [Function("sqrt", 0), OParen, BOp("/")], [1])
    else if k == 12 then Shunt([a, b, c, BOp("^"), BOp("-"), UOp("-")], [Function("sqrt", 0), OParen, BOp("/"), OParen], [1])
    else if k == 13 then Shunt([a, b, c, BOp("^"), BOp("-"), UOp("-"), d], [Function("sqrt", 0), OParen, BOp("/"), OParen], [1])
    else if k == 14 then Shunt([a, b, c, BOp("^"), BOp("-"), UOp("-"), d], [Function("sqrt", 0), OParen, BOp("/"), OParen, BOp("+")], [1])
    else if k == 15 then Shunt([a, b, c, BOp("^"), BOp("-"), UOp("-"), d, e], [Function("sqrt", 0), OParen, BOp("/"), OParen, BOp("+")], [1])
    else if k == 16 then Shunt([a, b, c, BOp("^"), BOp("-"), UOp("-"), d, e], [Function("sqrt", 0), OParen, BOp("/"), OParen, BOp("+"), BOp("^")], [1])
    else if k == 17 then Shunt([a, b, c, BOp("^"), BOp("-"), UOp("-"), d, e, f], [Function("sqrt", 0), OParen, BOp("/"), OParen, BOp("+"), BOp("^")], [1])
    else Shunt([a, b, c, BOp("^"), BOp("-"), UOp("-"), d, e, f, BOp("^"), BOp("+")], [Function("sqrt", 0), OParen, BOp("/")], [1])
  }

  /** The converter's states along `UnclosedTokens`, first to last. */
  function UnclosedStates(a: MathToken, b: MathToken, c: MathToken, d: MathToken, e: MathToken, f: MathToken): seq<Shunt>
  {
    seq(19, k requires 0 <= k => UnclosedState(k, a, b, c, d, e, f))
  }

  /** Tokens 0 to 1 of `UnclosedTokens`. */
  lemma UnclosedSteps1(ts: seq<MathToken>, st: seq<Shunt>, a: MathToken, b: MathToken, c: MathToken, d: MathToken, e: MathToken, f: MathToken)
    requires IsOperand(a) && IsOperand(b) && IsOperand(c) && IsOperand(d) && IsOperand(e) && IsOperand(f)
    requires |ts| == 18 && |st| == 19
    requires ts[0] == Function("sqrt", 0)
    requires ts[1] == OParen
    requires st[0] == Shunt([], [], [])
    requires st[1] == Shunt([], [Function("sqrt", 0)], [1])
    requires st[2] == Shunt([], [Function("sqrt", 0), OParen], [1])
    requires Counted(st[0])
    ensures Counted(st[2]) && Traces(ts, st, 0, 2)
  {
    OpenStep(Function("sqrt", 0), Shunt([], [], []), Shunt([], [Function("sqrt", 0)], [1]));
    OpenStep(OParen, Shunt([], [Function("sqrt", 0)], [1]), Shunt([], [Function("sqrt", 0), OParen], [1]));
    assert Traces(ts, st, 2, 2);
    assert Traces(ts, st, 1, 2);
    assert Traces(ts, st, 0, 2);
  }

  /** Tokens 2 to 3 of `UnclosedTokens`. */
  lemma UnclosedSteps2(ts: seq<MathToken>, st: seq<Shunt>, a: MathToken, b: MathToken, c: MathToken, d: MathToken, e: MathToken, f: MathToken)
    requires IsOperand(a) && IsOperand(b) && IsOperand(c) && IsOperand(d) && IsOperand(e) && IsOperand(f)
    requires |ts| == 18 && |st| == 19
    requires ts[2] == UOp("-")
    requires ts[3] == OParen
    requires st[2] == Shunt([], [Function("sqrt", 0), OParen], [1])
    requires st[3] == Shunt([], [Function("sqrt", 0), OParen, UOp("-")], [1])
    requires st[4] == Shunt([], [Function("sqrt", 0), OParen, UOp("-"), OParen], [1])
    requires Counted(st[2])
    ensures Counted(st[4]) && Traces(ts, st, 2, 4)
  {
    PushStep(UOp("-"), Shunt([], [Function("sqrt", 0), OParen], [1]), Shunt([], [Function("sqrt", 0), OParen, UOp("-")], [1]));
    OpenStep(OParen, Shunt([], [Function("sqrt", 0), OParen, UOp("-")], [1]), Shunt([], [Function("sqrt", 0), OParen, UOp("-"), OParen], [1]));
    assert Traces(ts, st, 4, 4);
    assert Traces(ts, st, 3, 4);
    assert Traces(ts, st, 2, 4);
  }

  /** Tokens 4 to 5 of `UnclosedTokens`. */
  lemma UnclosedSteps3(ts: seq<MathToken>, st: seq<Shunt>, a: MathToken, b: MathToken, c: MathToken, d: MathToken, e: MathToken, f: MathToken)
    requires IsOperand(a) && IsOperand(b) && IsOperand(c) && IsOperand(d) && IsOperand(e) && IsOperand(f)
    requires |ts| == 18 && |st| == 19
    requires ts[4] == a
    requires ts[5] == BOp("-")
    requires st[4] == Shunt([], [Function("sqrt", 0), OParen, UOp("-"), OParen], [1])
    requires st[5] == Shunt([a], [Function("sqrt", 0), OParen, UOp("-"), OParen], [1])
    requires st[6] == Shunt([a], [Function("sqrt", 0), OParen, UOp("-"), OParen, BOp("-")], [1])
    requires Counted(st[4])
    ensures Counted(st[6]) && Traces(ts, st, 4, 6)
  {
    OperandStep(a, Shunt([], [Function("sqrt", 0), OParen, UOp("-"), OParen], [1]), Shunt([a], [Function("sqrt", 0), OParen, UOp("-"), OParen], [1]));
    PushStep(BOp("-"), Shunt([a], [Function("sqrt", 0), OParen, UOp("-"), OParen], [1]), Shunt([a], [Function("sqrt", 0), OParen, UOp("-"), OParen, BOp("-")], [1]));
    assert Traces(ts, st, 6, 6);
    assert Traces(ts, st, 5, 6);
    assert Traces(ts, st, 4, 6);
  }

  /** Tokens 6 to 7 of `UnclosedTokens`. */
  lemma UnclosedSteps4(ts: seq<MathToken>, st: seq<Shunt>, a: MathToken, b: MathToken, c: MathToken, d: MathToken, e: MathToken, f: MathToken)
    requires IsOperand(a) && IsOperand(b) && IsOperand(c) && IsOperand(d) && IsOperand(e) && IsOperand(f)
    requires |ts| == 18 && |st| == 19
    requires ts[6] == b
    requires ts[7] == BOp("^")
    requires st[6] == Shunt([a], [Function("sqrt", 0), OParen, UOp("-"), OParen, BOp("-")], [1])
    requires st[7] == Shunt([a, b], [Function("sqrt", 0), OParen, UOp("-"), OParen, BOp("-")], [1])
    requires st[8] == Shunt([a, b], [Function("sqrt", 0), OParen, UOp("-"), OParen, BOp("-"), BOp("^")], [1])
    requires Counted(st[6])
    ensures Counted(st[8]) && Traces(ts, st, 6, 8)
  {
    OperandStep(b, Shunt([a], [Function("sqrt", 0), OParen, UOp("-"), OParen, BOp("-")], [1]), Shunt([a, b], [Function("sqrt", 0), OParen, UOp("-"), OParen, BOp("-")], [1]));
    PushStep(BOp("^"), Shunt([a, b], [Function("sqrt", 0), OParen, UOp("-"), OParen, BOp("-")], [1]), Shunt([a, b], [Function("sqrt", 0), OParen, UOp("-"), OParen, BOp("-"), BOp("^")], [1]));
    assert Traces(ts, st, 8, 8);
    assert Traces(ts, st, 7, 8);
    assert Traces(ts, st, 6, 8);
  }

  /** Tokens 8 to 9 of `UnclosedTokens`. */
  lemma UnclosedSteps5(ts: seq<MathToken>, st: seq<Shunt>, a: MathToken, b: MathToken, c: MathToken, d: MathToken, e: MathToken, f: MathToken)
    requires IsOperand(a) && IsOperand(b) && IsOperand(c) && IsOperand(d) && IsOperand(e) && IsOperand(f)
    requires |ts| == 18 && |st| == 19
    requires ts[8] == c
    requires ts[9] == CParen
    requires st[8] == Shunt([a, b], [Function("sqrt", 0), OParen, UOp("-"), OParen, BOp("-"), BOp("^")], [1])
    requires st[9] == Shunt([a, b, c], [Function("sqrt", 0), OParen, UOp("-"), OParen, BOp("-"), BOp("^")], [1])
    requires st[10] == Shunt([a, b, c, BOp("^"), BOp("-")], [Function("sqrt", 0), OParen, UOp("-")], [1])
    requires Counted(st[8])
    ensures Counted(st[10]) && Traces(ts, st, 8, 10)
  {
    OperandStep(c, Shunt([a, b], [Function("sqrt", 0), OParen, UOp("-"), OParen, BOp("-"), BOp("^")], [1]), Shunt([a, b, c], [Function("sqrt", 0), OParen, UOp("-"), OParen, BOp("-"), BOp("^")], [1]));
    UnwindStep(CParen, Shunt([a, b, c], [Function("sqrt", 0), OParen, UOp("-"), OParen, BOp("-"), BOp("^")], [1]), BOp("^"), Shunt([a, b, c, BOp("^")], [Function("sqrt", 0), OParen, UOp("-"), OParen, BOp("-")], [1]));
    UnwindStep(CParen, Shunt([a, b, c, BOp("^")], [Function("sqrt", 0), OParen, UOp("-"), OParen, BOp("-")], [1]), BOp("-"), Shunt([a, b, c, BOp("^"), BOp("-")], [Function("sqrt", 0), OParen, UOp("-"), OParen], [1]));
    GroupCloseStep(CParen, Shunt([a, b, c, BOp("^"), BOp("-")], [Function("sqrt", 0), OParen, UOp("-"), OParen], [1]), Shunt([a, b, c, BOp("^"), BOp("-")], [Function("sqrt", 0), OParen, UOp("-")], [1]));
    assert Traces(ts, st, 10, 10);
    assert Traces(ts, st, 9, 10);
    assert Traces(ts, st, 8, 10);
  }

  /** Tokens 10 to 11 of `UnclosedTokens`. */
  lemma UnclosedSteps6(ts: seq<MathToken>, st: seq<Shunt>, a: MathToken, b: MathToken, c: MathToken, d: MathToken, e: MathToken, f: MathToken)
    requires IsOperand(a) && IsOperand(b) && IsOperand(c) && IsOperand(d) && IsOperand(e) && IsOperand(f)
    requires |ts| == 18 && |st| == 19
    requires ts[10] == BOp("/")
    requires ts[11] == OParen
    requires st[10] == Shunt([a, b, c, BOp("^"), BOp("-")], [Function("sqrt", 0), OParen, UOp("-")], [1])
    requires st[11] == Shunt([a, b, c, BOp("^"), BOp("-"), UOp("-")], [Function("sqrt", 0), OParen, BOp("/")], [1])
    requires st[12] == Shunt([a, b, c, BOp("^"), BOp("-"), UOp("-")], [Function("sqrt", 0), OParen, BOp("/"), OParen], [1])
    requires Counted(st[10])
    ensures Counted(st[12]) && Traces(ts, st, 10, 12)
  {
    PopStep(BOp("/"), Shunt([a, b, c, BOp("^"), BOp("-")], [Function("sqrt", 0), OParen, UOp("-")], [1]), UOp("-"), Shunt([a, b, c, BOp("^"), BOp("-"), UOp("-")], [Function("sqrt", 0), OParen], [1]));
    PushStep(BOp("/"), Shunt([a, b, c, BOp("^"), BOp("-"), UOp("-")], [Function("sqrt", 0), OParen], [1]), Shunt([a, b, c, BOp("^"), BOp("-"), UOp("-")], [Function("sqrt", 0), OParen, BOp("/")], [1]));
    OpenStep(OParen, Shunt([a, b, c, BOp("^"), BOp("-"), UOp("-")], [Function("sqrt", 0), OParen, BOp("/")], [1]), Shunt([a, b, c, BOp("^"), BOp("-"), UOp("-")], [Function("sqrt", 0), OParen, BOp("/"), OParen], [1]));
    assert Traces(ts, st, 12, 12);
    assert Traces(ts, st, 11, 12);
    assert Traces(ts, st, 10, 12);
  }

  /** Tokens 12 to 13 of `UnclosedTokens`. */
  lemma UnclosedSteps7(ts: seq<MathToken>, st: seq<Shunt>, a: MathToken, b: MathToken, c: MathToken, d: MathToken, e: MathToken, f: MathToken)
    requires IsOperand(a) && IsOperand(b) && IsOperand(c) && IsOperand(d) && IsOperand(e) && IsOperand(f)
    requires |ts| == 18 && |st| == 19
    requires ts[12] == d
    requires ts[13] == BOp("+")
    requires st[12] == Shunt([a, b, c, BOp("^"), BOp("-"), UOp("-")], [Function("sqrt", 0), OParen, BOp("/"), OParen], [1])
    requires st[13] == Shunt([a, b, c, BOp("^"), BOp("-"), UOp("-"), d], [Function("sqrt", 0), OParen, BOp("/"), OParen], [1])
    requires st[14] == Shunt([a, b, c, BOp("^"), BOp("-"), UOp("-"), d], [Function("sqrt", 0), OParen, BOp("/"), OParen, BOp("+")], [1])
    requires Counted(st[12])
    ensures Counted(st[14]) && Traces(ts, st, 12, 14)
  {
    OperandStep(d, Shunt([a, b, c, BOp("^"), BOp("-"), UOp("-")], [Function("sqrt", 0), OParen, BOp("/"), OParen], [1]), Shunt([a, b, c, BOp("^"), BOp("-"), UOp("-"), d], [Function("sqrt", 0), OParen, BOp("/"), OParen], [1]));
    PushStep(BOp("+"), Shunt([a, b, c, BOp("^"), BOp("-"), UOp("-"), d], [Function("sqrt", 0), OParen, BOp("/"), OParen], [1]), Shunt([a, b, c, BOp("^"), BOp("-"), UOp("-"), d], [Function("sqrt", 0), OParen, BOp("/"), OParen, BOp("+")], [1]));
    assert Traces(ts, st, 14, 14);
    assert Traces(ts, st, 13, 14);
    assert Traces(ts, st, 12, 14);
  }

  /** Tokens 14 to 15 of `UnclosedTokens`. */
  lemma UnclosedSteps8(ts: seq<MathToken>, st: seq<Shunt>, a: MathToken, b: MathToken, c: MathToken, d: MathToken, e: MathToken, f: MathToken)
    requires IsOperand(a) && IsOperand(b) && IsOperand(c) && IsOperand(d) && IsOperand(e) && IsOperand(f)
    requires |ts| == 18 && |st| == 19
    requires ts[14] == e
    requires ts[15] == BOp("^")
    requires st[14] == Shunt([a, b, c, BOp("^"), BOp("-"), UOp("-"), d], [Function("sqrt", 0), OParen, BOp("/"), OParen, BOp("+")], [1])
    requires st[15] == Shunt([a, b, c, BOp("^"), BOp("-"), UOp("-"), d, e], [Function("sqrt", 0), OParen, BOp("/"), OParen, BOp("+")], [1])
    requires st[16] == Shunt([a, b, c, BOp("^"), BOp("-"), UOp("-"), d, e], [Function("sqrt", 0), OParen, BOp("/"), OParen, BOp("+"), BOp("^")], [1])
    requires Counted(st[14])
    ensures Counted(st[16]) && Traces(ts, st, 14, 16)
  {
    OperandStep(e, Shunt([a, b, c, BOp("^"), BOp("-"), UOp("-"), d], [Function("sqrt", 0), OParen, BOp("/"), OParen, BOp("+")], [1]), Shunt([a, b, c, BOp("^"), BOp("-"), UOp("-"), d, e], [Function("sqrt", 0), OParen, BOp("/"), OParen, BOp("+")], [1]));
    PushStep(BOp("^"), Shunt([a, b, c, BOp("^"), BOp("-"), UOp("-"), d, e], [Function("sqrt", 0), OParen, BOp("/"), OParen, BOp("+")], [1]), Shunt([a, b, c, BOp("^"), BOp("-"), UOp("-"), d, e], [Function("sqrt", 0), OParen, BOp("/"), OParen, BOp("+"), BOp("^")], [1]));
    assert Traces(ts, st, 16, 16);
    assert Traces(ts, st, 15, 16);
    assert Traces(ts, st, 14, 16);
  }

  /** Tokens 16 to 17 of `UnclosedTokens`. */
  lemma UnclosedSteps9(ts: seq<MathToken>, st: seq<Shunt>, a: MathToken, b: MathToken, c: MathToken, d: MathToken, e: MathToken, f: MathToken)
    requires IsOperand(a) && IsOperand(b) && IsOperand(c) && IsOperand(d) && IsOperand(e) && IsOperand(f)
    requires |ts| == 18 && |st| == 19
    requires ts[16] == f
    requires ts[17] == CParen
    requires st[16] == Shunt([a, b, c, BOp("^"), BOp("-"), UOp("-"), d, e], [Function("sqrt", 0), OParen, BOp("/"), OParen, BOp("+"), BOp("^")], [1])
    requires st[17] == Shunt([a, b, c, BOp("^"), BOp("-"), UOp("-"), d, e, f], [Function("sqrt", 0), OParen, BOp("/"), OParen, BOp("+"), BOp("^")], [1])
    requires st[18] == Shunt([a, b, c, BOp("^"), BOp("-"), UOp("-"), d, e, f, BOp("^"), BOp("+")], [Function("sqrt", 0), OParen, BOp("/")], [1])
    requires Counted(st[16])
    ensures Counted(st[18]) && Traces(ts, st, 16, 18)
  {
    OperandStep(f, Shunt([a, b, c, BOp("^"), BOp("-"), UOp("-"), d, e], [Function("sqrt", 0), OParen, BOp("/"), OParen, BOp("+"), BOp("^")], [1]), Shunt([a, b, c, BOp("^"), BOp("-"), UOp("-"), d, e, f], [Function("sqrt", 0), OParen, BOp("/"), OParen, BOp("+"), BOp("^")], [1]));
    UnwindStep(CParen, Shunt([a, b, c, BOp("^"), BOp("-"), UOp("-"), d, e, f], [Function("sqrt", 0), OParen, BOp("/"), OParen, BOp("+"), BOp("^")], [1]), BOp("^"), Shunt([a, b, c, BOp("^"), BOp("-"), UOp("-"), d, e, f, BOp("^")], [Function("sqrt", 0), OParen, BOp("/"), OParen, BOp("+")], [1]));
    UnwindStep(CParen, Shunt([a, b, c, BOp("^"), BOp("-"), UOp("-"), d, e, f, BOp("^")], [Function("sqrt", 0), OParen, BOp("/"), OParen, BOp("+")], [1]), BOp("+"), Shunt([a, b, c, BOp("^"), BOp("-"), UOp("-"), d, e, f, BOp("^"), BOp("+")], [Function("sqrt", 0), OParen, BOp("/"), OParen], [1]));
    GroupCloseStep(CParen, Shunt([a, b, c, BOp("^"), BOp("-"), UOp("-"), d, e, f, BOp("^"), BOp("+")], [Function("sqrt", 0), OParen, BOp("/"), OParen], [1]), Shunt([a, b, c, BOp("^"), BOp("-"), UOp("-"), d, e, f, BOp("^"), BOp("+")], [Function("sqrt", 0), OParen, BOp("/")], [1]));
    assert Traces(ts, st, 18, 18);
    assert Traces(ts, st, 17, 18);
    assert Traces(ts, st, 16, 18);
  }

  /** The tokens and states `UnclosedSteps1` works on. */
  lemma UnclosedSteps1At(a: MathToken, b: MathToken, c: MathToken, d: MathToken, e: MathToken, f: MathToken)
    ensures var ts, st := UnclosedTokens(a, b, c, d, e, f), UnclosedStates(a, b, c, d, e, f);
      |ts| == 18 && |st| == 19 &&
      ts[0] == Function("sqrt", 0) &&
      ts[1] == OParen &&
      st[0] == Shunt([], [], []) &&
      st[1] == Shunt([], [Function("sqrt", 0)], [1]) &&
      st[2] == Shunt([], [Function("sqrt", 0), OParen], [1])
  {
  }

  /** The tokens and states `UnclosedSteps2` works on. */
  lemma UnclosedSteps2At(a: MathToken, b: MathToken, c: MathToken, d: MathToken, e: MathToken, f: MathToken)
    ensures var ts, st := UnclosedTokens(a, b, c, d, e, f), UnclosedStates(a, b, c, d, e, f);
      |ts| == 18 && |st| == 19 &&
      ts[2] == UOp("-") &&
      ts[3] == OParen &&
      st[2] == Shunt([], [Function("sqrt", 0), OParen], [1]) &&
      st[3] == Shunt([], [Function("sqrt", 0), OParen, UOp("-")], [1]) &&
      st[4] == Shunt([], [Function("sqrt", 0), OParen, UOp("-"), OParen], [1])
  {
  }

  /** The tokens and states `UnclosedSteps3` works on. */
  lemma UnclosedSteps3At(a: MathToken, b: MathToken, c: MathToken, d: MathToken, e: MathToken, f: MathToken)
    ensures var ts, st := UnclosedTokens(a, b, c, d, e, f), UnclosedStates(a, b, c, d, e, f);
      |ts| == 18 && |st| == 19 &&
      ts[4] == a &&
      ts[5] == BOp("-") &&
      st[4] == Shunt([], [Function("sqrt", 0), OParen, UOp("-"), OParen], [1]) &&
      st[5] == Shunt([a], [Function("sqrt", 0), OParen, UOp("-"), OParen], [1]) &&
      st[6] == Shunt([a], [Function("sqrt", 0), OParen, UOp("-"), OParen, BOp("-")], [1])
  {
  }

  /** The tokens and states `UnclosedSteps4` works on. */
  lemma UnclosedSteps4At(a: MathToken, b: MathToken, c: MathToken, d: MathToken, e: MathToken, f: MathToken)
    ensures var ts, st := UnclosedTokens(a, b, c, d, e, f), UnclosedStates(a, b, c, d, e, f);
      |ts| == 18 && |st| == 19 &&
      ts[6] == b &&
      ts[7] == BOp("^") &&
      st[6] == Shunt([a], [Function("sqrt", 0), OParen, UOp("-"), OParen, BOp("-")], [1]) &&
      st[7] == Shunt([a, b], [Function("sqrt", 0), OParen, UOp("-"), OParen, BOp("-")], [1]) &&
      st[8] == Shunt([a, b], [Function("sqrt", 0), OParen, UOp("-"), OParen, BOp("-"), BOp("^")], [1])
  {
  }

  /** The tokens and states `UnclosedSteps5` works on. */
  lemma UnclosedSteps5At(a: MathToken, b: MathToken, c: MathToken, d: MathToken, e: MathToken, f: MathToken)
    ensures var ts, st := UnclosedTokens(a, b, c, d, e, f), UnclosedStates(a, b, c, d, e, f);
      |ts| == 18 && |st| == 19 &&
      ts[8] == c &&
      ts[9] == CParen &&
      st[8] == Shunt([a, b], [Function("sqrt", 0), OParen, UOp("-"), OParen, BOp("-"), BOp("^")], [1]) &&
      st[9] == Shunt([a, b, c], [Function("sqrt", 0), OParen, UOp("-"), OParen, BOp("-"), BOp("^")], [1]) &&
      st[10] == Shunt([a, b, c, BOp("^"), BOp("-")], [Function("sqrt", 0), OParen, UOp("-")], [1])
  {
  }

  /** The tokens and states `UnclosedSteps6` works on. */
  lemma UnclosedSteps6At(a: MathToken, b: MathToken, c: MathToken, d: MathToken, e: MathToken, f: MathToken)
    ensures var ts, st := UnclosedTokens(a, b, c, d, e, f), UnclosedStates(a, b, c, d, e, f);
      |ts| == 18 && |st| == 19 &&
      ts[10] == BOp("/") &&
      ts[11] == OParen &&
      st[10] == Shunt([a, b, c, BOp("^"), BOp("-")], [Function("sqrt", 0), OParen, UOp("-")], [1]) &&
      st[11] == Shunt([a, b, c, BOp("^"), BOp("-"), UOp("-")], [Function("sqrt", 0), OParen, BOp("/")], [1]) &&
      st[12] == Shunt([a, b, c, BOp("^"), BOp("-"), UOp("-")], [Function("sqrt", 0), OParen, BOp("/"), OParen], [1])
  {
  }

  /** The tokens and states `UnclosedSteps7` works on. */
  lemma UnclosedSteps7At(a: MathToken, b: MathToken, c: MathToken, d: MathToken, e: MathToken, f: MathToken)
    ensures var ts, st := UnclosedTokens(a, b, c, d, e, f), UnclosedStates(a, b, c, d, e, f);
      |ts| == 18 && |st| == 19 &&
      ts[12] == d &&
      ts[13] == BOp("+") &&
      st[12] == Shunt([a, b, c, BOp("^"), BOp("-"), UOp("-")], [Function("sqrt", 0), OParen, BOp("/"), OParen], [1]) &&
      st[13] == Shunt([a, b, c, BOp("^"), BOp("-"), UOp("-"), d], [Function("sqrt", 0), OParen, BOp("/"), OParen], [1]) &&
      st[14] == Shunt([a, b, c, BOp("^"), BOp("-"), UOp("-"), d], [Function("sqrt", 0), OParen, BOp("/"), OParen, BOp("+")], [1])
  {
  }

  /** The tokens and states `UnclosedSteps8` works on. */
  lemma UnclosedSteps8At(a: MathToken, b: MathToken, c: MathToken, d: MathToken, e: MathToken, f: MathToken)
    ensures var ts, st := UnclosedTokens(a, b, c, d, e, f), UnclosedStates(a, b, c, d, e, f);
      |ts| == 18 && |st| == 19 &&
      ts[14] == e &&
      ts[15] == BOp("^") &&
      st[14] == Shunt([a, b, c, BOp("^"), BOp("-"), UOp("-"), d], [Function("sqrt", 0), OParen, BOp("/"), OParen, BOp("+")], [1]) &&
      st[15] == Shunt([a, b, c, BOp("^"), BOp("-"), UOp("-"), d, e], [Function("sqrt", 0), OParen, BOp("/"), OParen, BOp("+")], [1]) &&
      st[16] == Shunt([a, b, c, BOp("^"), BOp("-"), UOp("-"), d, e], [Function("sqrt", 0), OParen, BOp("/"), OParen, BOp("+"), BOp("^")], [1])
  {
  }

  /** The tokens and states `UnclosedSteps9` works on. */
  lemma UnclosedSteps9At(a: MathToken, b: MathToken, c: MathToken, d: MathToken, e: MathToken, f: MathToken)
    ensures var ts, st := UnclosedTokens(a, b, c, d, e, f), UnclosedStates(a, b, c, d, e, f);
      |ts| == 18 && |st| == 19 &&
      ts[16] == f &&
      ts[17] == CParen &&
      st[16] == Shunt([a, b, c, BOp("^"), BOp("-"), UOp("-"), d, e], [Function("sqrt", 0), OParen, BOp("/"), OParen, BOp("+"), BOp("^")], [1]) &&
      st[17] == Shunt([a, b, c, BOp("^"), BOp("-"), UOp("-"), d, e, f], [Function("sqrt", 0), OParen, BOp("/"), OParen, BOp("+"), BOp("^")], [1]) &&
      st[18] == Shunt([a, b, c, BOp("^"), BOp("-"), UOp("-"), d, e, f, BOp("^"), BOp("+")], [Function("sqrt", 0), OParen, BOp("/")], [1])
  {
  }

  /** All of `UnclosedTokens`, one converter step each. */
  lemma UnclosedTrace(a: MathToken, b: MathToken, c: MathToken, d: MathToken, e: MathToken, f: MathToken)
    requires IsOperand(a) && IsOperand(b) && IsOperand(c) && IsOperand(d) && IsOperand(e) && IsOperand(f)
    ensures Traces(UnclosedTokens(a, b, c, d, e, f), UnclosedStates(a, b, c, d, e, f), 0, 18)
  {
    var ts, st := UnclosedTokens(a, b, c, d, e, f), UnclosedStates(a, b, c, d, e, f);
    UnclosedSteps1At(a, b, c, d, e, f);
    UnclosedSteps1(ts, st, a, b, c, d, e, f);
    UnclosedSteps2At(a, b, c, d, e, f);
    UnclosedSteps2(ts, st, a, b, c, d, e, f);
    UnclosedSteps3At(a, b, c, d, e, f);
    UnclosedSteps3(ts, st, a, b, c, d, e, f);
    UnclosedSteps4At(a, b, c, d, e, f);
    UnclosedSteps4(ts, st, a, b, c, d, e, f);
    UnclosedSteps5At(a, b, c, d, e, f);
    UnclosedSteps5(ts, st, a, b, c, d, e, f);
    UnclosedSteps6At(a, b, c, d, e, f);
    UnclosedSteps6(ts, st, a, b, c, d, e, f);
    UnclosedSteps7At(a, b, c, d, e, f);
    UnclosedSteps7(ts, st, a, b, c, d, e, f);
    UnclosedSteps8At(a, b, c, d, e, f);
    UnclosedSteps8(ts, st, a, b, c, d, e, f);
    UnclosedSteps9At(a, b, c, d, e, f);
    UnclosedSteps9(ts, st, a, b, c, d, e, f);
    TracesJoin(ts, st, 0, 2, 4);
    TracesJoin(ts, st, 0, 4, 6);
    TracesJoin(ts, st, 0, 6, 8);
    TracesJoin(ts, st, 0, 8, 10);
    TracesJoin(ts, st, 0, 10, 12);
    TracesJoin(ts, st, 0, 12, 14);
    TracesJoin(ts, st, 0, 14, 16);
    TracesJoin(ts, st, 0, 16, 18);
  }

  /** The first and the last of `UnclosedStates`. */
  lemma UnclosedEnds(a: MathToken, b: MathToken, c: MathToken, d: MathToken, e: MathToken, f: MathToken)
    ensures var st := UnclosedStates(a, b, c, d, e, f);
      |st| == 19 && st[0] == Shunt([], [], []) && st[18] == Shunt([a, b, c, BOp("^"), BOp("-"), UOp("-"), d, e, f, BOp("^"), BOp("+")], [Function("sqrt", 0), OParen, BOp("/")], [1])
  {
  }

  /** The run over `UnclosedTokens` from the empty state reaches the state after token 17. */
  lemma UnclosedRun(a: MathToken, b: MathToken, c: MathToken, d: MathToken, e: MathToken, f: MathToken)
    requires IsOperand(a) && IsOperand(b) && IsOperand(c) && IsOperand(d) && IsOperand(e) && IsOperand(f)
    ensures Counted(Shunt([a, b, c, BOp("^"), BOp("-"), UOp("-"), d, e, f, BOp("^"), BOp("+")], [Function("sqrt", 0), OParen, BOp("/")], [1]))
    ensures RunFrom(UnclosedTokens(a, b, c, d, e, f), 0, Shunt([], [], []))
      == RunFrom(UnclosedTokens(a, b, c, d, e, f), 18, Shunt([a, b, c, BOp("^"), BOp("-"), UOp("-"), d, e, f, BOp("^"), BOp("+")], [Function("sqrt", 0), OParen, BOp("/")], [1]))
  {
    var ts, st := UnclosedTokens(a, b, c, d, e, f), UnclosedStates(a, b, c, d, e, f);
    UnclosedTrace(a, b, c, d, e, f);
    UnclosedEnds(a, b, c, d, e, f);
    TraceRunsBetween(ts, st, 0, 18, Shunt([], [], []), Shunt([a, b, c, BOp("^"), BOp("-"), UOp("-"), d, e, f, BOp("^"), BOp("+")], [Function("sqrt", 0), OParen, BOp("/")], [1]));
  }

  /** `sqrt(-(a - b^c) / (d + e^f)` leaves the call's `(` open: "Missing Closing Paren", for any operands. */
  lemma UnclosedExample(a: MathToken, b: MathToken, c: MathToken, d: MathToken, e: MathToken, f: MathToken)
    requires IsOperand(a) && IsOperand(b) && IsOperand(c) && IsOperand(d) && IsOperand(e) && IsOperand(f)
    ensures Rpn(UnclosedTokens(a, b, c, d, e, f)) == Err(MissingClosingParen)
  {
    UnclosedRun(a, b, c, d, e, f);
    var last := UnclosedStates(a, b, c, d, e, f)[18];
    DrainSpec(last.out, last.stack);
    assert last.stack[1] == OParen;
  }

  /** The library's vector `sqrt(-(1-x^2) / (1 + x^2)` (src/parser.rs:180-181). */
  lemma UnclosedVector()
    ensures Rpn(UnclosedTokens(Number(1.0), Variable("x"), Number(2.0), Number(1.0), Variable("x"), Number(2.0)))
      == Err(MissingClosingParen)
  {
    UnclosedExample(Number(1.0), Variable("x"), Number(2.0), Number(1.0), Variable("x"), Number(2.0));
  }

  /** `-(a - b^c) / (d + e^f))`, as tokens. */
  function UnopenedTokens(a: MathToken, b: MathToken, c: MathToken, d: MathToken, e: MathToken, f: MathToken): seq<MathToken>
  {
    [UOp("-"), OParen, a, BOp("-"), b, BOp("^"), c, CParen, BOp("/"), OParen, d, BOp("+"), e, BOp("^"), f, CParen, CParen]
  }

  /** The converter's state before token `k` of `UnopenedTokens`, or after the last. */
  function UnopenedState(k: nat, a: MathToken, b: MathToken, c: MathToken, d: MathToken, e: MathToken, f: MathToken): Shunt
  {
    if k == 0 then Shunt([], [], [])
    else if k == 1 then Shunt([], [UOp("-")], [])
    else if k == 2 then Shunt([], [UOp("-"), OParen], [])
    else if k == 3 then Shunt([a], [UOp("-"), OParen], [])
    else if k == 4 then Shunt([a], [UOp("-"), OParen, BOp("-")], [])
    else if k == 5 then Shunt([a, b], [UOp("-"), OParen, BOp("-")], [])
    else if k == 6 then Shunt([a, b], [UOp("-"), OParen, BOp("-"), BOp("^")], [])
    else if k == 7 then Shunt([a, b, c], [UOp("-"), OParen, BOp("-"), BOp("^")], [])
    else if k == 8 then Shunt([a, b, c, BOp("^"), BOp("-")], [UOp("-")], [])
    else if k == 9 then Shunt([a, b, c, BOp("^"), BOp("-"), UOp("-")], [BOp("/")], [])
    else if k == 10 then Shunt([a, b, c, BOp("^"), BOp("-"), UOp("-")], [BOp("/"), OParen], [])
    else if k == 11 then Shunt([a, b, c, BOp("^"), BOp("-"), UOp("-"), d], [BOp("/"), OParen], [])
    else if k == 12 then Shunt([a, b, c, BOp("^"), BOp("-"), UOp("-"), d], [BOp("/"), OParen, BOp("+")], [])
    else if k == 13 then Shunt([a, b, c, BOp("^"), BOp("-"), UOp("-"), d, e], [BOp("/"), OParen, BOp("+")], [])
    else if k == 14 then Shunt([a, b, c, BOp("^"), BOp("-"), UOp("-"), d, e], [BOp("/"), OParen, BOp("+"), BOp("^")], [])
    else if k == 15 then Shunt([a, b, c, BOp("^"), BOp("-"), UOp("-"), d, e, f], [BOp("/"), OParen, BOp("+"), BOp("^")], [])
    else Shunt([a, b, c, BOp("^"), BOp("-"), UOp("-"), d, e, f, BOp("^"), BOp("+")], [BOp("/")], [])
  }

  /** The converter's states along `UnopenedTokens`, first to last. */
  function UnopenedStates(a: MathToken, b: MathToken, c: MathToken, d: MathToken, e: MathToken, f: MathToken): seq<Shunt>
  {
    seq(17, k requires 0 <= k => UnopenedState(k, a, b, c, d, e, f))
  }

  /** Tokens 0 to 1 of `UnopenedTokens`. */
  lemma UnopenedSteps1(ts: seq<MathToken>, st: seq<Shunt>, a: MathToken, b: MathToken, c: MathToken, d: MathToken, e: MathToken, f: MathToken)
    requires IsOperand(a) && IsOperand(b) && IsOperand(c) && IsOperand(d) && IsOperand(e) && IsOperand(f)
    requires |ts| == 17 && |st| == 17
    requires ts[0] == UOp("-")
    requires ts[1] == OParen
    requires st[0] == Shunt([], [], [])
    requires st[1] == Shunt([], [UOp("-")], [])
    requires st[2] == Shunt([], [UOp("-"), OParen], [])
    requires Counted(st[0])
    ensures Counted(st[2]) && Traces(ts, st, 0, 2)
  {
    PushStep(UOp("-"), Shunt([], [], []), Shunt([], [UOp("-")], []));
    OpenStep(OParen, Shunt([], [UOp("-")], []), Shunt([], [UOp("-"), OParen], []));
    assert Traces(ts, st, 2, 2);
    assert Traces(ts, st, 1, 2);
    assert Traces(ts, st, 0, 2);
  }

  /** Tokens 2 to 3 of `UnopenedTokens`. */
  lemma UnopenedSteps2(ts: seq<MathToken>, st: seq<Shunt>, a: MathToken, b: MathToken, c: MathToken, d: MathToken, e: MathToken, f: MathToken)
    requires IsOperand(a) && IsOperand(b) && IsOperand(c) && IsOperand(d) && IsOperand(e) && IsOperand(f)
    requires |ts| == 17 && |st| == 17
    requires ts[2] == a
    requires ts[3] == BOp("-")
    requires st[2] == Shunt([], [UOp("-"), OParen], [])
    requires st[3] == Shunt([a], [UOp("-"), OParen], [])
    requires st[4] == Shunt([a], [UOp("-"), OParen, BOp("-")], [])
    requires Counted(st[2])
    ensures Counted(st[4]) && Traces(ts, st, 2, 4)
  {
    OperandStep(a, Shunt([], [UOp("-"), OParen], []), Shunt([a], [UOp("-"), OParen], []));
    PushStep(BOp("-"), Shunt([a], [UOp("-"), OParen], []), Shunt([a], [UOp("-"), OParen, BOp("-")], []));
    assert Traces(ts, st, 4, 4);
    assert Traces(ts, st, 3, 4);
    assert Traces(ts, st, 2, 4);
  }

  /** Tokens 4 to 5 of `UnopenedTokens`. */
  lemma UnopenedSteps3(ts: seq<MathToken>, st: seq<Shunt>, a: MathToken, b: MathToken, c: MathToken, d: MathToken, e: MathToken, f: MathToken)
    requires IsOperand(a) && IsOperand(b) && IsOperand(c) && IsOperand(d) && IsOperand(e) && IsOperand(f)
    requires |ts| == 17 && |st| == 17
    requires ts[4] == b
    requires ts[5] == BOp("^")
    requires st[4] == Shunt([a], [UOp("-"), OParen, BOp("-")], [])
    requires st[5] == Shunt([a, b], [UOp("-"), OParen, BOp("-")], [])
    requires st[6] == Shunt([a, b], [UOp("-"), OParen, BOp("-"), BOp("^")], [])
    requires Counted(st[4])
    ensures Counted(st[6]) && Traces(ts, st, 4, 6)
  {
    OperandStep(b, Shunt([a], [UOp("-"), OParen, BOp("-")], []), Shunt([a, b], [UOp("-"), OParen, BOp("-")], []));
    PushStep(BOp("^"), Shunt([a, b], [UOp("-"), OParen, BOp("-")], []), Shunt([a, b], [UOp("-"), OParen, BOp("-"), BOp("^")], []));
    assert Traces(ts, st, 6, 6);
    assert Traces(ts, st, 5, 6);
    assert Traces(ts, st, 4, 6);
  }

  /** Tokens 6 to 7 of `UnopenedTokens`. */
  lemma UnopenedSteps4(ts: seq<MathToken>, st: seq<Shunt>, a: MathToken, b: MathToken, c: MathToken, d: MathToken, e: MathToken, f: MathToken)
    requires IsOperand(a) && IsOperand(b) && IsOperand(c) && IsOperand(d) && IsOperand(e) && IsOperand(f)
    requires |ts| == 17 && |st| == 17
    requires ts[6] == c
    requires ts[7] == CParen
    requires st[6] == Shunt([a, b], [UOp("-"), OParen, BOp("-"), BOp("^")], [])
    requires st[7] == Shunt([a, b, c], [UOp("-"), OParen, BOp("-"), BOp("^")], [])
    requires st[8] == Shunt([a, b, c, BOp("^"), BOp("-")], [UOp("-")], [])
    requires Counted(st[6])
    ensures Counted(st[8]) && Traces(ts, st, 6, 8)
  {
    OperandStep(c, Shunt([a, b], [UOp("-"), OParen, BOp("-"), BOp("^")], []), Shunt([a, b, c], [UOp("-"), OParen, BOp("-"), BOp("^")], []));
    UnwindStep(CParen, Shunt([a, b, c], [UOp("-"), OParen, BOp("-"), BOp("^")], []), BOp("^"), Shunt([a, b, c, BOp("^")], [UOp("-"), OParen, BOp("-")], []));
    UnwindStep(CParen, Shunt([a, b, c, BOp("^")], [UOp("-"), OParen, BOp("-")], []), BOp("-"), Shunt([a, b, c, BOp("^"), BOp("-")], [UOp("-"), OParen], []));
    GroupCloseStep(CParen, Shunt([a, b, c, BOp("^"), BOp("-")], [UOp("-"), OParen], []), Shunt([a, b, c, BOp("^"), BOp("-")], [UOp("-")], []));
    assert Traces(ts, st, 8, 8);
    assert Traces(ts, st, 7, 8);
    assert Traces(ts, st, 6, 8);
  }

  /** Tokens 8 to 9 of `UnopenedTokens`. */
  lemma UnopenedSteps5(ts: seq<MathToken>, st: seq<Shunt>, a: MathToken, b: MathToken, c: MathToken, d: MathToken, e: MathToken, f: MathToken)
    requires IsOperand(a) && IsOperand(b) && IsOperand(c) && IsOperand(d) && IsOperand(e) && IsOperand(f)
    requires |ts| == 17 && |st| == 17
    requires ts[8] == BOp("/")
    requires ts[9] == OParen
    requires st[8] == Shunt([a, b, c, BOp("^"), BOp("-")], [UOp("-")], [])
    requires st[9] == Shunt([a, b, c, BOp("^"), BOp("-"), UOp("-")], [BOp("/")], [])
    requires st[10] == Shunt([a, b, c, BOp("^"), BOp("-"), UOp("-")], [BOp("/"), OParen], [])
    requires Counted(st[8])
    ensures Counted(st[10]) && Traces(ts, st, 8, 10)
  {
    PopStep(BOp("/"), Shunt([a, b, c, BOp("^"), BOp("-")], [UOp("-")], []), UOp("-"), Shunt([a, b, c, BOp("^"), BOp("-"), UOp("-")], [], []));
    PushStep(BOp("/"), Shunt([a, b, c, BOp("^"), BOp("-"), UOp("-")], [], []), Shunt([a, b, c, BOp("^"), BOp("-"), UOp("-")], [BOp("/")], []));
    OpenStep(OParen, Shunt([a, b, c, BOp("^"), BOp("-"), UOp("-")], [BOp("/")], []), Shunt([a, b, c, BOp("^"), BOp("-"), UOp("-")], [BOp("/"), OParen], []));
    assert Traces(ts, st, 10, 10);
    assert Traces(ts, st, 9, 10);
    assert Traces(ts, st, 8, 10);
  }

  /** Tokens 10 to 11 of `UnopenedTokens`. */
  lemma UnopenedSteps6(ts: seq<MathToken>, st: seq<Shunt>, a: MathToken, b: MathToken, c: MathToken, d: MathToken, e: MathToken, f: MathToken)
    requires IsOperand(a) && IsOperand(b) && IsOperand(c) && IsOperand(d) && IsOperand(e) && IsOperand(f)
    requires |ts| == 17 && |st| == 17
    requires ts[10] == d
    requires ts[11] == BOp("+")
    requires st[10] == Shunt([a, b, c, BOp("^"), BOp("-"), UOp("-")], [BOp("/"), OParen], [])
    requires st[11] == Shunt([a, b, c, BOp("^"), BOp("-"), UOp("-"), d], [BOp("/"), OParen], [])
    requires st[12] == Shunt([a, b, c, BOp("^"), BOp("-"), UOp("-"), d], [BOp("/"), OParen, BOp("+")], [])
    requires Counted(st[10])
    ensures Counted(st[12]) && Traces(ts, st, 10, 12)
  {
    OperandStep(d, Shunt([a, b, c, BOp("^"), BOp("-"), UOp("-")], [BOp("/"), OParen], []), Shunt([a, b, c, BOp("^"), BOp("-"), UOp("-"), d], [BOp("/"), OParen], []));
    PushStep(BOp("+"), Shunt([a, b, c, BOp("^"), BOp("-"), UOp("-"), d], [BOp("/"), OParen], []), Shunt([a, b, c, BOp("^"), BOp("-"), UOp("-"), d], [BOp("/"), OParen, BOp("+")], []));
    assert Traces(ts, st, 12, 12);
    assert Traces(ts, st, 11, 12);
    assert Traces(ts, st, 10, 12);
  }

  /** Tokens 12 to 13 of `UnopenedTokens`. */
  lemma UnopenedSteps7(ts: seq<MathToken>, st: seq<Shunt>, a: MathToken, b: MathToken, c: MathToken, d: MathToken, e: MathToken, f: MathToken)
    requires IsOperand(a) && IsOperand(b) && IsOperand(c) && IsOperand(d) && IsOperand(e) && IsOperand(f)
    requires |ts| == 17 && |st| == 17
    requires ts[12] == e
    requires ts[13] == BOp("^")
    requires st[12] == Shunt([a, b, c, BOp("^"), BOp("-"), UOp("-"), d], [BOp("/"), OParen, BOp("+")], [])
    requires st[13] == Shunt([a, b, c, BOp("^"), BOp("-"), UOp("-"), d, e], [BOp("/"), OParen, BOp("+")], [])
    requires st[14] == Shunt([a, b, c, BOp("^"), BOp("-"), UOp("-"), d, e], [BOp("/"), OParen, BOp("+"), BOp("^")], [])
    requires Counted(st[12])
    ensures Counted(st[14]) && Traces(ts, st, 12, 14)
  {
    OperandStep(e, Shunt([a, b, c, BOp("^"), BOp("-"), UOp("-"), d], [BOp("/"), OParen, BOp("+")], []), Shunt([a, b, c, BOp("^"), BOp("-"), UOp("-"), d, e], [BOp("/"), OParen, BOp("+")], []));
    PushStep(BOp("^"), Shunt([a, b, c, BOp("^"), BOp("-"), UOp("-"), d, e], [BOp("/"), OParen, BOp("+")], []), Shunt([a, b, c, BOp("^"), BOp("-"), UOp("-"), d, e], [BOp("/"), OParen, BOp("+"), BOp("^")], []));
    assert Traces(ts, st, 14, 14);
    assert Traces(ts, st, 13, 14);
    assert Traces(ts, st, 12, 14);
  }

  /** Tokens 14 to 15 of `UnopenedTokens`. */
  lemma UnopenedSteps8(ts: seq<MathToken>, st: seq<Shunt>, a: MathToken, b: MathToken, c: MathToken, d: MathToken, e: MathToken, f: MathToken)
    requires IsOperand(a) && IsOperand(b) && IsOperand(c) && IsOperand(d) && IsOperand(e) && IsOperand(f)
    requires |ts| == 17 && |st| == 17
    requires ts[14] == f
    requires ts[15] == CParen
    requires st[14] == Shunt([a, b, c, BOp("^"), BOp("-"), UOp("-"), d, e], [BOp("/"), OParen, BOp("+"), BOp("^")], [])
    requires st[15] == Shunt([a, b, c, BOp("^"), BOp("-"), UOp("-"), d, e, f], [BOp("/"), OParen, BOp("+"), BOp("^")], [])
    requires st[16] == Shunt([a, b, c, BOp("^"), BOp("-"), UOp("-"), d, e, f, BOp("^"), BOp("+")], [BOp("/")], [])
    requires Counted(st[14])
    ensures Counted(st[16]) && Traces(ts, st, 14, 16)
  {
    OperandStep(f, Shunt([a, b, c, BOp("^"), BOp("-"), UOp("-"), d, e], [BOp("/"), OParen, BOp("+"), BOp("^")], []), Shunt([a, b, c, BOp("^"), BOp("-"), UOp("-"), d, e, f], [BOp("/"), OParen, BOp("+"), BOp("^")], []));
    UnwindStep(CParen, Shunt([a, b, c, BOp("^"), BOp("-"), UOp("-"), d, e, f], [BOp("/"), OParen, BOp("+"), BOp("^")], []), BOp("^"), Shunt([a, b, c, BOp("^"), BOp("-"), UOp("-"), d, e, f, BOp("^")], [BOp("/"), OParen, BOp("+")], []));
    UnwindStep(CParen, Shunt([a, b, c, BOp("^"), BOp("-"), UOp("-"), d, e, f, BOp("^")], [BOp("/"), OParen, BOp("+")], []), BOp("+"), Shunt([a, b, c, BOp("^"), BOp("-"), UOp("-"), d, e, f, BOp("^"), BOp("+")], [BOp("/"), OParen], []));
    GroupCloseStep(CParen, Shunt([a, b, c, BOp("^"), BOp("-"), UOp("-"), d, e, f, BOp("^"), BOp("+")], [BOp("/"), OParen], []), Shunt([a, b, c, BOp("^"), BOp("-"), UOp("-"), d, e, f, BOp("^"), BOp("+")], [BOp("/")], []));
    assert Traces(ts, st, 16, 16);
    assert Traces(ts, st, 15, 16);
    assert Traces(ts, st, 14, 16);
  }

  /** The tokens and states `UnopenedSteps1` works on. */
  lemma UnopenedSteps1At(a: MathToken, b: MathToken, c: MathToken, d: MathToken, e: MathToken, f: MathToken)
    ensures var ts, st := UnopenedTokens(a, b, c, d, e, f), UnopenedStates(a, b, c, d, e, f);
      |ts| == 17 && |st| == 17 &&
      ts[0] == UOp("-") &&
      ts[1] == OParen &&
      st[0] == Shunt([], [], []) &&
      st[1] == Shunt([], [UOp("-")], []) &&
      st[2] == Shunt([], [UOp("-"), OParen], [])
  {
  }

  /** The tokens and states `UnopenedSteps2` works on. */
  lemma UnopenedSteps2At(a: MathToken, b: MathToken, c: MathToken, d: MathToken, e: MathToken, f: MathToken)
    ensures var ts, st := UnopenedTokens(a, b, c, d, e, f), UnopenedStates(a, b, c, d, e, f);
      |ts| == 17 && |st| == 17 &&
      ts[2] == a &&
      ts[3] == BOp("-") &&
      st[2] == Shunt([], [UOp("-"), OParen], []) &&
      st[3] == Shunt([a], [UOp("-"), OParen], []) &&
      st[4] == Shunt([a], [UOp("-"), OParen, BOp("-")], [])
  {
  }

  /** The tokens and states `UnopenedSteps3` works on. */
  lemma UnopenedSteps3At(a: MathToken, b: MathToken, c: MathToken, d: MathToken, e: MathToken, f: MathToken)
    ensures var ts, st := UnopenedTokens(a, b, c, d, e, f), UnopenedStates(a, b, c, d, e, f);
      |ts| == 17 && |st| == 17 &&
      ts[4] == b &&
      ts[5] == BOp("^") &&
      st[4] == Shunt([a], [UOp("-"), OParen, BOp("-")], []) &&
      st[5] == Shunt([a, b], [UOp("-"), OParen, BOp("-")], []) &&
      st[6] == Shunt([a, b], [UOp("-"), OParen, BOp("-"), BOp("^")], [])
  {
  }

  /** The tokens and states `UnopenedSteps4` works on. */
  lemma UnopenedSteps4At(a: MathToken, b: MathToken, c: MathToken, d: MathToken, e: MathToken, f: MathToken)
    ensures var ts, st := UnopenedTokens(a, b, c, d, e, f), UnopenedStates(a, b, c, d, e, f);
      |ts| == 17 && |st| == 17 &&
      ts[6] == c &&
      ts[7] == CParen &&
      st[6] == Shunt([a, b], [UOp("-"), OParen, BOp("-"), BOp("^")], []) &&
      st[7] == Shunt([a, b, c], [UOp("-"), OParen, BOp("-"), BOp("^")], []) &&
      st[8] == Shunt([a, b, c, BOp("^"), BOp("-")], [UOp("-")], [])
  {
  }

  /** The tokens and states `UnopenedSteps5` works on. */
  lemma UnopenedSteps5At(a: MathToken, b: MathToken, c: MathToken, d: MathToken, e: MathToken, f: MathToken)
    ensures var ts, st := UnopenedTokens(a, b, c, d, e, f), UnopenedStates(a, b, c, d, e, f);
      |ts| == 17 && |st| == 17 &&
      ts[8] == BOp("/") &&
      ts[9] == OParen &&
      st[8] == Shunt([a, b, c, BOp("^"), BOp("-")], [UOp("-")], []) &&
      st[9] == Shunt([a, b, c, BOp("^"), BOp("-"), UOp("-")], [BOp("/")], []) &&
      st[10] == Shunt([a, b, c, BOp("^"), BOp("-"), UOp("-")], [BOp("/"), OParen], [])
  {
  }

  /** The tokens and states `UnopenedSteps6` works on. */
  lemma UnopenedSteps6At(a: MathToken, b: MathToken, c: MathToken, d: MathToken, e: MathToken, f: MathToken)
    ensures var ts, st := UnopenedTokens(a, b, c, d, e, f), UnopenedStates(a, b, c, d, e, f);
      |ts| == 17 && |st| == 17 &&
      ts[10] == d &&
      ts[11] == BOp("+") &&
      st[10] == Shunt([a, b, c, BOp("^"), BOp("-"), UOp("-")], [BOp("/"), OParen], []) &&
      st[11] == Shunt([a, b, c, BOp("^"), BOp("-"), UOp("-"), d], [BOp("/"), OParen], []) &&
      st[12] == Shunt([a, b, c, BOp("^"), BOp("-"), UOp("-"), d], [BOp("/"), OParen, BOp("+")], [])
  {
  }

  /** The tokens and states `UnopenedSteps7` works on. */
  lemma UnopenedSteps7At(a: MathToken, b: MathToken, c: MathToken, d: MathToken, e: MathToken, f: MathToken)
    ensures var ts, st := UnopenedTokens(a, b, c, d, e, f), UnopenedStates(a, b, c, d, e, f);
      |ts| == 17 && |st| == 17 &&
      ts[12] == e &&
      ts[13] == BOp("^") &&
      st[12] == Shunt([a, b, c, BOp("^"), BOp("-"), UOp("-"), d], [BOp("/"), OParen, BOp("+")], []) &&
      st[13] == Shunt([a, b, c, BOp("^"), BOp("-"), UOp("-"), d, e], [BOp("/"), OParen, BOp("+")], []) &&
      st[14] == Shunt([a, b, c, BOp("^"), BOp("-"), UOp("-"), d, e], [BOp("/"), OParen, BOp("+"), BOp("^")], [])
  {
  }

  /** The tokens and states `UnopenedSteps8` works on. */
  lemma UnopenedSteps8At(a: MathToken, b: MathToken, c: MathToken, d: MathToken, e: MathToken, f: MathToken)
    ensures var ts, st := UnopenedTokens(a, b, c, d, e, f), UnopenedStates(a, b, c, d, e, f);
      |ts| == 17 && |st| == 17 &&
      ts[14] == f &&
      ts[15] == CParen &&
      st[14] == Shunt([a, b, c, BOp("^"), BOp("-"), UOp("-"), d, e], [BOp("/"), OParen, BOp("+"), BOp("^")], []) &&
      st[15] == Shunt([a, b, c, BOp("^"), BOp("-"), UOp("-"), d, e, f], [BOp("/"), OParen, BOp("+"), BOp("^")], []) &&
      st[16] == Shunt([a, b, c, BOp("^"), BOp("-"), UOp("-"), d, e, f, BOp("^"), BOp("+")], [BOp("/")], [])
  {
  }

  /** All of `UnopenedTokens`, one converter step each. */
  lemma UnopenedTrace(a: MathToken, b: MathToken, c: MathToken, d: MathToken, e: MathToken, f: MathToken)
    requires IsOperand(a) && IsOperand(b) && IsOperand(c) && IsOperand(d) && IsOperand(e) && IsOperand(f)
    ensures Traces(UnopenedTokens(a, b, c, d, e, f), UnopenedStates(a, b, c, d, e, f), 0, 16)
  {
    var ts, st := UnopenedTokens(a, b, c, d, e, f), UnopenedStates(a, b, c, d, e, f);
    UnopenedSteps1At(a, b, c, d, e, f);
    UnopenedSteps1(ts, st, a, b, c, d, e, f);
    UnopenedSteps2At(a, b, c, d, e, f);
    UnopenedSteps2(ts, st, a, b, c, d, e, f);
    UnopenedSteps3At(a, b, c, d, e, f);
    UnopenedSteps3(ts, st, a, b, c, d, e, f);
    UnopenedSteps4At(a, b, c, d, e, f);
    UnopenedSteps4(ts, st, a, b, c, d, e, f);
    UnopenedSteps5At(a, b, c, d, e, f);
    UnopenedSteps5(ts, st, a, b, c, d, e, f);
    UnopenedSteps6At(a, b, c, d, e, f);
    UnopenedSteps6(ts, st, a, b, c, d, e, f);
    UnopenedSteps7At(a, b, c, d, e, f);
    UnopenedSteps7(ts, st, a, b, c, d, e, f);
    UnopenedSteps8At(a, b, c, d, e, f);
    UnopenedSteps8(ts, st, a, b, c, d, e, f);
    TracesJoin(ts, st, 0, 2, 4);
    TracesJoin(ts, st, 0, 4, 6);
    TracesJoin(ts, st, 0, 6, 8);
    TracesJoin(ts, st, 0, 8, 10);
    TracesJoin(ts, st, 0, 10, 12);
    TracesJoin(ts, st, 0, 12, 14);
    TracesJoin(ts, st, 0, 14, 16);
  }

  /** The first and the last of `UnopenedStates`. */
  lemma UnopenedEnds(a: MathToken, b: MathToken, c: MathToken, d: MathToken, e: MathToken, f: MathToken)
    ensures var st := UnopenedStates(a, b, c, d, e, f);
      |st| == 17 && st[0] == Shunt([], [], []) && st[16] == Shunt([a, b, c, BOp("^"), BOp("-"), UOp("-"), d, e, f, BOp("^"), BOp("+")], [BOp("/")], [])
  {
  }

  /** The run over `UnopenedTokens` from the empty state reaches the state after token 15. */
  lemma UnopenedRun(a: MathToken, b: MathToken, c: MathToken, d: MathToken, e: MathToken, f: MathToken)
    requires IsOperand(a) && IsOperand(b) && IsOperand(c) && IsOperand(d) && IsOperand(e) && IsOperand(f)
    ensures Counted(Shunt([a, b, c, BOp("^"), BOp("-"), UOp("-"), d, e, f, BOp("^"), BOp("+")], [BOp("/")], []))
    ensures RunFrom(UnopenedTokens(a, b, c, d, e, f), 0, Shunt([], [], []))
      == RunFrom(UnopenedTokens(a, b, c, d, e, f), 16, Shunt([a, b, c, BOp("^"), BOp("-"), UOp("-"), d, e, f, BOp("^"), BOp("+")], [BOp("/")], []))
  {
    var ts, st := UnopenedTokens(a, b, c, d, e, f), UnopenedStates(a, b, c, d, e, f);
    UnopenedTrace(a, b, c, d, e, f);
    UnopenedEnds(a, b, c, d, e, f);
    TraceRunsBetween(ts, st, 0, 16, Shunt([], [], []), Shunt([a, b, c, BOp("^"), BOp("-"), UOp("-"), d, e, f, BOp("^"), BOp("+")], [BOp("/")], []));
  }

  /** `-(a - b^c) / (d + e^f))` closes one `(` too many: "Missing Opening Paren", for any operands. */
  lemma UnopenedExample(a: MathToken, b: MathToken, c: MathToken, d: MathToken, e: MathToken, f: MathToken)
    requires IsOperand(a) && IsOperand(b) && IsOperand(c) && IsOperand(d) && IsOperand(e) && IsOperand(f)
    ensures Rpn(UnopenedTokens(a, b, c, d, e, f)) == Err(MissingOpeningParen)
  {
    UnopenedRun(a, b, c, d, e, f);
    UnwindStep(CParen, Shunt([a, b, c, BOp("^"), BOp("-"), UOp("-"), d, e, f, BOp("^"), BOp("+")], [BOp("/")], []), BOp("/"), Shunt([a, b, c, BOp("^"), BOp("-"), UOp("-"), d, e, f, BOp("^"), BOp("+"), BOp("/")], [], []));
    assert ShuntToken(CParen, Shunt([a, b, c, BOp("^"), BOp("-"), UOp("-"), d, e, f, BOp("^"), BOp("+"), BOp("/")], [], [])) == Err(MissingOpeningParen);
  }

  /** The library's vector `-(1-x^2) / (1 + x^2))` (src/parser.rs:183-184). */
  lemma UnopenedVector()
    ensures Rpn(UnopenedTokens(Number(1.0), Variable("x"), Number(2.0), Number(1.0), Variable("x"), Number(2.0)))
      == Err(MissingOpeningParen)
  {
    UnopenedExample(Number(1.0), Variable("x"), Number(2.0), Number(1.0), Variable("x"), Number(2.0));
  }
}
