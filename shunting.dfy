/**
 * The shunting-yard converter (src/parser.rs): infix math tokens to reverse
 * Polish notation, with an output sequence, an operator stack and a stack of
 * argument counts for the function calls still open.
 */
module Shunting {
  import opened Wrappers

  /** The tokenizer's tokens; a number's floating-point value is carried but never inspected. */
  datatype MathToken =
    | Number(value: real)
    | Variable(name: string)
    | OParen
    | CParen
    | Comma
    | Function(name: string, arity: nat)
    | UOp(op: string)
    | BOp(op: string)
    | Unknown(lexeme: string)

  datatype Assoc = Left | Right | None

  /** The errors `parse` reports, one variant per message. */
  datatype ParseError = MissingOpeningParen | MissingClosingParen | NoAssociativity | BadToken(lexeme: string)

  /**
   * `precedence` (src/parser.rs:11-33). The opening parenthesis ranks below
   * everything else, so operators never pop past it; only the tokens outside
   * the table rank 99, and exactly those have no associativity.
   */
  function Precedence(t: MathToken): (nat, Assoc)
  {
    match t
    case OParen => (1, Left)
    case BOp(o) =>
      if o == "+" || o == "-" then (2, Left)
      else if o == "*" || o == "/" || o == "%" then (3, Left)
      else if o == "^" then (5, Right)
      else (99, Assoc.None)
    case UOp(o) =>
      if o == "-" then (5, Right)
      else if o == "!" then (6, Left)
      else (99, Assoc.None)
    case Function(_, _) => (7, Left)
    case _ => (99, Assoc.None)
  }

  /**
   * The shape of the precedence table: ranks lie in 1..99, only `(` ranks
   * 1, exactly the tokens outside the table rank 99 and exactly those have
   * no associativity, exactly rank 5 is right-associative, and a function is
   * (7, Left).
   */
  lemma PrecedenceTable(t: MathToken)
    ensures var r := Precedence(t);
      1 <= r.0 <= 99 &&
      (r.0 == 1 <==> t == OParen) &&
      (r.1 == Assoc.None <==> r.0 == 99) &&
      (r.1 == Right <==> r.0 == 5) &&
      (t.Function? ==> r == (7, Left))
  {
  }

  /** What an incoming operator does with the operator on top of the stack. */
  datatype Action = PopTop | Keep | Fail

  /**
   * The popping rule of src/parser.rs:83-92: a higher-ranked top is popped, a
   * lower-ranked one stays; on equal rank the incoming operator's
   * associativity decides: Left pops, Right keeps, None fails.
   */
  function Decide(top: MathToken, incoming: MathToken): Action
  {
    var (lhs, _) := Precedence(top);
    var (rhs, assoc) := Precedence(incoming);
    if lhs > rhs then PopTop
    else if lhs < rhs then Keep
    else match assoc
      case Left => PopTop
      case None => Fail
      case Right => Keep
  }

  /**
   * The popping rule in terms of precedence: pop exactly on a higher-ranked
   * top, or an equal one with a left-associative incoming operator; fail
   * exactly when both lack a precedence.
   */
  lemma DecideRule(top: MathToken, incoming: MathToken)
    ensures Decide(top, incoming) == PopTop <==>
      Precedence(top).0 > Precedence(incoming).0 ||
      (Precedence(top).0 == Precedence(incoming).0 && Precedence(incoming).1 == Left)
    ensures Decide(top, incoming) == Fail <==> Precedence(top).0 == 99 && Precedence(incoming).0 == 99
  {
  }

  /** An operator never pops an opening parenthesis off the stack. */
  lemma ParenStopsPopping(op: MathToken)
    requires op.UOp? || op.BOp?
    ensures Decide(OParen, op) == Keep
  {
  }

  /** `^` is right-associative: a second `^` leaves the first, or a unary `-`, on the stack (the whole run is `PowerExample`). */
  lemma PowerIsRightAssociative()
    ensures Decide(BOp("^"), BOp("^")) == Keep
    ensures Decide(UOp("-"), BOp("^")) == Keep
  {
  }

  /** Equal-ranked left-associative operators pop each other, and a lower-ranked top stays (the whole run of `a-b-c` is `MinusExample`). */
  lemma MinusIsLeftAssociative()
    ensures Decide(BOp("-"), BOp("-")) == PopTop
    ensures Decide(BOp("*"), BOp("%")) == PopTop
    ensures Decide(BOp("-"), BOp("*")) == Keep
  {
  }

  /** `*` and `/` bind tighter than `+`, and a unary minus tighter than `/`. */
  lemma ArithmeticPrecedence()
    ensures Decide(BOp("+"), BOp("*")) == Keep
    ensures Decide(BOp("*"), BOp("/")) == PopTop
    ensures Decide(BOp("+"), BOp("/")) == Keep
    ensures Decide(BOp("/"), UOp("-")) == Keep
  {
  }

  predicate IsOperand(t: MathToken) { t.Number? || t.Variable? }

  predicate IsOperator(t: MathToken) { t.Function? || t.UOp? || t.BOp? }

  /** A unary or binary operator outside the precedence table. */
  predicate Unranked(t: MathToken) { (t.UOp? || t.BOp?) && Precedence(t).0 == 99 }

  /** A token the output may hold: an operand or an operator. */
  predicate Emittable(t: MathToken) { IsOperand(t) || IsOperator(t) }

  /** A token the operator stack may hold: an opening parenthesis or an operator. */
  predicate Stackable(t: MathToken) { t.OParen? || IsOperator(t) }

  /** Every token of `s` may be in the output. */
  predicate AllEmittable(s: seq<MathToken>)
  {
    |s| == 0 || (AllEmittable(s[..|s| - 1]) && Emittable(s[|s| - 1]))
  }

  /** Every token of `s` may be on the stack. */
  predicate AllStackable(s: seq<MathToken>)
  {
    |s| == 0 || (AllStackable(s[..|s| - 1]) && Stackable(s[|s| - 1]))
  }

  lemma {:induction false} AllEmittableMeans(s: seq<MathToken>)
    requires AllEmittable(s)
    ensures forall k :: 0 <= k < |s| ==> Emittable(s[k])
  {
    if |s| > 0 {
      AllEmittableMeans(s[..|s| - 1]);
      assert forall k :: 0 <= k < |s| - 1 ==> s[k] == s[..|s| - 1][k];
    }
  }

  lemma {:induction false} AllStackableMeans(s: seq<MathToken>)
    requires AllStackable(s)
    ensures forall k :: 0 <= k < |s| ==> Stackable(s[k])
  {
    if |s| > 0 {
      AllStackableMeans(s[..|s| - 1]);
      assert forall k :: 0 <= k < |s| - 1 ==> s[k] == s[..|s| - 1][k];
    }
  }

  lemma AllAppend(s: seq<MathToken>, t: MathToken)
    ensures AllEmittable(s + [t]) == (AllEmittable(s) && Emittable(t))
    ensures AllStackable(s + [t]) == (AllStackable(s) && Stackable(t))
  {
    assert (s + [t])[..|s|] == s;
  }

  /** An operator with a function's arity dropped: the output recounts it. */
  function Erase(t: MathToken): MathToken
  {
    if t.Function? then Function(t.name, 0) else t
  }

  /** The operands of `s`, in order. */
  function Operands(s: seq<MathToken>): (r: seq<MathToken>)
    ensures |r| <= |s|
  {
    if |s| == 0 then []
    else Operands(s[..|s| - 1]) + (if IsOperand(s[|s| - 1]) then [s[|s| - 1]] else [])
  }

  /** The operators of `s`, arities erased, counted with multiplicity. */
  function Operators(s: seq<MathToken>): (r: multiset<MathToken>)
    ensures |r| <= |s|
  {
    if |s| == 0 then multiset{}
    else Operators(s[..|s| - 1]) + (if IsOperator(s[|s| - 1]) then multiset{Erase(s[|s| - 1])} else multiset{})
  }

  /** The number of opening parentheses in `s`. */
  function Opens(s: seq<MathToken>): (n: nat)
    ensures n <= |s|
  {
    if |s| == 0 then 0
    else Opens(s[..|s| - 1]) + (if s[|s| - 1].OParen? then 1 else 0)
  }

  /** The number of function tokens in `s`. */
  function Functions(s: seq<MathToken>): (n: nat)
    ensures n <= |s|
  {
    if |s| == 0 then 0
    else Functions(s[..|s| - 1]) + (if s[|s| - 1].Function? then 1 else 0)
  }

  lemma OperandsAppend(s: seq<MathToken>, t: MathToken)
    ensures Operands(s + [t]) == Operands(s) + (if IsOperand(t) then [t] else [])
  {
    assert (s + [t])[..|s|] == s;
  }

  lemma OperatorsAppend(s: seq<MathToken>, t: MathToken)
    ensures Operators(s + [t]) == Operators(s) + (if IsOperator(t) then multiset{Erase(t)} else multiset{})
  {
    assert (s + [t])[..|s|] == s;
  }

  /** Every operator counted in `Operators(s)` stands for an operator token of `s`. */
  lemma {:induction false} OperatorsMember(s: seq<MathToken>, t: MathToken)
    requires t in Operators(s)
    ensures exists j :: 0 <= j < |s| && IsOperator(s[j]) && Erase(s[j]) == t
  {
    var last := s[|s| - 1];
    if IsOperator(last) && Erase(last) == t {
      assert IsOperator(s[|s| - 1]);
    } else {
      OperatorsMember(s[..|s| - 1], t);
      var j :| 0 <= j < |s| - 1 && IsOperator(s[..|s| - 1][j]) && Erase(s[..|s| - 1][j]) == t;
      assert s[j] == s[..|s| - 1][j];
    }
  }

  lemma FunctionsAppend(s: seq<MathToken>, t: MathToken)
    ensures Functions(s + [t]) == Functions(s) + (if t.Function? then 1 else 0)
    ensures Opens(s + [t]) == Opens(s) + (if t.OParen? then 1 else 0)
  {
    assert (s + [t])[..|s|] == s;
  }

  /**
   * The error `parse` reports for `ts` when no operator lacks a precedence,
   * read off the tokens alone: scanning from the front with the number of
   * parentheses open, the first unknown token, or the first `)` or `,` with
   * none open, or else parentheses left open at the end; None when there is
   * no such fault.
   */
  function FaultFrom(ts: seq<MathToken>, i: nat, open: nat): Option<ParseError>
    requires i <= |ts|
    decreases |ts| - i
  {
    if i == |ts| then
      if open > 0 then Some(MissingClosingParen) else Option.None
    else if TokenFault(ts[i], open).Some? then TokenFault(ts[i], open)
    else FaultFrom(ts, i + 1, OpenAfter(ts[i], open))
  }

  /** The fault token `t` is when `open` parentheses are open. */
  function TokenFault(t: MathToken, open: nat): Option<ParseError>
  {
    match t
    case Unknown(l) => Some(BadToken(l))
    case CParen => if open == 0 then Some(MissingOpeningParen) else Option.None
    case Comma => if open == 0 then Some(MissingOpeningParen) else Option.None
    case _ => Option.None
  }

  /** The number of parentheses open after `t`. */
  function OpenAfter(t: MathToken, open: nat): nat
  {
    if t.OParen? then open + 1
    else if t.CParen? && open > 0 then open - 1
    else open
  }

  /** The first fault of the whole token sequence, none open at the start. */
  function Fault(ts: seq<MathToken>): Option<ParseError>
  {
    FaultFrom(ts, 0, 0)
  }

  /**
   * A fault-free token sequence holds no unknown token and closes every
   * parenthesis it opens.
   */
  lemma {:induction false} FaultFreeIsBalanced(ts: seq<MathToken>, i: nat, open: nat)
    requires i <= |ts| && FaultFrom(ts, i, open) == Option.None
    ensures forall k :: i <= k < |ts| ==> !ts[k].Unknown?
    ensures open + multiset(ts[i..])[OParen] == multiset(ts[i..])[CParen]
    decreases |ts| - i
  {
    if i < |ts| {
      assert ts[i..] == [ts[i]] + ts[i + 1..];
      match ts[i]
      case CParen => FaultFreeIsBalanced(ts, i + 1, open - 1);
      case OParen => FaultFreeIsBalanced(ts, i + 1, open + 1);
      case _ => FaultFreeIsBalanced(ts, i + 1, open);
    }
  }

  /*
   * The reference: `parse` written as functions, one per loop of the source.
   */

  /** The parser's state between two tokens: output, operator stack and argument counts. */
  datatype Shunt = Shunt(out: seq<MathToken>, stack: seq<MathToken>, arity: seq<nat>)

  /** There is an argument count for every function on the stack. */
  predicate Counted(s: Shunt)
  {
    Functions(s.stack) <= |s.arity|
  }

  /** `s` back to front: the order in which popped stack items reach the output. */
  function Reverse(s: seq<MathToken>): (r: seq<MathToken>)
    ensures |r| == |s|
    ensures forall k :: 0 <= k < |s| ==> r[k] == s[|s| - 1 - k]
  {
    if |s| == 0 then [] else [s[|s| - 1]] + Reverse(s[..|s| - 1])
  }

  /**
   * The first inner loop of `parse` (src/parser.rs:60-62): pop operators to
   * the output until an opening parenthesis is on top or the stack is empty.
   */
  function UnstackToParen(out: seq<MathToken>, stack: seq<MathToken>): (r: (seq<MathToken>, seq<MathToken>))
    ensures |r.1| <= |stack| && r.1 == stack[..|r.1|]
    decreases |stack|
  {
    if |stack| == 0 || stack[|stack| - 1] == OParen then (out, stack)
    else UnstackToParen(out + [stack[|stack| - 1]], stack[..|stack| - 1])
  }

  /**
   * What `UnstackToParen` does: the items above the innermost opening
   * parenthesis, none of them a parenthesis, go to the output top first, and
   * that parenthesis, if any, is left on top.
   */
  lemma {:induction false} UnstackToParenSpec(out: seq<MathToken>, stack: seq<MathToken>)
    ensures var (o, s) := UnstackToParen(out, stack);
      o == out + Reverse(stack[|s|..]) &&
      (|s| > 0 ==> s[|s| - 1] == OParen) &&
      forall k :: |s| <= k < |stack| ==> stack[k] != OParen
    decreases |stack|
  {
    var n := |stack|;
    if n > 0 && stack[n - 1] != OParen {
      var rest := stack[..n - 1];
      UnstackToParenSpec(out + [stack[n - 1]], rest);
      var (o, s) := UnstackToParen(out, stack);
      var m := |s|;
      assert stack[m..][..n - 1 - m] == rest[m..];
      assert Reverse(stack[m..]) == [stack[n - 1]] + Reverse(rest[m..]);
      forall k | m <= k < n
        ensures stack[k] != OParen
      {
        if k < n - 1 {
          assert stack[k] == rest[k];
        }
      }
    } else {
      assert stack[n..] == [];
    }
  }

  /**
   * The second inner loop of `parse` (src/parser.rs:82-93): pop operators to
   * the output while `Decide` says so; the flag says "No Associativity".
   */
  function UnstackFor(incoming: MathToken, out: seq<MathToken>, stack: seq<MathToken>)
    : (r: (seq<MathToken>, seq<MathToken>, bool))
    ensures |r.1| <= |stack| && r.1 == stack[..|r.1|]
    decreases |stack|
  {
    if |stack| == 0 then (out, stack, false)
    else match Decide(stack[|stack| - 1], incoming)
      case PopTop => UnstackFor(incoming, out + [stack[|stack| - 1]], stack[..|stack| - 1])
      case Keep => (out, stack, false)
      case Fail => (out, stack, true)
  }

  /** The items `UnstackFor` pops go to the output top first. */
  lemma {:induction false} UnstackForOrder(incoming: MathToken, out: seq<MathToken>, stack: seq<MathToken>)
    ensures var r := UnstackFor(incoming, out, stack);
      r.0 == out + Reverse(stack[|r.1|..])
    decreases |stack|
  {
    var n := |stack|;
    if n > 0 && Decide(stack[n - 1], incoming) == PopTop {
      var top, rest := stack[n - 1], stack[..n - 1];
      var r := UnstackFor(incoming, out + [top], rest);
      UnstackForOrder(incoming, out + [top], rest);
      var m := |r.1|;
      assert stack[m..][..n - 1 - m] == rest[m..];
      assert Reverse(stack[m..]) == [top] + Reverse(rest[m..]);
    } else {
      assert stack[n..] == [];
    }
  }

  /**
   * Where `UnstackFor` stops: at an empty stack or a top that stays, or it
   * fails exactly at a top that, like the incoming operator, has no
   * precedence.
   */
  lemma {:induction false} UnstackForStops(incoming: MathToken, out: seq<MathToken>, stack: seq<MathToken>)
    ensures var r := UnstackFor(incoming, out, stack);
      (r.2 ==> |r.1| > 0 && Decide(r.1[|r.1| - 1], incoming) == Fail) &&
      (!r.2 ==> |r.1| == 0 || Decide(r.1[|r.1| - 1], incoming) == Keep)
    decreases |stack|
  {
    var n := |stack|;
    if n > 0 && Decide(stack[n - 1], incoming) == PopTop {
      UnstackForStops(incoming, out + [stack[n - 1]], stack[..n - 1]);
    }
  }

  /** Every item `UnstackFor` pops is one `Decide` pops for the incoming operator. */
  lemma {:induction false} UnstackForPops(incoming: MathToken, out: seq<MathToken>, stack: seq<MathToken>)
    ensures var s := UnstackFor(incoming, out, stack).1;
      forall k :: |s| <= k < |stack| ==> Decide(stack[k], incoming) == PopTop
    decreases |stack|
  {
    var n := |stack|;
    if n > 0 && Decide(stack[n - 1], incoming) == PopTop {
      var rest := stack[..n - 1];
      UnstackForPops(incoming, out + [stack[n - 1]], rest);
      var m := |UnstackFor(incoming, out, stack).1|;
      forall k | m <= k < n
        ensures Decide(stack[k], incoming) == PopTop
      {
        if k < n - 1 {
          assert stack[k] == rest[k];
        }
      }
    }
  }

  /** A comma counts one more argument for the innermost call, if any (src/parser.rs:76-77). */
  function CountArgument(arity: seq<nat>): (r: seq<nat>)
    ensures |r| == |arity|
    ensures forall k :: 0 <= k < |arity| - 1 ==> r[k] == arity[k]
    ensures |arity| > 0 ==> r[|r| - 1] == arity[|arity| - 1] + 1
  {
    if |arity| == 0 then arity else arity[..|arity| - 1] + [arity[|arity| - 1] + 1]
  }

  /**
   * A `)` once its opening parenthesis is off the stack `under`
   * (src/parser.rs:69-75): a function on top goes to the output carrying the
   * innermost argument count, which is dropped; anything else stays.
   */
  function CloseCall(out: seq<MathToken>, under: seq<MathToken>, arity: seq<nat>): (r: Shunt)
    requires Functions(under) <= |arity|
    ensures Counted(r)
    ensures |under| > 0 && under[|under| - 1].Function? ==>
      |r.out| == |out| + 1 && r.out[|out|] == Function(under[|under| - 1].name, arity[|arity| - 1]) &&
      r.arity == arity[..|arity| - 1]
    ensures !(|under| > 0 && under[|under| - 1].Function?) ==> r == Shunt(out, under, arity)
  {
    if |under| > 0 && under[|under| - 1].Function? then
      Shunt(out + [Function(under[|under| - 1].name, arity[|arity| - 1])], under[..|under| - 1], arity[..|arity| - 1])
    else Shunt(out, under, arity)
  }

  /** A prefix of a stack holds no more functions than the stack. */
  lemma {:induction false} FunctionsPrefix(s: seq<MathToken>, n: nat)
    requires n <= |s|
    ensures Functions(s[..n]) <= Functions(s)
    decreases |s|
  {
    if n < |s| {
      assert s[..|s| - 1][..n] == s[..n];
      FunctionsPrefix(s[..|s| - 1], n);
    } else {
      assert s[..n] == s;
    }
  }

  /**
   * A `,` or `)` (src/parser.rs:59-78): operators go to the output up to the
   * innermost opening parenthesis, which must exist; a `)` drops it and
   * closes a call under it, a `,` counts one more argument.
   */
  function CloseToken(t: MathToken, s: Shunt): (r: Result<Shunt, ParseError>)
    requires (t.Comma? || t.CParen?) && Counted(s)
    ensures r.Ok? ==> Counted(r.value)
  {
    var (out, stack) := UnstackToParen(s.out, s.stack);
    FunctionsPrefix(s.stack, |stack|);
    if |stack| == 0 then Err(MissingOpeningParen)
    else if t.CParen? then Ok(CloseCall(out, stack[..|stack| - 1], s.arity))
    else Ok(Shunt(out, stack, CountArgument(s.arity)))
  }

  /** One token of the main loop of `parse` (src/parser.rs:51-97). */
  function ShuntToken(t: MathToken, s: Shunt): (r: Result<Shunt, ParseError>)
    requires Counted(s)
  {
    match t
    case Number(_) => Ok(s.(out := s.out + [t]))
    case Variable(_) => Ok(s.(out := s.out + [t]))
    case OParen => Ok(s.(stack := s.stack + [t]))
    case Function(_, _) => Ok(Shunt(s.out, s.stack + [t], s.arity + [1]))
    case Comma => CloseToken(t, s)
    case CParen => CloseToken(t, s)
    case UOp(_) | BOp(_) =>
      var (out, stack, failed) := UnstackFor(t, s.out, s.stack);
      if failed then Err(NoAssociativity) else Ok(Shunt(out, stack + [t], s.arity))
    case Unknown(lexeme) => Err(BadToken(lexeme))
  }

  /** Every state the converter moves to has an argument count for every function on its stack. */
  lemma ShuntTokenCounted(t: MathToken, s: Shunt)
    requires Counted(s)
    ensures ShuntToken(t, s).Ok? ==> Counted(ShuntToken(t, s).value)
  {
    if t.OParen? || t.Function? {
      FunctionsAppend(s.stack, t);
    } else if t.UOp? || t.BOp? {
      OperatorCounted(t, s);
    }
  }

  /** An operator pushed after the pops leaves no function without a count. */
  lemma OperatorCounted(t: MathToken, s: Shunt)
    requires Counted(s) && (t.UOp? || t.BOp?)
    ensures var (_, stack, _) := UnstackFor(t, s.out, s.stack); Counted(Shunt([], stack + [t], s.arity))
  {
    var (_, stack, _) := UnstackFor(t, s.out, s.stack);
    FunctionsPrefix(s.stack, |stack|);
    FunctionsAppend(stack, t);
  }

  /**
   * The end of input (src/parser.rs:99-104): the stack is emptied onto the
   * output; an opening parenthesis met on the way is "Missing Closing Paren".
   */
  function Drain(out: seq<MathToken>, stack: seq<MathToken>): Result<seq<MathToken>, ParseError>
    decreases |stack|
  {
    if |stack| == 0 then Ok(out)
    else if stack[|stack| - 1] == OParen then Err(MissingClosingParen)
    else Drain(out + [stack[|stack| - 1]], stack[..|stack| - 1])
  }

  /**
   * What `Drain` does: it fails exactly when an opening parenthesis is left,
   * with "Missing Closing Paren"; otherwise the whole stack goes to the
   * output top first.
   */
  lemma {:induction false} DrainSpec(out: seq<MathToken>, stack: seq<MathToken>)
    ensures Drain(out, stack).Ok? <==> forall k :: 0 <= k < |stack| ==> stack[k] != OParen
    ensures Drain(out, stack).Ok? ==> Drain(out, stack).value == out + Reverse(stack)
    ensures Drain(out, stack).Err? ==> Drain(out, stack).error == MissingClosingParen
    decreases |stack|
  {
    var n := |stack|;
    if n > 0 && stack[n - 1] != OParen {
      var rest := stack[..n - 1];
      DrainSpec(out + [stack[n - 1]], rest);
      assert forall k :: 0 <= k < n - 1 ==> stack[k] == rest[k];
    }
  }

  /** The tokens from the `i`-th on, from state `s`, and then the end of input. */
  function RunFrom(ts: seq<MathToken>, i: nat, s: Shunt): Result<seq<MathToken>, ParseError>
    requires i <= |ts| && Counted(s)
    decreases |ts| - i
  {
    if i == |ts| then Drain(s.out, s.stack)
    else
      ShuntTokenCounted(ts[i], s);
      match ShuntToken(ts[i], s)
      case Err(e) => Err(e)
      case Ok(next) => RunFrom(ts, i + 1, next)
  }

  /** What `parse` returns for the tokens `ts`: the reverse Polish notation, or the error. */
  function Rpn(ts: seq<MathToken>): Result<seq<MathToken>, ParseError>
  {
    RunFrom(ts, 0, Shunt([], [], []))
  }

  /*
   * What the converter keeps, proved about the reference: the operands in
   * input order, every operator exactly once, and the errors it reports.
   */

  /** Popping the `n`-th item of a stack puts it after those above it. */
  lemma ReverseGrows(s: seq<MathToken>, n: nat)
    requires 0 < n <= |s|
    ensures Reverse(s[n - 1..]) == Reverse(s[n..]) + [s[n - 1]]
  {
    var a, b := Reverse(s[n - 1..]), Reverse(s[n..]) + [s[n - 1]];
    forall k | 0 <= k < |a|
      ensures a[k] == b[k]
    {
      if k < |a| - 1 {
        assert a[k] == s[n - 1..][|s| - n - k];
      }
    }
  }

  /**
   * What holds while operators move from the top of the stack to the
   * output: of the original stack `stack0`, the first `n` items remain; the output holds operands and
   * operators only, the stack parentheses and operators only; the operands
   * are those of `out0`, the operators of `out0` and `stack0` together are
   * still all there, each once; no opening parenthesis has moved and no
   * function has been added.
   */
  predicate Moved(out0: seq<MathToken>, stack0: seq<MathToken>, out: seq<MathToken>, n: nat)
  {
    n <= |stack0| &&
    AllEmittable(out) && AllStackable(stack0[..n]) &&
    Opens(stack0[..n]) == Opens(stack0) &&
    Functions(stack0[..n]) <= Functions(stack0) &&
    Operands(out) == Operands(out0) &&
    Operators(out) + Operators(stack0[..n]) == Operators(out0) + Operators(stack0)
  }

  /** Nothing has moved yet. */
  lemma MovedStart(out0: seq<MathToken>, stack0: seq<MathToken>)
    requires AllEmittable(out0) && AllStackable(stack0)
    ensures Moved(out0, stack0, out0, |stack0|)
  {
    assert stack0[..|stack0|] == stack0;
  }

  /** Moving the top operator of the stack to the output keeps `Moved`. */
  lemma MoveTop(out0: seq<MathToken>, stack0: seq<MathToken>, out: seq<MathToken>, n: nat)
    requires Moved(out0, stack0, out, n)
    requires n > 0 && stack0[n - 1] != OParen
    ensures Moved(out0, stack0, out + [stack0[n - 1]], n - 1)
  {
    var top, rest := stack0[n - 1], stack0[..n - 1];
    assert stack0[..n] == rest + [top];
    assert AllEmittable(out + [top]) && AllStackable(rest) by {
      AllAppend(out, top);
      AllAppend(rest, top);
    }
    assert Opens(rest) == Opens(stack0) && Functions(rest) <= Functions(stack0) by {
      FunctionsAppend(rest, top);
    }
    assert Operands(out + [top]) == Operands(out0) by {
      OperandsAppend(out, top);
    }
    assert Operators(out + [top]) + Operators(rest) == Operators(out0) + Operators(stack0) by {
      OperatorsAppend(rest, top);
      OperatorsAppend(out, top);
    }
  }

  /** `UnstackToParen` only moves operators, as `Moved` says. */
  lemma {:induction false} UnstackToParenMoves(out0: seq<MathToken>, stack0: seq<MathToken>, out: seq<MathToken>, n: nat)
    requires Moved(out0, stack0, out, n)
    ensures var (o, s) := UnstackToParen(out, stack0[..n]);
      |s| <= n && s == stack0[..|s|] && Moved(out0, stack0, o, |s|)
    decreases n
  {
    assert stack0[..n][..n - (if n > 0 then 1 else 0)] == stack0[..n - (if n > 0 then 1 else 0)];
    if n > 0 && stack0[n - 1] != OParen {
      MoveTop(out0, stack0, out, n);
      UnstackToParenMoves(out0, stack0, out + [stack0[n - 1]], n - 1);
      var s := UnstackToParen(out, stack0[..n]).1;
      assert stack0[..n][..|s|] == stack0[..|s|];
    }
  }

  /** `UnstackFor` only moves operators, as `Moved` says. */
  lemma {:induction false} UnstackForMoves(incoming: MathToken, out0: seq<MathToken>, stack0: seq<MathToken>, out: seq<MathToken>, n: nat)
    requires incoming.UOp? || incoming.BOp?
    requires Moved(out0, stack0, out, n)
    ensures var (o, s, _) := UnstackFor(incoming, out, stack0[..n]);
      |s| <= n && s == stack0[..|s|] && Moved(out0, stack0, o, |s|)
    decreases n
  {
    if n > 0 {
      var top := stack0[n - 1];
      assert stack0[..n][..n - 1] == stack0[..n - 1];
      if Decide(top, incoming) == PopTop {
        assert UnstackFor(incoming, out, stack0[..n]) == UnstackFor(incoming, out + [top], stack0[..n - 1]);
        ParenStopsPopping(incoming);
        MoveTop(out0, stack0, out, n);
        UnstackForMoves(incoming, out0, stack0, out + [top], n - 1);
      }
    }
  }

  /** `Drain` moves the whole stack, or meets an opening parenthesis still open. */
  lemma {:induction false} DrainMoves(out0: seq<MathToken>, stack0: seq<MathToken>, out: seq<MathToken>, n: nat)
    requires Moved(out0, stack0, out, n)
    ensures var r := Drain(out, stack0[..n]);
      (r.Ok? ==> Moved(out0, stack0, r.value, 0)) &&
      (r.Err? ==> r.error == MissingClosingParen && Opens(stack0) > 0)
    decreases n
  {
    if n > 0 {
      var top := stack0[n - 1];
      assert stack0[..n][..n - 1] == stack0[..n - 1];
      if top != OParen {
        assert Drain(out, stack0[..n]) == Drain(out + [top], stack0[..n - 1]);
        MoveTop(out0, stack0, out, n);
        DrainMoves(out0, stack0, out + [top], n - 1);
      } else {
        assert stack0[..n] == stack0[..n - 1] + [top];
        FunctionsAppend(stack0[..n - 1], top);
      }
    }
  }

  /**
   * What holds after the first `i` tokens of `ts` went through the
   * converter: the output holds operands and operators only, the stack
   * parentheses and operators only; the operands read so far are in the
   * output, in order; every operator read so far is in the output or on the
   * stack, exactly once; and there is an argument count for every function
   * on the stack.
   */
  predicate Shunted(ts: seq<MathToken>, i: nat, s: Shunt)
  {
    i <= |ts| &&
    AllEmittable(s.out) &&
    AllStackable(s.stack) &&
    Counted(s) &&
    Operands(s.out) == Operands(ts[..i]) &&
    Operators(s.out) + Operators(s.stack) == Operators(ts[..i])
  }

  /** Reading an operand appends it to the output (src/parser.rs:52-53). */
  lemma ShuntOperand(ts: seq<MathToken>, i: nat, s: Shunt)
    requires Shunted(ts, i, s) && i < |ts| && IsOperand(ts[i])
    ensures Shunted(ts, i + 1, Shunt(s.out + [ts[i]], s.stack, s.arity))
  {
    assert ts[..i + 1] == ts[..i] + [ts[i]];
    OperandsAppend(ts[..i], ts[i]);
    OperatorsAppend(ts[..i], ts[i]);
    OperandsAppend(s.out, ts[i]);
    OperatorsAppend(s.out, ts[i]);
    AllAppend(s.out, ts[i]);
  }

  /**
   * Reading an opening parenthesis, or a function with a fresh argument
   * count of 1, pushes it on the stack (src/parser.rs:54-58).
   */
  lemma ShuntOpen(ts: seq<MathToken>, i: nat, s: Shunt)
    requires Shunted(ts, i, s) && i < |ts| && (ts[i].OParen? || ts[i].Function?)
    ensures Shunted(ts, i + 1, Shunt(s.out, s.stack + [ts[i]], if ts[i].Function? then s.arity + [1] else s.arity))
    ensures Opens(s.stack + [ts[i]]) == OpenAfter(ts[i], Opens(s.stack))
  {
    assert ts[..i + 1] == ts[..i] + [ts[i]];
    OperandsAppend(ts[..i], ts[i]);
    OperatorsAppend(ts[..i], ts[i]);
    OperatorsAppend(s.stack, ts[i]);
    FunctionsAppend(s.stack, ts[i]);
    AllAppend(s.stack, ts[i]);
  }

  /** Parentheses and commas add neither operands nor operators. */
  lemma ReadPunctuation(ts: seq<MathToken>, i: nat)
    requires i < |ts| && (ts[i].OParen? || ts[i].CParen? || ts[i].Comma?)
    ensures Operands(ts[..i + 1]) == Operands(ts[..i])
    ensures Operators(ts[..i + 1]) == Operators(ts[..i])
  {
    assert ts[..i + 1] == ts[..i] + [ts[i]];
    OperandsAppend(ts[..i], ts[i]);
    OperatorsAppend(ts[..i], ts[i]);
  }

  /**
   * A `,` whose operators have moved to the output, leaving an opening
   * parenthesis on top: the innermost argument count goes up by one
   * (`CountArgument`), and the parenthesis stays open.
   */
  lemma ShuntComma(ts: seq<MathToken>, i: nat, s: Shunt, out: seq<MathToken>, n: nat)
    requires Shunted(ts, i, s) && i < |ts| && ts[i].Comma?
    requires Moved(s.out, s.stack, out, n) && n > 0 && s.stack[n - 1] == OParen
    ensures Shunted(ts, i + 1, Shunt(out, s.stack[..n], CountArgument(s.arity)))
    ensures Opens(s.stack[..n]) == Opens(s.stack) > 0
  {
    ReadPunctuation(ts, i);
    OpenOnTop(s.stack, n);
  }

  /** A stack prefix with an opening parenthesis on top has one open. */
  lemma OpenOnTop(stack: seq<MathToken>, n: nat)
    requires 0 < n <= |stack| && stack[n - 1] == OParen
    ensures Opens(stack[..n]) > 0
  {
    assert stack[..n] == stack[..n - 1] + [OParen];
    FunctionsAppend(stack[..n - 1], OParen);
  }

  /** Dropping an opening parenthesis from the top of a stack prefix. */
  lemma DropParen(stack0: seq<MathToken>, n: nat)
    requires 0 < n <= |stack0| && stack0[n - 1] == OParen && AllStackable(stack0[..n])
    ensures AllStackable(stack0[..n - 1])
    ensures Functions(stack0[..n - 1]) == Functions(stack0[..n])
    ensures Opens(stack0[..n - 1]) + 1 == Opens(stack0[..n])
    ensures Operators(stack0[..n - 1]) == Operators(stack0[..n])
  {
    assert stack0[..n] == stack0[..n - 1] + [OParen];
    AllAppend(stack0[..n - 1], OParen);
    FunctionsAppend(stack0[..n - 1], OParen);
    OperatorsAppend(stack0[..n - 1], OParen);
  }

  /** Dropping a function from the top of a stack prefix. */
  lemma DropFunction(stack0: seq<MathToken>, m: nat)
    requires 0 < m <= |stack0| && stack0[m - 1].Function? && AllStackable(stack0[..m])
    ensures AllStackable(stack0[..m - 1])
    ensures Functions(stack0[..m - 1]) + 1 == Functions(stack0[..m])
    ensures Opens(stack0[..m - 1]) == Opens(stack0[..m])
    ensures Operators(stack0[..m - 1]) + multiset{Erase(stack0[m - 1])} == Operators(stack0[..m])
  {
    assert stack0[..m] == stack0[..m - 1] + [stack0[m - 1]];
    AllAppend(stack0[..m - 1], stack0[m - 1]);
    FunctionsAppend(stack0[..m - 1], stack0[m - 1]);
    OperatorsAppend(stack0[..m - 1], stack0[m - 1]);
  }

  /**
   * A `)` whose operators have moved to the output: the opening parenthesis
   * is dropped, and a function under it moves to the output with the
   * innermost argument count, which exists and is dropped.
   */
  lemma ShuntCloseCall(ts: seq<MathToken>, i: nat, s: Shunt, out: seq<MathToken>, n: nat)
    requires Shunted(ts, i, s) && i < |ts| && ts[i].CParen?
    requires Moved(s.out, s.stack, out, n) && n > 1 && s.stack[n - 1] == OParen && s.stack[n - 2].Function?
    ensures |s.arity| > 0
    ensures Shunted(ts, i + 1, Shunt(out + [Function(s.stack[n - 2].name, s.arity[|s.arity| - 1])], s.stack[..n - 2], s.arity[..|s.arity| - 1]))
    ensures Opens(s.stack[..n - 2]) + 1 == Opens(s.stack)
  {
    DropParen(s.stack, n);
    DropFunction(s.stack, n - 1);
    ReadPunctuation(ts, i);
    var emitted := Function(s.stack[n - 2].name, s.arity[|s.arity| - 1]);
    AllAppend(out, emitted);
    OperandsAppend(out, emitted);
    OperatorsAppend(out, emitted);
  }

  /**
   * A `)` whose operators have moved to the output, with no function under
   * its opening parenthesis: only the parenthesis is dropped.
   */
  lemma ShuntCloseGroup(ts: seq<MathToken>, i: nat, s: Shunt, out: seq<MathToken>, n: nat)
    requires Shunted(ts, i, s) && i < |ts| && ts[i].CParen?
    requires Moved(s.out, s.stack, out, n) && n > 0 && s.stack[n - 1] == OParen
    ensures Shunted(ts, i + 1, Shunt(out, s.stack[..n - 1], s.arity))
    ensures Opens(s.stack[..n - 1]) + 1 == Opens(s.stack)
  {
    DropParen(s.stack, n);
    ReadPunctuation(ts, i);
  }

  /** An operator other than a function on top of a stack is among its operators. */
  lemma TopOperator(stack: seq<MathToken>)
    requires |stack| > 0 && (stack[|stack| - 1].UOp? || stack[|stack| - 1].BOp?)
    ensures stack[|stack| - 1] in Operators(stack)
  {
    var top := stack[|stack| - 1];
    assert stack == stack[..|stack| - 1] + [top];
    OperatorsAppend(stack[..|stack| - 1], top);
  }

  /** An operator other than a function among the operators of `s` is a token of `s`. */
  lemma OperatorOccurs(s: seq<MathToken>, t: MathToken)
    requires t in Operators(s) && (t.UOp? || t.BOp?)
    ensures exists j :: 0 <= j < |s| && s[j] == t
  {
    OperatorsMember(s, t);
    var j :| 0 <= j < |s| && IsOperator(s[j]) && Erase(s[j]) == t;
    assert s[j] == t;
  }

  /**
   * An operator on the stack that lacks a precedence was read earlier: it
   * is among the tokens `seen`.
   */
  lemma UnrankedSeen(seen: seq<MathToken>, stack: seq<MathToken>)
    requires Operators(stack) <= Operators(seen)
    requires |stack| > 0 && Unranked(stack[|stack| - 1])
    ensures exists j :: 0 <= j < |seen| && Unranked(seen[j])
  {
    var top := stack[|stack| - 1];
    TopOperator(stack);
    OperatorOccurs(seen, top);
    var j :| 0 <= j < |seen| && seen[j] == top;
  }

  /**
   * A unary or binary operator pushed after the operators `Decide` popped
   * to the output.
   */
  lemma ShuntOperator(ts: seq<MathToken>, i: nat, s: Shunt, out: seq<MathToken>, n: nat)
    requires Shunted(ts, i, s) && i < |ts| && (ts[i].UOp? || ts[i].BOp?)
    requires Moved(s.out, s.stack, out, n)
    ensures Shunted(ts, i + 1, Shunt(out, s.stack[..n] + [ts[i]], s.arity))
    ensures Opens(s.stack[..n] + [ts[i]]) == Opens(s.stack)
  {
    assert ts[..i + 1] == ts[..i] + [ts[i]];
    AllAppend(s.stack[..n], ts[i]);
    FunctionsAppend(s.stack[..n], ts[i]);
    OperandsAppend(ts[..i], ts[i]);
    OperatorsAppend(ts[..i], ts[i]);
    OperatorsAppend(s.stack[..n], ts[i]);
  }

  /**
   * What a token does to the invariant, and what its error means. On
   * success `Shunted` moves past the token, which is no fault with the
   * parentheses open before it; an error other than "No Associativity" is
   * the fault of that token; "No Associativity" needs this and an earlier
   * operator outside the precedence table.
   */
  predicate StepKeeps(ts: seq<MathToken>, i: nat, s: Shunt, r: Result<Shunt, ParseError>)
    requires i < |ts|
  {
    (r.Ok? ==> Shunted(ts, i + 1, r.value) && TokenFault(ts[i], Opens(s.stack)).None? &&
               Opens(r.value.stack) == OpenAfter(ts[i], Opens(s.stack))) &&
    (r.Err? && r.error != NoAssociativity ==> TokenFault(ts[i], Opens(s.stack)) == Some(r.error)) &&
    (r == Err(NoAssociativity) ==> exists j :: 0 <= j < i && Unranked(ts[j]) && Unranked(ts[i]))
  }

  /** An operator is never misplaced and opens or closes nothing. */
  lemma OperatorOpensNothing(t: MathToken, open: nat)
    requires t.UOp? || t.BOp?
    ensures TokenFault(t, open).None? && OpenAfter(t, open) == open
  {
  }

  /** A step that succeeds keeps the invariant when the new state has it and the token is no fault. */
  lemma SucceedKeeps(ts: seq<MathToken>, i: nat, s: Shunt, next: Shunt)
    requires i < |ts| && Shunted(ts, i + 1, next) && TokenFault(ts[i], Opens(s.stack)).None?
    requires Opens(next.stack) == OpenAfter(ts[i], Opens(s.stack))
    ensures StepKeeps(ts, i, s, Ok(next))
  {
  }

  /** What `UnstackToParen` leaves, from a state the invariant holds in. */
  lemma Unstacked(ts: seq<MathToken>, i: nat, s: Shunt)
    requires Shunted(ts, i, s)
    ensures var (out, stack) := UnstackToParen(s.out, s.stack);
      stack == s.stack[..|stack|] && Moved(s.out, s.stack, out, |stack|) &&
      (|stack| > 0 ==> stack[|stack| - 1] == OParen)
  {
    MovedStart(s.out, s.stack);
    assert s.stack[..|s.stack|] == s.stack;
    UnstackToParenMoves(s.out, s.stack, s.out, |s.stack|);
    UnstackToParenSpec(s.out, s.stack);
  }

  /** A `,` or `)` with no opening parenthesis on the stack is misplaced. */
  lemma UnopenedKeeps(ts: seq<MathToken>, i: nat, s: Shunt)
    requires Shunted(ts, i, s) && i < |ts| && (ts[i].Comma? || ts[i].CParen?)
    requires |UnstackToParen(s.out, s.stack).1| == 0
    ensures StepKeeps(ts, i, s, CloseToken(ts[i], s))
  {
    Unstacked(ts, i, s);
    assert s.stack[..0] == [];
  }

  /** A `,` counts an argument after the operators above its opening parenthesis went to the output. */
  lemma CommaKeeps(ts: seq<MathToken>, i: nat, s: Shunt)
    requires Shunted(ts, i, s) && i < |ts| && ts[i].Comma?
    requires |UnstackToParen(s.out, s.stack).1| > 0
    ensures StepKeeps(ts, i, s, CloseToken(ts[i], s))
  {
    var (out, stack) := UnstackToParen(s.out, s.stack);
    Unstacked(ts, i, s);
    ShuntComma(ts, i, s, out, |stack|);
    assert CloseToken(ts[i], s) == Ok(Shunt(out, stack, CountArgument(s.arity)));
    SucceedKeeps(ts, i, s, Shunt(out, stack, CountArgument(s.arity)));
  }

  /** A `)` that closes a call, after the operators above its opening parenthesis went to the output. */
  lemma CallKeeps(ts: seq<MathToken>, i: nat, s: Shunt)
    requires Shunted(ts, i, s) && i < |ts| && ts[i].CParen?
    requires var stack := UnstackToParen(s.out, s.stack).1; |stack| > 1 && stack[|stack| - 2].Function?
    ensures StepKeeps(ts, i, s, CloseToken(ts[i], s))
  {
    var (out, stack) := UnstackToParen(s.out, s.stack);
    var n := |stack|;
    Unstacked(ts, i, s);
    ShuntCloseCall(ts, i, s, out, n);
    CallClosesAfterUnstack(ts[i], s);
    SucceedKeeps(ts, i, s, Shunt(out + [Function(s.stack[n - 2].name, s.arity[|s.arity| - 1])], s.stack[..n - 2], s.arity[..|s.arity| - 1]));
  }

  /** What a `)` that closes a call leaves, in terms of the stack before the unstacking. */
  lemma CallClosesAfterUnstack(t: MathToken, s: Shunt)
    requires Counted(s) && t.CParen?
    requires var stack := UnstackToParen(s.out, s.stack).1; |stack| > 1 && stack[|stack| - 2].Function?
    requires var stack := UnstackToParen(s.out, s.stack).1; stack == s.stack[..|stack|] && |s.arity| > 0
    ensures var (out, stack) := UnstackToParen(s.out, s.stack); var n := |stack|;
      CloseToken(t, s) == Ok(Shunt(out + [Function(s.stack[n - 2].name, s.arity[|s.arity| - 1])], s.stack[..n - 2], s.arity[..|s.arity| - 1]))
  {
    var (out, stack) := UnstackToParen(s.out, s.stack);
    var n := |stack|;
    assert stack[..n - 1][..n - 2] == s.stack[..n - 2];
  }

  /** A `)` with no function under its opening parenthesis drops only that parenthesis. */
  lemma GroupCloses(t: MathToken, s: Shunt)
    requires Counted(s) && t.CParen?
    requires var stack := UnstackToParen(s.out, s.stack).1; |stack| > 0 && !(|stack| > 1 && stack[|stack| - 2].Function?)
    ensures var (out, stack) := UnstackToParen(s.out, s.stack);
      CloseToken(t, s) == Ok(Shunt(out, stack[..|stack| - 1], s.arity))
  {
  }

  /** The invariant after a `)` that closes a group. */
  lemma GroupStep(ts: seq<MathToken>, i: nat, s: Shunt, out: seq<MathToken>, n: nat)
    requires Shunted(ts, i, s) && i < |ts| && ts[i].CParen?
    requires Moved(s.out, s.stack, out, n) && n > 0 && s.stack[n - 1] == OParen
    ensures StepKeeps(ts, i, s, Ok(Shunt(out, s.stack[..n - 1], s.arity)))
  {
    ShuntCloseGroup(ts, i, s, out, n);
  }

  /** A `)` that closes a group, after the operators above its opening parenthesis went to the output. */
  lemma GroupKeeps(ts: seq<MathToken>, i: nat, s: Shunt)
    requires Shunted(ts, i, s) && i < |ts| && ts[i].CParen?
    requires var stack := UnstackToParen(s.out, s.stack).1; |stack| > 0 && !(|stack| > 1 && stack[|stack| - 2].Function?)
    ensures StepKeeps(ts, i, s, CloseToken(ts[i], s))
  {
    var (out, stack) := UnstackToParen(s.out, s.stack);
    var n := |stack|;
    GroupCloses(ts[i], s);
    Unstacked(ts, i, s);
    GroupStep(ts, i, s, out, n);
    assert stack[..n - 1] == s.stack[..n - 1];
  }

  /** A `,` or `)` keeps the invariant, or is a misplaced one. */
  lemma CloseKeeps(ts: seq<MathToken>, i: nat, s: Shunt)
    requires Shunted(ts, i, s) && i < |ts| && (ts[i].Comma? || ts[i].CParen?)
    ensures StepKeeps(ts, i, s, CloseToken(ts[i], s))
  {
    var stack := UnstackToParen(s.out, s.stack).1;
    if |stack| == 0 {
      UnopenedKeeps(ts, i, s);
    } else if ts[i].Comma? {
      CommaKeeps(ts, i, s);
    } else if |stack| > 1 && stack[|stack| - 2].Function? {
      CallKeeps(ts, i, s);
    } else {
      GroupKeeps(ts, i, s);
    }
  }

  /** What `UnstackFor` leaves, from a state the invariant holds in. */
  lemma UnstackedFor(ts: seq<MathToken>, i: nat, s: Shunt)
    requires Shunted(ts, i, s) && i < |ts| && (ts[i].UOp? || ts[i].BOp?)
    ensures var (out, stack, _) := UnstackFor(ts[i], s.out, s.stack);
      stack == s.stack[..|stack|] && Moved(s.out, s.stack, out, |stack|)
  {
    MovedStart(s.out, s.stack);
    assert s.stack[..|s.stack|] == s.stack;
    UnstackForMoves(ts[i], s.out, s.stack, s.out, |s.stack|);
  }

  /** An operator that the top of the stack does not fail against is pushed after the pops. */
  lemma Pushes(t: MathToken, s: Shunt)
    requires Counted(s) && (t.UOp? || t.BOp?) && !UnstackFor(t, s.out, s.stack).2
    ensures var (out, stack, _) := UnstackFor(t, s.out, s.stack);
      ShuntToken(t, s) == Ok(Shunt(out, stack + [t], s.arity))
  {
  }

  /** The invariant after an operator is pushed. */
  lemma OperatorStep(ts: seq<MathToken>, i: nat, s: Shunt, out: seq<MathToken>, n: nat)
    requires Shunted(ts, i, s) && i < |ts| && (ts[i].UOp? || ts[i].BOp?)
    requires Moved(s.out, s.stack, out, n)
    ensures StepKeeps(ts, i, s, Ok(Shunt(out, s.stack[..n] + [ts[i]], s.arity)))
  {
    ShuntOperator(ts, i, s, out, n);
    OperatorOpensNothing(ts[i], Opens(s.stack));
    SucceedKeeps(ts, i, s, Shunt(out, s.stack[..n] + [ts[i]], s.arity));
  }

  /** A unary or binary operator pushed after the operators `Decide` popped. */
  lemma PushKeeps(ts: seq<MathToken>, i: nat, s: Shunt)
    requires Shunted(ts, i, s) && i < |ts| && (ts[i].UOp? || ts[i].BOp?)
    requires !UnstackFor(ts[i], s.out, s.stack).2
    ensures StepKeeps(ts, i, s, ShuntToken(ts[i], s))
  {
    var (out, stack, _) := UnstackFor(ts[i], s.out, s.stack);
    Pushes(ts[i], s);
    UnstackedFor(ts, i, s);
    OperatorStep(ts, i, s, out, |stack|);
  }

  /** An operator that the top of the stack fails against is "No Associativity". */
  lemma Fails(t: MathToken, s: Shunt)
    requires Counted(s) && (t.UOp? || t.BOp?) && UnstackFor(t, s.out, s.stack).2
    ensures ShuntToken(t, s) == Err(NoAssociativity)
  {
  }

  /** A failed comparison is between two operators outside the precedence table. */
  lemma FailIsUnranked(top: MathToken, t: MathToken)
    requires Stackable(top) && (t.UOp? || t.BOp?) && Decide(top, t) == Fail
    ensures Unranked(top) && Unranked(t)
  {
    DecideRule(top, t);
  }

  /** When `UnstackFor` fails, the top it stops at and the operator both lack a precedence, and the top was read earlier. */
  lemma UnrankedTop(ts: seq<MathToken>, i: nat, s: Shunt)
    requires Shunted(ts, i, s) && i < |ts| && (ts[i].UOp? || ts[i].BOp?)
    requires UnstackFor(ts[i], s.out, s.stack).2
    ensures var stack := UnstackFor(ts[i], s.out, s.stack).1;
      |stack| > 0 && Unranked(stack[|stack| - 1]) && Unranked(ts[i]) &&
      Operators(stack) <= Operators(ts[..i])
  {
    var t := ts[i];
    var (out, stack, _) := UnstackFor(t, s.out, s.stack);
    UnstackForStops(t, s.out, s.stack);
    UnstackedFor(ts, i, s);
    AllStackableMeans(stack);
    FailIsUnranked(stack[|stack| - 1], t);
  }

  /**
   * An operator that meets a top of equal rank without a precedence: both
   * lack one, and the top was read earlier.
   */
  lemma UnrankedKeeps(ts: seq<MathToken>, i: nat, s: Shunt)
    requires Shunted(ts, i, s) && i < |ts| && (ts[i].UOp? || ts[i].BOp?)
    requires UnstackFor(ts[i], s.out, s.stack).2
    ensures StepKeeps(ts, i, s, ShuntToken(ts[i], s))
  {
    var stack := UnstackFor(ts[i], s.out, s.stack).1;
    Fails(ts[i], s);
    UnrankedTop(ts, i, s);
    UnrankedSeen(ts[..i], stack);
    var j :| 0 <= j < i && Unranked(ts[..i][j]);
    assert ts[j] == ts[..i][j];
  }

  /** A unary or binary operator keeps the invariant, or meets an equal one without a precedence. */
  lemma OperatorKeeps(ts: seq<MathToken>, i: nat, s: Shunt)
    requires Shunted(ts, i, s) && i < |ts| && (ts[i].UOp? || ts[i].BOp?)
    ensures StepKeeps(ts, i, s, ShuntToken(ts[i], s))
  {
    if UnstackFor(ts[i], s.out, s.stack).2 {
      UnrankedKeeps(ts, i, s);
    } else {
      PushKeeps(ts, i, s);
    }
  }

  /** Every token keeps the invariant, or its error is explained by `StepKeeps`. */
  lemma ShuntTokenKeeps(ts: seq<MathToken>, i: nat, s: Shunt)
    requires Shunted(ts, i, s) && i < |ts|
    ensures StepKeeps(ts, i, s, ShuntToken(ts[i], s))
  {
    var t := ts[i];
    if IsOperand(t) {
      OperandKeeps(ts, i, s);
    } else if t.OParen? || t.Function? {
      OpenKeeps(ts, i, s);
    } else if t.Comma? || t.CParen? {
      CloseKeeps(ts, i, s);
      assert ShuntToken(t, s) == CloseToken(t, s);
    } else if t.UOp? || t.BOp? {
      OperatorKeeps(ts, i, s);
    } else {
      assert t.Unknown?;
    }
  }

  /** An operand keeps the invariant. */
  lemma OperandKeeps(ts: seq<MathToken>, i: nat, s: Shunt)
    requires Shunted(ts, i, s) && i < |ts| && IsOperand(ts[i])
    ensures StepKeeps(ts, i, s, ShuntToken(ts[i], s))
  {
    ShuntOperand(ts, i, s);
    SucceedKeeps(ts, i, s, Shunt(s.out + [ts[i]], s.stack, s.arity));
  }

  /** An opening parenthesis or a function keeps the invariant. */
  lemma OpenKeeps(ts: seq<MathToken>, i: nat, s: Shunt)
    requires Shunted(ts, i, s) && i < |ts| && (ts[i].OParen? || ts[i].Function?)
    ensures StepKeeps(ts, i, s, ShuntToken(ts[i], s))
  {
    ShuntOpen(ts, i, s);
    SucceedKeeps(ts, i, s, Shunt(s.out, s.stack + [ts[i]], if ts[i].Function? then s.arity + [1] else s.arity));
  }

  /**
   * What `parse` promises about its result `r` for the tokens `ts`: on
   * success the output holds every operand in input order and every
   * operator exactly once, and nothing else; any error but "No
   * Associativity" is the first fault of the tokens; "No Associativity"
   * needs two operators outside the precedence table.
   */
  predicate Sound(ts: seq<MathToken>, r: Result<seq<MathToken>, ParseError>)
  {
    (r.Ok? ==> forall k :: 0 <= k < |r.value| ==> Emittable(r.value[k])) &&
    (r.Ok? ==> Operands(r.value) == Operands(ts) && Operators(r.value) == Operators(ts)) &&
    (r.Ok? ==> Fault(ts) == Option.None) &&
    (r.Err? && r.error != NoAssociativity ==> Fault(ts) == Some(r.error)) &&
    (r == Err(NoAssociativity) ==> exists j, k :: 0 <= j < k < |ts| && Unranked(ts[j]) && Unranked(ts[k]))
  }

  /** The end of input keeps the promise. */
  lemma DrainKeeps(ts: seq<MathToken>, s: Shunt)
    requires Shunted(ts, |ts|, s) && Fault(ts) == FaultFrom(ts, |ts|, Opens(s.stack))
    ensures Sound(ts, Drain(s.out, s.stack))
  {
    MovedStart(s.out, s.stack);
    assert s.stack[..|s.stack|] == s.stack;
    assert ts[..|ts|] == ts;
    DrainMoves(s.out, s.stack, s.out, |s.stack|);
    var r := Drain(s.out, s.stack);
    if r.Ok? {
      assert s.stack[..0] == [];
      AllEmittableMeans(r.value);
    }
  }

  /** From any state the invariant holds in, the rest of the run keeps the promise. */
  lemma {:induction false} ShuntingKeeps(ts: seq<MathToken>, i: nat, s: Shunt)
    requires Shunted(ts, i, s) && Fault(ts) == FaultFrom(ts, i, Opens(s.stack))
    ensures Sound(ts, RunFrom(ts, i, s))
    decreases |ts| - i
  {
    if i == |ts| {
      DrainKeeps(ts, s);
    } else {
      ShuntTokenKeeps(ts, i, s);
      var r := ShuntToken(ts[i], s);
      if r.Ok? {
        ShuntingKeeps(ts, i + 1, r.value);
      }
    }
  }

  /**
   * `parse` keeps its promise (`Sound`), and when every operator has a
   * precedence it succeeds exactly on fault-free input.
   */
  lemma RpnSound(ts: seq<MathToken>)
    ensures Sound(ts, Rpn(ts))
    ensures (forall k :: 0 <= k < |ts| ==> !Unranked(ts[k])) ==> (Rpn(ts).Ok? <==> Fault(ts) == Option.None)
  {
    var s := Shunt([], [], []);
    assert ts[..0] == [];
    ShuntingKeeps(ts, 0, s);
  }

  /*
   * The library's expected outputs (src/parser.rs:114-185), over the tokens
   * the tokenizer yields. The examples are stated for any operands and then
   * for the library's own; a function token arrives with argument count 0
   * and leaves with the counted one.
   */

  /** An operand goes straight to the output (src/parser.rs:54). */
  lemma OperandStep(t: MathToken, s: Shunt, next: Shunt)
    requires Counted(s) && IsOperand(t)
    requires next.out == s.out + [t] && next.stack == s.stack && next.arity == s.arity
    ensures Counted(next) && ShuntToken(t, s) == Ok(next)
  {
    assert ShuntToken(t, s).value == next;
  }

  /** An opening parenthesis or a function is pushed; a function opens a count of one (src/parser.rs:55-58). */
  lemma OpenStep(t: MathToken, s: Shunt, next: Shunt)
    requires Counted(s) && (t.OParen? || t.Function?)
    requires next.out == s.out && next.stack == s.stack + [t]
    requires next.arity == if t.Function? then s.arity + [1] else s.arity
    ensures Counted(next) && ShuntToken(t, s) == Ok(next)
  {
    FunctionsAppend(s.stack, t);
    assert ShuntToken(t, s).value == next;
  }

  /** An operator facing an empty stack, or a top it keeps, is pushed (src/parser.rs:79-96). */
  lemma PushStep(t: MathToken, s: Shunt, next: Shunt)
    requires Counted(s) && (t.UOp? || t.BOp?)
    requires |s.stack| == 0 || Decide(s.stack[|s.stack| - 1], t) == Keep
    requires next.out == s.out && next.stack == s.stack + [t] && next.arity == s.arity
    ensures Counted(next) && ShuntToken(t, s) == Ok(next)
  {
    FunctionsAppend(s.stack, t);
    assert ShuntToken(t, s).value == next;
  }

  /** An operator facing a top it pops moves that top to the output first (src/parser.rs:83-86). */
  lemma PopStep(t: MathToken, s: Shunt, top: MathToken, next: Shunt)
    requires Counted(s) && (t.UOp? || t.BOp?)
    requires s.stack == next.stack + [top] && Decide(top, t) == PopTop
    requires next.out == s.out + [top] && next.arity == s.arity
    ensures Counted(next) && ShuntToken(t, s) == ShuntToken(t, next)
  {
    assert next.stack == s.stack[..|s.stack| - 1];
    FunctionsPrefix(s.stack, |s.stack| - 1);
    assert UnstackFor(t, s.out, s.stack) == UnstackFor(t, next.out, next.stack);
  }

  /** A `,` or `)` moves an item above the innermost `(` to the output first (src/parser.rs:60-62). */
  lemma UnwindStep(t: MathToken, s: Shunt, top: MathToken, next: Shunt)
    requires Counted(s) && (t.Comma? || t.CParen?)
    requires s.stack == next.stack + [top] && top != OParen
    requires next.out == s.out + [top] && next.arity == s.arity
    ensures Counted(next) && ShuntToken(t, s) == ShuntToken(t, next)
  {
    assert next.stack == s.stack[..|s.stack| - 1];
    FunctionsPrefix(s.stack, |s.stack| - 1);
    assert UnstackToParen(s.out, s.stack) == UnstackToParen(next.out, next.stack);
  }

  /** A `,` facing `(` counts one more argument (src/parser.rs:76-78). */
  lemma CommaStep(t: MathToken, s: Shunt, next: Shunt)
    requires Counted(s) && t.Comma?
    requires |s.stack| > 0 && s.stack[|s.stack| - 1] == OParen
    requires next.out == s.out && next.stack == s.stack && next.arity == CountArgument(s.arity)
    ensures Counted(next) && ShuntToken(t, s) == Ok(next)
  {
    assert ShuntToken(t, s).value == next;
  }

  /** A `)` facing `(` with no function under it drops the `(` (src/parser.rs:63-68). */
  lemma GroupCloseStep(t: MathToken, s: Shunt, next: Shunt)
    requires Counted(s) && t.CParen?
    requires s.stack == next.stack + [OParen]
    requires |next.stack| == 0 || !next.stack[|next.stack| - 1].Function?
    requires next.out == s.out && next.arity == s.arity
    ensures Counted(next) && ShuntToken(t, s) == Ok(next)
  {
    assert next.stack == s.stack[..|s.stack| - 1];
    FunctionsPrefix(s.stack, |s.stack| - 1);
    assert ShuntToken(t, s).value == next;
  }

  /** A `)` facing `(` over a function drops the `(` and emits the function with its count (src/parser.rs:63-75). */
  lemma CallCloseStep(t: MathToken, s: Shunt, f: MathToken, count: nat, next: Shunt)
    requires Counted(s) && t.CParen? && f.Function?
    requires s.stack == next.stack + [f, OParen] && s.arity == next.arity + [count]
    requires next.out == s.out + [Function(f.name, count)]
    ensures Counted(next) && ShuntToken(t, s) == Ok(next)
  {
    var n := |s.stack|;
    assert next.stack == s.stack[..n - 2] && next.arity == s.arity[..|s.arity| - 1];
    FunctionsPrefix(s.stack, n - 1);
    assert s.stack[..n - 1] == s.stack[..n - 2] + [s.stack[n - 2]];
    FunctionsAppend(s.stack[..n - 2], s.stack[n - 2]);
    assert ShuntToken(t, s).value == next;
  }

  /**
   * `st[k]` is the converter's state before token `k`: from `st[i]`, each
   * token before the `j`-th takes the state to the next one without error.
   */
  predicate Traces(ts: seq<MathToken>, st: seq<Shunt>, i: nat, j: nat)
    requires i <= j < |st| && j <= |ts|
    decreases j - i
  {
    Counted(st[i]) && (i < j ==> ShuntToken(ts[i], st[i]) == Ok(st[i + 1]) && Traces(ts, st, i + 1, j))
  }

  /** A trace is what the converter goes through: the run from its first state is the run from its last. */
  lemma {:induction false} TraceRuns(ts: seq<MathToken>, st: seq<Shunt>, i: nat, j: nat)
    requires i <= j < |st| && j <= |ts| && Traces(ts, st, i, j)
    ensures Counted(st[j]) && RunFrom(ts, i, st[i]) == RunFrom(ts, j, st[j])
    decreases j - i
  {
    if i < j {
      TraceRuns(ts, st, i + 1, j);
    }
  }

  /** `TraceRuns`, with the first and the last state named. */
  lemma TraceRunsBetween(ts: seq<MathToken>, st: seq<Shunt>, i: nat, j: nat, first: Shunt, last: Shunt)
    requires i <= j < |st| && j <= |ts| && Traces(ts, st, i, j) && st[i] == first && st[j] == last
    ensures Counted(last) && RunFrom(ts, i, first) == RunFrom(ts, j, last)
  {
    TraceRuns(ts, st, i, j);
  }

  /** Two traces that meet make one. */
  lemma {:induction false} TracesJoin(ts: seq<MathToken>, st: seq<Shunt>, i: nat, j: nat, k: nat)
    requires i <= j <= k < |st| && k <= |ts| && Traces(ts, st, i, j) && Traces(ts, st, j, k)
    ensures Traces(ts, st, i, k)
    decreases j - i
  {
    if i < j {
      TracesJoin(ts, st, i + 1, j, k);
    }
  }

  /** A stack with no opening parenthesis drains completely, top first. */
  lemma DrainAll(out: seq<MathToken>, stack: seq<MathToken>)
    requires OParen !in stack
    ensures Drain(out, stack) == Ok(out + Reverse(stack))
  {
    DrainSpec(out, stack);
  }

  /** `-` groups to the left: `a-b-c` gives `a b - c -`, for any three operands. */
  lemma MinusExample(a: MathToken, b: MathToken, c: MathToken)
    requires IsOperand(a) && IsOperand(b) && IsOperand(c)
    ensures Rpn([a, BOp("-"), b, BOp("-"), c]) == Ok([a, b, BOp("-"), c, BOp("-")])
  {
    var minus := BOp("-");
    var ts := [a, minus, b, minus, c];
    MinusIsLeftAssociative();
    var s0, s1, s2 := Shunt([], [], []), Shunt([a], [], []), Shunt([a], [minus], []);
    var s3, s4, s5 := Shunt([a, b], [minus], []), Shunt([a, b, minus], [minus], []), Shunt([a, b, minus, c], [minus], []);
    OperandStep(a, s0, s1);
    PushStep(minus, s1, s2);
    OperandStep(b, s2, s3);
    PopStep(minus, s3, minus, Shunt([a, b, minus], [], []));
    PushStep(minus, Shunt([a, b, minus], [], []), s4);
    OperandStep(c, s4, s5);
    var states := [s0, s1, s2, s3, s4, s5];
    assert Traces(ts, states, 5, 5);
    assert Traces(ts, states, 4, 5);
    assert Traces(ts, states, 3, 5);
    assert Traces(ts, states, 2, 5);
    assert Traces(ts, states, 1, 5);
    assert Traces(ts, states, 0, 5);
    TraceRuns(ts, states, 0, 5);
    DrainAll(s5.out, s5.stack);
    assert s5.out + Reverse(s5.stack) == [a, b, minus, c, minus];
  }

  /** `^` groups to the right: `a^b^c` gives `a b c ^ ^`, for any three operands. */
  lemma PowerExample(a: MathToken, b: MathToken, c: MathToken)
    requires IsOperand(a) && IsOperand(b) && IsOperand(c)
    ensures Rpn([a, BOp("^"), b, BOp("^"), c]) == Ok([a, b, c, BOp("^"), BOp("^")])
  {
    var pow := BOp("^");
    var ts := [a, pow, b, pow, c];
    PowerIsRightAssociative();
    var s0, s1, s2 := Shunt([], [], []), Shunt([a], [], []), Shunt([a], [pow], []);
    var s3, s4, s5 := Shunt([a, b], [pow], []), Shunt([a, b], [pow, pow], []), Shunt([a, b, c], [pow, pow], []);
    OperandStep(a, s0, s1);
    PushStep(pow, s1, s2);
    OperandStep(b, s2, s3);
    PushStep(pow, s3, s4);
    OperandStep(c, s4, s5);
    var states := [s0, s1, s2, s3, s4, s5];
    assert Traces(ts, states, 5, 5);
    assert Traces(ts, states, 4, 5);
    assert Traces(ts, states, 3, 5);
    assert Traces(ts, states, 2, 5);
    assert Traces(ts, states, 1, 5);
    assert Traces(ts, states, 0, 5);
    TraceRuns(ts, states, 0, 5);
    DrainAll(s5.out, s5.stack);
    assert s5.out + Reverse(s5.stack) == [a, b, c, pow, pow];
  }

  /** `a-b-c` and `2^3^x` with the operands written out. */
  lemma AssociativityVectors()
    ensures Rpn([Variable("a"), BOp("-"), Variable("b"), BOp("-"), Variable("c")])
      == Ok([Variable("a"), Variable("b"), BOp("-"), Variable("c"), BOp("-")])
    ensures Rpn([Number(2.0), BOp("^"), Number(3.0), BOp("^"), Variable("x")])
      == Ok([Number(2.0), Number(3.0), Variable("x"), BOp("^"), BOp("^")])
  {
    MinusExample(Variable("a"), Variable("b"), Variable("c"));
    PowerExample(Number(2.0), Number(3.0), Variable("x"));
  }

  /** `a+b*c/-(d-e)^f^g`, as tokens. */
  function PrecedenceTokens(a: MathToken, b: MathToken, c: MathToken, d: MathToken, e: MathToken, f: MathToken, g: MathToken): seq<MathToken>
  {
    [a, BOp("+"), b, BOp("*"), c, BOp("/"), UOp("-"), OParen, d, BOp("-"), e, CParen, BOp("^"), f, BOp("^"), g]
  }

  /** The converter's state before each token of `PrecedenceTokens`, and at the end. */
  function PrecedenceStates(a: MathToken, b: MathToken, c: MathToken, d: MathToken, e: MathToken, f: MathToken, g: MathToken): seq<Shunt>
  {
    [Shunt([], [], []),
     Shunt([a], [], []),
     Shunt([a], [BOp("+")], []),
     Shunt([a, b], [BOp("+")], []),
     Shunt([a, b], [BOp("+"), BOp("*")], []),
     Shunt([a, b, c], [BOp("+"), BOp("*")], []),
     Shunt([a, b, c, BOp("*")], [BOp("+"), BOp("/")], []),
     Shunt([a, b, c, BOp("*")], [BOp("+"), BOp("/"), UOp("-")], []),
     Shunt([a, b, c, BOp("*")], [BOp("+"), BOp("/"), UOp("-"), OParen], []),
     Shunt([a, b, c, BOp("*"), d], [BOp("+"), BOp("/"), UOp("-"), OParen], []),
     Shunt([a, b, c, BOp("*"), d], [BOp("+"), BOp("/"), UOp("-"), OParen, BOp("-")], []),
     Shunt([a, b, c, BOp("*"), d, e], [BOp("+"), BOp("/"), UOp("-"), OParen, BOp("-")], []),
     Shunt([a, b, c, BOp("*"), d, e, BOp("-")], [BOp("+"), BOp("/"), UOp("-")], []),
     Shunt([a, b, c, BOp("*"), d, e, BOp("-")], [BOp("+"), BOp("/"), UOp("-"), BOp("^")], []),
     Shunt([a, b, c, BOp("*"), d, e, BOp("-"), f], [BOp("+"), BOp("/"), UOp("-"), BOp("^")], []),
     Shunt([a, b, c, BOp("*"), d, e, BOp("-"), f], [BOp("+"), BOp("/"), UOp("-"), BOp("^"), BOp("^")], []),
     Shunt([a, b, c, BOp("*"), d, e, BOp("-"), f, g], [BOp("+"), BOp("/"), UOp("-"), BOp("^"), BOp("^")], [])]
  }

  /** Tokens 0 to 3 of `PrecedenceTokens`. */
  lemma PrecedenceSteps1(a: MathToken, b: MathToken, c: MathToken, d: MathToken, e: MathToken, f: MathToken, g: MathToken)
    requires IsOperand(a) && IsOperand(b) && IsOperand(c) && IsOperand(d)
    requires IsOperand(e) && IsOperand(f) && IsOperand(g)
    requires Counted(PrecedenceStates(a, b, c, d, e, f, g)[0])
    ensures Counted(PrecedenceStates(a, b, c, d, e, f, g)[4])
    ensures Traces(PrecedenceTokens(a, b, c, d, e, f, g), PrecedenceStates(a, b, c, d, e, f, g), 0, 4)
  {
    var ts, st := PrecedenceTokens(a, b, c, d, e, f, g), PrecedenceStates(a, b, c, d, e, f, g);
    ArithmeticPrecedence();
    var s0 := Shunt([], [], []);
    var s1 := Shunt([a], [], []);
    var s2 := Shunt([a], [BOp("+")], []);
    var s3 := Shunt([a, b], [BOp("+")], []);
    var s4 := Shunt([a, b], [BOp("+"), BOp("*")], []);
    OperandStep(a, s0, s1);
    PushStep(BOp("+"), s1, s2);
    OperandStep(b, s2, s3);
    PushStep(BOp("*"), s3, s4);
    assert Traces(ts, st, 4, 4);
    assert Traces(ts, st, 3, 4);
    assert Traces(ts, st, 2, 4);
    assert Traces(ts, st, 1, 4);
    assert Traces(ts, st, 0, 4);
  }

  /** Tokens 4 to 5 of `PrecedenceTokens`. */
  lemma PrecedenceSteps2(a: MathToken, b: MathToken, c: MathToken, d: MathToken, e: MathToken, f: MathToken, g: MathToken)
    requires IsOperand(a) && IsOperand(b) && IsOperand(c) && IsOperand(d)
    requires IsOperand(e) && IsOperand(f) && IsOperand(g)
    requires Counted(PrecedenceStates(a, b, c, d, e, f, g)[4])
    ensures Counted(PrecedenceStates(a, b, c, d, e, f, g)[6])
    ensures Traces(PrecedenceTokens(a, b, c, d, e, f, g), PrecedenceStates(a, b, c, d, e, f, g), 4, 6)
  {
    var ts, st := PrecedenceTokens(a, b, c, d, e, f, g), PrecedenceStates(a, b, c, d, e, f, g);
    ArithmeticPrecedence();
    var s4 := Shunt([a, b], [BOp("+"), BOp("*")], []);
    var s5 := Shunt([a, b, c], [BOp("+"), BOp("*")], []);
    var s6 := Shunt([a, b, c, BOp("*")], [BOp("+"), BOp("/")], []);
    OperandStep(c, s4, s5);
    PopStep(BOp("/"), s5, BOp("*"), Shunt([a, b, c, BOp("*")], [BOp("+")], []));
    PushStep(BOp("/"), Shunt([a, b, c, BOp("*")], [BOp("+")], []), s6);
    assert Traces(ts, st, 6, 6);
    assert Traces(ts, st, 5, 6);
    assert Traces(ts, st, 4, 6);
  }

  /** Tokens 6 to 7 of `PrecedenceTokens`. */
  lemma PrecedenceSteps3(a: MathToken, b: MathToken, c: MathToken, d: MathToken, e: MathToken, f: MathToken, g: MathToken)
    requires IsOperand(a) && IsOperand(b) && IsOperand(c) && IsOperand(d)
    requires IsOperand(e) && IsOperand(f) && IsOperand(g)
    requires Counted(PrecedenceStates(a, b, c, d, e, f, g)[6])
    ensures Counted(PrecedenceStates(a, b, c, d, e, f, g)[8])
    ensures Traces(PrecedenceTokens(a, b, c, d, e, f, g), PrecedenceStates(a, b, c, d, e, f, g), 6, 8)
  {
    var ts, st := PrecedenceTokens(a, b, c, d, e, f, g), PrecedenceStates(a, b, c, d, e, f, g);
    var s6 := Shunt([a, b, c, BOp("*")], [BOp("+"), BOp("/")], []);
    var s7 := Shunt([a, b, c, BOp("*")], [BOp("+"), BOp("/"), UOp("-")], []);
    var s8 := Shunt([a, b, c, BOp("*")], [BOp("+"), BOp("/"), UOp("-"), OParen], []);
    PushStep(UOp("-"), s6, s7);
    OpenStep(OParen, s7, s8);
    assert Traces(ts, st, 8, 8);
    assert Traces(ts, st, 7, 8);
    assert Traces(ts, st, 6, 8);
  }

  /** Tokens 8 to 11 of `PrecedenceTokens`. */
  lemma PrecedenceSteps4(a: MathToken, b: MathToken, c: MathToken, d: MathToken, e: MathToken, f: MathToken, g: MathToken)
    requires IsOperand(a) && IsOperand(b) && IsOperand(c) && IsOperand(d)
    requires IsOperand(e) && IsOperand(f) && IsOperand(g)
    requires Counted(PrecedenceStates(a, b, c, d, e, f, g)[8])
    ensures Counted(PrecedenceStates(a, b, c, d, e, f, g)[12])
    ensures Traces(PrecedenceTokens(a, b, c, d, e, f, g), PrecedenceStates(a, b, c, d, e, f, g), 8, 12)
  {
    var ts, st := PrecedenceTokens(a, b, c, d, e, f, g), PrecedenceStates(a, b, c, d, e, f, g);
    ParenStopsPopping(BOp("-"));
    var s8 := Shunt([a, b, c, BOp("*")], [BOp("+"), BOp("/"), UOp("-"), OParen], []);
    var s9 := Shunt([a, b, c, BOp("*"), d], [BOp("+"), BOp("/"), UOp("-"), OParen], []);
    var s10 := Shunt([a, b, c, BOp("*"), d], [BOp("+"), BOp("/"), UOp("-"), OParen, BOp("-")], []);
    var s11 := Shunt([a, b, c, BOp("*"), d, e], [BOp("+"), BOp("/"), UOp("-"), OParen, BOp("-")], []);
    var s12 := Shunt([a, b, c, BOp("*"), d, e, BOp("-")], [BOp("+"), BOp("/"), UOp("-")], []);
    OperandStep(d, s8, s9);
    PushStep(BOp("-"), s9, s10);
    OperandStep(e, s10, s11);
    UnwindStep(CParen, s11, BOp("-"), Shunt([a, b, c, BOp("*"), d, e, BOp("-")], [BOp("+"), BOp("/"), UOp("-"), OParen], []));
    GroupCloseStep(CParen, Shunt([a, b, c, BOp("*"), d, e, BOp("-")], [BOp("+"), BOp("/"), UOp("-"), OParen], []), s12);
    assert Traces(ts, st, 12, 12);
    assert Traces(ts, st, 11, 12);
    assert Traces(ts, st, 10, 12);
    assert Traces(ts, st, 9, 12);
    assert Traces(ts, st, 8, 12);
  }

  /** Tokens 12 to 15 of `PrecedenceTokens`. */
  lemma PrecedenceSteps5(a: MathToken, b: MathToken, c: MathToken, d: MathToken, e: MathToken, f: MathToken, g: MathToken)
    requires IsOperand(a) && IsOperand(b) && IsOperand(c) && IsOperand(d)
    requires IsOperand(e) && IsOperand(f) && IsOperand(g)
    requires Counted(PrecedenceStates(a, b, c, d, e, f, g)[12])
    ensures Counted(PrecedenceStates(a, b, c, d, e, f, g)[16])
    ensures Traces(PrecedenceTokens(a, b, c, d, e, f, g), PrecedenceStates(a, b, c, d, e, f, g), 12, 16)
  {
    var ts, st := PrecedenceTokens(a, b, c, d, e, f, g), PrecedenceStates(a, b, c, d, e, f, g);
    PowerIsRightAssociative();
    var s12 := Shunt([a, b, c, BOp("*"), d, e, BOp("-")], [BOp("+"), BOp("/"), UOp("-")], []);
    var s13 := Shunt([a, b, c, BOp("*"), d, e, BOp("-")], [BOp("+"), BOp("/"), UOp("-"), BOp("^")], []);
    var s14 := Shunt([a, b, c, BOp("*"), d, e, BOp("-"), f], [BOp("+"), BOp("/"), UOp("-"), BOp("^")], []);
    var s15 := Shunt([a, b, c, BOp("*"), d, e, BOp("-"), f], [BOp("+"), BOp("/"), UOp("-"), BOp("^"), BOp("^")], []);
    var s16 := Shunt([a, b, c, BOp("*"), d, e, BOp("-"), f, g], [BOp("+"), BOp("/"), UOp("-"), BOp("^"), BOp("^")], []);
    PushStep(BOp("^"), s12, s13);
    OperandStep(f, s13, s14);
    PushStep(BOp("^"), s14, s15);
    OperandStep(g, s15, s16);
    assert Traces(ts, st, 16, 16);
    assert Traces(ts, st, 15, 16);
    assert Traces(ts, st, 14, 16);
    assert Traces(ts, st, 13, 16);
    assert Traces(ts, st, 12, 16);
  }

  /** The end of `PrecedenceTokens`: the operators left on the stack go out top first. */
  lemma PrecedenceDrain(a: MathToken, b: MathToken, c: MathToken, d: MathToken, e: MathToken, f: MathToken, g: MathToken)
    requires Counted(PrecedenceStates(a, b, c, d, e, f, g)[16])
    ensures RunFrom(PrecedenceTokens(a, b, c, d, e, f, g), 16, PrecedenceStates(a, b, c, d, e, f, g)[16])
      == Ok([a, b, c, BOp("*"), d, e, BOp("-"), f, g, BOp("^"), BOp("^"), UOp("-"), BOp("/"), BOp("+")])
  {
    var last := Shunt([a, b, c, BOp("*"), d, e, BOp("-"), f, g], [BOp("+"), BOp("/"), UOp("-"), BOp("^"), BOp("^")], []);
    DrainAll(last.out, last.stack);
    assert last.out + Reverse(last.stack)
      == [a, b, c, BOp("*"), d, e, BOp("-"), f, g, BOp("^"), BOp("^"), UOp("-"), BOp("/"), BOp("+")];
  }

  /**
   * Precedence, associativity, a unary minus and a group together:
   * `a+b*c/-(d-e)^f^g` gives `a b c * d e - f g ^ ^ - / +`, for any seven
   * operands.
   */
  lemma PrecedenceExample(a: MathToken, b: MathToken, c: MathToken, d: MathToken, e: MathToken, f: MathToken, g: MathToken)
    requires IsOperand(a) && IsOperand(b) && IsOperand(c) && IsOperand(d)
    requires IsOperand(e) && IsOperand(f) && IsOperand(g)
    ensures Rpn(PrecedenceTokens(a, b, c, d, e, f, g))
      == Ok([a, b, c, BOp("*"), d, e, BOp("-"), f, g, BOp("^"), BOp("^"), UOp("-"), BOp("/"), BOp("+")])
  {
    var ts, st := PrecedenceTokens(a, b, c, d, e, f, g), PrecedenceStates(a, b, c, d, e, f, g);
    PrecedenceSteps1(a, b, c, d, e, f, g);
    PrecedenceSteps2(a, b, c, d, e, f, g);
    PrecedenceSteps3(a, b, c, d, e, f, g);
    PrecedenceSteps4(a, b, c, d, e, f, g);
    PrecedenceSteps5(a, b, c, d, e, f, g);
    TracesJoin(ts, st, 4, 6, 8);
    TracesJoin(ts, st, 0, 4, 8);
    TracesJoin(ts, st, 8, 12, 16);
    TracesJoin(ts, st, 0, 8, 16);
    TraceRuns(ts, st, 0, 16);
    PrecedenceDrain(a, b, c, d, e, f, g);
  }

  /** The library's vector `3+4*2/-(1-5)^2^3` (src/parser.rs:115-133). */
  lemma PrecedenceVector()
    ensures Rpn([Number(3.0), BOp("+"), Number(4.0), BOp("*"), Number(2.0), BOp("/"), UOp("-"), OParen,
                 Number(1.0), BOp("-"), Number(5.0), CParen, BOp("^"), Number(2.0), BOp("^"), Number(3.0)])
      == Ok([Number(3.0), Number(4.0), Number(2.0), BOp("*"), Number(1.0), Number(5.0), BOp("-"),
             Number(2.0), Number(3.0), BOp("^"), BOp("^"), UOp("-"), BOp("/"), BOp("+")])
  {
    PrecedenceExample(Number(3.0), Number(4.0), Number(2.0), Number(1.0), Number(5.0), Number(2.0), Number(3.0));
  }

  /** A comma outside any parentheses: `f a, ...` is "Missing Opening Paren", whatever follows. */
  lemma StrayCommaExample(ts: seq<MathToken>, a: MathToken)
    requires 3 <= |ts| && ts[0].Function? && IsOperand(a) && ts[1] == a && ts[2] == Comma
    ensures Rpn(ts) == Err(MissingOpeningParen)
  {
    var fn := ts[0];
    var s0, s1, s2 := Shunt([], [], []), Shunt([], [fn], [1]), Shunt([a], [fn], [1]);
    OpenStep(fn, s0, s1);
    OperandStep(a, s1, s2);
    UnwindStep(Comma, s2, fn, Shunt([a, fn], [], [1]));
    assert ShuntToken(Comma, s2) == Err(MissingOpeningParen);
    var states := [s0, s1, s2];
    assert Traces(ts, states, 2, 2);
    assert Traces(ts, states, 1, 2);
    assert Traces(ts, states, 0, 2);
    TraceRuns(ts, states, 0, 2);
  }

  /** The arguments `args` of a call, separated by commas. */
  function ArgumentTokens(args: seq<MathToken>): (r: seq<MathToken>)
    requires |args| > 0
    ensures |r| == 2 * |args| - 1
  {
    if |args| == 1 then [args[0]] else ArgumentTokens(args[..|args| - 1]) + [Comma, args[|args| - 1]]
  }

  /** The `k`-th argument is at position `2k`, and a comma follows every argument but the last. */
  lemma {:induction false} ArgumentTokensAt(args: seq<MathToken>)
    requires |args| > 0
    ensures forall k :: 0 <= k < |args| ==> ArgumentTokens(args)[2 * k] == args[k]
    ensures forall k :: 0 <= k < |args| - 1 ==> ArgumentTokens(args)[2 * k + 1] == Comma
  {
    if |args| > 1 {
      var init := args[..|args| - 1];
      ArgumentTokensAt(init);
      assert forall k :: 0 <= k < |init| ==> init[k] == args[k];
    }
  }

  /** The tokens of the call `name(args[0], ..., args[|args| - 1])`. */
  function CallTokens(name: string, args: seq<MathToken>): (r: seq<MathToken>)
    requires |args| > 0
    ensures |r| == 2 * |args| + 2
  {
    [Function(name, 0), OParen] + ArgumentTokens(args) + [CParen]
  }

  /**
   * Where the tokens of a call are: the function and `(` first, the `j`-th
   * argument at `2j + 2`, a comma after it unless it is the last, and `)`
   * at the end.
   */
  lemma CallTokensAt(name: string, args: seq<MathToken>, j: nat)
    requires j < |args|
    ensures var ts := CallTokens(name, args);
      ts[0] == Function(name, 0) && ts[1] == OParen && ts[2 * |args| + 1] == CParen &&
      ts[2 * j + 2] == args[j] && (j < |args| - 1 ==> ts[2 * j + 3] == Comma)
  {
    var ts := CallTokens(name, args);
    ArgumentTokensAt(args);
    assert ts[2 * j + 2] == ArgumentTokens(args)[2 * j];
    if j < |args| - 1 {
      assert ts[2 * j + 3] == ArgumentTokens(args)[2 * j + 1];
    }
  }

  /** A call's function under its `(`, with `j` arguments counted. */
  lemma CallCounted(name: string, out: seq<MathToken>, j: nat)
    requires j > 0
    ensures Counted(Shunt(out, [Function(name, 0), OParen], [j]))
  {
    var fn := Function(name, 0);
    assert [fn, OParen] == [fn] + [OParen];
    assert [fn] == [] + [fn];
    FunctionsAppend([fn], OParen);
    FunctionsAppend([], fn);
  }

  /** A token that goes through without error moves the run on by one token. */
  lemma ShuntingStep(ts: seq<MathToken>, i: nat, s: Shunt, next: Shunt)
    requires i < |ts| && Counted(s) && ShuntToken(ts[i], s) == Ok(next)
    ensures Counted(next) && RunFrom(ts, i, s) == RunFrom(ts, i + 1, next)
  {
    ShuntTokenCounted(ts[i], s);
  }

  /** The `,` after argument `j - 1` of a call counts one more, and argument `j` goes to the output. */
  lemma CallArgument(name: string, args: seq<MathToken>, j: nat)
    requires 1 <= j < |args| && IsOperand(args[j])
    ensures RunFrom(CallTokens(name, args), 2 * j + 1, Shunt(args[..j], [Function(name, 0), OParen], [j]))
      == RunFrom(CallTokens(name, args), 2 * j + 3, Shunt(args[..j + 1], [Function(name, 0), OParen], [j + 1]))
  {
    var ts, fn := CallTokens(name, args), Function(name, 0);
    var s := Shunt(args[..j], [fn, OParen], [j]);
    var counted := Shunt(args[..j], [fn, OParen], [j + 1]);
    var next := Shunt(args[..j + 1], [fn, OParen], [j + 1]);
    CallCounted(name, args[..j], j);
    CallTokensAt(name, args, j - 1);
    CallTokensAt(name, args, j);
    CommaStep(Comma, s, counted);
    ShuntingStep(ts, 2 * j + 1, s, counted);
    assert args[..j + 1] == args[..j] + [args[j]];
    OperandStep(args[j], counted, next);
    ShuntingStep(ts, 2 * j + 2, counted, next);
  }

  /**
   * After the argument `args[j - 1]` of a call, with `j` arguments counted:
   * the rest of the call emits the remaining arguments and then the
   * function, counted `|args|`.
   */
  lemma {:induction false} CallArguments(name: string, args: seq<MathToken>, j: nat)
    requires 1 <= j <= |args| && forall k :: 0 <= k < |args| ==> IsOperand(args[k])
    ensures Counted(Shunt(args[..j], [Function(name, 0), OParen], [j]))
    ensures RunFrom(CallTokens(name, args), 2 * j + 1, Shunt(args[..j], [Function(name, 0), OParen], [j]))
      == Ok(args + [Function(name, |args|)])
    decreases |args| - j
  {
    CallCounted(name, args[..j], j);
    if j < |args| {
      CallArgument(name, args, j);
      CallArguments(name, args, j + 1);
    } else {
      assert args[..j] == args;
      CallCloses(name, args);
    }
  }

  /** The closing `)` of a call, all `count` arguments counted, emits the function with that count. */
  lemma CallCloseState(name: string, out: seq<MathToken>, count: nat)
    requires count > 0
    ensures Counted(Shunt(out, [Function(name, 0), OParen], [count]))
    ensures ShuntToken(CParen, Shunt(out, [Function(name, 0), OParen], [count]))
      == Ok(Shunt(out + [Function(name, count)], [], []))
  {
    var fn := Function(name, 0);
    CallCounted(name, out, count);
    assert [fn, OParen] == [] + [fn, OParen] && [count] == [] + [count];
    CallCloseStep(CParen, Shunt(out, [fn, OParen], [count]), fn, count, Shunt(out + [Function(name, count)], [], []));
  }

  /** The end of a call's run: its `)` and the drain of an empty stack. */
  lemma CallCloses(name: string, args: seq<MathToken>)
    requires |args| > 0
    ensures RunFrom(CallTokens(name, args), 2 * |args| + 1, Shunt(args, [Function(name, 0), OParen], [|args|]))
      == Ok(args + [Function(name, |args|)])
  {
    var ts := CallTokens(name, args);
    var s := Shunt(args, [Function(name, 0), OParen], [|args|]);
    var closed := Shunt(args + [Function(name, |args|)], [], []);
    CallCloseState(name, args, |args|);
    CallTokensAt(name, args, 0);
    ShuntingStep(ts, 2 * |args| + 1, s, closed);
    DrainAll(closed.out, []);
    assert closed.out + Reverse([]) == closed.out;
  }

  /**
   * A call whose arguments are operands: `f(a1, ..., ak)` gives
   * `a1 ... ak f`, with `f` counted k, one more than its commas
   * (src/parser.rs:55-58, 76-77, 69-71).
   */
  lemma CallExample(name: string, args: seq<MathToken>)
    requires |args| > 0 && forall k :: 0 <= k < |args| ==> IsOperand(args[k])
    ensures Rpn(CallTokens(name, args)) == Ok(args + [Function(name, |args|)])
  {
    var ts, fn := CallTokens(name, args), Function(name, 0);
    var s0, s1, s2 := Shunt([], [], []), Shunt([], [fn], [1]), Shunt([], [fn, OParen], [1]);
    var s3 := Shunt(args[..1], [fn, OParen], [1]);
    CallTokensAt(name, args, 0);
    OpenStep(fn, s0, s1);
    ShuntingStep(ts, 0, s0, s1);
    OpenStep(OParen, s1, s2);
    ShuntingStep(ts, 1, s1, s2);
    assert args[..1] == [] + [args[0]];
    OperandStep(args[0], s2, s3);
    ShuntingStep(ts, 2, s2, s3);
    CallArguments(name, args, 1);
  }

  /** The library's `max(2, x)`, as tokens. */
  lemma MaxCallTokens()
    ensures CallTokens("max", [Number(2.0), Variable("x")])
      == [Function("max", 0), OParen, Number(2.0), Comma, Variable("x"), CParen]
  {
    assert ArgumentTokens([Number(2.0), Variable("x")]) == [Number(2.0), Comma, Variable("x")] by {
      assert [Number(2.0), Variable("x")][..1] == [Number(2.0)];
    }
  }

  /** `max(2, x)`, the last factor of the library's vector at src/parser.rs:136-154, and the vector `max 4, 6, 4)` (src/parser.rs:186-187). */
  lemma CallVectors()
    ensures Rpn([Function("max", 0), OParen, Number(2.0), Comma, Variable("x"), CParen])
      == Ok([Number(2.0), Variable("x"), Function("max", 2)])
    ensures Rpn([Function("max", 0), Number(4.0), Comma, Number(6.0), Comma, Number(4.0), CParen])
      == Err(MissingOpeningParen)
  {
    CallExample("max", [Number(2.0), Variable("x")]);
    MaxCallTokens();
    assert [Number(2.0), Variable("x")] + [Function("max", 2)] == [Number(2.0), Variable("x"), Function("max", 2)];
    StrayCommaExample([Function("max", 0), Number(4.0), Comma, Number(6.0), Comma, Number(4.0), CParen], Number(4.0));
  }

  /*
   * The converter itself.
   */

  /**
   * `ShuntingParser::parse` (src/parser.rs:45-106): one pass over the
   * tokens with the output, the operator stack and the argument counts as
   * local state, the two inner popping loops, and the final unwinding of
   * the stack. It returns exactly the reference `Rpn(ts)`, and so keeps the
   * promise `Sound` of `RpnSound`.
   */
  method Parse(ts: seq<MathToken>) returns (r: Result<seq<MathToken>, ParseError>)
    ensures r == Rpn(ts)
    ensures Sound(ts, r)
  {
    RpnSound(ts);
    var out: seq<MathToken> := [];
    var stack: seq<MathToken> := [];
    var arity: seq<nat> := [];
    for i := 0 to |ts|
      invariant Counted(Shunt(out, stack, arity))
      invariant RunFrom(ts, i, Shunt(out, stack, arity)) == Rpn(ts)
    {
      var token := ts[i];
      ghost var before := Shunt(out, stack, arity);
      match token {
        case Number(_) =>
          OperandStep(token, before, Shunt(out + [token], stack, arity));
          out := out + [token];
        case Variable(_) =>
          OperandStep(token, before, Shunt(out + [token], stack, arity));
          out := out + [token];
        case OParen =>
          OpenStep(token, before, Shunt(out, stack + [token], arity));
          stack := stack + [token];
        case Function(_, _) =>
          OpenStep(token, before, Shunt(out, stack + [token], arity + [1]));
          stack := stack + [token];
          arity := arity + [1];
        case Comma =>
          out, stack := PopToParen(token, out, stack, arity);
          if |stack| == 0 {
            return Err(MissingOpeningParen);
          }
          ghost var at := Shunt(out, stack, arity);
          if |arity| > 0 {
            arity := arity[..|arity| - 1] + [arity[|arity| - 1] + 1];
          }
          CommaStep(token, at, Shunt(out, stack, arity));
        case CParen =>
          out, stack := PopToParen(token, out, stack, arity);
          if |stack| == 0 {
            return Err(MissingOpeningParen);
          }
          out, stack, arity := CloseParen(out, stack, arity);
        case UOp(_) =>
          var failed;
          out, stack, failed := PopOperators(token, out, stack, arity);
          if failed {
            return Err(NoAssociativity);
          }
          stack := stack + [token];
        case BOp(_) =>
          var failed;
          out, stack, failed := PopOperators(token, out, stack, arity);
          if failed {
            return Err(NoAssociativity);
          }
          stack := stack + [token];
        case Unknown(lexeme) =>
          return Err(BadToken(lexeme));
      }
    }
    while |stack| > 0
      invariant Drain(out, stack) == Rpn(ts)
      decreases |stack|
    {
      var top := stack[|stack| - 1];
      stack := stack[..|stack| - 1];
      if top == OParen {
        return Err(MissingClosingParen);
      }
      out := out + [top];
    }
    return Ok(out);
  }

  /**
   * The first inner loop of `parse` (src/parser.rs:60-62): operators move
   * from the stack to the output until `(` is on top or the stack is empty.
   * The token `t` (a `,` or `)`) then does from the new state what it would
   * have done from the old one.
   */
  method PopToParen(ghost t: MathToken, out0: seq<MathToken>, stack0: seq<MathToken>, ghost arity: seq<nat>)
    returns (out: seq<MathToken>, stack: seq<MathToken>)
    requires (t.Comma? || t.CParen?) && Counted(Shunt(out0, stack0, arity))
    ensures (out, stack) == UnstackToParen(out0, stack0)
    ensures Counted(Shunt(out, stack, arity))
    ensures ShuntToken(t, Shunt(out, stack, arity)) == ShuntToken(t, Shunt(out0, stack0, arity))
    ensures |stack| == 0 ==> ShuntToken(t, Shunt(out0, stack0, arity)) == Err(MissingOpeningParen)
    ensures |stack| > 0 ==> stack[|stack| - 1] == OParen
  {
    out, stack := out0, stack0;
    while |stack| > 0 && stack[|stack| - 1] != OParen
      invariant Counted(Shunt(out, stack, arity))
      invariant UnstackToParen(out, stack) == UnstackToParen(out0, stack0)
      invariant ShuntToken(t, Shunt(out, stack, arity)) == ShuntToken(t, Shunt(out0, stack0, arity))
      decreases |stack|
    {
      assert stack == stack[..|stack| - 1] + [stack[|stack| - 1]];
      UnwindStep(t, Shunt(out, stack, arity), stack[|stack| - 1], Shunt(out + [stack[|stack| - 1]], stack[..|stack| - 1], arity));
      out := out + [stack[|stack| - 1]];
      stack := stack[..|stack| - 1];
    }
  }

  /**
   * A `)` once `(` is on top (src/parser.rs:67-75): the `(` is dropped; a
   * function under it goes to the output carrying the innermost argument
   * count, which is dropped; anything else under it is pushed back.
   */
  method CloseParen(out0: seq<MathToken>, stack0: seq<MathToken>, arity0: seq<nat>)
    returns (out: seq<MathToken>, stack: seq<MathToken>, arity: seq<nat>)
    requires Counted(Shunt(out0, stack0, arity0)) && |stack0| > 0 && stack0[|stack0| - 1] == OParen
    ensures Counted(Shunt(out, stack, arity))
    ensures ShuntToken(CParen, Shunt(out0, stack0, arity0)) == Ok(Shunt(out, stack, arity))
    ensures Shunt(out, stack, arity) == CloseCall(out0, stack0[..|stack0| - 1], arity0)
  {
    var s0 := Shunt(out0, stack0, arity0);
    out, stack, arity := out0, stack0[..|stack0| - 1], arity0;
    if |stack| > 0 {
      var top := stack[|stack| - 1];
      stack := stack[..|stack| - 1];
      if top.Function? {
        assert stack0 == stack + [top] + [OParen];
        FunctionsAppend(stack + [top], OParen);
        FunctionsAppend(stack, top);
        assert arity == arity[..|arity| - 1] + [arity[|arity| - 1]];
        CallCloseStep(CParen, s0, top, arity[|arity| - 1], Shunt(out + [Function(top.name, arity[|arity| - 1])], stack, arity[..|arity| - 1]));
        out := out + [Function(top.name, arity[|arity| - 1])];
        arity := arity[..|arity| - 1];
        return;
      }
      stack := stack + [top];
    }
    GroupCloseStep(CParen, s0, Shunt(out, stack, arity));
  }

  /**
   * The second inner loop of `parse` (src/parser.rs:81-93): the incoming
   * operator `t` compares its precedence with the one on top of the stack;
   * a higher one, or an equal one when `t` is left-associative, moves to
   * the output; a lower one, or an equal one when `t` is right-associative,
   * stops the loop; an equal one without associativity is the failure
   * "No Associativity". Without failure, `t` is then pushed.
   */
  method PopOperators(t: MathToken, out0: seq<MathToken>, stack0: seq<MathToken>, ghost arity: seq<nat>)
    returns (out: seq<MathToken>, stack: seq<MathToken>, failed: bool)
    requires (t.UOp? || t.BOp?) && Counted(Shunt(out0, stack0, arity))
    ensures (out, stack, failed) == UnstackFor(t, out0, stack0)
    ensures Counted(Shunt(out, stack, arity))
    ensures failed ==> ShuntToken(t, Shunt(out0, stack0, arity)) == Err(NoAssociativity)
    ensures !failed ==> ShuntToken(t, Shunt(out0, stack0, arity)) == Ok(Shunt(out, stack + [t], arity))
  {
    var (precRhs, assocRhs) := Precedence(t);
    out, stack, failed := out0, stack0, false;
    while |stack| > 0
      invariant Counted(Shunt(out, stack, arity))
      invariant UnstackFor(t, out, stack) == UnstackFor(t, out0, stack0)
      invariant ShuntToken(t, Shunt(out, stack, arity)) == ShuntToken(t, Shunt(out0, stack0, arity))
      decreases |stack|
    {
      var (precLhs, _) := Precedence(stack[|stack| - 1]);
      var pop := false;
      if precLhs > precRhs {
        pop := true;
      } else if precLhs == precRhs {
        match assocRhs {
          case Left => pop := true;
          case None =>
            failed := true;
            break;
          case Right => break;
        }
      } else {
        break;
      }
      assert stack == stack[..|stack| - 1] + [stack[|stack| - 1]];
      PopStep(t, Shunt(out, stack, arity), stack[|stack| - 1], Shunt(out + [stack[|stack| - 1]], stack[..|stack| - 1], arity));
      out := out + [stack[|stack| - 1]];
      stack := stack[..|stack| - 1];
    }
    assert UnstackFor(t, out, stack) == (out, stack, failed);
    if failed {
      Fails(t, Shunt(out, stack, arity));
    } else {
      Pushes(t, Shunt(out, stack, arity));
      FunctionsAppend(stack, t);
    }
  }

}
