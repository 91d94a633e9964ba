/**
 * The backtracking scanner of the arithmetic tokenizer (src/scanner.rs).
 *
 * A `Scanner` is a lookahead buffer over a lazy source: `buf` holds the items
 * already pulled from the source, `src` the items the source has not yielded
 * yet (the source is finite here), and `pos` is the cursor, the index in `buf`
 * of the current item, -1 before the first one. `next` moves the cursor and
 * pulls only the items it lacks; the cursor can be saved and restored, and
 * `extract` cuts the items up to the cursor off the buffer as a token.
 *
 * The ghost view `Stream()` is everything the scanner will ever see, read or
 * not (`buf + src`); `Ahead()` is the part after the cursor. Every operation
 * but `Extract` leaves `Stream()` unchanged.
 */
module Scanning {
  import opened Wrappers
  import opened Integers

  const White: seq<char> := [' ', '\n', '\r', '\t']
  const Digits: seq<char> := "0123456789"
  const Alpha: seq<char> := "_abcdefghijklmnopqrstuvwxyzABCDEFGHIJKLMNOPQRSTUVWXYZ"
  const Alnum: seq<char> := "_0123456789abcdefghijklmnopqrstuvwxyzABCDEFGHIJKLMNOPQRSTUVWXYZ"
  const Signs: seq<char> := ['+', '-']
  const Exponents: seq<char> := ['e', 'E']
  const Comparisons: seq<char> := ['>', '=', '<']
  /** The one-character operators of `scan_math_op`. */
  const MathOps: seq<char> := ['+', '-', '*', '/', '%', '^', '!', '(', ')', ',']

  /** Length of the longest prefix of `s` whose items all belong to `over`. */
  function Span<T(==)>(s: seq<T>, over: seq<T>): (n: nat)
    ensures n <= |s|
    ensures forall i :: 0 <= i < n ==> s[i] in over
    ensures n < |s| ==> s[n] !in over
  {
    if |s| > 0 && s[0] in over then 1 + Span(s[1..], over) else 0
  }

  class Scanner<T(==)> {
    /** What the source has not yielded yet. */
    var src: seq<T>
    /** What has been pulled from the source and not yet extracted. */
    var buf: seq<T>
    /** Index of the current item in `buf`; -1 before the first item. */
    var pos: int

    ghost predicate Valid()
      reads this
    {
      -1 <= pos <= |buf|
    }

    ghost function Stream(): seq<T>
      reads this
    {
      buf + src
    }

    /** The items after the cursor. */
    ghost function Ahead(): seq<T>
      reads this
      requires Valid()
    {
      Stream()[Min(pos + 1, |Stream()|)..]
    }

    /** What `Next` would return. */
    ghost function NextItem(): Option<T>
      reads this
      requires Valid()
    {
      if |Ahead()| > 0 then Some(Ahead()[0]) else None
    }

    /** `Scanner::new` (src/scanner.rs:113-119). */
    constructor (source: seq<T>)
      ensures Valid() && Stream() == source
      ensures src == source && buf == [] && pos == -1
    {
      src := source;
      buf := [];
      pos := -1;
    }

    /** `current` (src/scanner.rs:137-143): the item under the cursor, if any. */
    function Current(): (r: Option<T>)
      reads this
      ensures r.Some? <==> 0 <= pos < |buf|
      ensures r.Some? ==> r.value == buf[pos]
    {
      if pos < 0 || pos >= |buf| then None else Some(buf[pos])
    }

    /**
     * `next` (src/scanner.rs:31-41): advance the cursor, pull from the source
     * only the items the buffer lacks, and cap the cursor at the buffer's end.
     */
    method Next() returns (r: Option<T>)
      requires Valid()
      modifies this
      ensures Valid() && Stream() == old(Stream())
      ensures |buf| == Max(old(|buf|), Min(old(pos) + 2, |Stream()|))
      ensures pos == Min(old(pos) + 1, |buf|)
      ensures r == old(NextItem()) && r == Current()
      ensures r.Some? ==> pos == old(pos) + 1
    {
      pos := pos + 1;
      var lacking := pos - |buf| + 1;
      if lacking > 0 {
        var k := Min(lacking, |src|);
        buf := buf + src[..k];
        src := src[k..];
      }
      pos := Min(pos, |buf|);
      r := Current();
      assert old(Stream()) == Stream();
    }

    /** `buffer_pos` (src/scanner.rs:122-124): a cursor to come back to. */
    function BufferPos(): (p: int)
      reads this
      requires Valid()
      ensures p == pos && -1 <= p <= |buf|
    {
      pos
    }

    /**
     * `set_buffer_pos` (src/scanner.rs:128-134): move the cursor back (or
     * forward) within the buffer; refuse a target outside [-1, |buf|].
     */
    method SetBufferPos(p: int) returns (ok: bool)
      requires Valid()
      modifies this`pos
      ensures Valid()
      ensures ok <==> -1 <= p <= |buf|
      ensures pos == if ok then p else old(pos)
    {
      if p < -1 || p > |buf| {
        return false;
      }
      pos := p;
      return true;
    }

    /** `peek` (src/scanner.rs:146-151): what `Next` would return, cursor kept. */
    method Peek() returns (r: Option<T>)
      requires Valid()
      modifies this
      ensures Valid() && Stream() == old(Stream()) && pos == old(pos)
      ensures |buf| == Max(old(|buf|), Min(old(pos) + 2, |Stream()|))
      ensures r == old(NextItem())
    {
      var backtrack := pos;
      r := Next();
      pos := backtrack;
    }

    /**
     * `extract` (src/scanner.rs:154-164): cut the buffer after the cursor; the
     * front part is the token, the rest stays buffered and the cursor resets.
     */
    method Extract() returns (token: seq<T>)
      requires Valid()
      modifies this`buf, this`pos
      ensures Valid() && pos == -1
      ensures |token| == Min(old(pos) + 1, old(|buf|))
      ensures token + buf == old(buf)
      ensures token + Stream() == old(Stream())
    {
      var split := Min(pos + 1, |buf|);
      assert split >= 0;
      pos := -1;
      token := buf[..split];
      buf := buf[split..];
      assert token + Stream() == old(Stream());
    }

    /**
     * `accept` (src/scanner.rs:174-183): advance only if the next item is
     * `what`; otherwise the cursor is restored.
     */
    method Accept(what: T) returns (r: Option<T>)
      requires Valid()
      modifies this
      ensures Valid() && Stream() == old(Stream())
      ensures |buf| == Max(old(|buf|), Min(old(pos) + 2, |Stream()|))
      ensures r == if old(NextItem()) == Some(what) then Some(what) else None
      ensures pos == if r.Some? then old(pos) + 1 else old(pos)
      ensures Ahead() == if r.Some? then old(Ahead())[1..] else old(Ahead())
      ensures r.Some? ==> pos < |buf|
    {
      var backtrack := BufferPos();
      var next := Next();
      if next.Some? && next.value == what {
        return next;
      }
      var _ := SetBufferPos(backtrack);
      r := None;
    }

    /**
     * `accept_any` (src/scanner.rs:187-196): advance only if the next item
     * belongs to `any`; otherwise the cursor is restored.
     */
    method AcceptAny(any: seq<T>) returns (r: Option<T>)
      requires Valid()
      modifies this
      ensures Valid() && Stream() == old(Stream())
      ensures |buf| == Max(old(|buf|), Min(old(pos) + 2, |Stream()|))
      ensures r == if old(NextItem()).Some? && old(NextItem()).value in any then old(NextItem()) else None
      ensures pos == if r.Some? then old(pos) + 1 else old(pos)
      ensures Ahead() == if r.Some? then old(Ahead())[1..] else old(Ahead())
      ensures r.Some? ==> pos < |buf|
    {
      var backtrack := BufferPos();
      var next := Next();
      if next.Some? && next.value in any {
        return next;
      }
      var _ := SetBufferPos(backtrack);
      r := None;
    }

    /**
     * `skip_all` (src/scanner.rs:200-206): advance over the longest run of
     * items from `over`; report whether the cursor moved.
     */
    method SkipAll(over: seq<T>) returns (advanced: bool)
      requires Valid()
      modifies this
      ensures Valid() && Stream() == old(Stream())
      ensures pos == old(pos) + Span(old(Ahead()), over)
      ensures advanced <==> Span(old(Ahead()), over) > 0
      ensures Ahead() == old(Ahead())[Span(old(Ahead()), over)..]
      ensures advanced ==> pos < |buf|
      ensures |buf| == Max(old(|buf|), Min(pos + 2, |Stream()|))
    {
      ghost var ahead := Ahead();
      advanced := false;
      while true
        invariant Valid() && Stream() == old(Stream())
        invariant old(pos) <= pos <= old(pos) + |ahead|
        invariant pos - old(pos) <= Span(ahead, over)
        invariant advanced <==> pos > old(pos)
        invariant advanced ==> pos < |buf|
        invariant pos == old(pos) ==> buf == old(buf)
        invariant pos > old(pos) ==> |buf| == Max(old(|buf|), Min(pos + 1, |Stream()|))
        invariant Ahead() == ahead[pos - old(pos)..]
        decreases |ahead| - (pos - old(pos))
      {
        var r := AcceptAny(over);
        if r.None? {
          break;
        }
        advanced := true;
      }
    }
  }

  /** Length of a sign at the front of `s`: 1 for '+' or '-', else 0. */
  function SignLength(s: seq<char>): (n: nat)
    ensures n <= 1 && n <= |s|
    ensures n == 1 <==> |s| > 0 && s[0] in Signs
  {
    if |s| > 0 && s[0] in Signs then 1 else 0
  }

  /**
   * Length of an optional sign followed by digits at the front of `t`, 0
   * when no digit follows the optional sign.
   */
  function SignedDigits(t: seq<char>): (n: nat)
    ensures n <= |t|
    ensures n == 0 <==> Span(t[SignLength(t)..], Digits) == 0
    ensures n > 0 ==> n == SignLength(t) + Span(t[SignLength(t)..], Digits) && t[n - 1] in Digits
  {
    var g := SignLength(t);
    var d := Span(t[g..], Digits);
    if d == 0 then 0 else g + d
  }

  /** Characters a number can be made of. */
  const NumberChars: set<char> := {'+', '-', '0', '1', '2', '3', '4', '5', '6', '7', '8', '9', '.', 'e', 'E', 'i'}

  /** A trailing imaginary unit 'i'. */
  function ImaginaryTail(t: seq<char>): (n: nat)
    ensures n <= 1 && n <= |t|
    ensures n == 1 <==> |t| > 0 && t[0] == 'i'
  {
    if |t| > 0 && t[0] == 'i' then 1 else 0
  }

  /**
   * The exponent part and what follows it: 'e' or 'E', an optional sign and
   * digits, then an optional 'i'. An 'e' without digits after its optional
   * sign is not taken, and then no 'i' is looked for either. Without an 'e',
   * only the optional 'i'.
   */
  function ExponentTail(t: seq<char>): (n: nat)
    ensures n <= |t|
    ensures n > 0 ==> t[n - 1] in Digits || t[n - 1] == 'i'
  {
    if BareExponent(t) then 0
    else ExponentLength(t) + ImaginaryTail(t[ExponentLength(t)..])
  }

  /** An exponent letter with no digits after its optional sign. */
  predicate BareExponent(t: seq<char>)
  {
    |t| > 0 && t[0] in Exponents && SignedDigits(t[1..]) == 0
  }

  /** Length of the exponent part: a letter, an optional sign and digits. */
  function ExponentLength(t: seq<char>): (n: nat)
    ensures n <= |t|
    ensures n > 0 <==> |t| > 0 && t[0] in Exponents && !BareExponent(t)
  {
    if |t| > 0 && t[0] in Exponents && !BareExponent(t) then 1 + SignedDigits(t[1..]) else 0
  }

  /**
   * What follows the integer digits: a '.' and digits, then the exponent part.
   * A '.' without digits after it is not taken, and then nothing else is
   * looked for.
   */
  function NumberTail(t: seq<char>): (n: nat)
    ensures n <= |t|
    ensures n > 0 ==> t[n - 1] in Digits || t[n - 1] == 'i'
  {
    if |t| > 0 && t[0] == '.' then
      var f := Span(t[1..], Digits);
      if f == 0 then 0 else 1 + f + ExponentTail(t[1..][f..])
    else ExponentTail(t)
  }

  /**
   * Length of the number `scan_number` takes from the front of `s`, 0 when
   * there is none: an optional sign, the integer digits, then `NumberTail`.
   * There is a number exactly when a digit follows the optional sign; all its
   * integer digits are taken; it never ends in a sign, a '.' or an exponent
   * letter (and `NumberLengthChars` shows it is made of number characters).
   */
  function NumberLength(s: seq<char>): (n: nat)
    ensures n <= |s|
    ensures n == 0 <==> Span(s[SignLength(s)..], Digits) == 0
    ensures n > 0 ==> n >= SignLength(s) + Span(s[SignLength(s)..], Digits)
    ensures n > 0 ==> s[n - 1] in Digits || s[n - 1] == 'i'
  {
    var d := SignedDigits(s);
    if d == 0 then 0 else d + NumberTail(s[d..])
  }

  /** The first `n` characters of `t` are number characters. */
  predicate NumberCharsOnly(t: seq<char>, n: nat)
    requires n <= |t|
  {
    forall k :: 0 <= k < n ==> t[k] in NumberChars
  }

  lemma DigitIsNumberChar(c: char)
    requires c in Digits
    ensures c in NumberChars
  {
  }

  lemma {:induction false} SignedDigitsChars(t: seq<char>)
    ensures NumberCharsOnly(t, SignedDigits(t))
  {
    var g := SignLength(t);
    forall k | 0 <= k < SignedDigits(t)
      ensures t[k] in NumberChars
    {
      if k >= g {
        assert t[k] == t[g..][k - g];
        DigitIsNumberChar(t[k]);
      }
    }
  }

  lemma {:induction false} ExponentTailChars(t: seq<char>)
    ensures NumberCharsOnly(t, ExponentTail(t))
  {
    var e := ExponentLength(t);
    if e > 0 {
      SignedDigitsChars(t[1..]);
    }
    forall k | 0 <= k < ExponentTail(t)
      ensures t[k] in NumberChars
    {
      if 0 < k < e {
        assert t[k] == t[1..][k - 1];
      }
    }
  }

  lemma {:induction false} NumberTailChars(t: seq<char>)
    ensures NumberCharsOnly(t, NumberTail(t))
  {
    if |t| > 0 && t[0] == '.' {
      var f := Span(t[1..], Digits);
      if f > 0 {
        var u := t[1..][f..];
        ExponentTailChars(u);
        forall k | 0 <= k < NumberTail(t)
          ensures t[k] in NumberChars
        {
          if 0 < k <= f {
            assert t[k] == t[1..][k - 1];
            DigitIsNumberChar(t[k]);
          } else if k > f {
            assert t[k] == u[k - 1 - f];
          }
        }
      }
    } else {
      ExponentTailChars(t);
    }
  }

  /** A number is made of number characters only. */
  lemma {:induction false} NumberLengthChars(s: seq<char>)
    ensures NumberCharsOnly(s, NumberLength(s))
  {
    var d := SignedDigits(s);
    if d > 0 {
      SignedDigitsChars(s);
      NumberTailChars(s[d..]);
      forall k | d <= k < NumberLength(s)
        ensures s[k] in NumberChars
      {
        assert s[k] == s[d..][k - d];
      }
    }
  }

  /**
   * Length of the operator `scan_math_op` takes from the front of `s`, 0 when
   * there is none: "<=", ">=", "==" and "**" are two characters long, any
   * other operator character is one.
   */
  function MathOpLength(s: seq<char>): (n: nat)
    ensures n <= 2 && n <= |s|
    ensures n == 0 <==> |s| == 0 || (s[0] !in Comparisons && s[0] !in MathOps)
  {
    if |s| > 0 && s[0] in Comparisons then
      if |s| > 1 && s[1] == '=' then 2 else 1
    else if |s| > 0 && s[0] == '*' then
      if |s| > 1 && s[1] == '*' then 2 else 1
    else if |s| > 0 && s[0] in MathOps then 1
    else 0
  }
  /** The two-character operators are exactly "<=", ">=", "==" and "**". */
  lemma MathOpPairs(s: seq<char>)
    ensures MathOpLength(s) == 2 <==> |s| >= 2 && (s[0], s[1]) in {('<', '='), ('>', '='), ('=', '='), ('*', '*')}
  {
  }

  /**
   * Length of the identifier `scan_identifier` takes from the front of `s`,
   * 0 when there is none: a letter or '_', then letters, digits and '_'.
   */
  function IdentifierLength(s: seq<char>): (n: nat)
    ensures n <= |s|
    ensures n == 0 <==> |s| == 0 || s[0] !in Alpha
    ensures n > 0 ==> forall i :: 1 <= i < n ==> s[i] in Alnum
    ensures 0 < n < |s| ==> s[n] !in Alnum
  {
    if |s| > 0 && s[0] in Alpha then 1 + Span(s[1..], Alnum) else 0
  }

  /**
   * `scan_whitespace` (src/scanner.rs:49-52): skip whitespace and extract
   * everything up to the cursor, which always yields a (possibly empty) token.
   */
  method ScanWhitespace(s: Scanner<char>) returns (r: Option<string>)
    requires s.Valid()
    modifies s
    ensures s.Valid() && s.pos == -1
    ensures var k := Min(old(s.pos) + 1 + Span(old(s.Ahead()), White), |old(s.Stream())|);
      r == Some(old(s.Stream())[..k]) && s.Stream() == old(s.Stream())[k..]
  {
    ghost var stream := s.Stream();
    var _ := s.SkipAll(White);
    var token := s.Extract();
    r := Some(token);
  }

  /**
   * An optional sign and then digits, as `scan_number` reads them for the
   * integer part (src/scanner.rs:57-60) and for the exponent
   * (src/scanner.rs:73-74); the caller restores the cursor when no digit
   * came.
   */
  method SkipSignedDigits(s: Scanner<char>) returns (found: bool)
    requires s.Valid()
    modifies s
    ensures s.Valid() && s.Stream() == old(s.Stream()) && old(|s.buf|) <= |s.buf|
    ensures found <==> SignedDigits(old(s.Ahead())) > 0
    ensures found ==> s.pos == old(s.pos) + SignedDigits(old(s.Ahead())) && s.pos < |s.buf|
    ensures found ==> s.Ahead() == old(s.Ahead())[SignedDigits(old(s.Ahead()))..]
  {
    ghost var ahead := s.Ahead();
    var _ := s.AcceptAny(Signs);
    ghost var rest := ahead[SignLength(ahead)..];
    assert s.Ahead() == rest;
    found := s.SkipAll(Digits);
    assert found ==> s.Ahead() == ahead[SignedDigits(ahead)..];
  }

  /**
   * The exponent part of `scan_number` (src/scanner.rs:71-78): an exponent
   * letter, an optional sign and digits; when the digits are missing, back
   * to before the letter, which ends the number.
   */
  method SkipExponent(s: Scanner<char>) returns (kept: bool)
    requires s.Valid() && s.pos < |s.buf|
    modifies s
    ensures s.Valid() && s.Stream() == old(s.Stream()) && s.pos < |s.buf|
    ensures kept <==> !BareExponent(old(s.Ahead()))
    ensures s.pos == old(s.pos) + ExponentLength(old(s.Ahead()))
  {
    ghost var ahead := s.Ahead();
    var backtrack := s.BufferPos();
    var e := s.AcceptAny(Exponents);
    if e.Some? {
      var exponent := SkipSignedDigits(s);
      if !exponent {
        var _ := s.SetBufferPos(backtrack);
        return false;
      }
    }
    return true;
  }

  /**
   * The exponent stage of `scan_number` (src/scanner.rs:70-79): the exponent
   * part, then, unless it backed off, an optional 'i'.
   */
  method SkipExponentTail(s: Scanner<char>)
    requires s.Valid() && s.pos < |s.buf|
    modifies s
    ensures s.Valid() && s.Stream() == old(s.Stream()) && s.pos < |s.buf|
    ensures s.pos == old(s.pos) + ExponentTail(old(s.Ahead()))
  {
    var kept := SkipExponent(s);
    if kept {
      var _ := s.Accept('i');
    }
  }

  /**
   * The fraction stage of `scan_number` (src/scanner.rs:63-69): a '.' and
   * digits, then the exponent stage; a '.' without digits is given back and
   * ends the number.
   */
  method SkipNumberTail(s: Scanner<char>)
    requires s.Valid() && s.pos < |s.buf|
    modifies s
    ensures s.Valid() && s.Stream() == old(s.Stream()) && s.pos < |s.buf|
    ensures s.pos == old(s.pos) + NumberTail(old(s.Ahead()))
  {
    ghost var ahead := s.Ahead();
    var backtrack := s.BufferPos();
    var dot := s.Accept('.');
    if dot.Some? {
      var fraction := s.SkipAll(Digits);
      if !fraction {
        var _ := s.SetBufferPos(backtrack);
        return;
      }
      assert s.Ahead() == ahead[1..][Span(ahead[1..], Digits)..];
    }
    SkipExponentTail(s);
  }

  /**
   * The cursor moves of `scan_number` (src/scanner.rs:55-79): an optional
   * sign, the integer digits (without them, back to the start and no
   * number), then the fraction and exponent stages.
   */
  method SkipNumber(s: Scanner<char>) returns (found: bool)
    requires s.Valid()
    modifies s
    ensures s.Valid() && s.Stream() == old(s.Stream())
    ensures found <==> NumberLength(old(s.Ahead())) > 0
    ensures s.pos == old(s.pos) + NumberLength(old(s.Ahead()))
    ensures found ==> s.pos < |s.buf|
  {
    var backtrack := s.BufferPos();
    var digits := SkipSignedDigits(s);
    if !digits {
      var _ := s.SetBufferPos(backtrack);
      return false;
    }
    SkipNumberTail(s);
    return true;
  }

  /**
   * `scan_number` (src/scanner.rs:55-81): on success extract the buffer up to
   * the end of the number; with no digits after the optional sign, restore
   * the cursor and return None.
   */
  method ScanNumber(s: Scanner<char>) returns (r: Option<string>)
    requires s.Valid()
    modifies s
    ensures s.Valid()
    ensures var n := NumberLength(old(s.Ahead()));
      if n == 0 then
        r == None && s.pos == old(s.pos) && s.Stream() == old(s.Stream())
      else
        r.Some? && |r.value| == old(s.pos) + 1 + n && r.value + s.Stream() == old(s.Stream()) && s.pos == -1
  {
    var found := SkipNumber(s);
    if !found {
      return None;
    }
    var token := s.Extract();
    r := Some(token);
  }

  /**
   * The cursor moves of `scan_math_op` (src/scanner.rs:85-97): a comparison,
   * optionally followed by '=', or '*', optionally followed by '*', or a
   * one-character operator; nothing moves when none of them is next.
   */
  method SkipMathOp(s: Scanner<char>) returns (found: bool)
    requires s.Valid()
    modifies s
    ensures s.Valid() && s.Stream() == old(s.Stream())
    ensures found <==> MathOpLength(old(s.Ahead())) > 0
    ensures s.pos == old(s.pos) + MathOpLength(old(s.Ahead()))
    ensures found ==> s.pos < |s.buf|
  {
    var c := s.AcceptAny(Comparisons);
    if c.Some? {
      var _ := s.Accept('=');
      return true;
    }
    var star := s.Accept('*');
    if star.Some? {
      var _ := s.Accept('*');
      return true;
    }
    var op := s.AcceptAny(MathOps);
    found := op.Some?;
  }

  /**
   * `scan_math_op` (src/scanner.rs:83-98): the operator, extracted with
   * everything before it, or None with the cursor unmoved.
   */
  method ScanMathOp(s: Scanner<char>) returns (r: Option<string>)
    requires s.Valid()
    modifies s
    ensures s.Valid()
    ensures var n := MathOpLength(old(s.Ahead()));
      if n == 0 then
        r == None && s.pos == old(s.pos) && s.Stream() == old(s.Stream())
      else
        r.Some? && |r.value| == old(s.pos) + 1 + n && r.value + s.Stream() == old(s.Stream()) && s.pos == -1
  {
    var found := SkipMathOp(s);
    if !found {
      return None;
    }
    var token := s.Extract();
    r := Some(token);
  }

  /**
   * `scan_identifier` (src/scanner.rs:101-105): a letter or '_' followed by
   * letters, digits and '_'; None, with the cursor kept, otherwise.
   */
  method ScanIdentifier(s: Scanner<char>) returns (r: Option<string>)
    requires s.Valid()
    modifies s
    ensures s.Valid()
    ensures var n := IdentifierLength(old(s.Ahead()));
      if n == 0 then
        r == None && s.pos == old(s.pos) && s.Stream() == old(s.Stream())
      else
        r.Some? && |r.value| == old(s.pos) + 1 + n && r.value + s.Stream() == old(s.Stream()) && s.pos == -1
  {
    var first := s.AcceptAny(Alpha);
    if first.None? {
      return None;
    }
    var _ := s.SkipAll(Alnum);
    var token := s.Extract();
    r := Some(token);
  }
}
