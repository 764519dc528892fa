/**
 * The TokenQueue: a buffer in front of the Tokenizer that lets the parser look
 * ahead, consume tokens, and run speculative "tests" that are rolled back when
 * they raise a syntax error.
 *
 * Besides the source's own state (the buffered `queue`, the `tests` stack of
 * saved indices and the `index` of the next token) the class keeps a ghost
 * record `pulled` of everything it ever took from the tokenizer. Positions
 * (`Pos`) index into that record, which lets contracts name "the token the
 * call consumed" independently of how much of the buffer has been dropped.
 */
module Queueing {
  import opened Syntax
  import opened Lexer
  import opened Tokenizing

  /** How many entries of a run of tokenizer results are real tokens (not end markers). */
  function Tokens(q: seq<Option<Token>>): (n: nat)
    ensures n <= |q|
  {
    if q == [] then 0
    else Tokens(q[..|q| - 1]) + (if q[|q| - 1].Some? then 1 else 0)
  }

  /** Pulling more never lowers the number of tokens pulled. */
  lemma {:induction false} TokensGrow(a: seq<Option<Token>>, b: seq<Option<Token>>)
    requires a <= b
    ensures Tokens(a) <= Tokens(b)
    ensures Tokens(a) == Tokens(b) ==> forall i :: |a| <= i < |b| ==> b[i].None?
    decreases |b|
  {
    if |a| < |b| {
      var c := b[..|b| - 1];
      assert a <= c;
      TokensGrow(a, c);
      assert Tokens(b) == Tokens(c) + (if b[|b| - 1].Some? then 1 else 0);
    } else {
      assert a == b;
    }
  }

  /** A run of tokens with no end markers counts every entry. */
  lemma {:induction false} TokensAllSome(q: seq<Option<Token>>, k: nat)
    requires k <= |q|
    requires forall i {:trigger Real(q[i])} :: 0 <= i < k ==> Real(q[i])
    ensures Tokens(q) >= k
    decreases |q|
  {
    if k < |q| {
      TokensAllSome(q[..|q| - 1], k);
    } else if k > 0 {
      assert Real(q[|q| - 1]);
      TokensAllSome(q[..|q| - 1], k - 1);
    }
  }

  /** The answers of a tokenizer run, and the state it stands in after them. */
  datatype Trace = Trace(results: seq<Option<Token>>, last: Scan)

  /**
   * The first `n` answers of a tokenizer started in `origin`, as `Next` gives
   * them one after the other, or `None` when one of them is an error.
   */
  function Run(origin: Scan, n: nat): (t: Option<Trace>)
    requires origin.Valid()
    ensures t.Some? ==> |t.value.results| == n && t.value.last.Valid()
  {
    if n == 0 then Some(Trace([], origin))
    else match Run(origin, n - 1)
      case None => None
      case Some(t) =>
        var step := NextSpec(t.last);
        if step.result.Ok? then Some(Trace(t.results + [step.result.value], step.after)) else None
  }

  /** The first `n` answers from `origin` are all free of errors. */
  predicate Lexes(origin: Scan, n: nat)
    requires origin.Valid()
  {
    Run(origin, n).Some?
  }

  /** A shorter run is the front of a longer one, and a run that fails stays failed. */
  lemma {:induction false} RunPrefix(origin: Scan, m: nat, n: nat)
    requires origin.Valid() && m <= n
    ensures Lexes(origin, n) ==> Lexes(origin, m) && Run(origin, m).value.results == Run(origin, n).value.results[..m]
    decreases n
  {
    if m < n {
      RunPrefix(origin, m, n - 1);
      if Lexes(origin, n) {
        var t := Run(origin, n - 1).value;
        assert Run(origin, n).value.results[..n - 1] == t.results;
      }
    }
  }

  /**
   * After the answers `pulled`, the tokenizer started in `origin` answers with
   * an error: nothing further can ever be pulled.
   */
  ghost predicate Halted(origin: Scan, pulled: seq<Option<Token>>) {
    origin.Valid() && !Lexes(origin, |pulled| + 1)
  }

  /**
   * Entry `k` of a traced run. Before the end, the tokenizer in `scans[k]`
   * answered `pulled[k]` and moved to `scans[k + 1]`; at the end it stands in
   * `scans[k]` itself or, once its next answer turned out to be an error, in
   * `scan`, a state that still fails.
   */
  ghost predicate Stepped(scans: seq<Scan>, pulled: seq<Option<Token>>, scan: Scan, k: int)
    requires |scans| == |pulled| + 1 && 0 <= k < |scans|
  {
    scans[k].Valid() &&
    if k < |pulled| then NextSpec(scans[k]) == Step(Ok(pulled[k]), scans[k + 1])
    else scan == scans[k] || (scan.Valid() && Fails(scans[k]) && Fails(scan))
  }

  /**
   * `pulled` is what a tokenizer started in `origin` answered, with no error,
   * passing through the states `scans`, and it now stands in `scan`. Stated
   * entry by entry through `Stepped`, so that proofs which do not ask about
   * the tokenizer's steps do not unfold them.
   */
  ghost predicate Traced(origin: Scan, pulled: seq<Option<Token>>, scans: seq<Scan>, scan: Scan) {
    |scans| == |pulled| + 1 && scans[0] == origin &&
    forall k {:trigger Stepped(scans, pulled, scan, k)} :: 0 <= k < |scans| ==> Stepped(scans, pulled, scan, k)
  }

  /** A traced record is the run from its origin. */
  lemma {:induction false} TracedRun(origin: Scan, pulled: seq<Option<Token>>, scans: seq<Scan>, scan: Scan, n: nat)
    requires Traced(origin, pulled, scans, scan) && n <= |pulled|
    ensures origin.Valid() && Run(origin, n) == Some(Trace(pulled[..n], scans[n]))
  {
    if n == 0 {
      assert Stepped(scans, pulled, scan, 0);
    } else {
      TracedRun(origin, pulled, scans, scan, n - 1);
      assert Stepped(scans, pulled, scan, n - 1);
      var step := NextSpec(scans[n - 1]);
      assert step.result == Ok(pulled[n - 1]) && step.after == scans[n];
      assert pulled[..n - 1] + [pulled[n - 1]] == pulled[..n];
      assert Run(origin, n) == Some(Trace(pulled[..n - 1] + [step.result.value], step.after));
    }
  }

  /** When the tokenizer fails where it stands, the run from the origin stops after the record. */
  lemma TracedHalted(origin: Scan, pulled: seq<Option<Token>>, scans: seq<Scan>, scan: Scan)
    requires Traced(origin, pulled, scans, scan) && scan.Valid() && Fails(scan)
    ensures Halted(origin, pulled) && scans[|pulled|].Valid() && Fails(scans[|pulled|])
  {
    TracedRun(origin, pulled, scans, scan, |pulled|);
    assert pulled[..|pulled|] == pulled;
    assert Stepped(scans, pulled, scan, |pulled|);
  }

  /** A further answer that is an error leaves the record as it was, and the tokenizer still failing. */
  lemma TracedErr(origin: Scan, pulled: seq<Option<Token>>, scans: seq<Scan>, scan: Scan)
    requires Traced(origin, pulled, scans, scan) && scan.Valid() && Fails(scan)
    ensures Traced(origin, pulled, scans, NextSpec(scan).after)
  {
    TracedHalted(origin, pulled, scans, scan);
    ErrorIsSticky(scan);
    NextProgress(scan);
    forall k | 0 <= k < |scans|
      ensures Stepped(scans, pulled, NextSpec(scan).after, k)
    {
      assert Stepped(scans, pulled, scan, k);
    }
  }

  /** A further answer that is a result extends the record by it. */
  lemma TracedOk(origin: Scan, pulled: seq<Option<Token>>, scans: seq<Scan>, scan: Scan)
    requires Traced(origin, pulled, scans, scan) && scan.Valid() && !Fails(scan)
    ensures scan == scans[|pulled|]
    ensures Traced(origin, pulled + [NextSpec(scan).result.value], scans + [NextSpec(scan).after], NextSpec(scan).after)
  {
    assert Stepped(scans, pulled, scan, |pulled|);
    NextProgress(scan);
    var pulled', scans', scan' := pulled + [NextSpec(scan).result.value], scans + [NextSpec(scan).after], NextSpec(scan).after;
    forall k | 0 <= k < |scans'|
      ensures Stepped(scans', pulled', scan', k)
    {
      if k < |pulled| {
        assert Stepped(scans, pulled, scan, k);
      }
    }
  }

  /** The queue as a value, for stating how far a parse has come. */
  datatype Snap = Snap(scan: Scan, pulled: seq<Option<Token>>, pos: int, origin: Scan)

  /**
   * `b` is a later state of the same queue than `a`: the record of pulled
   * tokens has only been extended, the tokenizer has not moved back, and it
   * has moved strictly forward if a real token was pulled meanwhile.
   */
  ghost predicate Grown(a: Snap, b: Snap) {
    a.origin == b.origin && a.pulled <= b.pulled && NotBehind(b.scan, a.scan) &&
    (Tokens(a.pulled) < Tokens(b.pulled) ==> Ahead(b.scan, a.scan))
  }

  lemma GrownRefl(a: Snap)
    ensures Grown(a, a)
  {
  }

  lemma GrownTrans(a: Snap, b: Snap, c: Snap)
    requires Grown(a, b) && Grown(b, c)
    ensures Grown(a, c)
  {
    TokensGrow(a.pulled, b.pulled);
    TokensGrow(b.pulled, c.pulled);
  }

  /** Once the tokenizer has halted, a traced record grows no more. */
  lemma HaltedStays(a: Snap, b: Snap)
    requires Grown(a, b) && Halted(a.origin, a.pulled) && Lexes(b.origin, |b.pulled|)
    ensures b.pulled == a.pulled
  {
    if |b.pulled| > |a.pulled| {
      RunPrefix(a.origin, |a.pulled| + 1, |b.pulled|);
    }
  }

  /** Tokens pulled but not yet consumed. */
  ghost function Pending(a: Snap): nat {
    var t := Tokens(a.pulled);
    if 0 <= a.pos <= t then t - a.pos else 0
  }

  /**
   * The parser's termination measure, compared lexicographically: characters
   * left, indentation gap, tokens pulled but not consumed.
   */
  ghost predicate MeasureLe(b: Snap, a: Snap) {
    Remaining(b.scan) < Remaining(a.scan) ||
    (Remaining(b.scan) == Remaining(a.scan) &&
     (Gap(b.scan) < Gap(a.scan) || (Gap(b.scan) == Gap(a.scan) && Pending(b) <= Pending(a))))
  }

  ghost predicate MeasureLt(b: Snap, a: Snap) {
    Remaining(b.scan) < Remaining(a.scan) ||
    (Remaining(b.scan) == Remaining(a.scan) &&
     (Gap(b.scan) < Gap(a.scan) || (Gap(b.scan) == Gap(a.scan) && Pending(b) < Pending(a))))
  }

  /** Every position before `pos` holds a real token (only real tokens are ever consumed). */
  ghost predicate ConsumedReal(a: Snap) {
    0 <= a.pos <= |a.pulled| && forall i {:trigger Real(a.pulled[i])} :: 0 <= i < a.pos ==> Real(a.pulled[i])
  }

  /**
   * The measure never goes up as the queue grows and the parse moves on, and
   * it goes strictly down once a token has been consumed.
   */
  lemma Progress(a: Snap, b: Snap)
    requires Grown(a, b) && ConsumedReal(a) && ConsumedReal(b) && a.pos <= b.pos
    ensures MeasureLe(b, a)
    ensures a.pos < b.pos ==> MeasureLt(b, a)
  {
    TokensGrow(a.pulled, b.pulled);
    TokensAllSome(a.pulled, a.pos);
    TokensAllSome(b.pulled, b.pos);
  }

  /**
   * The buffer's invariant: the buffer is the tail of everything pulled, the
   * test marks are sorted and not past the index (the outermost one is 0, and
   * with no test running the index is 0), only real tokens lie before the
   * next position, and every pulled token has the shape its rule matched.
   */
  ghost predicate Buffered(queue: seq<Option<Token>>, tests: seq<nat>, index: nat, pulled: seq<Option<Token>>) {
    index <= |queue| <= |pulled| && (forall k :: 0 <= k < |queue| ==> queue[k] == pulled[|pulled| - |queue| + k]) &&
    (tests == [] ==> index == 0) &&
    (tests != [] ==> tests[0] == 0) &&
    (forall i, j :: 0 <= i < j < |tests| ==> tests[i] <= tests[j]) &&
    (forall i :: 0 <= i < |tests| ==> tests[i] <= index) &&
    (forall i {:trigger Real(pulled[i])} :: 0 <= i < |pulled| - |queue| + index ==> Real(pulled[i])) &&
    AllWellFormed(pulled)
  }

  /** Every real token in a run has the shape its rule matched. */
  ghost predicate AllWellFormed(pulled: seq<Option<Token>>) {
    forall i {:trigger Shaped(pulled[i])} :: 0 <= i < |pulled| ==> Shaped(pulled[i])
  }

  /**
   * A record entry is a real token. Stating the invariants through this
   * predicate (and `Shaped`) keeps them from firing on every entry a proof
   * mentions.
   */
  ghost predicate Real(o: Option<Token>) {
    o.Some?
  }

  /** A record entry is the end of input or a token of the shape its rule matched. */
  ghost predicate Shaped(o: Option<Token>) {
    o.Some? ==> WellFormed(o.value)
  }

  /** A window of the buffer is the matching window of everything pulled. */
  lemma BufferWindow(queue: seq<Option<Token>>, pulled: seq<Option<Token>>, i: nat, j: nat)
    requires |queue| <= |pulled| && queue == pulled[|pulled| - |queue|..] && i <= j <= |queue|
    ensures queue[i..j] == pulled[|pulled| - |queue| + i..|pulled| - |queue| + j]
  {
  }

  /** Appending a tokenizer result keeps the invariant. */
  lemma BufferedPush(queue: seq<Option<Token>>, tests: seq<nat>, index: nat, pulled: seq<Option<Token>>, t: Option<Token>)
    requires Buffered(queue, tests, index, pulled)
    requires t.Some? ==> WellFormed(t.value)
    ensures Buffered(queue + [t], tests, index, pulled + [t])
  {
    assert (pulled + [t])[|pulled + [t]| - |queue + [t]|..] == queue + [t];
  }

  /** Inside a test, consuming a real token moves the index on. */
  lemma BufferedStep(queue: seq<Option<Token>>, tests: seq<nat>, index: nat, pulled: seq<Option<Token>>)
    requires Buffered(queue, tests, index, pulled)
    requires tests != [] && index < |queue| && queue[index].Some?
    ensures Buffered(queue, tests, index + 1, pulled)
  {
    assert pulled[|pulled| - |queue| + index] == queue[index];
  }

  /** Outside any test, consuming a real token drops it from the buffer. */
  lemma BufferedShift(queue: seq<Option<Token>>, index: nat, pulled: seq<Option<Token>>)
    requires Buffered(queue, [], index, pulled)
    requires 0 < |queue| && queue[0].Some?
    ensures Buffered(queue[1..], [], 0, pulled)
  {
    assert pulled[|pulled| - |queue|] == queue[0];
    assert pulled[|pulled| - |queue[1..]|..] == queue[1..];
  }

  class TokenQueue {
    var tokenizer: Tokenizer
    /** Buffered tokenizer results (`None` for each end-of-input answer). */
    var queue: seq<Option<Token>>
    /** Saved indices of the running tests, innermost last. */
    var tests: seq<nat>
    /** Index in `queue` of the next token. */
    var index: nat
    /** Everything ever pulled from the tokenizer, in order. */
    ghost var pulled: seq<Option<Token>>
    /** The tokenizer's state when the record started. */
    ghost var origin: Scan
    /** The tokenizer's state before each answer in the record, and after the last one. */
    ghost var scans: seq<Scan>

    ghost predicate Valid()
      reads this, tokenizer
    {
      tokenizer.Valid() && Buffered(queue, tests, index, pulled) && Traced(origin, pulled, scans, tokenizer.State())
    }

    /** How many entries of `pulled` have been dropped from the front of the buffer. */
    ghost function Base(): int
      reads this
    {
      |pulled| - |queue|
    }

    /** The position in `pulled` of the next token. */
    ghost function Pos(): int
      reads this
    {
      Base() + index
    }

    /** The tokenizer is stuck on a lexical error: every further pull fails. */
    ghost predicate Stuck()
      reads this, tokenizer
      requires tokenizer.Valid()
    {
      Fails(tokenizer.State())
    }

    /** Only real tokens lie before the next position. */
    lemma ConsumedSoFar()
      requires Valid()
      ensures ConsumedReal(Snapshot())
    {
    }

    /** The buffered results from the index on are the record's from the next position on. */
    lemma Window(amount: nat)
      requires Valid() && index + amount <= |queue|
      ensures Pos() + amount <= |pulled| && queue[index..index + amount] == pulled[Pos()..Pos() + amount]
    {
      BufferWindow(queue, pulled, index, index + amount);
    }

    /** The buffered result at the index is the record's at the next position. */
    lemma Front()
      requires Valid() && index < |queue|
      ensures Pos() < |pulled| && queue[index] == pulled[Pos()]
    {
    }

    ghost function Snapshot(): Snap
      reads this, tokenizer
    {
      Snap(tokenizer.State(), pulled, Pos(), origin)
    }

    /** The record is what the tokenizer answered since it started in `origin`. */
    lemma Lexed()
      requires Valid()
      ensures origin.Valid() && Lexes(origin, |pulled|) && Run(origin, |pulled|).value.results == pulled
    {
      TracedRun(origin, pulled, scans, tokenizer.State(), |pulled|);
      assert pulled[..|pulled|] == pulled;
    }

    constructor (tokenizer: Tokenizer)
      requires tokenizer.Valid()
      ensures Valid() && this.tokenizer == tokenizer
      ensures queue == [] && tests == [] && index == 0 && pulled == [] && origin == tokenizer.State()
    {
      this.tokenizer := tokenizer;
      queue := [];
      tests := [];
      index := 0;
      pulled := [];
      origin := tokenizer.State();
      scans := [tokenizer.State()];
    }

    /** Empties the buffer and the test stack. */
    method Reset()
      requires tokenizer.Valid()
      modifies this
      ensures Valid() && tokenizer == old(tokenizer)
      ensures queue == [] && tests == [] && index == 0 && pulled == [] && origin == tokenizer.State()
    {
      queue := [];
      tests := [];
      index := 0;
      pulled := [];
      origin := tokenizer.State();
      scans := [tokenizer.State()];
    }

    /** The number of buffered entries from the next token on. */
    function Count(): (n: int)
      requires Valid()
      reads this, tokenizer
      ensures n >= 0 && n == |pulled| - Pos()
    {
      |queue| - index
    }

    /** Appends the tokenizer's next result to the buffer (one step of `peek`'s loop). */
    method Pull() returns (r: Result<Option<Token>>)
      requires Valid()
      modifies this, tokenizer
      ensures Valid() && tokenizer == old(tokenizer) && tests == old(tests) && index == old(index)
      ensures Grown(old(Snapshot()), Snapshot())
      ensures r == NextSpec(old(tokenizer.State())).result && tokenizer.State() == NextSpec(old(tokenizer.State())).after
      ensures r.Err? <==> old(Stuck())
      ensures r.Err? ==> Stuck() && Halted(origin, pulled)
      ensures r.Ok? ==> queue == old(queue) + [r.value] && pulled == old(pulled) + [r.value]
      ensures r.Err? ==>
        queue == old(queue) && pulled == old(pulled) && (r.error.UnexpectedCharacter? || r.error.UnexpectedIndent?)
    {
      ghost var before := Snapshot();
      NextProgress(tokenizer.State());
      NextWellFormed(tokenizer.State());
      NextErrorIsLexical(tokenizer.State());
      if Fails(tokenizer.State()) {
        ErrorIsSticky(tokenizer.State());
        TracedHalted(origin, pulled, scans, tokenizer.State());
        TracedErr(origin, pulled, scans, tokenizer.State());
      } else {
        TracedOk(origin, pulled, scans, tokenizer.State());
      }
      r := tokenizer.Next();
      if r.Ok? {
        Push(r.value, before);
      }
    }

    /**
     * Appends one tokenizer result, pulled since `before`, to the buffer and
     * the record, the tokenizer having answered it from the state `before`.
     */
    method Push(t: Option<Token>, ghost before: Snap)
      requires tokenizer.Valid() && Buffered(queue, tests, index, pulled)
      requires before.pulled == pulled && before.origin == origin && NotBehind(tokenizer.State(), before.scan)
      requires t.Some? ==> WellFormed(t.value) && Ahead(tokenizer.State(), before.scan)
      requires Traced(origin, pulled + [t], scans + [tokenizer.State()], tokenizer.State())
      modifies this
      ensures Valid() && tokenizer == old(tokenizer) && tests == old(tests) && index == old(index)
      ensures queue == old(queue) + [t] && pulled == old(pulled) + [t] && origin == old(origin)
      ensures Grown(before, Snapshot())
    {
      BufferedPush(queue, tests, index, pulled, t);
      queue := queue + [t];
      pulled := pulled + [t];
      scans := scans + [tokenizer.State()];
      assert Tokens(pulled) == Tokens(before.pulled) + (if t.Some? then 1 else 0);
    }

    /**
     * The next `amount` tokenizer results, pulling more from the tokenizer as
     * needed, without consuming any.
     */
    method Peek(amount: int) returns (r: Result<seq<Option<Token>>>)
      requires Valid()
      modifies this, tokenizer
      ensures Valid() && tokenizer == old(tokenizer) && tests == old(tests)
      ensures Pos() == old(Pos()) && Base() == old(Base()) && old(pulled) <= pulled
      ensures Grown(old(Snapshot()), Snapshot())
      ensures amount < 1 ==> r == Err(RangeError(amount)) && pulled == old(pulled)
      ensures r.Ok? ==> Pos() + amount <= |pulled| && r.value == pulled[Pos()..Pos() + amount]
      ensures r.Err? && amount >= 1 ==>
        Pos() + amount > |pulled| && (r.error.UnexpectedCharacter? || r.error.UnexpectedIndent?)
      ensures r.Err? && amount >= 1 ==> Stuck() && Halted(origin, pulled)
    {
      if amount < 1 {
        return Err(RangeError(amount));
      }
      var failure := Fill(amount);
      if failure.Some? {
        return Err(failure.value);
      }
      Window(amount);
      return Ok(queue[index..index + amount]);
    }

    /** `peek`'s loop: pulls until `amount` results lie past the index, or the tokenizer fails. */
    method Fill(amount: nat) returns (failure: Option<Error>)
      requires Valid()
      modifies this, tokenizer
      ensures Valid() && tokenizer == old(tokenizer) && tests == old(tests) && index == old(index)
      ensures Base() == old(Base()) && old(pulled) <= pulled
      ensures Grown(old(Snapshot()), Snapshot())
      ensures failure.None? ==> index + amount <= |queue|
      ensures failure.Some? ==>
        Pos() + amount > |pulled| && Stuck() && Halted(origin, pulled) &&
        (failure.value.UnexpectedCharacter? || failure.value.UnexpectedIndent?)
      ensures old(Stuck()) ==> Stuck() && pulled == old(pulled)
    {
      ghost var start := Snapshot();
      while amount - (|queue| - index) > 0
        invariant Valid() && tokenizer == old(tokenizer) && tests == old(tests) && index == old(index)
        invariant Base() == old(Base()) && old(pulled) <= pulled
        invariant Grown(start, Snapshot())
        invariant old(Stuck()) ==> Stuck() && pulled == old(pulled)
        decreases amount - (|queue| - index)
      {
        ghost var before := Snapshot();
        var t := Pull();
        GrownTrans(start, before, Snapshot());
        if t.Err? {
          return Some(t.error);
        }
      }
      return None;
    }

    /**
     * `peek()` with its default amount 1: `peek`'s loop, then the single
     * result at the index rather than a slice.
     */
    method PeekOne() returns (r: Result<Option<Token>>)
      requires Valid()
      modifies this, tokenizer
      ensures Valid() && tokenizer == old(tokenizer) && tests == old(tests)
      ensures Pos() == old(Pos()) && Base() == old(Base()) && old(pulled) <= pulled
      ensures Grown(old(Snapshot()), Snapshot())
      ensures r.Ok? ==> Pos() < |pulled| && r.value == pulled[Pos()]
      ensures r.Err? ==> Pos() >= |pulled| && Halted(origin, pulled) && (r.error.UnexpectedCharacter? || r.error.UnexpectedIndent?)
    {
      var failure := Fill(1);
      if failure.Some? {
        return Err(failure.value);
      }
      Front();
      return Ok(queue[index]);
    }

    /**
     * Consumes the next token, which must be one of `kinds`. Inside a test the
     * index moves on; otherwise the token leaves the buffer.
     */
    method Eat(kinds: seq<Kind>) returns (r: Result<Token>)
      requires Valid()
      modifies this, tokenizer
      ensures Valid() && tokenizer == old(tokenizer) && tests == old(tests)
      ensures old(pulled) <= pulled && Grown(old(Snapshot()), Snapshot())
      ensures tests != [] ==> Base() == old(Base())
      ensures r.Ok? ==> r.value.kind in kinds && Pos() == old(Pos()) + 1 && pulled[old(Pos())] == Some(r.value)
      ensures r.Err? ==> Pos() == old(Pos()) && r.error.IsSyntax()
      ensures old(Pos()) < |pulled| ==>
        (r.Ok? <==> pulled[old(Pos())].Some? && pulled[old(Pos())].value.kind in kinds)
      ensures old(Pos()) < |pulled| && pulled[old(Pos())].None? ==> r == Err(UnexpectedEOF(kinds))
      ensures old(Pos()) < |pulled| && pulled[old(Pos())].Some? && pulled[old(Pos())].value.kind !in kinds ==>
        r == Err(UnexpectedToken(pulled[old(Pos())].value, kinds))
      ensures old(Pos()) >= |pulled| ==>
        r.Err? && Halted(origin, pulled) && (r.error.UnexpectedCharacter? || r.error.UnexpectedIndent?)
    {
      var p := PeekOne();
      if p.Err? {
        return Err(p.error);
      }
      var next := p.value;
      if next.None? {
        return Err(UnexpectedEOF(kinds));
      }
      if next.value.kind !in kinds {
        return Err(UnexpectedToken(next.value, kinds));
      }
      Consume();
      return Ok(next.value);
    }

    /**
     * Takes the next token, known to be a real one, off the front: inside a
     * test the index moves on; otherwise the token leaves the buffer.
     */
    method Consume()
      requires Valid() && Pos() < |pulled| && pulled[Pos()].Some?
      modifies this
      ensures Valid() && tokenizer == old(tokenizer) && tests == old(tests) && pulled == old(pulled) && origin == old(origin)
      ensures Pos() == old(Pos()) + 1
      ensures tests != [] ==> Base() == old(Base())
    {
      Front();
      if |tests| > 0 {
        BufferedStep(queue, tests, index, pulled);
        index := index + 1;
      } else {
        BufferedShift(queue, index, pulled);
        queue := queue[1..];
      }
    }

    /** Consumes the next token only when it is one of `kinds`; otherwise consumes nothing. */
    method Optional(kinds: seq<Kind>) returns (r: Result<Option<Token>>)
      requires Valid()
      modifies this, tokenizer
      ensures Valid() && tokenizer == old(tokenizer) && tests == old(tests)
      ensures old(pulled) <= pulled && Grown(old(Snapshot()), Snapshot())
      ensures tests != [] ==> Base() == old(Base())
      ensures r.Err? ==>
        Pos() == old(Pos()) && Pos() >= |pulled| && Halted(origin, pulled) &&
        (r.error.UnexpectedCharacter? || r.error.UnexpectedIndent?)
      ensures r.Ok? ==> old(Pos()) < |pulled|
      ensures r.Ok? && r.value.Some? ==>
        r.value.value.kind in kinds && Pos() == old(Pos()) + 1 && pulled[old(Pos())] == r.value
      ensures r.Ok? && r.value.None? ==>
        Pos() == old(Pos()) && (pulled[Pos()].None? || pulled[Pos()].value.kind !in kinds)
    {
      var p := PeekOne();
      if p.Err? {
        return Err(p.error);
      }
      var next := p.value;
      if next.None? || next.value.kind !in kinds {
        return Ok(None);
      }
      ghost var mid := Snapshot();
      var e := Eat([next.value.kind]);
      GrownTrans(old(Snapshot()), mid, Snapshot());
      return Ok(Some(e.value));
    }

    /** Opens a test: saves the current index. */
    method BeginTest()
      requires Valid()
      modifies this
      ensures Valid() && tokenizer == old(tokenizer)
      ensures tests == old(tests) + [old(index)]
      ensures queue == old(queue) && index == old(index) && pulled == old(pulled) && origin == old(origin)
    {
      tests := tests + [index];
    }

    /**
     * Closes the innermost test on the outcome `r` of its body. A syntax error
     * rewinds to the saved index and yields `None`; any other error propagates
     * and leaves the test open; success yields the body's value, and when no
     * outer test is left the consumed tokens leave the buffer. On success the
     * index goes back to the saved one, as the source does, so an inner test
     * that succeeds inside an outer one hands its tokens back.
     */
    method EndTest<T>(r: Result<T>) returns (o: Result<Option<T>>)
      requires Valid() && |tests| > 0
      modifies this
      ensures Valid() && tokenizer == old(tokenizer) && pulled == old(pulled) && origin == old(origin)
      ensures r.Err? && r.error.IsSyntax() ==>
        o == Ok(None) && tests == old(tests[..|tests| - 1]) && Base() == old(Base()) &&
        index == old(tests[|tests| - 1])
      ensures r.Err? && !r.error.IsSyntax() ==>
        o == Err(r.error) && tests == old(tests) && Base() == old(Base()) && index == old(index)
      ensures r.Ok? ==> o == Ok(Some(r.value)) && tests == old(tests[..|tests| - 1])
      ensures r.Ok? && tests == [] ==> index == 0 && Pos() == old(Pos())
      ensures r.Ok? && tests != [] ==> Base() == old(Base()) && index == old(tests[|tests| - 1])
    {
      var mark := tests[|tests| - 1];
      if r.Err? {
        if r.error.IsSyntax() {
          tests := tests[..|tests| - 1];
          index := mark;
          return Ok(None);
        }
        return Err(r.error);
      }
      tests := tests[..|tests| - 1];
      if tests == [] {
        queue := queue[index..];
      }
      index := mark;
      return Ok(Some(r.value));
    }
  }
}
