/** Tokens, errors and the nodes of the parsed workout tree. */
module Syntax {

  datatype Option<T> = None | Some(value: T)

  /** Token kinds, one per entry of the rule table plus the synthetic INDENT/DEDENT. */
  datatype Kind =
    | Newline | Indent | Dedent
    | Comma | Repeat | Cycle | Ramp | At | Watts | Percent
    | Sec | Min | Hr
    | Float | Int | Str

  /** A lexical unit; `value` is the matched text ("" for INDENT and DEDENT). */
  datatype Token = Token(kind: Kind, value: string, line: nat, column: nat)

  /**
   * Failures. The first four are the syntax errors that a speculative `test`
   * catches; RangeError (bad `peek` amount) and TypeError (a dereferenced
   * missing token) are fatal and always propagate.
   */
  datatype Error =
    | UnexpectedCharacter(character: string, line: nat, column: nat)
    | UnexpectedIndent(indent: nat, line: nat, column: nat)
    | UnexpectedToken(found: Token, expected: seq<Kind>)
    | UnexpectedEOF(expected: seq<Kind>)
    | RangeError(amount: int)
    | TypeError
  {
    predicate IsSyntax() {
      !RangeError? && !TypeError?
    }
  }

  datatype Result<T> = Ok(value: T) | Err(error: Error)

  datatype Intensity = Power(watts: nat) | PercentFTP(fraction: real)

  /** An Interval (duration in seconds) or a repeated Set of children. */
  datatype Node =
    | Interval(duration: real, intensity: Intensity, annotation: Option<string>)
    | Set(repeat: nat, sets: seq<Node>)

  /** The Interval builder: an annotation is kept only when it is a non-empty string. */
  function MakeInterval(duration: real, intensity: Intensity, annotation: Option<string>): (n: Node)
    ensures n.Interval? && n.duration == duration && n.intensity == intensity
    ensures n.annotation.Some? <==> annotation.Some? && annotation.value != ""
    ensures n.annotation.Some? ==> n.annotation == annotation
  {
    if annotation.Some? && annotation.value != "" then Interval(duration, intensity, annotation)
    else Interval(duration, intensity, None)
  }

  /**
   * The shape the parser guarantees: every Set repeats at least twice (sets with
   * a single repeat are spliced into their parent), every duration is
   * non-negative and every annotation is non-empty.
   */
  predicate Normal(n: Node) {
    match n
    case Interval(d, _, a) => d >= 0.0 && (a.Some? ==> a.value != "")
    case Set(repeat, sets) => repeat >= 2 && forall i :: 0 <= i < |sets| ==> Normal(sets[i])
  }

  predicate AllNormal(ns: seq<Node>) {
    forall i :: 0 <= i < |ns| ==> Normal(ns[i])
  }

  /**
   * What a Set contributes to its parent's list: a Set repeated fewer than
   * twice is replaced by its children, any other Set is kept whole.
   */
  function Spliced(n: Node): seq<Node>
    requires n.Set?
  {
    if n.repeat < 2 then n.sets else [n]
  }

  /** `k` copies of `xs` in a row. */
  function Times(xs: seq<Node>, k: nat): (r: seq<Node>)
    ensures |r| == |xs| * k
  {
    if k == 0 then [] else xs + Times(xs, k - 1)
  }

  /** The workout a list of nodes describes: its intervals in order, every Set unrolled. */
  function Unroll(ns: seq<Node>): seq<Node>
    decreases ns
  {
    if ns == [] then []
    else match ns[0]
      case Interval(_, _, _) => [ns[0]] + Unroll(ns[1..])
      case Set(k, xs) => Times(Unroll(xs), k) + Unroll(ns[1..])
  }

  lemma {:induction false} UnrollAppend(a: seq<Node>, b: seq<Node>)
    ensures Unroll(a + b) == Unroll(a) + Unroll(b)
    decreases a
  {
    if a == [] {
      assert a + b == b;
    } else {
      assert (a + b)[0] == a[0];
      assert (a + b)[1..] == a[1..] + b;
      UnrollAppend(a[1..], b);
      var head := match a[0] case Interval(_, _, _) => [a[0]] case Set(k, xs) => Times(Unroll(xs), k);
      assert Unroll(a) == head + Unroll(a[1..]);
      assert Unroll(a + b) == head + Unroll(a[1..] + b);
    }
  }

  /**
   * Splicing keeps the shape the parser guarantees, and a Set repeated once
   * describes the same workout as its children: flattening changes nothing.
   */
  lemma SplicedKeepsWorkout(n: Node)
    requires n.Set? && n.repeat >= 1 && AllNormal(n.sets)
    ensures AllNormal(Spliced(n))
    ensures Unroll(Spliced(n)) == Unroll([n])
  {
    var xs := Unroll(n.sets);
    assert Unroll([n]) == Times(xs, n.repeat) + Unroll([]);
    if n.repeat < 2 {
      assert Times(xs, 1) == xs + [];
    }
  }

  /**
   * The Block loop's step: appending what a child Set contributes keeps the
   * flattened list normal and describing the same workout as the list of
   * child Sets as parsed.
   */
  lemma SpliceStep(flat: seq<Node>, nested: seq<Node>, n: Node)
    requires AllNormal(flat) && Unroll(flat) == Unroll(nested)
    requires n.Set? && n.repeat >= 1 && AllNormal(n.sets)
    ensures AllNormal(flat + Spliced(n)) && Unroll(flat + Spliced(n)) == Unroll(nested + [n])
  {
    SplicedKeepsWorkout(n);
    UnrollAppend(flat, Spliced(n));
    UnrollAppend(nested, [n]);
  }

  /** The list an INDENT block yields for the Sets it parsed: what each of them contributes, in order. */
  function Flattened(sets: seq<Node>): seq<Node>
    requires forall i :: 0 <= i < |sets| ==> sets[i].Set?
  {
    if sets == [] then [] else Flattened(sets[..|sets| - 1]) + Spliced(sets[|sets| - 1])
  }

  /** One more Set adds what it contributes at the end of the flattened list. */
  lemma FlattenedSnoc(sets: seq<Node>, n: Node)
    requires forall i :: 0 <= i < |sets| ==> sets[i].Set?
    requires n.Set?
    ensures Flattened(sets + [n]) == Flattened(sets) + Spliced(n)
  {
    assert (sets + [n])[..|sets|] == sets;
  }

  /**
   * Flattening a list of Sets, each repeated at least once, yields a normal
   * list that describes the same workout as the Sets themselves.
   */
  lemma {:induction false} FlattenedKeepsWorkout(sets: seq<Node>)
    requires forall i :: 0 <= i < |sets| ==> sets[i].Set? && sets[i].repeat >= 1 && AllNormal(sets[i].sets)
    ensures AllNormal(Flattened(sets)) && Unroll(Flattened(sets)) == Unroll(sets)
  {
    if sets != [] {
      var init := sets[..|sets| - 1];
      FlattenedKeepsWorkout(init);
      SpliceStep(Flattened(init), init, sets[|sets| - 1]);
      assert init + [sets[|sets| - 1]] == sets;
    }
  }
}
