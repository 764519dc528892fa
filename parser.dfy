/**
 * The recursive-descent Parser over the TokenQueue: workout text to a list of
 * Interval and Set nodes.
 *
 * Contracts speak of `Pulled()`, the record of everything the queue took from
 * the tokenizer (`None` for each end-of-input answer), and `Pos()`, the
 * position in it of the next token: "the call consumed an INT and then a W"
 * is a statement about `Pulled()[old(Pos())]` and `Pulled()[old(Pos()) + 1]`.
 * The grammar never nests speculative tests; the methods that open one
 * require that none is open.
 */
module Parsing {
  import opened Syntax
  import opened Lexer
  import opened Numbers
  import opened Tokenizing
  import opened Queueing

  /** Entry `i` of a pulled record is a real token of kind `k`. */
  ghost predicate Is(pulled: seq<Option<Token>>, i: int, k: Kind) {
    0 <= i < |pulled| && pulled[i].Some? && pulled[i].value.kind == k
  }

  /** Entry `i` of a pulled record is a well-formed INT or FLOAT. */
  ghost predicate IsNumber(pulled: seq<Option<Token>>, i: int) {
    (Is(pulled, i, Int) || Is(pulled, i, Kind.Float)) && Shaped(pulled[i])
  }

  /** Entry `i` of a pulled record is a duration unit. */
  ghost predicate IsUnit(pulled: seq<Option<Token>>, i: int) {
    Is(pulled, i, Sec) || Is(pulled, i, Min) || Is(pulled, i, Hr)
  }

  /** Entry `i` of a pulled record is the end of input. */
  ghost predicate IsEnd(pulled: seq<Option<Token>>, i: int) {
    0 <= i < |pulled| && pulled[i].None?
  }

  /** Entries `i` and `i + 1` of a pulled record are a well-formed INT and a W. */
  ghost predicate IsPower(pulled: seq<Option<Token>>, i: int) {
    Is(pulled, i, Int) && Shaped(pulled[i]) && Is(pulled, i + 1, Watts)
  }

  ghost function Tok(pulled: seq<Option<Token>>, i: int): Token
    requires 0 <= i < |pulled| && pulled[i].Some?
  {
    pulled[i].value
  }

  /** The value of the INT at entry `i` of a record of well-formed tokens. */
  ghost function IntegerAt(pulled: seq<Option<Token>>, i: int): nat
    requires Is(pulled, i, Int) && Shaped(pulled[i])
  {
    NumeralValue(pulled[i].value.value)
  }

  /** The value `Number()` gives an INT or FLOAT token's text. */
  function NumberOf(t: Token): (x: real)
    requires (t.kind == Int && IsNumeral(t.value)) || (t.kind == Kind.Float && IsDecimal(t.value))
    ensures x >= 0.0
    ensures t.kind == Int ==> IsIntegral(x) && x == NumeralValue(t.value) as real
    ensures t.kind == Kind.Float ==>
      NumeralValue(IntegerPart(t.value)) as real <= x < NumeralValue(IntegerPart(t.value)) as real + 1.0
  {
    if t.kind == Int then NumeralValue(t.value) as real else DecimalValue(t.value)
  }

  /** The number at entry `i` of a record of well-formed tokens. */
  ghost function NumberAt(pulled: seq<Option<Token>>, i: int): real
    requires IsNumber(pulled, i)
  {
    NumberOf(pulled[i].value)
  }

  /** `x` of a duration unit, in seconds. */
  function Seconds(x: real, unit: Kind): (s: real)
    requires unit == Sec || unit == Min || unit == Hr
    ensures x >= 0.0 ==> s >= x
    ensures unit != Sec && x > 0.0 ==> s >= 60.0 * x
  {
    match unit
    case Sec => x
    case Min => x * 60.0
    case Hr => x * 3600.0
  }

  /** Entry `i` is a duration unit that accepts the count `x`: seconds must be whole. */
  ghost predicate DurationUnit(pulled: seq<Option<Token>>, i: int, x: real) {
    IsUnit(pulled, i) && (Is(pulled, i, Sec) ==> IsIntegral(x))
  }

  /** Entries `i` and `i + 1` are a number and a duration unit that accepts it. */
  ghost predicate IsDuration(pulled: seq<Option<Token>>, i: int) {
    IsNumber(pulled, i) && DurationUnit(pulled, i + 1, NumberAt(pulled, i))
  }

  /** The duration at entry `i`, in seconds. */
  ghost function DurationAt(pulled: seq<Option<Token>>, i: int): real
    requires IsDuration(pulled, i)
  {
    Seconds(NumberAt(pulled, i), pulled[i + 1].value.kind)
  }


  /** Entries `i` and `i + 1` are a fractional number and SEC. */
  ghost predicate IsFractionalSeconds(pulled: seq<Option<Token>>, i: int) {
    IsNumber(pulled, i) && Is(pulled, i + 1, Sec) && !IsIntegral(NumberAt(pulled, i))
  }

  /** The error Duration reports for the fractional number of seconds at entry `i`. */
  ghost function SecondsRefused(pulled: seq<Option<Token>>, i: int): Error
    requires IsFractionalSeconds(pulled, i)
  {
    UnexpectedToken(pulled[i + 1].value, [Min, Hr])
  }

  /** A number followed by a unit is a duration unless it is a fractional number of seconds. */
  lemma DurationOrFractionalSeconds(pulled: seq<Option<Token>>, i: int)
    requires IsNumber(pulled, i) && IsUnit(pulled, i + 1)
    ensures IsDuration(pulled, i) != IsFractionalSeconds(pulled, i)
  {
  }

  /** Entry `i` is a number and something (a token or the end) was pulled after it. */
  ghost predicate IsPercentFTP(pulled: seq<Option<Token>>, i: int) {
    IsNumber(pulled, i) && i + 1 < |pulled|
  }

  /** How many entries the PercentFTP at `i` covers: 2 when a `%` follows the number. */
  ghost function PercentWidth(pulled: seq<Option<Token>>, i: int): nat {
    if Is(pulled, i + 1, Percent) then 2 else 1
  }

  /** The fraction of FTP the PercentFTP at `i` denotes. */
  ghost function FractionAt(pulled: seq<Option<Token>>, i: int): real
    requires IsPercentFTP(pulled, i)
  {
    if Is(pulled, i + 1, Percent) then NumberAt(pulled, i) / 100.0 else NumberAt(pulled, i)
  }

  /** Where the Intensity of an Interval whose Duration is at `i` starts: after an optional `@`. */
  ghost function IntensityPos(pulled: seq<Option<Token>>, i: int): int {
    if Is(pulled, i + 2, At) then i + 3 else i + 2
  }

  /** Entry `j` starts an Intensity: a Power, or failing that a PercentFTP. */
  ghost predicate IsIntensity(pulled: seq<Option<Token>>, j: int) {
    IsPower(pulled, j) || IsPercentFTP(pulled, j)
  }

  /** The Intensity at entry `j`: an INT followed by W is a Power, any other number a PercentFTP. */
  ghost function IntensityAt(pulled: seq<Option<Token>>, j: int): Intensity
    requires IsIntensity(pulled, j)
  {
    if IsPower(pulled, j) then Intensity.Power(IntegerAt(pulled, j)) else Intensity.PercentFTP(FractionAt(pulled, j))
  }

  /** How many entries the Intensity at `j` covers. */
  ghost function IntensityWidth(pulled: seq<Option<Token>>, j: int): (w: nat)
    ensures 1 <= w <= 2
  {
    if IsPower(pulled, j) then 2 else PercentWidth(pulled, j)
  }

  /** Entry `k` is a well-formed STRING. */
  ghost predicate IsAnnotation(pulled: seq<Option<Token>>, k: int) {
    Is(pulled, k, Str) && Shaped(pulled[k])
  }

  /** The annotation at entry `k`: the text of a STRING there without its quotes, if there is one. */
  ghost function AnnotationAt(pulled: seq<Option<Token>>, k: int): Option<string> {
    if IsAnnotation(pulled, k) then Some(Unquoted(pulled[k].value.value)) else None
  }

  /** Entry `i` starts an Interval: a Duration, an optional `@` and an Intensity. */
  ghost predicate IsInterval(pulled: seq<Option<Token>>, i: int) {
    IsDuration(pulled, i) && IsIntensity(pulled, IntensityPos(pulled, i))
  }

  /** Where the optional annotation of the Interval at `i` lies. */
  ghost function AnnotationPos(pulled: seq<Option<Token>>, i: int): int
    requires IsInterval(pulled, i)
  {
    IntensityPos(pulled, i) + IntensityWidth(pulled, IntensityPos(pulled, i))
  }

  /** The Interval node the entries from `i` denote; an empty annotation is dropped. */
  ghost function IntervalAt(pulled: seq<Option<Token>>, i: int): Node
    requires IsInterval(pulled, i)
  {
    MakeInterval(DurationAt(pulled, i), IntensityAt(pulled, IntensityPos(pulled, i)), AnnotationAt(pulled, AnnotationPos(pulled, i)))
  }

  /** The position just past the Interval at `i`, its annotation included. */
  ghost function IntervalEnd(pulled: seq<Option<Token>>, i: int): int
    requires IsInterval(pulled, i)
  {
    if IsAnnotation(pulled, AnnotationPos(pulled, i)) then AnnotationPos(pulled, i) + 1 else AnnotationPos(pulled, i)
  }

  /** The position just past the Interval at `i` and the comma that may follow it. */
  ghost function AfterInterval(pulled: seq<Option<Token>>, i: int): int
    requires IsInterval(pulled, i)
  {
    if Is(pulled, IntervalEnd(pulled, i), Comma) then IntervalEnd(pulled, i) + 1 else IntervalEnd(pulled, i)
  }

  /** Every Interval the entries denote has the shape the parser guarantees. */
  lemma IntervalNormal(pulled: seq<Option<Token>>, i: int)
    requires IsInterval(pulled, i)
    ensures IntervalAt(pulled, i).Interval? && Normal(IntervalAt(pulled, i))
  {
  }

  /** A grown record denotes the same Intensity at `j`. */
  lemma IntensityKept(a: seq<Option<Token>>, b: seq<Option<Token>>, j: int)
    requires a <= b && IsIntensity(a, j)
    ensures IsIntensity(b, j) && IntensityAt(b, j) == IntensityAt(a, j) && IntensityWidth(b, j) == IntensityWidth(a, j)
  {
    Kept(a, b, j);
    Kept(a, b, j + 1);
    assert IsPower(b, j) == IsPower(a, j);
    assert Is(b, j + 1, Percent) == Is(a, j + 1, Percent);
    if !IsPower(a, j) {
      assert IsPercentFTP(b, j) && NumberAt(b, j) == NumberAt(a, j);
    }
  }

  /** A grown record holds the same Duration at `i`. */
  lemma DurationStays(a: seq<Option<Token>>, b: seq<Option<Token>>, i: int)
    requires a <= b && IsDuration(a, i)
    ensures IsDuration(b, i) && DurationAt(b, i) == DurationAt(a, i) && !IsFractionalSeconds(b, i)
  {
    Kept(a, b, i);
    Kept(a, b, i + 1);
  }

  /** A grown record holds the same Duration at `i`, and the same choice about the `@` after it. */
  lemma DurationKept(a: seq<Option<Token>>, b: seq<Option<Token>>, i: int)
    requires a <= b && IsDuration(a, i) && i + 2 < |a|
    ensures IsDuration(b, i) && DurationAt(b, i) == DurationAt(a, i) && IntensityPos(b, i) == IntensityPos(a, i)
    ensures !IsFractionalSeconds(b, i)
  {
    DurationStays(a, b, i);
    Kept(a, b, i + 2);
  }

  /** No Interval starts at `i` when the record ends before its Intensity could. */
  lemma IntervalCut(pulled: seq<Option<Token>>, i: int)
    requires i + 2 >= |pulled|
    ensures !IsInterval(pulled, i)
  {
  }

  /** A grown record holds the same annotation, or none, at an entry already pulled, and the same comma. */
  lemma AnnotationKept(a: seq<Option<Token>>, b: seq<Option<Token>>, k: int)
    requires a <= b && 0 <= k < |a|
    ensures IsAnnotation(b, k) == IsAnnotation(a, k) && AnnotationAt(b, k) == AnnotationAt(a, k)
    ensures Is(b, k, Comma) == Is(a, k, Comma)
  {
    Kept(a, b, k);
  }

  /** A grown record denotes the same Interval at `i`, once the entry of its annotation was pulled. */
  lemma IntervalKept(a: seq<Option<Token>>, b: seq<Option<Token>>, i: int)
    requires a <= b && IsInterval(a, i) && AnnotationPos(a, i) < |a|
    ensures IsInterval(b, i) && IntervalAt(b, i) == IntervalAt(a, i)
    ensures AnnotationPos(b, i) == AnnotationPos(a, i) && IntervalEnd(b, i) == IntervalEnd(a, i)
    ensures IntervalEnd(a, i) < |a| ==> AfterInterval(b, i) == AfterInterval(a, i)
  {
    var j := IntensityPos(a, i);
    DurationKept(a, b, i);
    IntensityKept(a, b, j);
    var k := AnnotationPos(a, i);
    AnnotationKept(a, b, k);
    assert IntensityPos(b, i) == j && AnnotationPos(b, i) == k;
    if IntervalEnd(a, i) < |a| {
      AnnotationKept(a, b, IntervalEnd(a, i));
    }
  }

  /** An Intensity found where a Duration's `@` leaves off makes an Interval, whatever the annotation after it. */
  lemma IntervalFound(a: seq<Option<Token>>, b: seq<Option<Token>>, i: int, j: int)
    requires a <= b && IsDuration(a, i) && i + 2 < |a| && j == IntensityPos(a, i) && IsIntensity(a, j)
    ensures IsInterval(b, i) && AnnotationPos(b, i) == j + IntensityWidth(a, j)
    ensures IntervalAt(b, i) ==
      MakeInterval(DurationAt(a, i), IntensityAt(a, j), AnnotationAt(b, j + IntensityWidth(a, j)))
    ensures IntervalEnd(b, i) ==
      if IsAnnotation(b, j + IntensityWidth(a, j)) then j + IntensityWidth(a, j) + 1 else j + IntensityWidth(a, j)
  {
    DurationKept(a, b, i);
    IntensityKept(a, b, j);
  }

  /** Without an Intensity where a Duration's `@` leaves off, there is no Interval. */
  lemma IntervalMissing(a: seq<Option<Token>>, b: seq<Option<Token>>, i: int)
    requires a <= b && IsDuration(a, i) && i + 2 < |a| && !IsIntensity(b, IntensityPos(a, i))
    ensures !IsInterval(b, i) && IsDuration(b, i) && !IsFractionalSeconds(b, i)
  {
    DurationKept(a, b, i);
  }

  /**
   * A line of Intervals: one starts at each of `bounds` but the last, and each
   * one, with the comma that may follow it, ends where the next one starts.
   */
  ghost predicate IntervalLine(pulled: seq<Option<Token>>, bounds: seq<int>) {
    |bounds| >= 1 &&
    forall k :: 0 <= k < |bounds| - 1 ==>
      IsInterval(pulled, bounds[k]) && IntervalEnd(pulled, bounds[k]) < |pulled| &&
      AfterInterval(pulled, bounds[k]) == bounds[k + 1]
  }

  /** A grown record holds the same line of Intervals. */
  lemma LineKept(a: seq<Option<Token>>, b: seq<Option<Token>>, bounds: seq<int>)
    requires a <= b && IntervalLine(a, bounds)
    ensures IntervalLine(b, bounds)
    ensures forall k :: 0 <= k < |bounds| - 1 ==> IntervalAt(b, bounds[k]) == IntervalAt(a, bounds[k])
  {
    forall k | 0 <= k < |bounds| - 1
      ensures IsInterval(b, bounds[k]) && IntervalEnd(b, bounds[k]) < |b| && AfterInterval(b, bounds[k]) == bounds[k + 1]
      ensures IntervalAt(b, bounds[k]) == IntervalAt(a, bounds[k])
    {
      IntervalKept(a, b, bounds[k]);
    }
  }

  /** An Interval where a line ends extends the line. */
  lemma LineExtended(pulled: seq<Option<Token>>, bounds: seq<int>, q: int)
    requires IntervalLine(pulled, bounds)
    requires IsInterval(pulled, bounds[|bounds| - 1]) && IntervalEnd(pulled, bounds[|bounds| - 1]) < |pulled|
    requires AfterInterval(pulled, bounds[|bounds| - 1]) == q
    ensures IntervalLine(pulled, bounds + [q]) && (bounds + [q])[..|bounds|] == bounds
  {
    var longer := bounds + [q];
    forall k | 0 <= k < |longer| - 1
      ensures IsInterval(pulled, longer[k]) && IntervalEnd(pulled, longer[k]) < |pulled|
      ensures AfterInterval(pulled, longer[k]) == longer[k + 1]
    {
      assert longer[k] == bounds[k];
      if k < |bounds| - 1 {
        assert longer[k + 1] == bounds[k + 1];
      }
    }
    assert longer[..|bounds|] == bounds;
  }

  /** The nodes `intervals` are the Intervals of the line that starts at `bounds`. */
  ghost predicate ParsedLine(pulled: seq<Option<Token>>, bounds: seq<int>, intervals: seq<Node>) {
    IntervalLine(pulled, bounds) && |intervals| == |bounds| - 1 &&
    forall k :: 0 <= k < |intervals| ==> intervals[k] == IntervalAt(pulled, bounds[k])
  }

  /** The Intervals of a line have the shape the parser guarantees. */
  lemma LineNormal(pulled: seq<Option<Token>>, bounds: seq<int>, intervals: seq<Node>)
    requires ParsedLine(pulled, bounds, intervals)
    ensures AllNormal(intervals) && forall k :: 0 <= k < |intervals| ==> intervals[k].Interval?
  {
    forall k | 0 <= k < |intervals|
      ensures Normal(intervals[k]) && intervals[k].Interval?
    {
      IntervalNormal(pulled, bounds[k]);
    }
  }

  /** A grown record holds the same line, with the same Intervals. */
  lemma LineGrown(a: seq<Option<Token>>, b: seq<Option<Token>>, bounds: seq<int>, intervals: seq<Node>)
    requires a <= b && ParsedLine(a, bounds, intervals)
    ensures ParsedLine(b, bounds, intervals)
  {
    LineKept(a, b, bounds);
  }

  /** The Interval where a line ends, and the position after it, extend the line. */
  lemma LineAppended(pulled: seq<Option<Token>>, bounds: seq<int>, intervals: seq<Node>, q: int)
    requires ParsedLine(pulled, bounds, intervals)
    requires IsInterval(pulled, bounds[|bounds| - 1]) && IntervalEnd(pulled, bounds[|bounds| - 1]) < |pulled|
    requires AfterInterval(pulled, bounds[|bounds| - 1]) == q
    ensures ParsedLine(pulled, bounds + [q], intervals + [IntervalAt(pulled, bounds[|bounds| - 1])])
  {
    LineExtended(pulled, bounds, q);
    var longer := intervals + [IntervalAt(pulled, bounds[|bounds| - 1])];
    forall k | 0 <= k < |longer|
      ensures longer[k] == IntervalAt(pulled, (bounds + [q])[k])
    {
      assert (bounds + [q])[k] == bounds[k];
    }
  }

  /** Entries `i` and `i + 1` are a well-formed INT and a REPEAT, and something was pulled after them. */
  ghost predicate IsRepeat(pulled: seq<Option<Token>>, i: int) {
    Is(pulled, i, Int) && Shaped(pulled[i]) && Is(pulled, i + 1, Kind.Repeat) && i + 2 < |pulled|
  }

  /** How many entries the repeat count at `i` covers: 3 when a NEWLINE follows the REPEAT. */
  ghost function RepeatWidth(pulled: seq<Option<Token>>, i: int): nat {
    if Is(pulled, i + 2, Newline) then 3 else 2
  }

  /** The count `Repeat()` reads at entry `i`: the INT before a REPEAT, or 1 when there is none or it is 0. */
  ghost function RepeatAt(pulled: seq<Option<Token>>, i: int): (n: nat)
    ensures n >= 1
  {
    if IsRepeat(pulled, i) && IntegerAt(pulled, i) != 0 then IntegerAt(pulled, i) else 1
  }

  /** Where the Block of a Set at `i` starts: after its repeat count, if it has one. */
  ghost function AfterRepeat(pulled: seq<Option<Token>>, i: int): int {
    if IsRepeat(pulled, i) then i + RepeatWidth(pulled, i) else i
  }

  /**
   * Whether a repeat count starts at `p` can no longer change as the record
   * grows: it does, or an entry it needs is there and wrong, or the tokenizer
   * has halted.
   */
  ghost predicate RepeatSettled(a: Snap, p: int) {
    IsRepeat(a.pulled, p) || (p < |a.pulled| && !Is(a.pulled, p, Int)) ||
    (p + 1 < |a.pulled| && !Is(a.pulled, p + 1, Kind.Repeat)) || Halted(a.origin, a.pulled)
  }

  /**
   * Whether a Power starts at `p` can no longer change as the record grows:
   * both its entries are there, or the first is there and not an INT, or the
   * tokenizer has halted.
   */
  ghost predicate PowerSettled(a: Snap, p: int) {
    p + 1 < |a.pulled| || (p < |a.pulled| && !Is(a.pulled, p, Int)) || Halted(a.origin, a.pulled)
  }

  /** The entries before `n` can no longer change: they are there, or the tokenizer has halted. */
  ghost predicate Settled(a: Snap, n: int) {
    n <= |a.pulled| || Halted(a.origin, a.pulled)
  }

  /**
   * `b` is a record the queue that pulled `a` can still reach: the same run
   * of the tokenizer, pulled at least as far, and only as far as the
   * tokenizer answers without a lexical error.
   */
  ghost predicate Later(a: Snap, b: Snap) {
    b.origin == a.origin && a.pulled <= b.pulled && a.origin.Valid() && Lexes(a.origin, |b.pulled|)
  }

  /** Once the tokenizer has halted, the only later record is the record itself. */
  lemma LaterHalted(a: Snap, b: Snap)
    requires Later(a, b) && Halted(a.origin, a.pulled)
    ensures b.pulled == a.pulled
  {
    if |b.pulled| > |a.pulled| {
      RunPrefix(a.origin, |a.pulled| + 1, |b.pulled|);
    }
  }

  /** A block of Sets is closed at `q`: the end of input is there, or a DEDENT just before it. */
  ghost predicate BlockClosed(pulled: seq<Option<Token>>, q: int) {
    IsEnd(pulled, q) || Is(pulled, q - 1, Dedent)
  }

  /** Entry `q` is a real token other than a DEDENT: where the Sets loop reads a Set. */
  ghost predicate Leads(pulled: seq<Option<Token>>, q: int) {
    0 <= q < |pulled| && pulled[q].Some? && !Is(pulled, q, Dedent)
  }

  /** A block of Sets whose last Set ended at `stop` is closed at `hi`: by the end of input there, or by a DEDENT there, consumed. */
  ghost predicate Closes(pulled: seq<Option<Token>>, stop: int, hi: int) {
    (IsEnd(pulled, stop) && hi == stop) || (Is(pulled, stop, Dedent) && hi == stop + 1)
  }

  /**
   * A line of Intervals read from `lo` up to `hi`: the Intervals `nodes` at
   * `bounds`, then the end of input at the last bound, or a run of NEWLINEs
   * from it that ends at `hi`.
   */
  ghost predicate LineRead(pulled: seq<Option<Token>>, nodes: seq<Node>, bounds: seq<int>, lo: int, hi: int) {
    ParsedLine(pulled, bounds, nodes) && bounds[0] == lo &&
    ((IsEnd(pulled, bounds[|bounds| - 1]) && hi == bounds[|bounds| - 1]) || NewlineRun(pulled, bounds[|bounds| - 1], hi))
  }

  /**
   * How a block was read: as a line of Intervals at `bounds`, or as the Sets
   * `parsed` of an INDENT block (or of the program), read at `starts`, each
   * one's own block read as `inner` says, the last one ending at `stop`.
   */
  datatype Reading = Line(bounds: seq<int>) | Nest(parsed: seq<Node>, starts: seq<int>, inner: seq<Reading>, stop: int)

  /**
   * The Set `n` was read from `p` up to `q`: it repeats as often as the count
   * at `p` says (a count that can no longer change), and its children are the
   * block after that count, read as `rd` says.
   */
  ghost predicate SetRead(a: Snap, n: Node, rd: Reading, p: int, q: int)
    decreases rd, 2
  {
    n.Set? && n.repeat == RepeatAt(a.pulled, p) && RepeatSettled(a, p) &&
    if Is(a.pulled, AfterRepeat(a.pulled, p), Indent) then
      rd.Nest? && BlockRead(a, n.sets, rd, AfterRepeat(a.pulled, p) + 1, q)
    else
      rd.Line? && BlockRead(a, n.sets, rd, AfterRepeat(a.pulled, p), q)
  }

  /**
   * The nodes `nodes` are the block read from `lo` up to `hi` as `rd` says:
   * a line of Intervals, or the Sets read one after another, flattened, up
   * to the end of input or a DEDENT.
   */
  ghost predicate BlockRead(a: Snap, nodes: seq<Node>, rd: Reading, lo: int, hi: int)
    decreases rd, 1
  {
    match rd
    case Line(bounds) => LineRead(a.pulled, nodes, bounds, lo, hi)
    case Nest(parsed, starts, inner, stop) =>
      SetsChain(a, rd, lo) && nodes == Flattened(parsed) && Closes(a.pulled, stop, hi)
  }

  /** Where the `k`-th Set of a block of Sets ends: where the next one starts, or where the last one stopped. */
  ghost function SetEnd(rd: Reading, k: int): int
    requires rd.Nest?
  {
    if 0 <= k + 1 < |rd.starts| then rd.starts[k + 1] else rd.stop
  }

  /**
   * The Sets `rd.parsed` were read one after another from `lo`: the first at
   * `lo`, each at a real token other than a DEDENT and as its reading in
   * `rd.inner` says, each ending where the next starts, the last at `rd.stop`.
   */
  ghost predicate SetsChain(a: Snap, rd: Reading, lo: int)
    requires rd.Nest?
    ensures SetsChain(a, rd, lo) ==> forall k :: 0 <= k < |rd.parsed| ==> rd.parsed[k].Set?
    decreases rd, 0
  {
    |rd.starts| == |rd.parsed| && |rd.inner| == |rd.parsed| &&
    (if rd.parsed == [] then rd.stop == lo else rd.starts[0] == lo) &&
    forall k :: 0 <= k < |rd.parsed| ==>
      Leads(a.pulled, rd.starts[k]) &&
      SetRead(a, rd.parsed[k], rd.inner[k], rd.starts[k], SetEnd(rd, k))
  }

  /**
   * The state of the Sets loop started at `lo`: the Sets of `rd` so far,
   * each repeated at least once over normal children, and `sets`, the list
   * they flatten to.
   */
  ghost predicate SetsRead(a: Snap, sets: seq<Node>, rd: Reading, lo: int) {
    rd.Nest? &&
    (forall i :: 0 <= i < |rd.parsed| ==> rd.parsed[i].Set? && rd.parsed[i].repeat >= 1 && AllNormal(rd.parsed[i].sets)) &&
    sets == Flattened(rd.parsed) && SetsChain(a, rd, lo)
  }

  /** A Set read where the last one ended extends the chain. */
  lemma ChainAppended(a: Snap, rd: Reading, lo: int, n: Node, nrd: Reading, q: int)
    requires rd.Nest? && SetsChain(a, rd, lo) && Leads(a.pulled, rd.stop) && SetRead(a, n, nrd, rd.stop, q)
    ensures SetsChain(a, Nest(rd.parsed + [n], rd.starts + [rd.stop], rd.inner + [nrd], q), lo)
  {
    var longer := Nest(rd.parsed + [n], rd.starts + [rd.stop], rd.inner + [nrd], q);
    forall k | 0 <= k < |longer.parsed|
      ensures Leads(a.pulled, longer.starts[k])
      ensures SetRead(a, longer.parsed[k], longer.inner[k], longer.starts[k], SetEnd(longer, k))
    {
      if k < |rd.parsed| {
        assert longer.parsed[k] == rd.parsed[k] && longer.inner[k] == rd.inner[k] && longer.starts[k] == rd.starts[k];
        assert SetEnd(longer, k) == SetEnd(rd, k);
      }
    }
  }

  /** A Set read where the Sets loop stands extends the state of the loop by it. */
  lemma SetsReadAppended(a: Snap, sets: seq<Node>, rd: Reading, lo: int, n: Node, nrd: Reading, q: int)
    requires SetsRead(a, sets, rd, lo) && Leads(a.pulled, rd.stop) && SetRead(a, n, nrd, rd.stop, q)
    requires n.repeat >= 1 && AllNormal(n.sets)
    ensures n.Set? && SetsRead(a, sets + Spliced(n), Nest(rd.parsed + [n], rd.starts + [rd.stop], rd.inner + [nrd], q), lo)
  {
    ChainAppended(a, rd, lo, n, nrd, q);
    FlattenedSnoc(rd.parsed, n);
    var longer := rd.parsed + [n];
    forall i | 0 <= i < |longer|
      ensures longer[i].Set? && longer[i].repeat >= 1 && AllNormal(longer[i].sets)
    {
      if i < |rd.parsed| {
        assert longer[i] == rd.parsed[i];
      }
    }
  }

  /** A count read at `p` and the block after it, read as `rd` says, make the Set read from `p`. */
  lemma SetFound(a: Snap, n: Node, rd: Reading, p: int, b: int, q: int)
    requires n.Set? && n.repeat == RepeatAt(a.pulled, p) && RepeatSettled(a, p) && b == AfterRepeat(a.pulled, p)
    requires Is(a.pulled, b, Indent) ==> rd.Nest? && BlockRead(a, n.sets, rd, b + 1, q)
    requires !Is(a.pulled, b, Indent) ==> rd.Line? && BlockRead(a, n.sets, rd, b, q)
    ensures SetRead(a, n, rd, p, q)
  {
  }

  /** The converse of SetFound: a Set read from `p` is its count and the block after it. */
  lemma SetOpened(a: Snap, n: Node, rd: Reading, p: int, q: int)
    requires SetRead(a, n, rd, p, q)
    ensures n.Set? && n.repeat == RepeatAt(a.pulled, p) && RepeatSettled(a, p)
    ensures Is(a.pulled, AfterRepeat(a.pulled, p), Indent) ==>
      rd.Nest? && BlockRead(a, n.sets, rd, AfterRepeat(a.pulled, p) + 1, q)
    ensures !Is(a.pulled, AfterRepeat(a.pulled, p), Indent) ==>
      rd.Line? && BlockRead(a, n.sets, rd, AfterRepeat(a.pulled, p), q)
  {
  }

  /** A line read from `lo` starts at an entry already pulled. */
  lemma LineInside(pulled: seq<Option<Token>>, nodes: seq<Node>, bounds: seq<int>, lo: int, hi: int)
    requires LineRead(pulled, nodes, bounds, lo, hi)
    ensures 0 <= lo < |pulled|
  {
    if |bounds| > 1 {
      assert IsInterval(pulled, bounds[0]);
    }
  }

  /** A grown record holds the same line, up to the same position. */
  lemma LineReadKept(a: seq<Option<Token>>, b: seq<Option<Token>>, nodes: seq<Node>, bounds: seq<int>, lo: int, hi: int)
    requires a <= b && LineRead(a, nodes, bounds, lo, hi)
    ensures LineRead(b, nodes, bounds, lo, hi)
  {
    LineGrown(a, b, bounds, nodes);
    var last := bounds[|bounds| - 1];
    if IsEnd(a, last) && hi == last {
      Kept(a, b, last);
    } else {
      NewlinesKept(a, b, last, hi);
      Kept(a, b, hi);
    }
  }

  /** No Interval starts at the end of input, at a NEWLINE or at a DEDENT. */
  lemma IntervalNotStop(pulled: seq<Option<Token>>, i: int)
    requires IsInterval(pulled, i)
    ensures !IsEnd(pulled, i) && !Is(pulled, i, Newline) && !Is(pulled, i, Dedent)
  {
  }

  /** Two lines of Intervals from the same start agree up to entry `k`. */
  lemma {:induction false} BoundsAgree(pulled: seq<Option<Token>>, b1: seq<int>, b2: seq<int>, k: int)
    requires IntervalLine(pulled, b1) && IntervalLine(pulled, b2) && b1[0] == b2[0]
    requires 0 <= k < |b1| && k < |b2|
    ensures forall j :: 0 <= j <= k ==> b1[j] == b2[j]
    decreases k
  {
    if k > 0 {
      BoundsAgree(pulled, b1, b2, k - 1);
      assert b1[k] == AfterInterval(pulled, b1[k - 1]);
      assert b2[k] == AfterInterval(pulled, b2[k - 1]);
    }
  }

  /** The first entry after `p` that is not a NEWLINE is unique. */
  lemma RunEnd(pulled: seq<Option<Token>>, p: int, q1: int, q2: int)
    requires NewlineRun(pulled, p, q1) && NewlineRun(pulled, p, q2)
    ensures q1 == q2
  {
    assert q1 < q2 ==> Is(pulled, q1, Newline);
    assert q2 < q1 ==> Is(pulled, q2, Newline);
  }

  /** Where a line read ends, no Interval starts. */
  lemma LineStops(pulled: seq<Option<Token>>, nodes: seq<Node>, bounds: seq<int>, lo: int, hi: int)
    requires LineRead(pulled, nodes, bounds, lo, hi)
    ensures !IsInterval(pulled, bounds[|bounds| - 1])
  {
    var last := bounds[|bounds| - 1];
    if !IsEnd(pulled, last) {
      assert Is(pulled, last, Newline);
    }
  }

  /** Two lines of Intervals from the same start that both stop where no Interval starts are the same line. */
  lemma BoundsUnique(pulled: seq<Option<Token>>, b1: seq<int>, b2: seq<int>)
    requires IntervalLine(pulled, b1) && IntervalLine(pulled, b2) && b1[0] == b2[0]
    requires !IsInterval(pulled, b1[|b1| - 1]) && !IsInterval(pulled, b2[|b2| - 1])
    ensures b1 == b2
  {
    var m := if |b1| < |b2| then |b1| else |b2|;
    BoundsAgree(pulled, b1, b2, m - 1);
    assert |b1| == |b2|;
  }

  /** A line ends at the end of input, or after the NEWLINE tokens that follow it: one place either way. */
  lemma LineEndUnique(pulled: seq<Option<Token>>, last: int, h1: int, h2: int)
    requires (IsEnd(pulled, last) && h1 == last) || NewlineRun(pulled, last, h1)
    requires (IsEnd(pulled, last) && h2 == last) || NewlineRun(pulled, last, h2)
    ensures h1 == h2
  {
    assert NewlineRun(pulled, last, h1) ==> Is(pulled, last, Newline);
    assert NewlineRun(pulled, last, h2) ==> Is(pulled, last, Newline);
    if !IsEnd(pulled, last) {
      RunEnd(pulled, last, h1, h2);
    }
  }

  /** The Intervals read along one line are the same nodes. */
  lemma NodesUnique(pulled: seq<Option<Token>>, bounds: seq<int>, n1: seq<Node>, n2: seq<Node>)
    requires ParsedLine(pulled, bounds, n1) && ParsedLine(pulled, bounds, n2)
    ensures n1 == n2
  {
    forall k | 0 <= k < |n1|
      ensures n1[k] == n2[k]
    {
      assert n1[k] == IntervalAt(pulled, bounds[k]);
    }
  }

  /** A line of Intervals read from `lo` is read one way only: the same nodes, up to the same position. */
  lemma LineUnique(pulled: seq<Option<Token>>, n1: seq<Node>, b1: seq<int>, n2: seq<Node>, b2: seq<int>, lo: int, h1: int, h2: int)
    requires LineRead(pulled, n1, b1, lo, h1) && LineRead(pulled, n2, b2, lo, h2)
    ensures n1 == n2 && h1 == h2
  {
    LineStops(pulled, n1, b1, lo, h1);
    LineStops(pulled, n2, b2, lo, h2);
    BoundsUnique(pulled, b1, b2);
    LineEndUnique(pulled, b1[|b1| - 1], h1, h2);
    NodesUnique(pulled, b1, n1, n2);
  }

  /** Where a reading of Sets from `lo` stands after its first `k` Sets. */
  ghost function ChainAt(rd: Reading, lo: int, k: int): int
    requires rd.Nest?
  {
    if k == 0 then lo else SetEnd(rd, k - 1)
  }

  /** A reading of Sets stands at the next Set's start, or at its stop after the last one. */
  lemma ChainPlaces(a: Snap, rd: Reading, lo: int, k: int)
    requires rd.Nest? && SetsChain(a, rd, lo) && 0 <= k <= |rd.parsed|
    ensures k < |rd.parsed| ==> ChainAt(rd, lo, k) == rd.starts[k] && Leads(a.pulled, rd.starts[k])
    ensures k == |rd.parsed| ==> ChainAt(rd, lo, k) == rd.stop
  {
  }

  /** The `k`-th Set of a reading of Sets is read from its start up to the next one's. */
  lemma ChainMember(a: Snap, rd: Reading, lo: int, k: int)
    requires rd.Nest? && SetsChain(a, rd, lo) && 0 <= k < |rd.parsed|
    ensures SetRead(a, rd.parsed[k], rd.inner[k], rd.starts[k], SetEnd(rd, k))
  {
  }

  /** Two lists that agree on their first `j` nodes and on the next one agree on their first `j + 1`. */
  lemma PrefixExtended(s1: seq<Node>, s2: seq<Node>, j: int)
    requires 0 <= j < |s1| && j < |s2| && s1[..j] == s2[..j] && s1[j] == s2[j]
    ensures s1[..j + 1] == s2[..j + 1]
  {
    assert s1[..j + 1] == s1[..j] + [s1[j]];
    assert s2[..j + 1] == s2[..j] + [s2[j]];
  }

  /** Where a block is closed, no Set starts. */
  lemma ClosedNotLed(pulled: seq<Option<Token>>, stop: int, hi: int)
    requires Closes(pulled, stop, hi)
    ensures !Leads(pulled, stop)
  {
  }

  /** Two readings of Sets from the same start read the same first `k` Sets, ending at the same place. */
  lemma {:induction false} ChainAgrees(a: Snap, r1: Reading, r2: Reading, lo: int, k: int)
    requires r1.Nest? && r2.Nest? && SetsChain(a, r1, lo) && SetsChain(a, r2, lo)
    requires 0 <= k <= |r1.parsed| && k <= |r2.parsed|
    ensures r1.parsed[..k] == r2.parsed[..k] && ChainAt(r1, lo, k) == ChainAt(r2, lo, k)
    decreases r1, 0, k
  {
    if k > 0 {
      var j := k - 1;
      ChainAgrees(a, r1, r2, lo, j);
      ChainPlaces(a, r1, lo, j);
      ChainPlaces(a, r2, lo, j);
      ChainMember(a, r1, lo, j);
      ChainMember(a, r2, lo, j);
      SetUnique(a, r1.parsed[j], r1.inner[j], r2.parsed[j], r2.inner[j], r1.starts[j], SetEnd(r1, j), SetEnd(r2, j));
      PrefixExtended(r1.parsed, r2.parsed, j);
    }
  }

  /** A Set read from `p` is read one way only: the same node, up to the same position. */
  lemma {:induction false} SetUnique(a: Snap, n1: Node, d1: Reading, n2: Node, d2: Reading, p: int, q1: int, q2: int)
    requires SetRead(a, n1, d1, p, q1) && SetRead(a, n2, d2, p, q2)
    ensures n1 == n2 && q1 == q2
    decreases d1, 2
  {
    SetOpened(a, n1, d1, p, q1);
    SetOpened(a, n2, d2, p, q2);
    var b := AfterRepeat(a.pulled, p);
    if Is(a.pulled, b, Indent) {
      BlockUnique(a, n1.sets, d1, n2.sets, d2, b + 1, q1, q2);
    } else {
      BlockUnique(a, n1.sets, d1, n2.sets, d2, b, q1, q2);
    }
  }

  /**
   * A block read from `lo` (a line of Intervals, or Sets up to a close) is
   * read one way only: the same nodes, up to the same position.
   */
  lemma {:induction false} BlockUnique(a: Snap, x1: seq<Node>, d1: Reading, x2: seq<Node>, d2: Reading, lo: int, h1: int, h2: int)
    requires BlockRead(a, x1, d1, lo, h1) && BlockRead(a, x2, d2, lo, h2) && d1.Nest? == d2.Nest?
    ensures x1 == x2 && h1 == h2
    decreases d1, 1
  {
    if d1.Line? {
      LineUnique(a.pulled, x1, d1.bounds, x2, d2.bounds, lo, h1, h2);
    } else {
      var m := if |d1.parsed| < |d2.parsed| then |d1.parsed| else |d2.parsed|;
      ChainAgrees(a, d1, d2, lo, m);
      ChainPlaces(a, d1, lo, m);
      ChainPlaces(a, d2, lo, m);
      ClosedNotLed(a.pulled, d1.stop, h1);
      ClosedNotLed(a.pulled, d2.stop, h2);
      assert |d1.parsed| == |d2.parsed|;
      assert d1.parsed == d1.parsed[..m] && d2.parsed == d2.parsed[..m];
    }
  }

  /** In the record `pulled`, no line of Intervals is read from `lo`, up to any position. */
  ghost predicate NoLineIn(pulled: seq<Option<Token>>, lo: int) {
    forall nodes, bounds, hi :: !LineRead(pulled, nodes, bounds, lo, hi)
  }

  /** In the record of `a`, no Set is read from `p`, up to any position. */
  ghost predicate NoSetIn(a: Snap, p: int) {
    forall n, rd, q :: !SetRead(a, n, rd, p, q)
  }

  /** In the record of `a`, no block of Sets is read from `lo`, up to any close. */
  ghost predicate NoSetsIn(a: Snap, lo: int) {
    forall nodes, rd: Reading, hi :: rd.Nest? ==> !BlockRead(a, nodes, rd, lo, hi)
  }

  /**
   * In the record of `a`, no block is read from `lo` (not counting
   * `bootstrap`): no Sets after an INDENT there, or else no line of Intervals
   * from it.
   */
  ghost predicate NoBlockIn(a: Snap, lo: int) {
    if Is(a.pulled, lo, Indent) then NoSetsIn(a, lo + 1) else NoLineIn(a.pulled, lo)
  }

  /** No line of Intervals is read from `lo`, however far the tokens are pulled. */
  ghost predicate NoLine(a: Snap, lo: int) {
    forall b :: Later(a, b) ==> NoLineIn(b.pulled, lo)
  }

  /** No Set is read from `p`, however far the tokens are pulled. */
  ghost predicate NoSet(a: Snap, p: int) {
    forall b :: Later(a, b) ==> NoSetIn(b, p)
  }

  /** No block of Sets is read from `lo`, however far the tokens are pulled. */
  ghost predicate NoSets(a: Snap, lo: int) {
    forall b :: Later(a, b) ==> NoSetsIn(b, lo)
  }

  /** No block is read from `lo` (not counting `bootstrap`), however far the tokens are pulled. */
  ghost predicate NoBlock(a: Snap, lo: int) {
    forall b :: Later(a, b) ==> NoBlockIn(b, lo)
  }

  /**
   * No Duration starts at `i`, nor will in a later record: the entry at `i`
   * is there and is no number, both entries are there, or the tokenizer has
   * halted.
   */
  ghost predicate DurationRefused(a: Snap, i: int) {
    !IsDuration(a.pulled, i) &&
    ((i < |a.pulled| && !IsNumber(a.pulled, i)) || i + 1 < |a.pulled| || Halted(a.origin, a.pulled))
  }

  lemma DurationRefusedStays(a: Snap, b: Snap, i: int)
    requires Later(a, b) && DurationRefused(a, i)
    ensures !IsDuration(b.pulled, i)
  {
    if i < 0 {
    } else if Halted(a.origin, a.pulled) {
      LaterHalted(a, b);
    } else if i + 1 < |a.pulled| {
      Kept(a.pulled, b.pulled, i);
      Kept(a.pulled, b.pulled, i + 1);
    } else {
      Kept(a.pulled, b.pulled, i);
    }
  }

  /** No Intensity starts at `j`, nor will in a later record: the entry is there and is no number, or the tokenizer has halted. */
  ghost predicate IntensityRefused(a: Snap, j: int) {
    !IsIntensity(a.pulled, j) && ((j < |a.pulled| && !IsNumber(a.pulled, j)) || Halted(a.origin, a.pulled))
  }

  lemma IntensityRefusedStays(a: Snap, b: Snap, j: int)
    requires Later(a, b) && IntensityRefused(a, j)
    ensures !IsIntensity(b.pulled, j)
  {
    if Halted(a.origin, a.pulled) {
      LaterHalted(a, b);
    } else if j >= 0 {
      Kept(a.pulled, b.pulled, j);
    }
  }

  /** No Interval starts at `i`, nor will in a later record: its Duration or its Intensity is refused, or the tokenizer has halted. */
  ghost predicate IntervalRefused(a: Snap, i: int) {
    !IsInterval(a.pulled, i) &&
    (Halted(a.origin, a.pulled) || DurationRefused(a, i) ||
     (i + 2 < |a.pulled| && IntensityRefused(a, IntensityPos(a.pulled, i))))
  }

  lemma IntervalRefusedStays(a: Snap, b: Snap, i: int)
    requires Later(a, b) && IntervalRefused(a, i)
    ensures !IsInterval(b.pulled, i)
  {
    if Halted(a.origin, a.pulled) {
      LaterHalted(a, b);
    } else if DurationRefused(a, i) {
      DurationRefusedStays(a, b, i);
    } else {
      DurationKept(a.pulled, b.pulled, i);
      IntensityRefusedStays(a, b, IntensityPos(a.pulled, i));
    }
  }

  /** A line of Intervals cannot stop at `p`: the end of input is not there, and no run of NEWLINEs from `p` is ended by another entry. */
  ghost predicate NoStop(pulled: seq<Option<Token>>, p: int) {
    !IsEnd(pulled, p) && (!Is(pulled, p, Newline) || AllNewlines(pulled, p, |pulled|))
  }

  /**
   * A line of Intervals that has reached `p` can go no further there: it
   * cannot stop, and no Interval starts at `p` that the record holds up to
   * its end.
   */
  ghost predicate LineStuck(pulled: seq<Option<Token>>, p: int) {
    NoStop(pulled, p) && !(IsInterval(pulled, p) && IntervalEnd(pulled, p) < |pulled|)
  }

  /**
   * A line of Intervals that has reached `p` is stuck there for good: the
   * tokenizer has halted, or a token other than NEWLINE stands at `p` and no
   * Interval starts at it.
   */
  ghost predicate LineStalled(a: Snap, p: int) {
    LineStuck(a.pulled, p) &&
    (Halted(a.origin, a.pulled) ||
     (0 <= p < |a.pulled| && a.pulled[p].Some? && !Is(a.pulled, p, Newline) && IntervalRefused(a, p)))
  }

  lemma LineStalledStays(a: Snap, b: Snap, p: int)
    requires Later(a, b) && LineStalled(a, p)
    ensures LineStuck(b.pulled, p)
  {
    if Halted(a.origin, a.pulled) {
      LaterHalted(a, b);
    } else {
      Kept(a.pulled, b.pulled, p);
      IntervalRefusedStays(a, b, p);
    }
  }

  /** Where a line of Intervals cannot stop, no line read ends. */
  lemma StopRefused(pulled: seq<Option<Token>>, p: int, hi: int)
    requires NoStop(pulled, p)
    ensures !(IsEnd(pulled, p) && hi == p) && !NewlineRun(pulled, p, hi)
  {
    assert NewlineRun(pulled, p, hi) ==> Is(pulled, p, Newline) && Is(pulled, hi, Newline);
  }

  /** A line read from `lo` stops where a line of Intervals from `lo` stands, when no Interval there goes on. */
  lemma LineReaches(pulled: seq<Option<Token>>, bounds: seq<int>, nodes: seq<Node>, b: seq<int>, lo: int, hi: int)
    requires IntervalLine(pulled, bounds) && bounds[0] == lo && LineRead(pulled, nodes, b, lo, hi)
    requires !(IsInterval(pulled, bounds[|bounds| - 1]) && IntervalEnd(pulled, bounds[|bounds| - 1]) < |pulled|)
    ensures b[|b| - 1] == bounds[|bounds| - 1]
  {
    var m := if |b| < |bounds| then |b| else |bounds|;
    BoundsAgree(pulled, bounds, b, m - 1);
    LineStops(pulled, nodes, b, lo, hi);
  }

  /** A line of Intervals from `lo` that is stuck where it stands is the only start there was: no line is read from `lo`. */
  lemma LineBlockedIn(pulled: seq<Option<Token>>, bounds: seq<int>, lo: int)
    requires IntervalLine(pulled, bounds) && bounds[0] == lo && LineStuck(pulled, bounds[|bounds| - 1])
    ensures NoLineIn(pulled, lo)
  {
    forall nodes, b, hi | LineRead(pulled, nodes, b, lo, hi)
      ensures false
    {
      LineReaches(pulled, bounds, nodes, b, lo, hi);
      StopRefused(pulled, bounds[|bounds| - 1], hi);
    }
  }

  /** A line of Intervals from `lo` that has stalled for good is the only start there will be: no line is ever read from `lo`. */
  lemma LineBlocked(a: Snap, bounds: seq<int>, lo: int)
    requires IntervalLine(a.pulled, bounds) && bounds[0] == lo && LineStalled(a, bounds[|bounds| - 1])
    ensures NoLine(a, lo)
  {
    forall b | Later(a, b)
      ensures NoLineIn(b.pulled, lo)
    {
      LineKept(a.pulled, b.pulled, bounds);
      LineStalledStays(a, b, bounds[|bounds| - 1]);
      LineBlockedIn(b.pulled, bounds, lo);
    }
  }

  /** No line is read from an entry the record does not hold. */
  lemma LineNeedsEntry(pulled: seq<Option<Token>>, lo: int)
    requires lo >= |pulled|
    ensures NoLineIn(pulled, lo)
  {
    forall nodes, b, hi | LineRead(pulled, nodes, b, lo, hi)
      ensures false
    {
      LineInside(pulled, nodes, b, lo, hi);
    }
  }

  /** No block is read from past the end of a record whose tokenizer has halted. */
  lemma BlockNeedsEntry(a: Snap, lo: int)
    requires lo >= |a.pulled| && Halted(a.origin, a.pulled)
    ensures NoBlock(a, lo)
  {
    forall b | Later(a, b)
      ensures NoBlockIn(b, lo)
    {
      LaterHalted(a, b);
      LineNeedsEntry(b.pulled, lo);
    }
  }

  /** After an INDENT at `lo`, a block is read from `lo` only as Sets from `lo + 1`. */
  lemma IndentBlocked(a: Snap, lo: int)
    requires Is(a.pulled, lo, Indent) && NoSets(a, lo + 1)
    ensures NoBlock(a, lo)
  {
    forall b | Later(a, b)
      ensures NoBlockIn(b, lo)
    {
      Kept(a.pulled, b.pulled, lo);
    }
  }

  /** Where a token other than INDENT stands at `lo`, a block is read from `lo` only as a line of Intervals. */
  lemma LineOnly(a: Snap, lo: int)
    requires 0 <= lo < |a.pulled| && !Is(a.pulled, lo, Indent) && NoLine(a, lo)
    ensures NoBlock(a, lo)
  {
    forall b | Later(a, b)
      ensures NoBlockIn(b, lo)
    {
      Kept(a.pulled, b.pulled, lo);
    }
  }

  /** In one record, a Set cannot be read from `p` when the block after its count cannot be read. */
  lemma SetBlockedIn(a: Snap, p: int)
    requires NoBlockIn(a, AfterRepeat(a.pulled, p))
    ensures NoSetIn(a, p)
  {
    forall n, rd, q | SetRead(a, n, rd, p, q)
      ensures false
    {
      SetOpened(a, n, rd, p, q);
    }
  }

  /** A Set is never read from `p` when its count is settled and the block after it is never read. */
  lemma SetBlocked(a: Snap, p: int)
    requires RepeatSettled(a, p) && NoBlock(a, AfterRepeat(a.pulled, p))
    ensures NoSet(a, p)
  {
    forall b | Later(a, b)
      ensures NoSetIn(b, p)
    {
      RepeatStays(a, b, p);
      SetBlockedIn(b, p);
    }
  }

  /** No Set is read from past the end of a record whose tokenizer has halted. */
  lemma SetNeedsEntry(a: Snap, p: int)
    requires p >= |a.pulled| && Halted(a.origin, a.pulled)
    ensures NoSet(a, p)
  {
    forall b | Later(a, b)
      ensures NoSetIn(b, p)
    {
      LaterHalted(a, b);
      LineNeedsEntry(b.pulled, AfterRepeat(b.pulled, p));
      SetBlockedIn(b, p);
    }
  }

  /**
   * In one record, a reading of Sets from `lo` that stands where the block
   * is not closed and no Set can be read is the only start there was: no
   * block of Sets is read from `lo`.
   */
  lemma ChainBlockedIn(a: Snap, rd: Reading, lo: int)
    requires rd.Nest? && SetsChain(a, rd, lo)
    requires !IsEnd(a.pulled, rd.stop) && !Is(a.pulled, rd.stop, Dedent) && NoSetIn(a, rd.stop)
    ensures NoSetsIn(a, lo)
  {
    forall nodes, d: Reading, hi | d.Nest? && BlockRead(a, nodes, d, lo, hi)
      ensures false
    {
      var m := if |rd.parsed| < |d.parsed| then |rd.parsed| else |d.parsed|;
      ChainAgrees(a, rd, d, lo, m);
      ChainPlaces(a, rd, lo, m);
      ChainPlaces(a, d, lo, m);
      ClosedNotLed(a.pulled, d.stop, hi);
      if m < |d.parsed| {
        ChainMember(a, d, lo, m);
      }
    }
  }

  /**
   * A reading of Sets from `lo` that stands where a token other than the end
   * of input or DEDENT leads, or where the tokenizer has halted, and from
   * where no Set is ever read, is the only start there will be: no block of
   * Sets is ever read from `lo`.
   */
  lemma ChainBlocked(a: Snap, rd: Reading, lo: int)
    requires rd.Nest? && SetsChain(a, rd, lo)
    requires Leads(a.pulled, rd.stop) || (rd.stop >= |a.pulled| && Halted(a.origin, a.pulled))
    requires NoSet(a, rd.stop)
    ensures NoSets(a, lo)
  {
    forall b | Later(a, b)
      ensures NoSetsIn(b, lo)
    {
      ChainStays(a, b, rd, lo);
      if Halted(a.origin, a.pulled) {
        LaterHalted(a, b);
      } else {
        Kept(a.pulled, b.pulled, rd.stop);
      }
      ChainBlockedIn(b, rd, lo);
    }
  }

  /** The text of a STRING token is the annotation between two equal quotes. */
  ghost predicate Quotes(text: string, inner: string) {
    |text| == |inner| + 2 && (text[0] == '"' || text[0] == '\'') && text == [text[0]] + inner + [text[0]]
  }

  /** `slice(1, -1)` on a STRING token's text: the annotation without its quotes. */
  function Unquoted(text: string): (inner: string)
    requires IsQuotedText(text)
    ensures Quotes(text, inner)
  {
    assert text == [text[0]] + text[1..|text| - 1] + [text[|text| - 1]];
    text[1..|text| - 1]
  }

  /** Quoting an annotation and unquoting it gives the annotation back. */
  lemma UnquoteQuoted(q: char, inner: string)
    requires q == '"' || q == '\''
    ensures IsQuotedText([q] + inner + [q]) && Unquoted([q] + inner + [q]) == inner
  {
    var text := [q] + inner + [q];
    assert text[1..|text| - 1] == inner;
  }

  /** The strings of a run of pulled tokens, joined. */
  ghost function Joined(run: seq<Option<Token>>): string {
    if run == [] then ""
    else Joined(run[..|run| - 1]) + (if run[|run| - 1].Some? then run[|run| - 1].value.value else "")
  }

  /** Extending a record leaves its entries, and so their tokens and numbers, as they were. */
  lemma Kept(a: seq<Option<Token>>, b: seq<Option<Token>>, i: int)
    requires a <= b && 0 <= i < |a|
    ensures b[i] == a[i]
  {
  }

  /** One more entry of a grown record extends a run read from it. */
  lemma {:induction false} RunStep(a: seq<Option<Token>>, b: seq<Option<Token>>, i: int, j: int)
    requires a <= b && 0 <= i <= j <= |a| && j < |b|
    ensures b[i..j + 1] == a[i..j] + [b[j]]
    ensures Joined(b[i..j + 1]) == Joined(a[i..j]) + (if b[j].Some? then b[j].value.value else "")
  {
    assert b[i..j + 1] == a[i..j] + [b[j]];
    assert b[i..j + 1][..j - i] == a[i..j];
  }

  /** Entries `p` to `q - 1` of a pulled record are all NEWLINE tokens. */
  ghost predicate AllNewlines(pulled: seq<Option<Token>>, p: int, q: int) {
    0 <= p <= q <= |pulled| && forall i :: p <= i < q ==> Is(pulled, i, Newline)
  }

  /** A non-empty run of NEWLINE tokens from `p`, ended at `q` by the end of input or another token. */
  ghost predicate NewlineRun(pulled: seq<Option<Token>>, p: int, q: int) {
    p < q < |pulled| && AllNewlines(pulled, p, q) && !Is(pulled, q, Newline)
  }

  /** Growing the record keeps a run of NEWLINE tokens and its text. */
  lemma NewlinesKept(a: seq<Option<Token>>, b: seq<Option<Token>>, p: int, q: int)
    requires a <= b && AllNewlines(a, p, q)
    ensures AllNewlines(b, p, q) && Joined(b[p..q]) == Joined(a[p..q])
  {
    forall i | p <= i < q
      ensures Is(b, i, Newline)
    {
      assert Is(a, i, Newline) && b[i] == a[i];
    }
    assert b[p..q] == a[p..q];
  }

  /** One more NEWLINE token extends a run and appends its text. */
  lemma NewlinesExtended(a: seq<Option<Token>>, b: seq<Option<Token>>, p: int, q: int)
    requires a <= b && AllNewlines(a, p, q) && Is(b, q, Newline)
    ensures AllNewlines(b, p, q + 1) && Joined(b[p..q + 1]) == Joined(a[p..q]) + b[q].value.value
  {
    NewlinesKept(a, b, p, q);
    RunStep(a, b, p, q);
  }

  /**
   * A block of Sets that is never read from `lo` once the record is `b` was
   * not read in any earlier record `a` either: a reading in `a` would be one
   * in `b`.
   */
  lemma NoSetsBefore(a: Snap, b: Snap, lo: int)
    requires Later(a, b) && NoSets(b, lo)
    ensures NoSetsIn(a, lo)
  {
    forall nodes, rd: Reading, hi | rd.Nest? && BlockRead(a, nodes, rd, lo, hi)
      ensures false
    {
      assert Later(b, b);
      BlockStays(a, b, nodes, rd, lo, hi);
    }
  }

  /** A Power ruled out at `p` stays ruled out in every later record. */
  lemma PowerStays(a: Snap, b: Snap, p: int)
    requires Later(a, b) && !IsPower(a.pulled, p) && PowerSettled(a, p)
    ensures !IsPower(b.pulled, p)
  {
    if p < 0 {
    } else if Halted(a.origin, a.pulled) {
      LaterHalted(a, b);
    } else if p + 1 < |a.pulled| {
      Kept(a.pulled, b.pulled, p);
      Kept(a.pulled, b.pulled, p + 1);
    } else {
      Kept(a.pulled, b.pulled, p);
    }
  }

  /** A settled repeat count is the same in every later record. */
  lemma RepeatStays(a: Snap, b: Snap, p: int)
    requires Later(a, b) && RepeatSettled(a, p)
    ensures RepeatSettled(b, p) && IsRepeat(b.pulled, p) == IsRepeat(a.pulled, p)
    ensures RepeatAt(b.pulled, p) == RepeatAt(a.pulled, p)
    ensures IsRepeat(a.pulled, p) ==> RepeatWidth(b.pulled, p) == RepeatWidth(a.pulled, p)
    ensures AfterRepeat(b.pulled, p) == AfterRepeat(a.pulled, p)
  {
    if p < 0 {
    } else if Halted(a.origin, a.pulled) {
      LaterHalted(a, b);
    } else if IsRepeat(a.pulled, p) {
      Kept(a.pulled, b.pulled, p);
      Kept(a.pulled, b.pulled, p + 1);
      Kept(a.pulled, b.pulled, p + 2);
    } else if p < |a.pulled| && !Is(a.pulled, p, Int) {
      Kept(a.pulled, b.pulled, p);
    } else {
      Kept(a.pulled, b.pulled, p + 1);
    }
  }

  /** A Set read from a record is read the same way in every later record. */
  lemma SetStays(a: Snap, b: Snap, n: Node, rd: Reading, p: int, q: int)
    requires Later(a, b) && SetRead(a, n, rd, p, q)
    ensures SetRead(b, n, rd, p, q)
    decreases rd, 2
  {
    SetOpened(a, n, rd, p, q);
    RepeatStays(a, b, p);
    var c := AfterRepeat(a.pulled, p);
    if Is(a.pulled, c, Indent) {
      Kept(a.pulled, b.pulled, c);
      BlockStays(a, b, n.sets, rd, c + 1, q);
    } else {
      LineInside(a.pulled, n.sets, rd.bounds, c, q);
      Kept(a.pulled, b.pulled, c);
      BlockStays(a, b, n.sets, rd, c, q);
    }
    SetFound(b, n, rd, p, c, q);
  }

  /** A block read from a record is read the same way in every later record. */
  lemma BlockStays(a: Snap, b: Snap, nodes: seq<Node>, rd: Reading, lo: int, hi: int)
    requires Later(a, b) && BlockRead(a, nodes, rd, lo, hi)
    ensures BlockRead(b, nodes, rd, lo, hi)
    decreases rd, 1
  {
    match rd
    case Line(bounds) =>
      LineReadKept(a.pulled, b.pulled, nodes, bounds, lo, hi);
    case Nest(parsed, starts, inner, stop) =>
      ChainStays(a, b, rd, lo);
      Kept(a.pulled, b.pulled, stop);
  }

  /** The Sets read one after another from a record are read the same way in every later record. */
  lemma ChainStays(a: Snap, b: Snap, rd: Reading, lo: int)
    requires rd.Nest? && Later(a, b) && SetsChain(a, rd, lo)
    ensures SetsChain(b, rd, lo)
    decreases rd, 0
  {
    forall k | 0 <= k < |rd.parsed|
      ensures Leads(b.pulled, rd.starts[k])
      ensures SetRead(b, rd.parsed[k], rd.inner[k], rd.starts[k], SetEnd(rd, k))
    {
      Kept(a.pulled, b.pulled, rd.starts[k]);
      SetStays(a, b, rd.parsed[k], rd.inner[k], rd.starts[k], SetEnd(rd, k));
    }
  }

  class Parser {
    var tokenizer: Tokenizer
    var queue: TokenQueue?
    /** The text of the last `Parse`. */
    var source: string

    ghost predicate Valid()
      reads this, queue, tokenizer
    {
      queue != null && queue.tokenizer == tokenizer && queue.Valid()
    }

    /** Everything the queue has pulled from the tokenizer (nothing before `parse`). */
    ghost function Pulled(): seq<Option<Token>>
      reads this, queue
    {
      if queue == null then [] else queue.pulled
    }

    /** The position in `Pulled()` of the next token. */
    ghost function Pos(): int
      reads this, queue
    {
      if queue == null then 0 else queue.Pos()
    }

    /** Entry `i` of the record has the shape its rule matched. */
    lemma ShapedAt(i: int)
      requires Valid() && 0 <= i < |Pulled()|
      ensures Shaped(Pulled()[i])
    {
    }

    /** Once the tokenizer has halted, the record grows no more. */
    lemma Frozen(a: Snap)
      requires Valid() && Grown(a, queue.Snapshot()) && Halted(a.origin, a.pulled)
      ensures Pulled() == a.pulled
    {
      queue.Lexed();
      HaltedStays(a, queue.Snapshot());
    }

    /** The queue's record now is a later record of any record it had before. */
    lemma Reached(a: Snap)
      requires Valid() && Grown(a, queue.Snapshot())
      ensures Later(a, queue.Snapshot())
    {
      queue.Lexed();
    }

    constructor ()
      ensures tokenizer.Valid() && tokenizer.State() == Scan("", 0, 0, 0, 0) && queue == null
    {
      tokenizer := new Tokenizer("");
      queue := null;
      source := "";
    }

    /** INT: the integer value of the next token, which must be an INT. */
    method Integer() returns (r: Result<nat>)
      requires Valid()
      modifies queue, tokenizer
      ensures Valid() && queue.tests == old(queue.tests)
      ensures queue.tests != [] ==> queue.Base() == old(queue.Base())
      ensures Grown(old(queue.Snapshot()), queue.Snapshot())
      ensures r.Ok? ==>
        Pos() == old(Pos()) + 1 && Is(Pulled(), old(Pos()), Int) && Shaped(Pulled()[old(Pos())]) &&
        r.value == IntegerAt(Pulled(), old(Pos()))
      ensures r.Err? ==> Pos() == old(Pos()) && r.error.IsSyntax()
      ensures old(Pos()) < |Pulled()| ==> (r.Ok? <==> Is(Pulled(), old(Pos()), Int))
      ensures old(Pos()) >= |Pulled()| ==> r.Err? && Halted(queue.origin, Pulled())
    {
      var t := queue.Eat([Int]);
      if t.Err? {
        return Err(t.error);
      }
      ShapedAt(old(Pos()));
      return Ok(NumeralValue(t.value.value));
    }

    /** FLOAT: the value of the next token, which must be a FLOAT. */
    method Float() returns (r: Result<real>)
      requires Valid()
      modifies queue, tokenizer
      ensures Valid() && queue.tests == old(queue.tests)
      ensures queue.tests != [] ==> queue.Base() == old(queue.Base())
      ensures Grown(old(queue.Snapshot()), queue.Snapshot())
      ensures r.Ok? ==>
        Pos() == old(Pos()) + 1 && Is(Pulled(), old(Pos()), Kind.Float) && IsNumber(Pulled(), old(Pos())) &&
        r.value == NumberAt(Pulled(), old(Pos()))
      ensures r.Err? ==> Pos() == old(Pos()) && r.error.IsSyntax()
      ensures old(Pos()) < |Pulled()| ==> (r.Ok? <==> Is(Pulled(), old(Pos()), Kind.Float))
    {
      var t := queue.Eat([Kind.Float]);
      if t.Err? {
        return Err(t.error);
      }
      ShapedAt(old(Pos()));
      return Ok(DecimalValue(t.value.value));
    }

    /** STRING: the text of the next token, which must be a STRING, without its quotes. */
    method String() returns (r: Result<string>)
      requires Valid()
      modifies queue, tokenizer
      ensures Valid() && queue.tests == old(queue.tests)
      ensures queue.tests != [] ==> queue.Base() == old(queue.Base())
      ensures Grown(old(queue.Snapshot()), queue.Snapshot())
      ensures r.Ok? ==>
        Pos() == old(Pos()) + 1 && IsAnnotation(Pulled(), old(Pos())) &&
        Quotes(Tok(Pulled(), old(Pos())).value, r.value) && r.value == Unquoted(Tok(Pulled(), old(Pos())).value)
      ensures r.Err? ==> Pos() == old(Pos()) && r.error.IsSyntax()
      ensures old(Pos()) < |Pulled()| ==> (r.Ok? <==> Is(Pulled(), old(Pos()), Str))
      ensures old(Pos()) >= |Pulled()| ==> r.Err? && Halted(queue.origin, Pulled())
    {
      var t := queue.Eat([Str]);
      if t.Err? {
        return Err(t.error);
      }
      ShapedAt(old(Pos()));
      return Ok(Unquoted(t.value.value));
    }

    /**
     * Numeric: an INT or a FLOAT. At the end of input the source builds its
     * unexpected-token error from the missing token and fails with a TypeError
     * instead, which no test catches.
     */
    method Numeric() returns (r: Result<real>)
      requires Valid()
      modifies queue, tokenizer
      ensures Valid() && queue.tests == old(queue.tests)
      ensures queue.tests != [] ==> queue.Base() == old(queue.Base())
      ensures Grown(old(queue.Snapshot()), queue.Snapshot())
      ensures r.Ok? ==>
        Pos() == old(Pos()) + 1 && IsNumber(Pulled(), old(Pos())) && r.value == NumberAt(Pulled(), old(Pos()))
      ensures r.Err? ==> Pos() == old(Pos())
      ensures old(Pos()) < |Pulled()| ==> (r.Ok? <==> IsNumber(Pulled(), old(Pos())))
      ensures IsEnd(Pulled(), old(Pos())) ==> r == Err(TypeError)
      ensures old(Pos()) < |Pulled()| && Pulled()[old(Pos())].Some? && !IsNumber(Pulled(), old(Pos())) ==>
        r == Err(UnexpectedToken(Tok(Pulled(), old(Pos())), [Int, Kind.Float]))
      ensures old(Pos()) >= |Pulled()| ==>
        r.Err? && (r.error.UnexpectedCharacter? || r.error.UnexpectedIndent?) && Halted(queue.origin, Pulled())
    {
      var p := queue.PeekOne();
      if p.Err? {
        return Err(p.error);
      }
      if p.value.None? {
        return Err(TypeError);
      }
      var t := p.value.value;
      ShapedAt(Pos());
      ghost var mid := queue.Snapshot();
      if t.kind == Int {
        var n := Integer();
        GrownTrans(old(queue.Snapshot()), mid, queue.Snapshot());
        return Ok(n.value as real);
      } else if t.kind == Kind.Float {
        var f := Float();
        GrownTrans(old(queue.Snapshot()), mid, queue.Snapshot());
        return Ok(f.value);
      }
      return Err(UnexpectedToken(t, [Int, Kind.Float]));
    }

    /**
     * Duration: a number and its unit, in seconds. Seconds must be whole; the
     * error for a fractional number of seconds names the units that would have
     * allowed it.
     */
    method Duration() returns (r: Result<real>)
      requires Valid()
      modifies queue, tokenizer
      ensures Valid() && queue.tests == old(queue.tests)
      ensures queue.tests != [] ==> queue.Base() == old(queue.Base())
      ensures Grown(old(queue.Snapshot()), queue.Snapshot())
      ensures r.Ok? <==> IsDuration(Pulled(), old(Pos()))
      ensures r.Ok? ==> Pos() == old(Pos()) + 2 && r.value == DurationAt(Pulled(), old(Pos()))
      ensures IsFractionalSeconds(Pulled(), old(Pos())) ==> r == Err(SecondsRefused(Pulled(), old(Pos())))
      ensures r.Err? ==> DurationRefused(queue.Snapshot(), old(Pos()))
    {
      var value := Numeric();
      if value.Err? {
        return Err(value.error);
      }
      ghost var mid := queue.Snapshot();
      r := Units(value.value, old(Pos()));
      GrownTrans(old(queue.Snapshot()), mid, queue.Snapshot());
    }

    /**
     * The unit half of Duration: eats SEC, MIN or HR after the number at `p`,
     * whose value is `value`, and converts it to seconds, refusing a
     * fractional number of seconds.
     */
    method Units(value: real, ghost p: int) returns (r: Result<real>)
      requires Valid() && Pos() == p + 1 && IsNumber(Pulled(), p) && value == NumberAt(Pulled(), p)
      modifies queue, tokenizer
      ensures Valid() && queue.tests == old(queue.tests)
      ensures queue.tests != [] ==> queue.Base() == old(queue.Base())
      ensures Grown(old(queue.Snapshot()), queue.Snapshot())
      ensures r.Ok? <==> IsDuration(Pulled(), p)
      ensures r.Ok? ==> Pos() == p + 2 && r.value == DurationAt(Pulled(), p)
      ensures IsFractionalSeconds(Pulled(), p) ==> r == Err(SecondsRefused(Pulled(), p))
      ensures r.Err? ==> p + 1 < |Pulled()| || Halted(queue.origin, Pulled())
    {
      ghost var before := Pulled();
      var units := queue.Eat([Sec, Min, Hr]);
      Kept(before, Pulled(), p);
      assert NumberAt(Pulled(), p) == value;
      if units.Err? {
        assert !IsUnit(Pulled(), p + 1);
        r := Err(units.error);
      } else if units.value.kind == Sec && !IsIntegral(value) {
        assert IsFractionalSeconds(Pulled(), p) && Pulled()[p + 1] == Some(units.value);
        r := Err(UnexpectedToken(units.value, [Min, Hr]));
      } else {
        assert IsDuration(Pulled(), p) && Pulled()[p + 1] == Some(units.value);
        r := Ok(Seconds(value, units.value.kind));
      }
    }

    /** Power: an INT followed by W, in watts. */
    method Power() returns (r: Result<Intensity>)
      requires Valid()
      modifies queue, tokenizer
      ensures Valid() && queue.tests == old(queue.tests)
      ensures queue.tests != [] ==> queue.Base() == old(queue.Base())
      ensures Grown(old(queue.Snapshot()), queue.Snapshot())
      ensures r.Ok? <==> IsPower(Pulled(), old(Pos()))
      ensures r.Ok? ==>
        Pos() == old(Pos()) + 2 && r.value == Syntax.Intensity.Power(IntegerAt(Pulled(), old(Pos())))
      ensures r.Err? ==> r.error.IsSyntax() && PowerSettled(queue.Snapshot(), old(Pos()))
    {
      var value := Integer();
      if value.Err? {
        return Err(value.error);
      }
      ghost var mid := queue.Snapshot();
      r := WattsSign(value.value, old(Pos()));
      GrownTrans(old(queue.Snapshot()), mid, queue.Snapshot());
    }

    /**
     * The unit half of Power: eats W after the INT at `p`, whose value is
     * `watts`.
     */
    method WattsSign(watts: nat, ghost p: int) returns (r: Result<Intensity>)
      requires Valid() && Pos() == p + 1 && Is(Pulled(), p, Int) && Shaped(Pulled()[p]) && watts == IntegerAt(Pulled(), p)
      modifies queue, tokenizer
      ensures Valid() && queue.tests == old(queue.tests)
      ensures queue.tests != [] ==> queue.Base() == old(queue.Base())
      ensures Grown(old(queue.Snapshot()), queue.Snapshot())
      ensures r.Ok? <==> IsPower(Pulled(), p)
      ensures r.Ok? ==> Pos() == p + 2 && r.value == Syntax.Intensity.Power(IntegerAt(Pulled(), p))
      ensures r.Err? ==> r.error.IsSyntax() && PowerSettled(queue.Snapshot(), p)
    {
      ghost var before := Pulled();
      var w := queue.Eat([Watts]);
      Kept(before, Pulled(), p);
      if w.Err? {
        assert !IsPower(Pulled(), p) && PowerSettled(queue.Snapshot(), p);
        r := Err(w.error);
      } else {
        assert IsPower(Pulled(), p) && IntegerAt(Pulled(), p) == watts;
        r := Ok(Syntax.Intensity.Power(watts));
      }
    }

    /** PercentFTP: a number, read as a percentage (divided by 100) when `%` follows it. */
    method PercentFTP() returns (r: Result<Intensity>)
      requires Valid()
      modifies queue, tokenizer
      ensures Valid() && queue.tests == old(queue.tests)
      ensures queue.tests != [] ==> queue.Base() == old(queue.Base())
      ensures Grown(old(queue.Snapshot()), queue.Snapshot())
      ensures r.Ok? <==> IsPercentFTP(Pulled(), old(Pos()))
      ensures r.Ok? ==>
        Pos() == old(Pos()) + PercentWidth(Pulled(), old(Pos())) &&
        r.value == Syntax.Intensity.PercentFTP(FractionAt(Pulled(), old(Pos())))
      ensures IsEnd(Pulled(), old(Pos())) ==> r == Err(TypeError)
      ensures r.Err? ==>
        (old(Pos()) < |Pulled()| && !IsNumber(Pulled(), old(Pos()))) || Halted(queue.origin, Pulled())
    {
      var value := Numeric();
      if value.Err? {
        return Err(value.error);
      }
      ghost var mid := queue.Snapshot();
      r := PercentSign(value.value, old(Pos()));
      GrownTrans(old(queue.Snapshot()), mid, queue.Snapshot());
    }

    /**
     * The `%` half of PercentFTP: after the number at `p`, whose value is
     * `value`, a `%` is eaten and divides the value by 100.
     */
    method PercentSign(value: real, ghost p: int) returns (r: Result<Intensity>)
      requires Valid() && Pos() == p + 1 && IsNumber(Pulled(), p) && value == NumberAt(Pulled(), p)
      modifies queue, tokenizer
      ensures Valid() && queue.tests == old(queue.tests)
      ensures queue.tests != [] ==> queue.Base() == old(queue.Base())
      ensures Grown(old(queue.Snapshot()), queue.Snapshot())
      ensures r.Ok? <==> IsPercentFTP(Pulled(), p)
      ensures r.Ok? ==>
        Pos() == p + PercentWidth(Pulled(), p) && r.value == Syntax.Intensity.PercentFTP(FractionAt(Pulled(), p))
      ensures r.Err? ==> Halted(queue.origin, Pulled())
    {
      ghost var before := Pulled();
      var units := queue.PeekOne();
      Kept(before, Pulled(), p);
      if units.Err? {
        r := Err(units.error);
      } else if units.value.Some? && units.value.value.kind == Percent {
        ghost var mid := queue.Snapshot();
        assert Is(Pulled(), p + 1, Percent) && NumberAt(Pulled(), p) == value;
        var intensity := PercentEaten(value, p);
        GrownTrans(old(queue.Snapshot()), mid, queue.Snapshot());
        r := Ok(intensity);
      } else {
        assert !Is(Pulled(), p + 1, Percent) && NumberAt(Pulled(), p) == value;
        r := Ok(Syntax.Intensity.PercentFTP(value));
      }
    }

    /** PercentSign once a `%` is seen after the number at `p`: the `%` is eaten. */
    method PercentEaten(value: real, ghost p: int) returns (r: Intensity)
      requires Valid() && Pos() == p + 1 && IsNumber(Pulled(), p) && value == NumberAt(Pulled(), p)
      requires Is(Pulled(), p + 1, Percent)
      modifies queue, tokenizer
      ensures Valid() && queue.tests == old(queue.tests)
      ensures queue.tests != [] ==> queue.Base() == old(queue.Base())
      ensures Grown(old(queue.Snapshot()), queue.Snapshot())
      ensures IsPercentFTP(Pulled(), p) && Pos() == p + PercentWidth(Pulled(), p)
      ensures r == Syntax.Intensity.PercentFTP(FractionAt(Pulled(), p))
    {
      ghost var before := Pulled();
      var _ := queue.Eat([Percent]);
      Kept(before, Pulled(), p);
      Kept(before, Pulled(), p + 1);
      assert Is(Pulled(), p + 1, Percent) && NumberAt(Pulled(), p) == value;
      r := Syntax.Intensity.PercentFTP(value / 100.0);
    }

    /** `test(() => this.Power())`: Power, or nothing consumed and `None` when it fails. */
    method TryPower() returns (r: Option<Intensity>)
      requires Valid() && queue.tests == []
      modifies queue, tokenizer
      ensures Valid() && queue.tests == []
      ensures Grown(old(queue.Snapshot()), queue.Snapshot())
      ensures r.Some? <==> IsPower(Pulled(), old(Pos()))
      ensures r.Some? ==>
        Pos() == old(Pos()) + 2 && r.value == Syntax.Intensity.Power(IntegerAt(Pulled(), old(Pos())))
      ensures r.None? ==> Pos() == old(Pos()) && PowerSettled(queue.Snapshot(), old(Pos()))
    {
      ghost var start := queue.Snapshot();
      queue.BeginTest();
      assert queue.Snapshot() == start;
      var power := Power();
      ghost var tried := queue.Snapshot();
      var outcome := queue.EndTest(power);
      assert queue.pulled == tried.pulled && queue.tokenizer.State() == tried.scan;
      r := outcome.value;
    }

    /**
     * Intensity: a Power when the speculative Power succeeds, a PercentFTP
     * otherwise. At the end of input the PercentFTP attempt fails with the
     * TypeError of Numeric.
     */
    method Intensity() returns (r: Result<Intensity>)
      requires Valid() && queue.tests == []
      modifies queue, tokenizer
      ensures Valid() && queue.tests == []
      ensures Grown(old(queue.Snapshot()), queue.Snapshot())
      ensures r.Ok? <==> IsIntensity(Pulled(), old(Pos()))
      ensures r.Ok? ==>
        r.value == IntensityAt(Pulled(), old(Pos())) && Pos() == old(Pos()) + IntensityWidth(Pulled(), old(Pos()))
      ensures old(Pos()) < |Pulled()| && !IsNumber(Pulled(), old(Pos())) ==> r.Err?
      ensures IsEnd(Pulled(), old(Pos())) ==> r == Err(TypeError)
      ensures r.Err? ==> IntensityRefused(queue.Snapshot(), old(Pos()))
    {
      var power := TryPower();
      if power.Some? {
        return Ok(power.value);
      }
      ghost var mid := queue.Snapshot();
      r := PercentFTP();
      GrownTrans(old(queue.Snapshot()), mid, queue.Snapshot());
      Reached(mid);
      PowerStays(mid, queue.Snapshot(), old(Pos()));
    }

    /**
     * The body of Repeat's test: an INT, REPEAT and an optional NEWLINE. Every
     * failure is a syntax error, so the test always catches it.
     */
    method RepeatCount() returns (r: Result<nat>)
      requires Valid()
      modifies queue, tokenizer
      ensures Valid() && queue.tests == old(queue.tests)
      ensures queue.tests != [] ==> queue.Base() == old(queue.Base())
      ensures Grown(old(queue.Snapshot()), queue.Snapshot())
      ensures r.Ok? <==> IsRepeat(Pulled(), old(Pos()))
      ensures r.Ok? ==>
        Pos() == old(Pos()) + RepeatWidth(Pulled(), old(Pos())) && r.value == IntegerAt(Pulled(), old(Pos()))
      ensures r.Err? ==> r.error.IsSyntax() && RepeatSettled(queue.Snapshot(), old(Pos()))
    {
      var value := Integer();
      if value.Err? {
        return Err(value.error);
      }
      ghost var mid := queue.Snapshot();
      r := RepeatMark(value.value, old(Pos()));
      GrownTrans(old(queue.Snapshot()), mid, queue.Snapshot());
    }

    /** The rest of Repeat's test after the INT at `p`, whose value is `count`: REPEAT, then an optional NEWLINE. */
    method RepeatMark(count: nat, ghost p: int) returns (r: Result<nat>)
      requires Valid() && Pos() == p + 1 && Is(Pulled(), p, Int) && Shaped(Pulled()[p]) && count == IntegerAt(Pulled(), p)
      modifies queue, tokenizer
      ensures Valid() && queue.tests == old(queue.tests)
      ensures queue.tests != [] ==> queue.Base() == old(queue.Base())
      ensures Grown(old(queue.Snapshot()), queue.Snapshot())
      ensures r.Ok? <==> IsRepeat(Pulled(), p)
      ensures r.Ok? ==> Pos() == p + RepeatWidth(Pulled(), p) && r.value == IntegerAt(Pulled(), p)
      ensures r.Err? ==> r.error.IsSyntax() && RepeatSettled(queue.Snapshot(), p)
    {
      ghost var before := Pulled();
      var mark := queue.Eat([Kind.Repeat]);
      Kept(before, Pulled(), p);
      if mark.Err? {
        r := Err(mark.error);
      } else {
        ghost var mid := queue.Snapshot();
        r := RepeatEnd(count, p);
        GrownTrans(old(queue.Snapshot()), mid, queue.Snapshot());
      }
    }

    /** The optional NEWLINE that ends Repeat's test, after the INT at `p` and its REPEAT. */
    method RepeatEnd(count: nat, ghost p: int) returns (r: Result<nat>)
      requires Valid() && Pos() == p + 2 && Is(Pulled(), p, Int) && Shaped(Pulled()[p]) && Is(Pulled(), p + 1, Kind.Repeat)
      requires count == IntegerAt(Pulled(), p)
      modifies queue, tokenizer
      ensures Valid() && queue.tests == old(queue.tests)
      ensures queue.tests != [] ==> queue.Base() == old(queue.Base())
      ensures Grown(old(queue.Snapshot()), queue.Snapshot())
      ensures r.Ok? <==> IsRepeat(Pulled(), p)
      ensures r.Ok? ==> Pos() == p + RepeatWidth(Pulled(), p) && r.value == IntegerAt(Pulled(), p)
      ensures r.Err? ==> r.error.IsSyntax() && RepeatSettled(queue.Snapshot(), p)
    {
      ghost var before := Pulled();
      var newline := queue.Optional([Newline]);
      Kept(before, Pulled(), p);
      Kept(before, Pulled(), p + 1);
      if newline.Err? {
        r := Err(newline.error);
      } else {
        r := Ok(count);
      }
    }

    /**
     * Repeat: the count of an `INT x` prefix, read speculatively. Without one
     * nothing is consumed and the count is 1; a count of 0 also becomes 1.
     */
    method Repeat() returns (n: nat)
      requires Valid() && queue.tests == []
      modifies queue, tokenizer
      ensures Valid() && queue.tests == []
      ensures Grown(old(queue.Snapshot()), queue.Snapshot())
      ensures n >= 1
      ensures IsRepeat(Pulled(), old(Pos())) ==>
        Pos() == old(Pos()) + RepeatWidth(Pulled(), old(Pos())) &&
        n == if IntegerAt(Pulled(), old(Pos())) == 0 then 1 else IntegerAt(Pulled(), old(Pos()))
      ensures !IsRepeat(Pulled(), old(Pos())) ==> Pos() == old(Pos()) && n == 1
      ensures n == RepeatAt(Pulled(), old(Pos())) && RepeatSettled(queue.Snapshot(), old(Pos()))
    {
      ghost var start := queue.Snapshot();
      queue.BeginTest();
      assert queue.Snapshot() == start;
      var count := RepeatCount();
      ghost var tried := queue.Snapshot();
      var outcome := queue.EndTest(count);
      assert queue.pulled == tried.pulled && queue.tokenizer.State() == tried.scan;
      if outcome.value.Some? && outcome.value.value != 0 {
        n := outcome.value.value;
      } else {
        n := 1;
      }
    }

    /** `test(() => this.String())`: the annotation without its quotes, or `None` and nothing consumed. */
    method TryString() returns (r: Option<string>)
      requires Valid() && queue.tests == []
      modifies queue, tokenizer
      ensures Valid() && queue.tests == []
      ensures Grown(old(queue.Snapshot()), queue.Snapshot())
      ensures r.Some? <==> Is(Pulled(), old(Pos()), Str)
      ensures r.Some? ==> Pos() == old(Pos()) + 1 && Quotes(Tok(Pulled(), old(Pos())).value, r.value)
      ensures r == AnnotationAt(Pulled(), old(Pos()))
      ensures r.None? ==> Pos() == old(Pos()) && Settled(queue.Snapshot(), old(Pos()) + 1)
    {
      ghost var start := queue.Snapshot();
      queue.BeginTest();
      assert queue.Snapshot() == start;
      var text := String();
      ghost var tried := queue.Snapshot();
      var outcome := queue.EndTest(text);
      assert queue.pulled == tried.pulled && queue.tokenizer.State() == tried.scan;
      r := outcome.value;
    }

    /**
     * Interval: a Duration, an optional `@`, an Intensity and an optional
     * annotation, built by MakeInterval (an empty annotation is dropped).
     */
    method Interval() returns (r: Result<Node>)
      requires Valid() && queue.tests == []
      modifies queue, tokenizer
      ensures Valid() && queue.tests == []
      ensures Grown(old(queue.Snapshot()), queue.Snapshot())
      ensures r.Ok? <==> IsInterval(Pulled(), old(Pos()))
      ensures r.Ok? ==>
        r.value == IntervalAt(Pulled(), old(Pos())) && Pos() == IntervalEnd(Pulled(), old(Pos())) &&
        Settled(queue.Snapshot(), AnnotationPos(Pulled(), old(Pos())) + 1)
      ensures IsFractionalSeconds(Pulled(), old(Pos())) ==> r == Err(SecondsRefused(Pulled(), old(Pos())))
      ensures r.Err? ==> IntervalRefused(queue.Snapshot(), old(Pos()))
    {
      var duration := Duration();
      if duration.Err? {
        return Err(duration.error);
      }
      ghost var p := old(Pos());
      ghost var mid := queue.Snapshot();
      r := IntervalRest(duration.value, p);
      GrownTrans(old(queue.Snapshot()), mid, queue.Snapshot());
    }

    /** The rest of Interval after the Duration at `p`, whose value is `duration`: an optional `@`. */
    method IntervalRest(duration: real, ghost p: int) returns (r: Result<Node>)
      requires Valid() && queue.tests == [] && Pos() == p + 2
      requires IsDuration(Pulled(), p) && duration == DurationAt(Pulled(), p)
      modifies queue, tokenizer
      ensures Valid() && queue.tests == []
      ensures Grown(old(queue.Snapshot()), queue.Snapshot())
      ensures IsDuration(Pulled(), p) && !IsFractionalSeconds(Pulled(), p)
      ensures r.Ok? <==> IsInterval(Pulled(), p)
      ensures r.Ok? ==>
        r.value == IntervalAt(Pulled(), p) && Pos() == IntervalEnd(Pulled(), p) &&
        Settled(queue.Snapshot(), AnnotationPos(Pulled(), p) + 1)
      ensures r.Err? ==> IntervalRefused(queue.Snapshot(), p)
    {
      ghost var before := Pulled();
      var at := queue.Optional([At]);
      DurationStays(before, Pulled(), p);
      if at.Err? {
        IntervalCut(Pulled(), p);
        r := Err(at.error);
      } else {
        assert Is(Pulled(), p + 2, At) == at.value.Some?;
        ghost var mid := queue.Snapshot();
        r := IntervalTail(duration, p);
        GrownTrans(old(queue.Snapshot()), mid, queue.Snapshot());
      }
    }

    /** The Intensity and the optional annotation of the Interval whose Duration is at `p`. */
    method IntervalTail(duration: real, ghost p: int) returns (r: Result<Node>)
      requires Valid() && queue.tests == [] && p + 2 < |Pulled()| && Pos() == IntensityPos(Pulled(), p)
      requires IsDuration(Pulled(), p) && duration == DurationAt(Pulled(), p)
      modifies queue, tokenizer
      ensures Valid() && queue.tests == []
      ensures Grown(old(queue.Snapshot()), queue.Snapshot())
      ensures IsDuration(Pulled(), p) && !IsFractionalSeconds(Pulled(), p)
      ensures r.Ok? <==> IsInterval(Pulled(), p)
      ensures r.Ok? ==>
        r.value == IntervalAt(Pulled(), p) && Pos() == IntervalEnd(Pulled(), p) &&
        Settled(queue.Snapshot(), AnnotationPos(Pulled(), p) + 1)
      ensures r.Err? ==> IntervalRefused(queue.Snapshot(), p)
    {
      ghost var before := Pulled();
      ghost var j := Pos();
      var intensity := Intensity();
      if intensity.Err? {
        IntervalMissing(before, Pulled(), p);
        DurationKept(before, Pulled(), p);
        r := Err(intensity.error);
      } else {
        ghost var mid := queue.Snapshot();
        DurationKept(before, Pulled(), p);
        var interval := IntervalAnnotation(duration, intensity.value, p, j);
        GrownTrans(old(queue.Snapshot()), mid, queue.Snapshot());
        r := Ok(interval);
      }
    }

    /** The optional annotation after the Intensity at `j` of the Interval whose Duration is at `p`. */
    method IntervalAnnotation(duration: real, intensity: Intensity, ghost p: int, ghost j: int) returns (r: Node)
      requires Valid() && queue.tests == []
      requires IsDuration(Pulled(), p) && p + 2 < |Pulled()| && duration == DurationAt(Pulled(), p)
      requires j == IntensityPos(Pulled(), p) && IsIntensity(Pulled(), j) && intensity == IntensityAt(Pulled(), j)
      requires Pos() == j + IntensityWidth(Pulled(), j)
      modifies queue, tokenizer
      ensures Valid() && queue.tests == []
      ensures Grown(old(queue.Snapshot()), queue.Snapshot())
      ensures IsDuration(Pulled(), p) && !IsFractionalSeconds(Pulled(), p)
      ensures IsInterval(Pulled(), p) && r == IntervalAt(Pulled(), p) && Pos() == IntervalEnd(Pulled(), p)
      ensures Settled(queue.Snapshot(), AnnotationPos(Pulled(), p) + 1)
    {
      ghost var before := Pulled();
      var annotation := TryString();
      IntervalFound(before, Pulled(), p, j);
      DurationKept(before, Pulled(), p);
      r := MakeInterval(duration, intensity, annotation);
    }

    /**
     * NewLine: a run of NEWLINE tokens collapsed into the text of all of
     * them, or "EOF" at the end of input.
     */
    method NewLine() returns (r: Result<string>)
      requires Valid()
      modifies queue, tokenizer
      ensures Valid() && queue.tests == old(queue.tests)
      ensures queue.tests != [] ==> queue.Base() == old(queue.Base())
      ensures Grown(old(queue.Snapshot()), queue.Snapshot())
      ensures r.Err? ==> r.error.IsSyntax()
      ensures IsEnd(Pulled(), old(Pos())) ==> r == Ok("EOF") && Pos() == old(Pos())
      ensures old(Pos()) < |Pulled()| && Pulled()[old(Pos())].Some? && !Is(Pulled(), old(Pos()), Newline) ==>
        r == Err(UnexpectedToken(Tok(Pulled(), old(Pos())), [Newline])) && Pos() == old(Pos())
      ensures r.Ok? && !IsEnd(Pulled(), old(Pos())) ==>
        NewlineRun(Pulled(), old(Pos()), Pos()) && r.value == Joined(Pulled()[old(Pos())..Pos()]) && r.value != ""
      ensures r.Err? && Is(Pulled(), old(Pos()), Newline) ==>
        Pos() == |Pulled()| && AllNewlines(Pulled(), old(Pos()), Pos()) && Halted(queue.origin, Pulled())
      ensures r.Err? && old(Pos()) >= |Pulled()| ==> Halted(queue.origin, Pulled())
    {
      var front := queue.PeekOne();
      if front.Err? {
        return Err(front.error);
      }
      if front.value.None? {
        return Ok("EOF");
      }
      ghost var mid := queue.Snapshot();
      r := NewLineRun(old(Pos()));
      GrownTrans(old(queue.Snapshot()), mid, queue.Snapshot());
    }

    /** NewLine after seeing a real token at `p`: it must be a NEWLINE. */
    method NewLineRun(ghost p: int) returns (r: Result<string>)
      requires Valid() && Pos() == p && p < |Pulled()| && Pulled()[p].Some?
      modifies queue, tokenizer
      ensures Valid() && queue.tests == old(queue.tests)
      ensures queue.tests != [] ==> queue.Base() == old(queue.Base())
      ensures Grown(old(queue.Snapshot()), queue.Snapshot())
      ensures r.Err? ==> r.error.IsSyntax()
      ensures !Is(Pulled(), p, Newline) ==> r == Err(UnexpectedToken(Tok(Pulled(), p), [Newline])) && Pos() == p
      ensures r.Ok? ==> NewlineRun(Pulled(), p, Pos()) && r.value == Joined(Pulled()[p..Pos()]) && r.value != ""
      ensures r.Err? && Is(Pulled(), p, Newline) ==>
        Pos() == |Pulled()| && AllNewlines(Pulled(), p, Pos()) && Halted(queue.origin, Pulled())
    {
      ghost var before := Pulled();
      var first := queue.Eat([Newline]);
      Kept(before, Pulled(), p);
      if first.Err? {
        return Err(first.error);
      }
      ghost var mid := queue.Snapshot();
      r := NewLineMore(first.value.value, p);
      GrownTrans(old(queue.Snapshot()), mid, queue.Snapshot());
    }

    /** The NEWLINE tokens after the first one, at `p`, whose text is `first`. */
    method NewLineMore(first: string, ghost p: int) returns (r: Result<string>)
      requires Valid() && Pos() == p + 1 && Is(Pulled(), p, Newline) && first == Tok(Pulled(), p).value
      modifies queue, tokenizer
      ensures Valid() && queue.tests == old(queue.tests)
      ensures queue.tests != [] ==> queue.Base() == old(queue.Base())
      ensures Grown(old(queue.Snapshot()), queue.Snapshot())
      ensures Is(Pulled(), p, Newline)
      ensures r.Err? ==>
        r.error.IsSyntax() && Pos() == |Pulled()| && AllNewlines(Pulled(), p, Pos()) && Halted(queue.origin, Pulled())
      ensures r.Ok? ==> NewlineRun(Pulled(), p, Pos()) && r.value == Joined(Pulled()[p..Pos()]) && r.value != ""
    {
      ShapedAt(p);
      RunStep(Pulled(), Pulled(), p, p);
      var text := first;
      GrownRefl(queue.Snapshot());
      while true
        invariant Valid() && queue.tests == old(queue.tests)
        invariant queue.tests != [] ==> queue.Base() == old(queue.Base())
        invariant Grown(old(queue.Snapshot()), queue.Snapshot())
        invariant p < Pos() && AllNewlines(Pulled(), p, Pos())
        invariant text == Joined(Pulled()[p..Pos()]) && text != ""
        decreases Remaining(tokenizer.State()), Gap(tokenizer.State()), Pending(queue.Snapshot())
      {
        ghost var before := queue.Snapshot();
        queue.ConsumedSoFar();
        var next := NewLineNext(text, p);
        queue.ConsumedSoFar();
        GrownTrans(old(queue.Snapshot()), before, queue.Snapshot());
        Progress(before, queue.Snapshot());
        if next.Err? {
          return Err(next.error);
        }
        if next.value.None? {
          break;
        }
        text := next.value.value;
      }
      if |text| == 0 {
        return Err(TypeError);
      }
      r := Ok(text);
    }

    /** One turn of NewLine's loop: `optional('NEWLINE')`, appending its text to `text`, the run's from `p`. */
    method NewLineNext(text: string, ghost p: int) returns (r: Result<Option<string>>)
      requires Valid() && p < Pos() && AllNewlines(Pulled(), p, Pos())
      requires text == Joined(Pulled()[p..Pos()]) && text != ""
      modifies queue, tokenizer
      ensures Valid() && queue.tests == old(queue.tests)
      ensures queue.tests != [] ==> queue.Base() == old(queue.Base())
      ensures Grown(old(queue.Snapshot()), queue.Snapshot())
      ensures r.Err? ==>
        r.error.IsSyntax() && Pos() == old(Pos()) && Pos() == |Pulled()| && AllNewlines(Pulled(), p, Pos()) &&
        Halted(queue.origin, Pulled())
      ensures r.Ok? && r.value.None? ==>
        Pos() == old(Pos()) && NewlineRun(Pulled(), p, Pos()) && text == Joined(Pulled()[p..Pos()])
      ensures r.Ok? && r.value.Some? ==>
        Pos() == old(Pos()) + 1 && AllNewlines(Pulled(), p, Pos()) &&
        r.value.value == Joined(Pulled()[p..Pos()]) && r.value.value != ""
    {
      ghost var before := Pulled();
      ghost var q := Pos();
      var next := queue.Optional([Newline]);
      if next.Err? {
        NewlinesKept(before, Pulled(), p, q);
        assert Pos() == |Pulled()|;
        return Err(next.error);
      }
      if next.value.None? {
        NewlinesKept(before, Pulled(), p, q);
        assert Pos() < |Pulled()| && !Is(Pulled(), Pos(), Newline);
        return Ok(None);
      }
      assert Pos() == q + 1 && Pulled()[q] == next.value;
      NewlinesExtended(before, Pulled(), p, q);
      r := Ok(Some(text + next.value.value.value));
    }

    /** The termination measure does not go up as the parse moves on, and goes down once a token is consumed. */
    lemma Advanced(a: Snap)
      requires Valid() && Grown(a, queue.Snapshot()) && ConsumedReal(a) && a.pos <= Pos()
      ensures MeasureLe(queue.Snapshot(), a)
      ensures a.pos < Pos() ==> MeasureLt(queue.Snapshot(), a)
    {
      queue.ConsumedSoFar();
      Progress(a, queue.Snapshot());
    }

    /**
     * `test(() => this.NewLine())`: the text of a run of NEWLINE tokens, or
     * "EOF" at the end of input; `None`, with nothing consumed, when neither
     * comes next.
     */
    method TryNewLine() returns (r: Option<string>)
      requires Valid() && queue.tests == []
      modifies queue, tokenizer
      ensures Valid() && queue.tests == []
      ensures Grown(old(queue.Snapshot()), queue.Snapshot())
      ensures IsEnd(Pulled(), old(Pos())) ==> r == Some("EOF") && Pos() == old(Pos())
      ensures r.Some? && !IsEnd(Pulled(), old(Pos())) ==>
        NewlineRun(Pulled(), old(Pos()), Pos()) && r.value == Joined(Pulled()[old(Pos())..Pos()])
      ensures r.None? ==> Pos() == old(Pos()) && !IsEnd(Pulled(), old(Pos()))
      ensures r.None? ==>
        (old(Pos()) < |Pulled()| && Pulled()[old(Pos())].Some? && !Is(Pulled(), old(Pos()), Newline)) ||
        (AllNewlines(Pulled(), old(Pos()), |Pulled()|) && Halted(queue.origin, Pulled()))
    {
      ghost var start := queue.Snapshot();
      queue.BeginTest();
      assert queue.Snapshot() == start;
      var text := NewLine();
      ghost var tried := queue.Snapshot();
      var outcome := queue.EndTest(text);
      assert queue.pulled == tried.pulled && queue.tokenizer.State() == tried.scan;
      assert Pulled() == tried.pulled && (text.Err? ==> Pos() == start.pos);
      r := outcome.value;
    }

    /**
     * Block without an INDENT: Intervals, each optionally followed by a
     * comma, up to a NewLine (or the end of input). The Intervals start at
     * `bounds` (all but the last), and the NewLine at the last of them.
     */
    method Intervals() returns (r: Result<seq<Node>>, ghost bounds: seq<int>)
      requires Valid() && queue.tests == []
      modifies queue, tokenizer
      ensures Valid() && queue.tests == []
      ensures Grown(old(queue.Snapshot()), queue.Snapshot())
      ensures r.Ok? ==> Pos() >= old(Pos())
      ensures r.Ok? ==> AllNormal(r.value) && forall i :: 0 <= i < |r.value| ==> r.value[i].Interval?
      ensures r.Ok? ==> IsEnd(Pulled(), Pos()) || Is(Pulled(), Pos() - 1, Newline)
      ensures r.Ok? && old(Pos()) < |Pulled()| && Pulled()[old(Pos())].Some? ==> Pos() > old(Pos())
      ensures r.Ok? ==> ParsedLine(Pulled(), bounds, r.value) && bounds[0] == old(Pos())
      ensures r.Ok? ==>
        (IsEnd(Pulled(), bounds[|bounds| - 1]) && Pos() == bounds[|bounds| - 1]) ||
        NewlineRun(Pulled(), bounds[|bounds| - 1], Pos())
      ensures r.Err? ==> NoLine(queue.Snapshot(), old(Pos()))
    {
      var intervals: seq<Node> := [];
      bounds := [Pos()];
      GrownRefl(queue.Snapshot());
      while true
        invariant Valid() && queue.tests == []
        invariant Grown(old(queue.Snapshot()), queue.Snapshot()) && Pos() >= old(Pos())
        invariant intervals == [] ==> Pos() == old(Pos())
        invariant intervals != [] ==> Pos() > old(Pos())
        invariant ParsedLine(Pulled(), bounds, intervals)
        invariant bounds[0] == old(Pos()) && bounds[|bounds| - 1] == Pos()
        decreases Remaining(tokenizer.State()), Gap(tokenizer.State()), Pending(queue.Snapshot())
      {
        ghost var before := queue.Snapshot();
        var next := IntervalsTurn(bounds, intervals);
        GrownTrans(old(queue.Snapshot()), before, queue.Snapshot());
        if next.Err? {
          return Err(next.error), bounds;
        }
        if next.value.None? {
          break;
        }
        intervals := intervals + [next.value.value];
        bounds := bounds + [Pos()];
      }
      LineNormal(Pulled(), bounds, intervals);
      r := Ok(intervals);
    }

    /** IntervalsStep, keeping the line of Intervals read so far, `bounds` and `intervals`, up to date. */
    method IntervalsTurn(ghost bounds: seq<int>, ghost intervals: seq<Node>) returns (r: Result<Option<Node>>)
      requires Valid() && queue.tests == []
      requires ParsedLine(Pulled(), bounds, intervals) && bounds[|bounds| - 1] == Pos()
      modifies queue, tokenizer
      ensures Valid() && queue.tests == []
      ensures Grown(old(queue.Snapshot()), queue.Snapshot())
      ensures r.Ok? && r.value.None? ==>
        ParsedLine(Pulled(), bounds, intervals) && Pos() >= old(Pos()) &&
        (IsEnd(Pulled(), Pos()) || Is(Pulled(), Pos() - 1, Newline)) &&
        ((IsEnd(Pulled(), old(Pos())) && Pos() == old(Pos())) || NewlineRun(Pulled(), old(Pos()), Pos())) &&
        (old(Pos()) < |Pulled()| && Pulled()[old(Pos())].Some? ==> Pos() > old(Pos()))
      ensures r.Ok? && r.value.Some? ==>
        ParsedLine(Pulled(), bounds + [Pos()], intervals + [r.value.value]) && Pos() > old(Pos()) &&
        MeasureLt(queue.Snapshot(), old(queue.Snapshot()))
      ensures r.Err? ==> ParsedLine(Pulled(), bounds, intervals) && NoLine(queue.Snapshot(), bounds[0])
    {
      ghost var before := queue.Snapshot();
      queue.ConsumedSoFar();
      r := IntervalsStep();
      LineGrown(before.pulled, Pulled(), bounds, intervals);
      if r.Err? {
        LineBlocked(queue.Snapshot(), bounds, bounds[0]);
      } else {
        if r.value.Some? {
          Advanced(before);
          LineAppended(Pulled(), bounds, intervals, Pos());
        }
      }
    }

    /** One turn of the Intervals loop: `None` once a NewLine is found, otherwise the next Interval. */
    method IntervalsStep() returns (r: Result<Option<Node>>)
      requires Valid() && queue.tests == []
      modifies queue, tokenizer
      ensures Valid() && queue.tests == []
      ensures Grown(old(queue.Snapshot()), queue.Snapshot())
      ensures r.Ok? && r.value.None? ==> Pos() >= old(Pos()) && (IsEnd(Pulled(), Pos()) || Is(Pulled(), Pos() - 1, Newline))
      ensures r.Ok? && r.value.None? ==>
        (IsEnd(Pulled(), old(Pos())) && Pos() == old(Pos())) || NewlineRun(Pulled(), old(Pos()), Pos())
      ensures r.Ok? && r.value.None? && old(Pos()) < |Pulled()| && Pulled()[old(Pos())].Some? ==> Pos() > old(Pos())
      ensures r.Ok? && r.value.Some? ==>
        IsInterval(Pulled(), old(Pos())) && r.value.value == IntervalAt(Pulled(), old(Pos())) &&
        IntervalEnd(Pulled(), old(Pos())) < |Pulled()| && Pos() == AfterInterval(Pulled(), old(Pos()))
      ensures r.Err? ==> LineStalled(queue.Snapshot(), old(Pos()))
    {
      var done := TryNewLine();
      if done.Some? {
        return Ok(None);
      }
      ghost var mid := queue.Snapshot();
      var interval := IntervalsNext();
      GrownTrans(old(queue.Snapshot()), mid, queue.Snapshot());
      if interval.Err? {
        if Halted(mid.origin, mid.pulled) {
          Frozen(mid);
        } else {
          Kept(mid.pulled, Pulled(), mid.pos);
        }
        return Err(interval.error);
      }
      r := Ok(Some(interval.value));
    }

    /** One turn of the Intervals loop: an Interval, then `optional(',')`. */
    method IntervalsNext() returns (r: Result<Node>)
      requires Valid() && queue.tests == []
      modifies queue, tokenizer
      ensures Valid() && queue.tests == []
      ensures Grown(old(queue.Snapshot()), queue.Snapshot())
      ensures r.Ok? ==>
        IsInterval(Pulled(), old(Pos())) && r.value == IntervalAt(Pulled(), old(Pos())) &&
        IntervalEnd(Pulled(), old(Pos())) < |Pulled()| && Pos() == AfterInterval(Pulled(), old(Pos()))
      ensures r.Err? ==> !(IsInterval(Pulled(), old(Pos())) && IntervalEnd(Pulled(), old(Pos())) < |Pulled()|)
      ensures r.Err? ==> IntervalRefused(queue.Snapshot(), old(Pos())) || Halted(queue.origin, Pulled())
    {
      var interval := Interval();
      if interval.Err? {
        return Err(interval.error);
      }
      ghost var mid := queue.Snapshot();
      r := IntervalComma(interval.value, old(Pos()));
      GrownTrans(old(queue.Snapshot()), mid, queue.Snapshot());
    }

    /** `optional(',')` after the Interval `interval`, read from `p`. */
    method IntervalComma(interval: Node, ghost p: int) returns (r: Result<Node>)
      requires Valid() && queue.tests == []
      requires IsInterval(Pulled(), p) && interval == IntervalAt(Pulled(), p) && Pos() == IntervalEnd(Pulled(), p)
      requires Settled(queue.Snapshot(), AnnotationPos(Pulled(), p) + 1)
      modifies queue, tokenizer
      ensures Valid() && queue.tests == []
      ensures Grown(old(queue.Snapshot()), queue.Snapshot())
      ensures r.Ok? ==>
        IsInterval(Pulled(), p) && r.value == IntervalAt(Pulled(), p) &&
        IntervalEnd(Pulled(), p) < |Pulled()| && Pos() == AfterInterval(Pulled(), p)
      ensures r.Err? ==> IsInterval(Pulled(), p) && IntervalEnd(Pulled(), p) >= |Pulled()| && Halted(queue.origin, Pulled())
    {
      ghost var mid := queue.Snapshot();
      var comma := queue.Optional([Comma]);
      if comma.Err? {
        assert |Pulled()| <= mid.pos <= |mid.pulled| && mid.pulled <= Pulled();
        assert Pulled() == mid.pulled;
        return Err(comma.error);
      }
      if Halted(mid.origin, mid.pulled) {
        Frozen(mid);
      }
      IntervalKept(mid.pulled, Pulled(), p);
      r := Ok(interval);
    }

    /** Parse: reset the tokenizer and the queue to the text, then read it as one INDENT block. */
    method Parse(text: string) returns (r: Result<seq<Node>>)
      modifies this, tokenizer
      ensures Valid() && fresh(queue) && tokenizer == old(tokenizer) && source == text
      ensures queue.tests == [] && Grown(Snap(Scan(text, 0, 0, 0, 0), [], 0, Scan(text, 0, 0, 0, 0)), queue.Snapshot())
      ensures Lexes(Scan(text, 0, 0, 0, 0), |Pulled()|) && Run(Scan(text, 0, 0, 0, 0), |Pulled()|).value.results == Pulled()
      ensures r.Ok? ==> AllNormal(r.value) && BlockClosed(Pulled(), Pos())
      ensures r.Ok? ==> exists rd: Reading :: rd.Nest? && BlockRead(queue.Snapshot(), r.value, rd, 0, Pos())
      ensures r.Err? ==> NoSets(queue.Snapshot(), 0)
    {
      source := text;
      tokenizer.Init(text);
      queue := new TokenQueue(tokenizer);
      var block, rd := Block(true);
      r := block;
      queue.Lexed();
    }

    /** Set: a Repeat count and the Block it applies to, read as `rd` says. */
    method Set() returns (r: Result<Node>, ghost rd: Reading)
      requires Valid() && queue.tests == []
      modifies queue, tokenizer
      ensures Valid() && queue.tests == []
      ensures Grown(old(queue.Snapshot()), queue.Snapshot())
      ensures r.Ok? ==> Pos() >= old(Pos()) && r.value.Set? && r.value.repeat >= 1 && AllNormal(r.value.sets)
      ensures r.Ok? && old(Pos()) < |Pulled()| && Pulled()[old(Pos())].Some? ==> Pos() > old(Pos())
      ensures r.Ok? ==> r.value.repeat == RepeatAt(Pulled(), old(Pos())) && RepeatSettled(queue.Snapshot(), old(Pos()))
      ensures r.Ok? ==> SetRead(queue.Snapshot(), r.value, rd, old(Pos()), Pos())
      ensures r.Err? ==> NoSet(queue.Snapshot(), old(Pos()))
      decreases Remaining(tokenizer.State()), Gap(tokenizer.State()), Pending(queue.Snapshot()), 3
    {
      ghost var start := queue.Snapshot();
      queue.ConsumedSoFar();
      var repeat := Repeat();
      assert Pos() >= start.pos && Pos() == AfterRepeat(Pulled(), start.pos);
      Advanced(start);
      ghost var mid := queue.Snapshot();
      r, rd := SetBody(repeat, start.pos);
      GrownTrans(start, mid, queue.Snapshot());
    }

    /** The rest of Set once the count `repeat`, read at `p`, is behind the queue: its Block. */
    method SetBody(repeat: nat, ghost p: int) returns (r: Result<Node>, ghost rd: Reading)
      requires Valid() && queue.tests == []
      requires 0 <= p <= Pos() && Pos() == AfterRepeat(Pulled(), p)
      requires repeat >= 1 && repeat == RepeatAt(Pulled(), p) && RepeatSettled(queue.Snapshot(), p)
      modifies queue, tokenizer
      ensures Valid() && queue.tests == []
      ensures Grown(old(queue.Snapshot()), queue.Snapshot())
      ensures r.Ok? ==> Pos() >= old(Pos()) && r.value.Set? && r.value.repeat == repeat && AllNormal(r.value.sets)
      ensures r.Ok? && old(Pos()) < |Pulled()| && Pulled()[old(Pos())].Some? ==> Pos() > old(Pos())
      ensures r.Ok? ==> RepeatSettled(queue.Snapshot(), p) && SetRead(queue.Snapshot(), r.value, rd, p, Pos())
      ensures r.Err? ==> NoSet(queue.Snapshot(), p)
      decreases Remaining(tokenizer.State()), Gap(tokenizer.State()), Pending(queue.Snapshot()), 2
    {
      ghost var mid := queue.Snapshot();
      var block;
      block, rd := Block(false);
      Reached(mid);
      RepeatStays(mid, queue.Snapshot(), p);
      if block.Err? {
        SetBlocked(queue.Snapshot(), p);
        return Err(block.error), rd;
      }
      r := Ok(Node.Set(repeat, block.value));
      SetFound(queue.Snapshot(), r.value, rd, p, mid.pos, Pos());
    }

    /**
     * Block: after an INDENT (or at the top of the program, `bootstrap`) the
     * Sets up to a DEDENT or the end of input; otherwise a line of Intervals.
     * Either way read as `rd` says.
     */
    method Block(bootstrap: bool) returns (r: Result<seq<Node>>, ghost rd: Reading)
      requires Valid() && queue.tests == []
      modifies queue, tokenizer
      ensures Valid() && queue.tests == []
      ensures Grown(old(queue.Snapshot()), queue.Snapshot())
      ensures r.Ok? ==> Pos() >= old(Pos()) && AllNormal(r.value)
      ensures r.Ok? && (bootstrap || Is(Pulled(), old(Pos()), Indent)) ==>
        BlockClosed(Pulled(), Pos())
      ensures r.Ok? && !bootstrap && !Is(Pulled(), old(Pos()), Indent) ==>
        forall i :: 0 <= i < |r.value| ==> r.value[i].Interval?
      ensures r.Ok? && !bootstrap && old(Pos()) < |Pulled()| && Pulled()[old(Pos())].Some? ==> Pos() > old(Pos())
      ensures r.Ok? && bootstrap ==> rd.Nest? && BlockRead(queue.Snapshot(), r.value, rd, old(Pos()), Pos())
      ensures r.Ok? && !bootstrap && Is(Pulled(), old(Pos()), Indent) ==>
        rd.Nest? && BlockRead(queue.Snapshot(), r.value, rd, old(Pos()) + 1, Pos())
      ensures r.Ok? && !bootstrap && !Is(Pulled(), old(Pos()), Indent) ==>
        rd.Line? && BlockRead(queue.Snapshot(), r.value, rd, old(Pos()), Pos())
      ensures r.Err? && bootstrap ==> NoSets(queue.Snapshot(), old(Pos()))
      ensures r.Err? && !bootstrap ==> NoBlock(queue.Snapshot(), old(Pos()))
      decreases Remaining(tokenizer.State()), Gap(tokenizer.State()), Pending(queue.Snapshot()), if bootstrap then 8 else 1
    {
      if bootstrap {
        r, rd := Sets();
      } else {
        r, rd := BlockBody();
      }
    }

    /** Block without `bootstrap`: `optional('INDENT')` decides between Sets and Intervals. */
    method BlockBody() returns (r: Result<seq<Node>>, ghost rd: Reading)
      requires Valid() && queue.tests == []
      modifies queue, tokenizer
      ensures Valid() && queue.tests == []
      ensures Grown(old(queue.Snapshot()), queue.Snapshot())
      ensures r.Ok? ==> Pos() >= old(Pos()) && AllNormal(r.value)
      ensures r.Ok? && Is(Pulled(), old(Pos()), Indent) ==> BlockClosed(Pulled(), Pos())
      ensures r.Ok? && !Is(Pulled(), old(Pos()), Indent) ==> forall i :: 0 <= i < |r.value| ==> r.value[i].Interval?
      ensures r.Ok? && old(Pos()) < |Pulled()| && Pulled()[old(Pos())].Some? ==> Pos() > old(Pos())
      ensures r.Ok? && Is(Pulled(), old(Pos()), Indent) ==>
        rd.Nest? && BlockRead(queue.Snapshot(), r.value, rd, old(Pos()) + 1, Pos())
      ensures r.Ok? && !Is(Pulled(), old(Pos()), Indent) ==>
        rd.Line? && BlockRead(queue.Snapshot(), r.value, rd, old(Pos()), Pos())
      ensures r.Err? ==> NoBlock(queue.Snapshot(), old(Pos()))
      decreases Remaining(tokenizer.State()), Gap(tokenizer.State()), Pending(queue.Snapshot()), 0
    {
      rd := Line([]);
      ghost var start := queue.Snapshot();
      var indent := OptionalIndent();
      if indent.Err? {
        return Err(indent.error), rd;
      }
      ghost var mid := queue.Snapshot();
      if indent.value {
        r, rd := NestedBlock(start.pos);
      } else {
        r, rd := LineBlock();
      }
      GrownTrans(start, mid, queue.Snapshot());
    }

    /** `optional('INDENT')` at the start of a Block: whether an INDENT was consumed. */
    method OptionalIndent() returns (r: Result<bool>)
      requires Valid() && queue.tests == []
      modifies queue, tokenizer
      ensures Valid() && queue.tests == []
      ensures Grown(old(queue.Snapshot()), queue.Snapshot())
      ensures r.Err? ==> NoBlock(queue.Snapshot(), old(Pos()))
      ensures r.Ok? && r.value ==>
        Is(Pulled(), old(Pos()), Indent) && Pos() == old(Pos()) + 1 && MeasureLt(queue.Snapshot(), old(queue.Snapshot()))
      ensures r.Ok? && !r.value ==> Pos() == old(Pos()) < |Pulled()| && !Is(Pulled(), old(Pos()), Indent)
    {
      ghost var start := queue.Snapshot();
      queue.ConsumedSoFar();
      var indent := queue.Optional([Indent]);
      if indent.Err? {
        BlockNeedsEntry(queue.Snapshot(), start.pos);
        return Err(indent.error);
      }
      if indent.value.Some? {
        Advanced(start);
      }
      r := Ok(indent.value.Some?);
    }

    /** Block after the INDENT at `lo`: the Sets up to a DEDENT or the end of input. */
    method NestedBlock(ghost lo: int) returns (r: Result<seq<Node>>, ghost rd: Reading)
      requires Valid() && queue.tests == [] && Pos() == lo + 1 && Is(Pulled(), lo, Indent)
      modifies queue, tokenizer
      ensures Valid() && queue.tests == []
      ensures Grown(old(queue.Snapshot()), queue.Snapshot()) && Is(Pulled(), lo, Indent)
      ensures r.Ok? ==> Pos() > lo && AllNormal(r.value) && BlockClosed(Pulled(), Pos())
      ensures r.Ok? ==> rd.Nest? && BlockRead(queue.Snapshot(), r.value, rd, lo + 1, Pos())
      ensures r.Err? ==> NoBlock(queue.Snapshot(), lo)
      decreases Remaining(tokenizer.State()), Gap(tokenizer.State()), Pending(queue.Snapshot()), 8
    {
      ghost var before := Pulled();
      r, rd := Sets();
      Kept(before, Pulled(), lo);
      if r.Err? {
        IndentBlocked(queue.Snapshot(), lo);
      }
    }

    /** Block at a token other than an INDENT: a line of Intervals. */
    method LineBlock() returns (r: Result<seq<Node>>, ghost rd: Reading)
      requires Valid() && queue.tests == [] && Pos() < |Pulled()| && !Is(Pulled(), Pos(), Indent)
      modifies queue, tokenizer
      ensures Valid() && queue.tests == []
      ensures Grown(old(queue.Snapshot()), queue.Snapshot()) && !Is(Pulled(), old(Pos()), Indent)
      ensures r.Ok? ==> Pos() >= old(Pos()) && AllNormal(r.value) && forall i :: 0 <= i < |r.value| ==> r.value[i].Interval?
      ensures r.Ok? && Pulled()[old(Pos())].Some? ==> Pos() > old(Pos())
      ensures r.Ok? ==> rd.Line? && BlockRead(queue.Snapshot(), r.value, rd, old(Pos()), Pos())
      ensures r.Err? ==> NoBlock(queue.Snapshot(), old(Pos()))
    {
      ghost var before := Pulled();
      ghost var bounds;
      r, bounds := Intervals();
      rd := Line(bounds);
      Kept(before, Pulled(), old(Pos()));
      if r.Err? {
        LineOnly(queue.Snapshot(), old(Pos()));
      }
    }

    /**
     * The INDENT block's loop: Sets up to a DEDENT or the end of input, read
     * one after another as `rd` says; the list returned splices in those
     * repeated once.
     */
    method Sets() returns (r: Result<seq<Node>>, ghost rd: Reading)
      requires Valid() && queue.tests == []
      modifies queue, tokenizer
      ensures Valid() && queue.tests == []
      ensures Grown(old(queue.Snapshot()), queue.Snapshot())
      ensures r.Ok? ==> Pos() >= old(Pos()) && rd.Nest? && SetsChain(queue.Snapshot(), rd, old(Pos()))
      ensures r.Ok? ==> rd.Nest? && r.value == Flattened(rd.parsed) && Closes(Pulled(), rd.stop, Pos())
      ensures r.Ok? ==> rd.Nest? && AllNormal(r.value) && Unroll(r.value) == Unroll(rd.parsed)
      ensures r.Ok? ==> BlockClosed(Pulled(), Pos())
      ensures r.Err? ==> NoSets(queue.Snapshot(), old(Pos()))
      decreases Remaining(tokenizer.State()), Gap(tokenizer.State()), Pending(queue.Snapshot()), 7
    {
      ghost var start := queue.Snapshot();
      queue.ConsumedSoFar();
      var sets: seq<Node> := [];
      rd := Nest([], [], [], Pos());
      GrownRefl(start);
      while true
        invariant Valid() && queue.tests == []
        invariant Grown(start, queue.Snapshot()) && Pos() >= start.pos
        invariant rd.Nest? && rd.stop == Pos() && SetsRead(queue.Snapshot(), sets, rd, start.pos)
        decreases Remaining(tokenizer.State()), Gap(tokenizer.State()), Pending(queue.Snapshot())
      {
        ghost var before := queue.Snapshot();
        Advanced(start);
        var next, nrd := SetsTurn(sets, rd, start.pos);
        GrownTrans(start, before, queue.Snapshot());
        if next.Err? {
          return Err(next.error), rd;
        }
        if next.value.None? {
          break;
        }
        var node := next.value.value;
        sets := sets + Spliced(node);
        rd := Nest(rd.parsed + [node], rd.starts + [before.pos], rd.inner + [nrd], Pos());
      }
      FlattenedKeepsWorkout(rd.parsed);
      r := Ok(sets);
    }

    /** SetsNext, keeping the state of the Sets loop up to date. */
    method SetsTurn(ghost sets: seq<Node>, ghost rd: Reading, ghost lo: int) returns (r: Result<Option<Node>>, ghost nrd: Reading)
      requires Valid() && queue.tests == [] && rd.Nest? && rd.stop == Pos() && SetsRead(queue.Snapshot(), sets, rd, lo)
      modifies queue, tokenizer
      ensures Valid() && queue.tests == []
      ensures Grown(old(queue.Snapshot()), queue.Snapshot())
      ensures r.Ok? && r.value.None? ==>
        SetsRead(queue.Snapshot(), sets, rd, lo) && Closes(Pulled(), rd.stop, Pos()) &&
        Pos() >= old(Pos()) && BlockClosed(Pulled(), Pos())
      ensures r.Ok? && r.value.Some? ==>
        r.value.value.Set? &&
        SetsRead(queue.Snapshot(), sets + Spliced(r.value.value),
          Nest(rd.parsed + [r.value.value], rd.starts + [old(Pos())], rd.inner + [nrd], Pos()), lo) &&
        Pos() > old(Pos()) && MeasureLt(queue.Snapshot(), old(queue.Snapshot()))
      ensures r.Err? ==> NoSets(queue.Snapshot(), lo)
      decreases Remaining(tokenizer.State()), Gap(tokenizer.State()), Pending(queue.Snapshot()), 6
    {
      ghost var before := queue.Snapshot();
      queue.ConsumedSoFar();
      r, nrd := SetsNext();
      Reached(before);
      ChainStays(before, queue.Snapshot(), rd, lo);
      if r.Err? {
        ChainBlocked(queue.Snapshot(), rd, lo);
      } else {
        if r.value.Some? {
          var node := r.value.value;
          Advanced(before);
          SetsReadAppended(queue.Snapshot(), sets, rd, lo, node, nrd, Pos());
        }
      }
    }

    /** One turn of the Sets loop: `None` at the end of input or after a DEDENT, otherwise the next Set, read as `rd` says. */
    method SetsNext() returns (r: Result<Option<Node>>, ghost rd: Reading)
      requires Valid() && queue.tests == []
      modifies queue, tokenizer
      ensures Valid() && queue.tests == []
      ensures Grown(old(queue.Snapshot()), queue.Snapshot())
      ensures r.Ok? && r.value.None? ==> Pos() >= old(Pos()) && BlockClosed(Pulled(), Pos())
      ensures r.Ok? && r.value.None? ==>
        (IsEnd(Pulled(), old(Pos())) && Pos() == old(Pos())) || (Is(Pulled(), old(Pos()), Dedent) && Pos() == old(Pos()) + 1)
      ensures IsEnd(Pulled(), old(Pos())) ==> r == Ok(None) && Pos() == old(Pos())
      ensures Is(Pulled(), old(Pos()), Dedent) ==> r == Ok(None) && Pos() == old(Pos()) + 1
      ensures r.Ok? && r.value.Some? ==>
        Pos() > old(Pos()) && r.value.value.Set? && r.value.value.repeat >= 1 && AllNormal(r.value.value.sets)
      ensures r.Ok? && r.value.Some? ==>
        Leads(Pulled(), old(Pos())) && SetRead(queue.Snapshot(), r.value.value, rd, old(Pos()), Pos())
      ensures r.Err? ==> NoSet(queue.Snapshot(), old(Pos()))
      ensures r.Err? ==> Leads(Pulled(), old(Pos())) || (old(Pos()) >= |Pulled()| && Halted(queue.origin, Pulled()))
      decreases Remaining(tokenizer.State()), Gap(tokenizer.State()), Pending(queue.Snapshot()), 5
    {
      rd := Line([]);
      ghost var start := queue.Snapshot();
      queue.ConsumedSoFar();
      var front := queue.PeekOne();
      if front.Err? {
        SetNeedsEntry(queue.Snapshot(), start.pos);
        return Err(front.error), rd;
      }
      if front.value.None? {
        return Ok(None), rd;
      }
      Advanced(start);
      ghost var mid := queue.Snapshot();
      r, rd := SetsUnlessDedent(start.pos);
      GrownTrans(start, mid, queue.Snapshot());
      Kept(mid.pulled, Pulled(), start.pos);
    }

    /** The Sets loop after seeing a real token at `p`: `optional('DEDENT')`, and a Set unless it was one. */
    method SetsUnlessDedent(ghost p: int) returns (r: Result<Option<Node>>, ghost rd: Reading)
      requires Valid() && queue.tests == [] && Pos() == p && p < |Pulled()| && Pulled()[p].Some?
      modifies queue, tokenizer
      ensures Valid() && queue.tests == []
      ensures Grown(old(queue.Snapshot()), queue.Snapshot())
      ensures r.Ok? && r.value.None? ==> Pos() == p + 1 && Is(Pulled(), p, Dedent)
      ensures Is(Pulled(), p, Dedent) ==> r == Ok(None)
      ensures r.Ok? && r.value.Some? ==>
        Pos() > p && r.value.value.Set? && r.value.value.repeat >= 1 && AllNormal(r.value.value.sets)
      ensures r.Ok? && r.value.Some? ==> SetRead(queue.Snapshot(), r.value.value, rd, p, Pos())
      ensures r.Err? ==> NoSet(queue.Snapshot(), p)
      decreases Remaining(tokenizer.State()), Gap(tokenizer.State()), Pending(queue.Snapshot()), 4
    {
      rd := Line([]);
      ghost var start := queue.Snapshot();
      queue.ConsumedSoFar();
      ghost var before := Pulled();
      var dedent := queue.Optional([Dedent]);
      Kept(before, Pulled(), p);
      // The token just peeked is buffered, so `optional` cannot fail here.
      assert dedent.Ok?;
      if dedent.value.Some? {
        return Ok(None), rd;
      }
      Advanced(start);
      ghost var mid := queue.Snapshot();
      var child;
      child, rd := Set();
      GrownTrans(start, mid, queue.Snapshot());
      Kept(before, Pulled(), p);
      if child.Err? {
        return Err(child.error), rd;
      }
      r := Ok(Some(child.value));
    }
  }
}
