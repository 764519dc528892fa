/**
 * The lexical rules of the workout notation and a reference definition of one
 * tokenizer step (`NextSpec`), against which the `Tokenizer` class is proved.
 * The rule table's regular expressions are written out as matchers over ASCII
 * text; each returns the length of its match at the start of the text, 0 when
 * it does not match (every rule needs at least one character).
 */
module Lexer {
  import opened Syntax

  // ---------------------------------------------------------------------------
  // Character classes

  predicate IsDigit(c: char) { '0' <= c <= '9' }

  predicate IsSpace(c: char) { c == ' ' }

  /** What `.` matches: any character but a line terminator. */
  predicate IsLineChar(c: char) {
    c != '\n' && c != '\r' && c != '\U{2028}' && c != '\U{2029}'
  }

  /** `[^\S\r\n]`: whitespace that is not a line break (ASCII only). */
  predicate IsBlank(c: char) {
    c == ' ' || c == '\t' || c == '\U{000B}' || c == '\U{000C}'
  }

  function Lower(c: char): char {
    if 'A' <= c <= 'Z' then (c as int + 32) as char else c
  }

  /** Length of the longest prefix of `s` whose characters all satisfy `p`. */
  function Span(s: string, p: char -> bool): (n: nat)
    ensures n <= |s|
    ensures forall i :: 0 <= i < n ==> p(s[i])
    ensures n < |s| ==> !p(s[n])
  {
    if s == [] || !p(s[0]) then 0 else 1 + Span(s[1..], p)
  }

  /** Case-insensitive prefix test; `word` is written in lower case. */
  predicate StartsWithWord(s: string, word: string) {
    |word| <= |s| && forall i :: 0 <= i < |word| ==> Lower(s[i]) == word[i]
  }

  /** `n`, or `n + 1` when an optional trailing `s`/`S` follows. */
  function PluralS(s: string, n: nat): (m: nat)
    requires n <= |s|
    ensures n <= m <= |s| && m <= n + 1
    ensures m == n + 1 <==> n < |s| && Lower(s[n]) == 's'
  {
    if n < |s| && Lower(s[n]) == 's' then n + 1 else n
  }

  /**
   * `n` is the length of the longest word of `words` that begins `s`, ignoring
   * case, or 0 when none does.
   */
  ghost predicate LongestWord(s: string, words: set<string>, n: nat) {
    (n == 0 || exists w :: w in words && |w| == n && StartsWithWord(s, w)) &&
    forall w :: w in words && StartsWithWord(s, w) ==> |w| <= n
  }

  /** The words of the unit rules, in lower case. */
  const WattWords: set<string> := {"w", "watt", "watts"}
  const SecondWords: set<string> := {"s", "sec", "secs", "second", "seconds"}
  const MinuteWords: set<string> := {"min", "mins", "minute", "minutes"}
  const HourWords: set<string> := {"hr", "hrs", "hour", "hours"}

  // ---------------------------------------------------------------------------
  // Matchers, one per rule of the table

  /** `^ *#.*`: optional spaces, `#`, then the rest of the line. */
  function MatchComment(s: string): (n: nat)
    ensures n <= |s|
    ensures n > 0 <==> Span(s, IsSpace) < |s| && s[Span(s, IsSpace)] == '#'
    ensures forall i :: 0 <= i < n ==> IsLineChar(s[i])
    ensures n > 0 && n < |s| ==> !IsLineChar(s[n])
  {
    var k := Span(s, IsSpace);
    if k < |s| && s[k] == '#' then k + 1 + Span(s[k + 1..], IsLineChar) else 0
  }

  /** `^[\r\n]`: a single line break. */
  function MatchLineBreak(s: string): (n: nat)
    ensures n <= 1 && n <= |s|
    ensures n == 1 <==> |s| > 0 && (s[0] == '\r' || s[0] == '\n')
  {
    if |s| > 0 && (s[0] == '\r' || s[0] == '\n') then 1 else 0
  }

  /** `^x` (case-sensitive when `ci` is false) for one character `c`. */
  function MatchChar(s: string, c: char, ci: bool): (n: nat)
    ensures n <= 1 && n <= |s|
    ensures n == 1 <==> |s| > 0 && (if ci then Lower(s[0]) == c else s[0] == c)
  {
    if |s| > 0 && (if ci then Lower(s[0]) == c else s[0] == c) then 1 else 0
  }

  /** `^(watts?|w)` ignoring case. */
  function MatchWatts(s: string): (n: nat)
    ensures n <= |s|
    ensures n > 0 <==> |s| > 0 && Lower(s[0]) == 'w'
    ensures StartsWithWord(s, "watt") ==> n == 4 || n == 5
    ensures !StartsWithWord(s, "watt") && n > 0 ==> n == 1
  {
    if StartsWithWord(s, "watt") then PluralS(s, 4)
    else if |s| > 0 && Lower(s[0]) == 'w' then 1
    else 0
  }

  /** `^s((econd|ec)s?)?` ignoring case. */
  function MatchSeconds(s: string): (n: nat)
    ensures n <= |s| && n <= 7
    ensures n > 0 <==> |s| > 0 && Lower(s[0]) == 's'
  {
    if |s| > 0 && Lower(s[0]) == 's' then
      if StartsWithWord(s[1..], "econd") then PluralS(s, 6)
      else if StartsWithWord(s[1..], "ec") then PluralS(s, 3)
      else 1
    else 0
  }

  /** `^(minute|min)s?` ignoring case. */
  function MatchMinutes(s: string): (n: nat)
    ensures n <= |s| && n <= 7
    ensures n > 0 <==> StartsWithWord(s, "min")
    ensures n > 0 ==> n >= 3
  {
    if StartsWithWord(s, "minute") then PluralS(s, 6)
    else if StartsWithWord(s, "min") then PluralS(s, 3)
    else 0
  }

  /** `^(hour|hr)s?` ignoring case. */
  function MatchHours(s: string): (n: nat)
    ensures n <= |s| && n <= 5
    ensures n > 0 <==> StartsWithWord(s, "hour") || StartsWithWord(s, "hr")
    ensures n > 0 ==> n >= 2
  {
    if StartsWithWord(s, "hour") then PluralS(s, 4)
    else if StartsWithWord(s, "hr") then PluralS(s, 2)
    else 0
  }

  /** Each unit matcher takes the longest of its rule's words that begins the text, ignoring case. */
  lemma MatchWattsLongest(s: string)
    ensures LongestWord(s, WattWords, MatchWatts(s))
  {
  }

  lemma MatchSecondsLongest(s: string)
    ensures LongestWord(s, SecondWords, MatchSeconds(s))
  {
  }

  lemma MatchMinutesLongest(s: string)
    ensures LongestWord(s, MinuteWords, MatchMinutes(s))
  {
  }

  lemma MatchHoursLongest(s: string)
    ensures LongestWord(s, HourWords, MatchHours(s))
  {
  }

  /** A non-empty run of decimal digits. */
  predicate IsNumeral(v: string) {
    |v| > 0 && forall i :: 0 <= i < |v| ==> IsDigit(v[i])
  }

  /** Digits, a point, then possibly more digits: the text `\d+\.\d*` matches. */
  predicate IsDecimal(v: string) {
    var k := Span(v, IsDigit);
    0 < k < |v| && v[k] == '.' && forall i :: k < i < |v| ==> IsDigit(v[i])
  }

  /** `^\d+\.\d*` */
  function MatchDecimal(s: string): (n: nat)
    ensures n <= |s|
    ensures n > 0 ==> IsDecimal(s[..n]) && (n == |s| || !IsDigit(s[n]))
    ensures n == 0 ==> Span(s, IsDigit) == 0 || Span(s, IsDigit) == |s| || s[Span(s, IsDigit)] != '.'
  {
    var k := Span(s, IsDigit);
    if 0 < k < |s| && s[k] == '.' then
      var n := k + 1 + Span(s[k + 1..], IsDigit);
      assert Span(s[..n], IsDigit) == k by { SpanPrefix(s, IsDigit, n); }
      n
    else 0
  }

  /** `^\d+` */
  function MatchDigits(s: string): (n: nat)
    ensures n <= |s|
    ensures n > 0 ==> IsNumeral(s[..n]) && (n == |s| || !IsDigit(s[n]))
    ensures n == 0 <==> |s| == 0 || !IsDigit(s[0])
  {
    Span(s, IsDigit)
  }

  /** `^"[^"]*"` or `^'[^']*'`, for the quote character `q`. */
  function MatchQuoted(s: string, q: char): (n: nat)
    ensures n <= |s|
    ensures n > 0 ==> n >= 2 && s[0] == q && s[n - 1] == q
    ensures n > 0 ==> forall i :: 0 < i < n - 1 ==> s[i] != q
    ensures n == 0 ==> |s| == 0 || s[0] != q || q !in s[1..]
  {
    if |s| > 0 && s[0] == q then
      var k := Span(s[1..], c => c != q);
      if 1 + k < |s| then k + 2 else 0
    else 0
  }

  lemma {:induction false} SpanPrefix(s: string, p: char -> bool, n: nat)
    requires Span(s, p) <= n <= |s|
    ensures Span(s[..n], p) == Span(s, p)
  {
    if s != [] && p(s[0]) {
      SpanPrefix(s[1..], p, n - 1);
      assert s[..n][1..] == s[1..][..n - 1];
    }
  }

  // ---------------------------------------------------------------------------
  // The rule table

  datatype Pattern =
    | Comment | LineBreak | Blank
    | Char(c: char) | CharCI(lower: char)
    | WattsWord | SecondsWord | MinutesWord | HoursWord
    | Decimal | Digits | Quoted(q: char)

  function MatchLen(p: Pattern, s: string): (n: nat)
    ensures n <= |s|
  {
    match p
    case Comment => MatchComment(s)
    case LineBreak => MatchLineBreak(s)
    case Blank => Span(s, IsBlank)
    case Char(c) => MatchChar(s, c, false)
    case CharCI(c) => MatchChar(s, c, true)
    case WattsWord => MatchWatts(s)
    case SecondsWord => MatchSeconds(s)
    case MinutesWord => MatchMinutes(s)
    case HoursWord => MatchHours(s)
    case Decimal => MatchDecimal(s)
    case Digits => MatchDigits(s)
    case Quoted(q) => MatchQuoted(s, q)
  }

  /** A rule: its pattern and the kind of token it yields (None: skip the match). */
  datatype Rule = Rule(pattern: Pattern, kind: Option<Kind>)

  /** The rules in priority order. */
  const Rules: seq<Rule> := [
    Rule(Comment, None),
    Rule(LineBreak, Some(Newline)),
    Rule(Blank, None),
    Rule(Char(','), Some(Comma)),
    Rule(CharCI('x'), Some(Kind.Repeat)),
    Rule(Char('/'), Some(Cycle)),
    Rule(Char('>'), Some(Ramp)),
    Rule(Char('@'), Some(At)),
    Rule(WattsWord, Some(Watts)),
    Rule(Char('%'), Some(Percent)),
    Rule(SecondsWord, Some(Sec)),
    Rule(MinutesWord, Some(Min)),
    Rule(HoursWord, Some(Hr)),
    Rule(Decimal, Some(Float)),
    Rule(Digits, Some(Int)),
    Rule(Quoted('"'), Some(Str)),
    Rule(Quoted('\''), Some(Str))
  ]

  /**
   * The table's priorities: only the comment and the other-whitespace rules
   * yield no token, the comment rule is tried before the line break, and the
   * FLOAT rule before the INT rule, so `1.5` is never read as INT `1`.
   */
  lemma RulePriorities()
    ensures forall i :: 0 <= i < |Rules| ==> (Rules[i].kind.None? <==> Rules[i].pattern in {Comment, Blank})
    ensures Rules[0].pattern == Comment && Rules[1] == Rule(LineBreak, Some(Newline))
    ensures forall i, j :: 0 <= i < |Rules| && 0 <= j < |Rules| && Rules[i].kind == Some(Float) && Rules[j].kind == Some(Int) ==> i < j
  {
  }

  /** The rule that matched and the length of its match. */
  datatype Hit = Hit(rule: nat, len: nat)

  /** The first rule of `table`, from index `i` on, that matches at the start of `s`. */
  function FirstMatchFrom(table: seq<Rule>, s: string, i: nat): (h: Option<Hit>)
    requires i <= |table|
    ensures h.Some? ==> i <= h.value.rule < |table| && 0 < h.value.len <= |s|
    ensures h.Some? ==> h.value.len == MatchLen(table[h.value.rule].pattern, s)
    decreases |table| - i
  {
    if i == |table| then None
    else if MatchLen(table[i].pattern, s) > 0 then Some(Hit(i, MatchLen(table[i].pattern, s)))
    else FirstMatchFrom(table, s, i + 1)
  }

  /** The highest-priority rule that matches at the start of `s`, with the length of its match. */
  function FirstMatch(s: string): (h: Option<Hit>)
    ensures h.Some? ==> h.value.rule < |Rules| && 0 < h.value.len <= |s|
    ensures h.Some? ==> h.value.len == MatchLen(Rules[h.value.rule].pattern, s)
  {
    FirstMatchFrom(Rules, s, 0)
  }

  /** Rule `j` of `table` does not match at the start of `s`. */
  predicate Misses(table: seq<Rule>, s: string, j: nat)
    requires j < |table|
  {
    MatchLen(table[j].pattern, s) == 0
  }

  lemma {:induction false} FirstMatchFromIsFirst(table: seq<Rule>, s: string, i: nat)
    requires i <= |table|
    ensures FirstMatchFrom(table, s, i).Some? ==>
      forall j :: i <= j < FirstMatchFrom(table, s, i).value.rule ==> Misses(table, s, j)
    ensures FirstMatchFrom(table, s, i).None? <==> forall j :: i <= j < |table| ==> Misses(table, s, j)
    decreases |table| - i
  {
    if i == |table| {
    } else if Misses(table, s, i) {
      FirstMatchFromIsFirst(table, s, i + 1);
      assert FirstMatchFrom(table, s, i) == FirstMatchFrom(table, s, i + 1);
    } else {
      assert FirstMatchFrom(table, s, i) == Some(Hit(i, MatchLen(table[i].pattern, s)));
    }
  }

  /**
   * The rule `FirstMatch` picks is the first in the table that matches, and no
   * rule matches when it picks none.
   */
  lemma FirstMatchIsFirst(s: string)
    ensures FirstMatch(s).Some? ==>
      forall j :: 0 <= j < FirstMatch(s).value.rule ==> Misses(Rules, s, j)
    ensures FirstMatch(s).None? <==> forall j :: 0 <= j < |Rules| ==> Misses(Rules, s, j)
  {
    FirstMatchFromIsFirst(Rules, s, 0);
  }

  // ---------------------------------------------------------------------------
  // Tokenizer state and one step of it

  /** The tokenizer's state: source text, cursor, indentation, position. */
  datatype Scan = Scan(s: string, cursor: nat, indent: nat, line: nat, column: nat) {
    ghost predicate Valid() {
      cursor <= |s| && indent % 2 == 0 && indent <= |s|
    }
  }

  /** Position `pos` follows a `\n` or is the start of the text. */
  predicate AtLineStart(s: string, pos: int) {
    pos <= 0 || (pos - 1 < |s| && s[pos - 1] == '\n')
  }

  /**
   * Advancing one character leaves the cursor at a line start exactly when
   * that character is `\n`, and then on the next line at column 0.
   */
  lemma PastOneCharacter(st: Scan)
    requires st.cursor < |st.s|
    ensures var r := Advance(st, 1); AtLineStart(r.s, r.cursor) <==> st.s[st.cursor] == '\n'
    ensures var r := Advance(st, 1); st.s[st.cursor] == '\n' ==> r.line == st.line + 1 && r.column == 0
  {
    assert st.s[st.cursor..st.cursor + 1] == [st.s[st.cursor]];
  }

  /** The start of the line holding `pos`. */
  function LineStartOf(s: string, pos: nat): (r: nat)
    requires pos <= |s|
    ensures r <= pos && AtLineStart(s, r)
  {
    if AtLineStart(s, pos) then pos else LineStartOf(s, pos - 1)
  }

  /** No line starts between the start of the line holding `pos` and `pos`. */
  lemma {:induction false} LineStartIsLast(s: string, pos: nat)
    requires pos <= |s|
    ensures forall k :: LineStartOf(s, pos) < k <= pos ==> !AtLineStart(s, k)
  {
    if !AtLineStart(s, pos) {
      LineStartIsLast(s, pos - 1);
    }
  }

  /** The text after the current indentation of the cursor's line. */
  function AfterIndent(st: Scan): (r: string)
    requires st.cursor <= |st.s|
    ensures |r| <= |st.s|
    ensures r == st.s[|st.s| - |r|..]
  {
    var from := LineStartOf(st.s, st.cursor) + st.indent;
    if from <= |st.s| then st.s[from..] else []
  }

  /** The first index of `c` in `s`. */
  function IndexOf(s: string, c: char): (r: Option<nat>)
    ensures r.Some? ==> r.value < |s|
  {
    if s == [] then None
    else if s[0] == c then Some(0)
    else match IndexOf(s[1..], c)
      case None => None
      case Some(k) => Some(k + 1)
  }

  /** `IndexOf` finds the first occurrence, and finds none only when there is none. */
  lemma {:induction false} IndexOfFirst(s: string, c: char)
    ensures IndexOf(s, c).Some? ==> s[IndexOf(s, c).value] == c && c !in s[..IndexOf(s, c).value]
    ensures IndexOf(s, c).None? <==> c !in s
  {
    if s != [] && s[0] != c {
      IndexOfFirst(s[1..], c);
      match IndexOf(s[1..], c)
      case None =>
        assert s == [s[0]] + s[1..];
      case Some(k) =>
        assert s[..k + 1] == [s[0]] + s[1..][..k];
    }
  }

  /**
   * Moves the cursor ahead by `length`. Only the FIRST `\n` of the skipped text
   * is seen: the line grows by at most one, and the column becomes the number
   * of characters after that first `\n`.
   */
  function Advance(st: Scan, length: nat): (r: Scan)
    requires st.cursor + length <= |st.s|
    ensures r.s == st.s && r.indent == st.indent && r.cursor == st.cursor + length
  {
    var skipped := st.s[st.cursor..st.cursor + length];
    match IndexOf(skipped, '\n')
    case Some(k) => st.(cursor := st.cursor + length, line := st.line + 1, column := length - (k + 1))
    case None => st.(cursor := st.cursor + length, column := st.column + length)
  }

  /** Advancing counts the first `\n` skipped, and the column restarts after it. */
  lemma AdvanceLines(st: Scan, length: nat)
    requires st.cursor + length <= |st.s|
    ensures var r := Advance(st, length);
      '\n' !in st.s[st.cursor..r.cursor] ==> r.line == st.line && r.column == st.column + length
    ensures var r := Advance(st, length);
      '\n' in st.s[st.cursor..r.cursor] ==>
        r.line == st.line + 1 && r.column < length &&
        st.s[r.cursor - r.column - 1] == '\n' && '\n' !in st.s[st.cursor..r.cursor - r.column - 1]
  {
    var skipped := st.s[st.cursor..st.cursor + length];
    IndexOfFirst(skipped, '\n');
    match IndexOf(skipped, '\n')
    case Some(k) =>
      assert skipped[..k] == st.s[st.cursor..st.cursor + k];
    case None =>
  }

  /** The result of one call of `next()` and the state it leaves. */
  datatype Step = Step(result: Result<Option<Token>>, after: Scan)

  /**
   * One call of `next()`. At a line start the leading spaces are compared with
   * the current indentation first; then the first matching rule is taken, and
   * skipped matches (whitespace, comments, the line break closing a full-line
   * comment) restart the step further on.
   */
  function NextSpec(st: Scan): (r: Step)
    requires st.Valid()
    ensures r.after.Valid() && r.after.s == st.s && st.cursor <= r.after.cursor
    decreases |st.s| - st.cursor, 2
  {
    if AtLineStart(st.s, st.cursor) then
      var rest := st.s[st.cursor..];
      if |rest| > 0 && rest[0] == '\t' then
        Step(Err(UnexpectedCharacter("\\t", st.line, st.column)), st)
      else
        var lineIndent := Span(rest, IsSpace);
        var diff := lineIndent - st.indent;
        if diff == 2 then
          Step(Ok(Some(Token(Indent, "", st.line, st.column))), st.(indent := st.indent + 2))
        else if diff < 0 && diff % 2 == 0 then
          Step(Ok(Some(Token(Dedent, "", st.line, st.column))), st.(indent := st.indent - 2))
        else if diff != 0 then
          Step(Err(UnexpectedIndent(lineIndent, st.line, st.column)), st)
        else
          Lex(Advance(st, lineIndent))
    else
      Lex(st)
  }

  /** The rule-matching part of a step, after any indentation handling. */
  function Lex(st: Scan): (r: Step)
    requires st.Valid()
    ensures r.after.Valid() && r.after.s == st.s && st.cursor <= r.after.cursor
    decreases |st.s| - st.cursor, 1
  {
    if st.cursor >= |st.s| then Step(Ok(None), st)
    else
      match FirstMatch(st.s[st.cursor..])
      case None => Step(Err(UnexpectedCharacter([st.s[st.cursor]], st.line, st.column)), st)
      case Some(hit) => LexHit(st, hit)
  }

  /** The step once rule `hit` has matched at the cursor: skip the match and start over, or yield its token. */
  function LexHit(st: Scan, hit: Hit): (r: Step)
    requires st.Valid() && hit.rule < |Rules| && 0 < hit.len && st.cursor + hit.len <= |st.s|
    ensures r.after.Valid() && r.after.s == st.s && st.cursor <= r.after.cursor
    decreases |st.s| - st.cursor, 0
  {
    var kind := Rules[hit.rule].kind;
    var next := Advance(st, hit.len);
    if Skipped(st, hit) then NextSpec(next)
    else Step(Ok(Some(Token(kind.value, st.s[st.cursor..st.cursor + hit.len], st.line, st.column))), next)
  }

  /**
   * A match yields no token when its rule has no kind (whitespace, comments), or
   * when it is the line break that ends a full-line comment.
   */
  predicate Skipped(st: Scan, hit: Hit)
    requires st.cursor <= |st.s| && hit.rule < |Rules|
  {
    var kind := Rules[hit.rule].kind;
    var after := AfterIndent(st);
    kind.None? || (kind == Some(Newline) && |after| > 0 && after[0] == '#')
  }

  /**
   * In terms of the table's patterns: whitespace and comment matches are
   * skipped, and so is a line break whose line, after its indentation,
   * starts with `#`.
   */
  lemma SkippedRules(st: Scan, hit: Hit)
    requires st.cursor <= |st.s| && hit.rule < |Rules|
    ensures Skipped(st, hit) <==>
      Rules[hit.rule].pattern in {Comment, Blank} ||
      (Rules[hit.rule].pattern == LineBreak && |AfterIndent(st)| > 0 && AfterIndent(st)[0] == '#')
  {
    RulePriorities();
  }

  // ---------------------------------------------------------------------------
  // Progress: how far a state is from the end of the token stream

  /** Characters left after the cursor. */
  function Remaining(st: Scan): nat {
    if st.cursor <= |st.s| then |st.s| - st.cursor else 0
  }

  /** At a line start, how far the indentation is from the line's leading spaces. */
  function Gap(st: Scan): nat {
    if st.cursor <= |st.s| && AtLineStart(st.s, st.cursor) then
      var lineIndent := Span(st.s[st.cursor..], IsSpace);
      if st.indent <= lineIndent then lineIndent - st.indent else st.indent - lineIndent
    else 0
  }

  /** `a` is strictly further on than `b` (lexicographically on Remaining, Gap). */
  predicate Ahead(a: Scan, b: Scan) {
    Remaining(a) < Remaining(b) || (Remaining(a) == Remaining(b) && Gap(a) < Gap(b))
  }

  /** `a` is no further back than `b`. */
  predicate NotBehind(a: Scan, b: Scan) {
    Remaining(a) < Remaining(b) || (Remaining(a) == Remaining(b) && Gap(a) <= Gap(b))
  }

  /**
   * Every step moves the tokenizer forward or leaves its measure alone, and a
   * step that yields a token (INDENT and DEDENT included) moves it strictly
   * forward: the token stream is finite.
   */
  lemma {:induction false} NextProgress(st: Scan)
    requires st.Valid()
    ensures NotBehind(NextSpec(st).after, st)
    ensures NextSpec(st).result.Ok? && NextSpec(st).result.value.Some? ==> Ahead(NextSpec(st).after, st)
    decreases |st.s| - st.cursor, 2
  {
    if AtLineStart(st.s, st.cursor) {
      LineStartProgress(st);
    } else {
      MidLine(st);
      LexProgress(st);
    }
  }

  lemma {:induction false} LineStartProgress(st: Scan)
    requires st.Valid() && AtLineStart(st.s, st.cursor)
    ensures NotBehind(NextSpec(st).after, st)
    ensures NextSpec(st).result.Ok? && NextSpec(st).result.value.Some? ==> Ahead(NextSpec(st).after, st)
    decreases |st.s| - st.cursor, 1
  {
    var rest := st.s[st.cursor..];
    if |rest| > 0 && rest[0] == '\t' {
      TabAtLineStart(st);
    } else {
      var lineIndent := Span(rest, IsSpace);
      var diff := lineIndent - st.indent;
      if diff == 2 {
        IndentStep(st);
      } else if diff < 0 && diff % 2 == 0 {
        DedentStep(st);
      } else if diff != 0 {
        BadIndent(st);
      } else {
        SameIndent(st);
        LexProgress(Advance(st, lineIndent));
      }
    }
  }

  lemma {:induction false} LexProgress(st: Scan)
    requires st.Valid()
    ensures NotBehind(Lex(st).after, st)
    ensures Lex(st).result.Ok? && Lex(st).result.value.Some? ==> Ahead(Lex(st).after, st)
    decreases |st.s| - st.cursor, 0
  {
    if st.cursor < |st.s| {
      match FirstMatch(st.s[st.cursor..])
      case None =>
      case Some(hit) =>
        var next := Advance(st, hit.len);
        if Skipped(st, hit) {
          NextProgress(next);
        }
    }
  }

  /** The tokenizer is done: cursor at the end, and no indentation left to close. */
  predicate Exhausted(st: Scan) {
    st.cursor == |st.s| && (AtLineStart(st.s, st.cursor) ==> st.indent == 0)
  }

  /**
   * What `Lex` may assume about a line-start state: the indentation has already
   * been compared with the line's leading spaces and found equal.
   */
  predicate IndentSettled(st: Scan)
    requires st.cursor <= |st.s|
  {
    AtLineStart(st.s, st.cursor) ==>
      st.indent == Span(st.s[st.cursor..], IsSpace) &&
      !(st.cursor < |st.s| && st.s[st.cursor] == '\t')
  }

  /** The end of input is reported only once the tokenizer is exhausted. */
  lemma {:induction false} EndMeansExhausted(st: Scan)
    requires st.Valid()
    ensures NextSpec(st).result == Ok(None) ==> Exhausted(NextSpec(st).after)
    decreases |st.s| - st.cursor, 1
  {
    if AtLineStart(st.s, st.cursor) {
      var rest := st.s[st.cursor..];
      if !(|rest| > 0 && rest[0] == '\t') {
        var lineIndent := Span(rest, IsSpace);
        if lineIndent == st.indent {
          LexEndMeansExhausted(Advance(st, lineIndent));
        }
      }
    } else {
      LexEndMeansExhausted(st);
    }
  }

  lemma {:induction false} LexEndMeansExhausted(st: Scan)
    requires st.Valid() && IndentSettled(st)
    ensures Lex(st).result == Ok(None) ==> Exhausted(Lex(st).after)
    decreases |st.s| - st.cursor, 0
  {
    if st.cursor < |st.s| {
      match FirstMatch(st.s[st.cursor..])
      case None =>
      case Some(hit) =>
        var next := Advance(st, hit.len);
        if Skipped(st, hit) {
          EndMeansExhausted(next);
        }
    }
  }

  /** An exhausted tokenizer keeps answering end of input and does not change. */
  lemma ExhaustedIsFixed(st: Scan)
    requires st.Valid() && Exhausted(st)
    ensures NextSpec(st) == Step(Ok(None), st)
  {
    if AtLineStart(st.s, st.cursor) {
      assert Advance(st, 0) == st;
    }
  }

  /** Once `next()` has returned end of input, every later call does too, without changing the state. */
  lemma EndIsSticky(st: Scan)
    requires st.Valid()
    requires NextSpec(st).result == Ok(None)
    ensures NextSpec(NextSpec(st).after) == Step(Ok(None), NextSpec(st).after)
  {
    EndMeansExhausted(st);
    ExhaustedIsFixed(NextSpec(st).after);
  }

  /**
   * At the end of the text, open indentation is closed by DEDENT tokens only
   * when the text ends with a line break; otherwise the end of input comes at
   * once, whatever the indentation.
   */
  lemma EndOfText(st: Scan)
    requires st.Valid() && st.cursor == |st.s|
    ensures AtLineStart(st.s, st.cursor) && st.indent > 0 ==>
      NextSpec(st) == Step(Ok(Some(Token(Dedent, "", st.line, st.column))), st.(indent := st.indent - 2))
    ensures !(AtLineStart(st.s, st.cursor) && st.indent > 0) ==> NextSpec(st) == Step(Ok(None), st)
  {
    if AtLineStart(st.s, st.cursor) && st.indent > 0 {
      assert st.s[st.cursor..] == [];
      var d := Span(st.s[st.cursor..], IsSpace) - st.indent;
      assert d == 2 * -(st.indent / 2);
      DedentStep(st);
    } else if AtLineStart(st.s, st.cursor) {
      ExhaustedIsFixed(st);
    } else {
      MidLine(st);
    }
  }

  /** The tokenizer's next call raises a lexical error. */
  ghost predicate Fails(st: Scan)
    requires st.Valid()
  {
    NextSpec(st).result.Err?
  }

  /** A lexical error leaves the tokenizer where calling `next()` again raises the same error. */
  lemma {:induction false} ErrorIsSticky(st: Scan)
    requires st.Valid()
    requires NextSpec(st).result.Err?
    ensures NextSpec(NextSpec(st).after) == NextSpec(st)
    ensures NextSpec(st).after.cursor < |st.s|
    decreases |st.s| - st.cursor, 1
  {
    if AtLineStart(st.s, st.cursor) {
      var rest := st.s[st.cursor..];
      if !(|rest| > 0 && rest[0] == '\t') {
        var lineIndent := Span(rest, IsSpace);
        if lineIndent == st.indent {
          LexErrorIsSticky(Advance(st, lineIndent));
        }
      }
    } else {
      LexErrorIsSticky(st);
    }
  }

  lemma {:induction false} LexErrorIsSticky(st: Scan)
    requires st.Valid() && IndentSettled(st)
    requires Lex(st).result.Err?
    ensures NextSpec(Lex(st).after) == Lex(st)
    ensures Lex(st).after.cursor < |st.s|
    decreases |st.s| - st.cursor, 0
  {
    match FirstMatch(st.s[st.cursor..])
    case None =>
      if AtLineStart(st.s, st.cursor) {
        assert Advance(st, 0) == st;
      }
    case Some(hit) =>
      var next := Advance(st, hit.len);
      ErrorIsSticky(next);
  }

  /** A quoted string as the STRING rules match it, quotes included. */
  predicate IsQuotedText(v: string) {
    |v| >= 2 && (v[0] == '"' || v[0] == '\'') && v[|v| - 1] == v[0]
  }

  /** Token values have the shape their rule matched. */
  predicate WellFormed(t: Token) {
    (t.kind == Int ==> IsNumeral(t.value)) &&
    (t.kind == Float ==> IsDecimal(t.value)) &&
    (t.kind == Str ==> IsQuotedText(t.value)) &&
    (t.kind == Newline ==> t.value != "")
  }

  /** The only rules yielding INT, FLOAT and STRING are the digit, decimal and quote rules. */
  lemma RuleOfKind(i: nat)
    requires i < |Rules|
    ensures Rules[i].kind == Some(Int) ==> Rules[i].pattern == Digits
    ensures Rules[i].kind == Some(Float) ==> Rules[i].pattern == Decimal
    ensures Rules[i].kind == Some(Str) ==> Rules[i].pattern == Quoted('"') || Rules[i].pattern == Quoted('\'')
  {
  }

  /** The text a rule matches has the shape of that rule's kind. */
  lemma HitShape(rest: string, hit: Hit)
    requires hit.rule < |Rules| && 0 < hit.len == MatchLen(Rules[hit.rule].pattern, rest)
    ensures Rules[hit.rule].kind.Some? ==> WellFormed(Token(Rules[hit.rule].kind.value, rest[..hit.len], 0, 0))
  {
    RuleOfKind(hit.rule);
    var p := Rules[hit.rule].pattern;
    match p
    case Digits =>
      assert MatchDigits(rest) == hit.len;
    case Decimal =>
      assert MatchDecimal(rest) == hit.len;
    case Quoted(q) =>
      assert MatchQuoted(rest, q) == hit.len;
    case _ =>
  }

  /** Every token a step yields is well formed. */
  lemma {:induction false} NextWellFormed(st: Scan)
    requires st.Valid()
    ensures NextSpec(st).result.Ok? && NextSpec(st).result.value.Some? ==> WellFormed(NextSpec(st).result.value.value)
    decreases |st.s| - st.cursor, 1
  {
    if AtLineStart(st.s, st.cursor) {
      var rest := st.s[st.cursor..];
      if !(|rest| > 0 && rest[0] == '\t') {
        var lineIndent := Span(rest, IsSpace);
        if lineIndent == st.indent {
          LexWellFormed(Advance(st, lineIndent));
        }
      }
    } else {
      LexWellFormed(st);
    }
  }

  lemma {:induction false} LexWellFormed(st: Scan)
    requires st.Valid()
    ensures Lex(st).result.Ok? && Lex(st).result.value.Some? ==> WellFormed(Lex(st).result.value.value)
    decreases |st.s| - st.cursor, 0
  {
    if st.cursor < |st.s| {
      var rest := st.s[st.cursor..];
      match FirstMatch(rest)
      case None =>
      case Some(hit) =>
        if Skipped(st, hit) {
          var next := Advance(st, hit.len);
          assert Lex(st) == NextSpec(next);
          NextWellFormed(next);
        } else {
          assert Lex(st) == LexHit(st, hit);
          HitToken(st, hit);
          HitShape(rest, hit);
          assert st.s[st.cursor..st.cursor + hit.len] == rest[..hit.len];
        }
    }
  }

  /** A match that is not skipped comes from a rule with a kind. */
  lemma TokenHasKind(st: Scan, hit: Hit)
    requires st.cursor <= |st.s| && hit.rule < |Rules| && !Skipped(st, hit)
    ensures Rules[hit.rule].kind.Some?
  {
  }

  /** Stepping from a state whose next match is not skipped yields that match's token. */
  lemma LexToken(st: Scan, hit: Hit)
    requires st.Valid() && st.cursor < |st.s|
    requires FirstMatch(st.s[st.cursor..]) == Some(hit) && !Skipped(st, hit)
    ensures Rules[hit.rule].kind.Some?
    ensures Lex(st) == Step(Ok(Some(Token(Rules[hit.rule].kind.value, st.s[st.cursor..st.cursor + hit.len], st.line, st.column))),
                            Advance(st, hit.len))
  {
    assert Lex(st) == LexHit(st, hit);
    HitToken(st, hit);
  }

  /** A match that is not skipped yields its token, stamped with the position before it. */
  lemma HitToken(st: Scan, hit: Hit)
    requires st.Valid() && hit.rule < |Rules| && 0 < hit.len && st.cursor + hit.len <= |st.s|
    requires !Skipped(st, hit)
    ensures Rules[hit.rule].kind.Some?
    ensures LexHit(st, hit) == Step(Ok(Some(Token(Rules[hit.rule].kind.value, st.s[st.cursor..st.cursor + hit.len], st.line, st.column))),
                                    Advance(st, hit.len))
  {
    TokenHasKind(st, hit);
  }

  // ---------------------------------------------------------------------------
  // The cases of one step, stated one by one

  /** A tab opening a line is an unexpected character. */
  lemma TabAtLineStart(st: Scan)
    requires st.Valid() && AtLineStart(st.s, st.cursor)
    requires st.cursor < |st.s| && st.s[st.cursor] == '\t'
    ensures NextSpec(st) == Step(Err(UnexpectedCharacter("\\t", st.line, st.column)), st)
  {
  }

  /** Leading spaces two more than the indentation: one INDENT, the cursor stays. */
  lemma IndentStep(st: Scan)
    requires st.Valid() && AtLineStart(st.s, st.cursor)
    requires !(st.cursor < |st.s| && st.s[st.cursor] == '\t')
    requires Span(st.s[st.cursor..], IsSpace) == st.indent + 2
    ensures NextSpec(st) == Step(Ok(Some(Token(Indent, "", st.line, st.column))), st.(indent := st.indent + 2))
  {
  }

  /** Leading spaces fewer than the indentation, by an even amount: one DEDENT, the cursor stays. */
  lemma DedentStep(st: Scan)
    requires st.Valid() && AtLineStart(st.s, st.cursor)
    requires !(st.cursor < |st.s| && st.s[st.cursor] == '\t')
    requires var d := Span(st.s[st.cursor..], IsSpace) - st.indent; d < 0 && d % 2 == 0
    ensures st.indent >= 2
    ensures NextSpec(st) == Step(Ok(Some(Token(Dedent, "", st.line, st.column))), st.(indent := st.indent - 2))
  {
    var d := Span(st.s[st.cursor..], IsSpace) - st.indent;
    assert d <= -2 by {
      assert d == 2 * (d / 2);
    }
  }

  /** Any other change of indentation (odd, or a rise other than 2) is an unexpected indent. */
  lemma BadIndent(st: Scan)
    requires st.Valid() && AtLineStart(st.s, st.cursor)
    requires !(st.cursor < |st.s| && st.s[st.cursor] == '\t')
    requires var d := Span(st.s[st.cursor..], IsSpace) - st.indent;
      d != 0 && d != 2 && !(d < 0 && d % 2 == 0)
    ensures NextSpec(st) == Step(Err(UnexpectedIndent(Span(st.s[st.cursor..], IsSpace), st.line, st.column)), st)
  {
  }

  /** Unchanged indentation: the leading spaces are passed over and rule matching starts. */
  lemma SameIndent(st: Scan)
    requires st.Valid() && AtLineStart(st.s, st.cursor)
    requires !(st.cursor < |st.s| && st.s[st.cursor] == '\t')
    requires Span(st.s[st.cursor..], IsSpace) == st.indent
    ensures st.cursor + st.indent <= |st.s|
    ensures NextSpec(st) == Lex(Advance(st, st.indent))
  {
  }

  /** Inside a line, a step is rule matching alone. */
  lemma MidLine(st: Scan)
    requires st.Valid() && !AtLineStart(st.s, st.cursor)
    ensures NextSpec(st) == Lex(st)
  {
  }

  /** At the end of the text, rule matching reports the end of input. */
  lemma LexAtEnd(st: Scan)
    requires st.Valid() && st.cursor >= |st.s|
    ensures Lex(st) == Step(Ok(None), st)
  {
  }

  /** A character no rule matches is an unexpected character. */
  lemma LexNoMatch(st: Scan)
    requires st.Valid() && st.cursor < |st.s| && FirstMatch(st.s[st.cursor..]).None?
    ensures Lex(st) == Step(Err(UnexpectedCharacter([st.s[st.cursor]], st.line, st.column)), st)
  {
  }

  /** A skipped match restarts the step after it. */
  lemma LexSkip(st: Scan, hit: Hit)
    requires st.Valid() && st.cursor < |st.s|
    requires FirstMatch(st.s[st.cursor..]) == Some(hit) && Skipped(st, hit)
    ensures Lex(st) == NextSpec(Advance(st, hit.len))
  {
  }

  /** The errors a step can raise are the two lexical ones, both syntax errors. */
  lemma {:induction false} NextErrorIsLexical(st: Scan)
    requires st.Valid()
    ensures NextSpec(st).result.Err? ==>
      (NextSpec(st).result.error.UnexpectedCharacter? || NextSpec(st).result.error.UnexpectedIndent?)
    decreases |st.s| - st.cursor, 1
  {
    if AtLineStart(st.s, st.cursor) {
      var rest := st.s[st.cursor..];
      if !(|rest| > 0 && rest[0] == '\t') {
        var lineIndent := Span(rest, IsSpace);
        if lineIndent == st.indent {
          LexErrorIsLexical(Advance(st, lineIndent));
        }
      }
    } else {
      LexErrorIsLexical(st);
    }
  }

  lemma {:induction false} LexErrorIsLexical(st: Scan)
    requires st.Valid()
    ensures Lex(st).result.Err? ==>
      (Lex(st).result.error.UnexpectedCharacter? || Lex(st).result.error.UnexpectedIndent?)
    decreases |st.s| - st.cursor, 0
  {
    if st.cursor < |st.s| {
      match FirstMatch(st.s[st.cursor..])
      case None =>
      case Some(hit) =>
        if Skipped(st, hit) {
          LexSkip(st, hit);
          NextErrorIsLexical(Advance(st, hit.len));
        }
    }
  }
}
