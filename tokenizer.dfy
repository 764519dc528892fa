/**
 * The Tokenizer: a cursor over the source text that hands out one token per
 * call of `Next`, tracking the indentation and the line/column position.
 * Every call is proved to do exactly what the reference step `NextSpec` says.
 */
module Tokenizing {
  import opened Syntax
  import opened Lexer

  /** The loop over the rule table: the first rule that matches `rest`. */
  method MatchRules(rest: string) returns (hit: Option<Hit>)
    ensures hit == FirstMatch(rest)
  {
    var i := 0;
    while i < |Rules|
      invariant 0 <= i <= |Rules|
      invariant FirstMatchFrom(Rules, rest, i) == FirstMatch(rest)
    {
      var len := MatchLen(Rules[i].pattern, rest);
      if len > 0 {
        return Some(Hit(i, len));
      }
      i := i + 1;
    }
    return None;
  }

  class Tokenizer {
    var s: string
    var cursor: nat
    var currentIndent: nat
    var line: nat
    var column: nat

    /** The tokenizer's state as a value. */
    function State(): Scan
      reads this
    {
      Scan(s, cursor, currentIndent, line, column)
    }

    ghost predicate Valid()
      reads this
    {
      State().Valid()
    }

    constructor (source: string)
      ensures Valid() && State() == Scan(source, 0, 0, 0, 0)
    {
      new;
      Init(source);
    }

    /** Restarts the tokenizer on a new text. */
    method Init(source: string)
      modifies this
      ensures Valid() && State() == Scan(source, 0, 0, 0, 0)
    {
      s := source;
      cursor := 0;
      currentIndent := 0;
      line := 0;
      column := 0;
    }

    /** Moves the cursor ahead, counting at most the first `\n` of the skipped text. */
    method AdvanceCursor(length: nat)
      requires Valid() && cursor + length <= |s|
      modifies this
      ensures Valid() && State() == Advance(old(State()), length)
    {
      ghost var before := State();
      var skipped := s[cursor..cursor + length];
      match IndexOf(skipped, '\n') {
        case Some(k) =>
          line := line + 1;
          column := length - (k + 1);
        case None =>
          column := column + length;
      }
      cursor := cursor + length;
      assert State() == Advance(before, length);
    }

    /** Walks back from `pos` to the start of its line. */
    method LineStart(pos: nat) returns (r: nat)
      requires pos <= |s|
      ensures r == LineStartOf(s, pos)
    {
      r := pos;
      while !AtLineStart(s, r)
        invariant r <= pos && LineStartOf(s, r) == LineStartOf(s, pos)
        decreases r
      {
        r := r - 1;
      }
    }

    /** The text after the current indentation on the cursor's line. */
    method AfterIndent() returns (r: string)
      requires Valid()
      ensures r == Lexer.AfterIndent(State())
    {
      var start := LineStart(cursor);
      var from := start + currentIndent;
      r := if from <= |s| then s[from..] else [];
    }

    /**
     * The indentation check that opens `next()` at a line start. Either it
     * settles the call (`done` holds the result: INDENT, DEDENT or an error), or
     * the indentation is unchanged and the cursor is moved past it.
     */
    method LineStartStep() returns (done: Option<Result<Option<Token>>>)
      requires Valid() && AtLineStart(s, cursor)
      modifies this
      ensures Valid() && s == old(s)
      ensures done.Some? ==> NextSpec(old(State())) == Step(done.value, State())
      ensures done.None? ==> NextSpec(old(State())) == Lex(State()) && IndentSettled(State())
      ensures done.None? ==> cursor >= old(cursor)
    {
      if cursor < |s| && s[cursor] == '\t' {
        TabAtLineStart(State());
        return Some(Err(UnexpectedCharacter("\\t", line, column)));
      }
      var lineIndent := Span(s[cursor..], IsSpace);
      done := Reindent(lineIndent);
    }

    /** The indentation check once the line is known not to start with a tab: `lineIndent` leading spaces. */
    method Reindent(lineIndent: nat) returns (done: Option<Result<Option<Token>>>)
      requires Valid() && AtLineStart(s, cursor) && !(cursor < |s| && s[cursor] == '\t')
      requires lineIndent == Span(s[cursor..], IsSpace)
      modifies this
      ensures Valid() && s == old(s)
      ensures done.Some? ==> NextSpec(old(State())) == Step(done.value, State())
      ensures done.None? ==> NextSpec(old(State())) == Lex(State()) && IndentSettled(State())
      ensures done.None? ==> cursor >= old(cursor)
    {
      var diff := lineIndent - currentIndent;
      if diff == 2 {
        IndentStep(State());
        currentIndent := currentIndent + 2;
        return Some(Ok(Some(Token(Indent, "", line, column))));
      }
      if diff < 0 && diff % 2 == 0 {
        DedentStep(State());
        currentIndent := currentIndent - 2;
        return Some(Ok(Some(Token(Dedent, "", line, column))));
      }
      if diff != 0 {
        BadIndent(State());
        return Some(Err(UnexpectedIndent(lineIndent, line, column)));
      }
      SameIndent(State());
      ghost var before := State();
      AdvanceCursor(lineIndent);
      assert Advance(before, lineIndent) == State();
      return None;
    }

    /**
     * The rule-matching part of `next()`: end of input, an unexpected character,
     * a token, or (`done` is None) a skipped match after which `next()` starts over.
     */
    method MatchStep() returns (done: Option<Result<Option<Token>>>)
      requires Valid()
      modifies this
      ensures Valid() && s == old(s)
      ensures done.Some? ==> Lex(old(State())) == Step(done.value, State())
      ensures done.None? ==> Lex(old(State())) == NextSpec(State()) && cursor > old(cursor)
    {
      if cursor >= |s| {
        LexAtEnd(State());
        return Some(Ok(None));
      }
      var hit := MatchRules(s[cursor..]);
      if hit.None? {
        LexNoMatch(State());
        return Some(Err(UnexpectedCharacter([s[cursor]], line, column)));
      }
      done := HitStep(hit.value);
    }

    /** `next()` once the rule `hit` has matched at the cursor: skip the match, or yield its token. */
    method HitStep(hit: Hit) returns (done: Option<Result<Option<Token>>>)
      requires Valid() && cursor < |s| && FirstMatch(s[cursor..]) == Some(hit)
      modifies this
      ensures Valid() && s == old(s)
      ensures done.Some? ==> Lex(old(State())) == Step(done.value, State())
      ensures done.None? ==> Lex(old(State())) == NextSpec(State()) && cursor > old(cursor)
    {
      var kind := Rules[hit.rule].kind;
      var skipped := kind.None?;
      if kind == Some(Newline) {
        var after := AfterIndent();
        skipped := |after| > 0 && after[0] == '#';
      }
      assert skipped == Skipped(State(), hit);
      if skipped {
        LexSkip(State(), hit);
        AdvanceCursor(hit.len);
        return None;
      }
      var token := TokenStep(hit);
      done := Some(Ok(Some(token)));
    }

    /** `next()` yielding the token of the rule `hit`, which matched at the cursor and is not skipped. */
    method TokenStep(hit: Hit) returns (token: Token)
      requires Valid() && cursor < |s| && FirstMatch(s[cursor..]) == Some(hit) && !Skipped(State(), hit)
      modifies this
      ensures Valid() && s == old(s)
      ensures Lex(old(State())) == Step(Ok(Some(token)), State())
    {
      var len := hit.len;
      ghost var here := State();
      assert here.s[here.cursor..here.cursor + len] == s[cursor..cursor + len];
      LexToken(here, hit);
      token := Token(Rules[hit.rule].kind.value, s[cursor..cursor + len], line, column);
      assert Lex(here).result == Ok(Some(token));
      AdvanceCursor(len);
    }

    /**
     * The next token, `None` at the end of input, or a lexical error. Skipped
     * matches (whitespace, comments) start the call over.
     */
    method Next() returns (r: Result<Option<Token>>)
      requires Valid()
      modifies this
      ensures Valid() && s == old(s)
      ensures r == NextSpec(old(State())).result && State() == NextSpec(old(State())).after
    {
      ghost var spec := NextSpec(State());
      while true
        invariant Valid() && s == old(s) && NextSpec(State()) == spec
        decreases |s| - cursor
      {
        ghost var start := State();
        if AtLineStart(s, cursor) {
          var done := LineStartStep();
          if done.Some? {
            return done.value;
          }
        } else {
          MidLine(State());
        }
        assert spec == Lex(State());
        var done := MatchStep();
        if done.Some? {
          return done.value;
        }
        assert cursor > start.cursor;
      }
    }
  }
}
