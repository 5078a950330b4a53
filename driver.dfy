/** The whole-input loop the scanner evidently awaits but does not have:
    until the cursor reaches the end, mark the start of the next lexeme and
    scan it, stopping at the first error.  scan_tokens as written only hands
    back the token list; this module is the intended loop, not the source's
    behaviour. */
module IntendedDriver {
  import opened Tokens
  import opened Errors
  import opened Scanning
  import opened ScannerProperties

  /** The tokens the intended loop produces from state s onwards, or its first error. */
  function ScanFrom(source: seq<char>, s: ScanState): (r: Result<seq<Token>>)
    requires s.current <= |source|
    ensures r.Ok? ==> |s.tokens| <= |r.value| && r.value[..|s.tokens|] == s.tokens
    decreases |source| - s.current
  {
    if s.current >= |source| then Ok(s.tokens)
    else
      var st := Step(source, s.(start := s.current));
      if st.outcome.Err? then Err(st.outcome.error)
      else
        var r := ScanFrom(source, st.state);
        assert r.Ok? ==> r.value[..|s.tokens|] == r.value[..|st.state.tokens|][..|s.tokens|];
        r
  }

  /** The intended loop run over a whole text from a fresh scanner. */
  function ScanSource(source: seq<char>): Result<seq<Token>> {
    ScanFrom(source, Initial())
  }

  /** The intended loop, run on a Scanner object. */
  method ScanAll(sc: Scanner) returns (r: Result<seq<Token>>)
    requires sc.Valid()
    modifies sc
    ensures sc.Valid()
    ensures r == ScanFrom(sc.source, old(sc.State()))
    ensures r.Ok? ==> sc.tokens == r.value && sc.current == |sc.source|
  {
    while !sc.IsAtEnd()
      invariant sc.Valid()
      invariant ScanFrom(sc.source, sc.State()) == ScanFrom(sc.source, old(sc.State()))
      decreases |sc.source| - sc.current
    {
      sc.start := sc.current;
      var o := sc.ScanToken();
      if o.Err? {
        return Err(o.error);
      }
    }
    r := sc.ScanTokens();
  }

  /** t is a token the intended loop can produce from offset a: its lexeme is
      its kind's own spelling, found verbatim in the text at a, and its line is
      one plus the newlines before a. */
  ghost predicate TokenAt(source: seq<char>, t: Token, a: nat) {
    && t.lexeme == Spelling(t.tokType)
    && t.literal == None
    && a + |t.lexeme| <= |source|
    && source[a..a + |t.lexeme|] == t.lexeme
    && t.line == 1 + Newlines(source[..a])
  }

  /** offs gives each token its own start offset; the tokens appear in text
      order and their lexemes do not overlap. */
  ghost predicate Placed(source: seq<char>, toks: seq<Token>, offs: seq<nat>) {
    && |offs| == |toks|
    && (forall i :: 0 <= i < |toks| ==> TokenAt(source, toks[i], offs[i]))
    && (forall i, j :: 0 <= i < j < |toks| ==> offs[i] + |toks[i].lexeme| <= offs[j])
  }

  /** Punctuation appends one well-formed token at the cursor. */
  lemma PunctuationWellFormed(source: seq<char>, s: ScanState)
    requires s.start == s.current < |source| && LinesCounted(source, s)
    requires source[s.current] in Punctuation
    ensures |Step(source, s).state.tokens| == |s.tokens| + 1
    ensures TokenAt(source, Step(source, s).state.tokens[|s.tokens|], s.current)
  {
    var c := source[s.current];
    StepPunctuation(source, s);
    PunctuationSpelled(c);
    var t := Token(Punctuation[c], source[s.start..s.current + 1], None, s.line);
    assert Step(source, s).state.tokens[|s.tokens|] == t;
    assert source[s.current..s.current + 1] == [c];
  }

  /** An operator appends one well-formed token at the cursor. */
  lemma OperatorWellFormed(source: seq<char>, s: ScanState)
    requires s.start == s.current < |source| && LinesCounted(source, s)
    requires source[s.current] in Operators
    ensures |Step(source, s).state.tokens| == |s.tokens| + 1
    ensures TokenAt(source, Step(source, s).state.tokens[|s.tokens|], s.current)
  {
    var c := source[s.current];
    var kinds := Operators[c];
    StepOperator(source, s);
    OperatorSpelled(c);
    if s.current + 1 < |source| && source[s.current + 1] == '=' {
      var t := Token(kinds.1, source[s.current..s.current + 2], None, s.line);
      assert Step(source, s).state.tokens[|s.tokens|] == t;
      assert source[s.current..s.current + 2] == [c, '='];
    } else {
      var t := Token(kinds.0, source[s.current..s.current + 1], None, s.line);
      assert Step(source, s).state.tokens[|s.tokens|] == t;
      assert source[s.current..s.current + 1] == [c];
    }
  }

  /** A lone `/` appends one well-formed SLASH token at the cursor. */
  lemma SlashWellFormed(source: seq<char>, s: ScanState)
    requires s.start == s.current < |source| && LinesCounted(source, s)
    requires source[s.current] == '/'
    requires !(s.current + 1 < |source| && source[s.current + 1] == '/')
    ensures |Step(source, s).state.tokens| == |s.tokens| + 1
    ensures TokenAt(source, Step(source, s).state.tokens[|s.tokens|], s.current)
  {
    StepSlash(source, s);
    var t := Token(Slash, source[s.start..s.current + 1], None, s.line);
    assert Step(source, s).state.tokens[|s.tokens|] == t;
    assert source[s.current..s.current + 1] == "/";
  }

  /** With start set to the cursor, the token a step appends is spelled by its
      kind and starts at the cursor, on the cursor's line. */
  lemma StepWellFormed(source: seq<char>, s: ScanState)
    requires s.start == s.current < |source| && LinesCounted(source, s)
    ensures var r := Step(source, s);
            |r.state.tokens| > |s.tokens| ==> TokenAt(source, r.state.tokens[|s.tokens|], s.current)
  {
    var c := source[s.current];
    if c in Operators {
      OperatorWellFormed(source, s);
    } else if c in Punctuation {
      PunctuationWellFormed(source, s);
    } else if c == '/' && !(s.current + 1 < |source| && source[s.current + 1] == '/') {
      SlashWellFormed(source, s);
    }
  }

  /** One step keeps the tokens placed: a new token, if any, is placed at the
      old cursor, after every earlier lexeme. */
  lemma PlacedStep(source: seq<char>, toks: seq<Token>, offs: seq<nat>, cur: nat,
                   toks': seq<Token>, cur': nat)
    requires Placed(source, toks, offs)
    requires forall i :: 0 <= i < |offs| ==> offs[i] + |toks[i].lexeme| <= cur
    requires cur < cur' && |toks| <= |toks'| <= |toks| + 1 && toks'[..|toks|] == toks
    requires |toks'| > |toks| ==>
               TokenAt(source, toks'[|toks|], cur) && cur' == cur + |toks'[|toks|].lexeme|
    ensures var next := if |toks'| > |toks| then offs + [cur] else offs;
            && Placed(source, toks', next)
            && (forall i :: 0 <= i < |next| ==> next[i] + |toks'[i].lexeme| <= cur')
  {
    if |toks'| == |toks| {
      assert toks' == toks;
    } else {
      assert toks' == toks + [toks'[|toks|]];
    }
  }

  /** The offsets after one step of the intended loop from s. */
  function NextOffsets(source: seq<char>, s: ScanState, offs: seq<nat>): seq<nat>
    requires s.current < |source|
  {
    if |Step(source, s.(start := s.current)).state.tokens| > |s.tokens| then offs + [s.current] else offs
  }

  /** One successful step of the intended loop keeps the line count and the
      placement of the tokens, the new one at the old cursor. */
  lemma StepPlaced(source: seq<char>, s: ScanState, offs: seq<nat>)
    requires s.current < |source| && LinesCounted(source, s)
    requires Placed(source, s.tokens, offs)
    requires forall i :: 0 <= i < |offs| ==> offs[i] + |s.tokens[i].lexeme| <= s.current
    ensures var st := Step(source, s.(start := s.current)).state;
            var next := NextOffsets(source, s, offs);
            && LinesCounted(source, st)
            && Placed(source, st.tokens, next)
            && Extends(next, offs, s.current)
            && (forall i :: 0 <= i < |next| ==> next[i] + |st.tokens[i].lexeme| <= st.current)
  {
    var s0 := s.(start := s.current);
    var st := Step(source, s0);
    StepWellFormed(source, s0);
    StepKeepsLineCount(source, s0);
    PlacedStep(source, s.tokens, offs, s.current, st.state.tokens, st.state.current);
    var next := NextOffsets(source, s, offs);
    if |st.state.tokens| > |s.tokens| {
      assert next == offs + [s.current];
      assert next[..|offs|] == offs;
    } else {
      assert next == offs;
    }
  }

  /** The start offsets of the tokens the intended loop produces from s,
      extending offs, the offsets of the tokens already there. */
  ghost function OffsetsFrom(source: seq<char>, s: ScanState, offs: seq<nat>): seq<nat>
    requires s.current <= |source|
    decreases |source| - s.current
  {
    if s.current >= |source| then offs
    else
      var st := Step(source, s.(start := s.current));
      if st.outcome.Err? then offs else OffsetsFrom(source, st.state, NextOffsets(source, s, offs))
  }

  /** all keeps offs as a prefix, and its further offsets are at least from. */
  ghost predicate Extends(all: seq<nat>, offs: seq<nat>, from: nat) {
    |offs| <= |all| && all[..|offs|] == offs && forall i :: |offs| <= i < |all| ==> from <= all[i]
  }

  /** Extension of offset sequences composes. */
  lemma ExtendsTrans(all: seq<nat>, next: seq<nat>, offs: seq<nat>, mid: nat, from: nat)
    requires Extends(all, next, mid) && Extends(next, offs, from) && from <= mid
    ensures Extends(all, offs, from)
  {
    assert all[..|offs|] == next[..|offs|];
  }

  /** Every token of a successful whole-input scan sits at its own offset in
      the text, in text order: the tokens placed so far keep their offsets and
      the new ones start at or after the cursor. */
  lemma {:induction false} ScanFromWellFormed(source: seq<char>, s: ScanState, offs: seq<nat>)
    requires LinesCounted(source, s)
    requires Placed(source, s.tokens, offs)
    requires forall i :: 0 <= i < |offs| ==> offs[i] + |s.tokens[i].lexeme| <= s.current
    ensures var r := ScanFrom(source, s);
            var all := OffsetsFrom(source, s, offs);
            r.Ok? ==> Placed(source, r.value, all) && Extends(all, offs, s.current)
    decreases |source| - s.current
  {
    if s.current < |source| && ScanFrom(source, s).Ok? {
      var st := Step(source, s.(start := s.current));
      StepPlaced(source, s, offs);
      var next := NextOffsets(source, s, offs);
      ScanFromWellFormed(source, st.state, next);
      assert st.outcome.Ok?;
      assert ScanFrom(source, s) == ScanFrom(source, st.state);
      var all := OffsetsFrom(source, st.state, next);
      assert OffsetsFrom(source, s, offs) == all;
      ExtendsTrans(all, next, offs, st.state.current, s.current);
    }
  }

  /** Placement pins each token to its own start: in "(\n(", a second "("
      placed after the first can only start at offset 2, on line 2. */
  lemma PlacedPinsLine(t2: Token, offs: seq<nat>)
    requires t2.lexeme == "("
    requires Placed("(\n(", [Token(LeftParen, "(", None, 1), t2], offs)
    ensures offs[1] == 2 && t2.line == 2
  {
    var src := "(\n(";
    var toks := [Token(LeftParen, "(", None, 1), t2];
    assert TokenAt(src, t2, offs[1]);
    assert offs[0] + |toks[0].lexeme| <= offs[1];
    assert 1 <= offs[1] <= 2;
    assert offs[1] != 1 by {
      assert src[1..2] == "\n";
    }
    assert src[..2] == "(\n" && Newlines("(\n") == 1 by {
      assert "(\n"[..1] == "(";
      assert "("[..0] == [];
    }
  }

  /** A comment that stops at or before q stops at the same place in the
      text cut at q. */
  lemma {:induction false} CommentEndCut(source: seq<char>, i: nat, q: nat)
    requires i <= q <= |source|
    requires CommentEnd(source, i) <= q
    ensures CommentEnd(source[..q], i) == CommentEnd(source, i)
    decreases q - i
  {
    if i < q && source[i] != '\n' {
      CommentEndCut(source, i + 1, q);
    }
  }

  /** The operator arms of StepCut: they read at most the character after
      the operator, and when they do it lies before q. */
  lemma StepCutOperator(source: seq<char>, s: ScanState, q: nat)
    requires s.start <= s.current < q <= |source| && Step(source, s).state.current <= q
    requires source[s.current] in "!=<>"
    ensures Step(source[..q], s) == Step(source, s)
  {
    var t := source[..q];
    assert t[s.current] == source[s.current];
    assert t[s.start..s.current + 1] == source[s.start..s.current + 1];
    if s.current + 1 < q {
      assert t[s.current + 1] == source[s.current + 1];
      assert t[s.start..s.current + 2] == source[s.start..s.current + 2];
    } else {
      assert s.current + 1 == |t|;
    }
  }

  /** The slash arms of StepCut: a comment stops at or before q, and a lone
      slash reads only the character after it. */
  lemma StepCutSlash(source: seq<char>, s: ScanState, q: nat)
    requires s.start <= s.current < q <= |source| && Step(source, s).state.current <= q
    requires source[s.current] == '/'
    ensures Step(source[..q], s) == Step(source, s)
  {
    var t := source[..q];
    assert t[s.current] == source[s.current];
    if s.current + 1 < q {
      assert t[s.current + 1] == source[s.current + 1];
      if source[s.current + 1] == '/' {
        CommentEndCut(source, s.current + 2, q);
      }
    } else {
      assert s.current + 1 == |t|;
    }
    assert t[s.start..s.current + 1] == source[s.start..s.current + 1];
  }

  /** A step that ends at or before q reads nothing from q on, so it is the
      same step in the text cut at q. */
  lemma StepCut(source: seq<char>, s: ScanState, q: nat)
    requires s.start <= s.current < q <= |source| && Step(source, s).state.current <= q
    ensures Step(source[..q], s) == Step(source, s)
  {
    var c := source[s.current];
    if c in "!=<>" {
      StepCutOperator(source, s, q);
    } else if c == '/' {
      StepCutSlash(source, s, q);
    } else {
      var t := source[..q];
      assert t[s.current] == c;
      assert t[s.start..s.current + 1] == source[s.start..s.current + 1];
    }
  }

  /** One step of the intended loop is the same in the text cut at q when it
      ends at or before q. */
  lemma ScanFromCut(source: seq<char>, s: ScanState, q: nat)
    requires s.current < q <= |source|
    requires Step(source, s.(start := s.current)).state.current <= q
    ensures var st := Step(source, s.(start := s.current));
            st.outcome.Ok? ==> ScanFrom(source[..q], s) == ScanFrom(source[..q], st.state)
    ensures var st := Step(source, s.(start := s.current));
            st.outcome.Err? ==> ScanFrom(source[..q], s) == Err(st.outcome.error)
  {
    StepCut(source, s.(start := s.current), q);
  }

  /** The intended run from s stops with an error at p: p holds an
      unrecognised character, the text before p scans cleanly, and the text
      through p does not. */
  ghost predicate StopsAt(source: seq<char>, s: ScanState, p: nat) {
    s.current <= p < |source| && !Recognized(source[p])
    && ScanFrom(source[..p], s).Ok? && ScanFrom(source[..p + 1], s).Err?
  }

  /** After one successful step, the run on the text cut at q succeeds from
      the old state exactly when it succeeds from the new one. */
  lemma CutAfterStep(source: seq<char>, s: ScanState, q: nat)
    requires s.current < |source|
    requires var st := Step(source, s.(start := s.current));
             st.outcome.Ok? && st.state.current <= q <= |source|
    ensures ScanFrom(source[..q], s).Ok?
              == ScanFrom(source[..q], Step(source, s.(start := s.current)).state).Ok?
  {
    ScanFromCut(source, s, q);
  }

  /** The cursor position where the intended run from s stops: the start of
      the step that fails, or the end of the text when none does. */
  function ErrorPos(source: seq<char>, s: ScanState): (p: nat)
    requires s.current <= |source|
    ensures s.current <= p <= |source|
    decreases |source| - s.current
  {
    if s.current >= |source| then s.current
    else
      var st := Step(source, s.(start := s.current));
      if st.outcome.Err? then s.current else ErrorPos(source, st.state)
  }

  /** A failing run stops at an unrecognised character, with the message and
      the line of that character. */
  lemma {:induction false} ErrorPosRejected(source: seq<char>, s: ScanState)
    requires LinesCounted(source, s)
    ensures var r := ScanFrom(source, s);
            var p := ErrorPos(source, s);
            r.Err? ==> p < |source| && !Recognized(source[p])
                       && r.error == ParsingError(1 + Newlines(source[..p]), UnexpectedCharacter)
    decreases |source| - s.current
  {
    if s.current < |source| {
      var s0 := s.(start := s.current);
      StepErrorIff(source, s0);
      if Step(source, s0).outcome.Ok? {
        StepKeepsLineCount(source, s0);
        ErrorPosRejected(source, Step(source, s0).state);
      }
    }
  }

  /** The text before the stop position scans cleanly. */
  lemma {:induction false} ErrorPosCleanBefore(source: seq<char>, s: ScanState)
    requires s.current <= |source|
    ensures ScanFrom(source[..ErrorPos(source, s)], s).Ok?
    decreases |source| - s.current
  {
    var p := ErrorPos(source, s);
    if s.current < |source| {
      var st := Step(source, s.(start := s.current));
      if st.outcome.Ok? {
        ErrorPosCleanBefore(source, st.state);
        CutAfterStep(source, s, p);
      } else {
        assert ScanFrom(source[..p], s) == Ok(s.tokens);
      }
    } else {
      assert source[..p] == source;
    }
  }

  /** When the first step succeeds, failing through p after it means
      failing through p from before it. */
  lemma FailsThroughAfterStep(source: seq<char>, s: ScanState, p: nat)
    requires s.current <= |source| && p == ErrorPos(source, s) < |source|
    requires Step(source, s.(start := s.current)).outcome.Ok?
    requires ScanFrom(source[..p + 1], Step(source, s.(start := s.current)).state).Err?
    ensures ScanFrom(source[..p + 1], s).Err?
  {
    CutAfterStep(source, s, p + 1);
  }

  /** When the first step fails, the run stops at the cursor, and the text
      through the cursor already fails. */
  lemma FailsThroughAtStep(source: seq<char>, s: ScanState, p: nat)
    requires s.current <= |source| && p == ErrorPos(source, s) < |source|
    requires Step(source, s.(start := s.current)).outcome.Err?
    ensures ScanFrom(source[..p + 1], s).Err?
  {
    ScanFromCut(source, s, p + 1);
  }

  /** A stop position p inside the text is where the run fails: the text
      through p does not scan. */
  lemma {:induction false} ErrorPosFailsThrough(source: seq<char>, s: ScanState, p: nat)
    requires s.current <= |source| && p == ErrorPos(source, s) < |source|
    ensures ScanFrom(source[..p + 1], s).Err?
    decreases |source| - s.current
  {
    var st := Step(source, s.(start := s.current));
    if st.outcome.Ok? {
      ErrorPosFailsThrough(source, st.state, p);
      FailsThroughAfterStep(source, s, p);
    } else {
      FailsThroughAtStep(source, s, p);
    }
  }

  /** The whole-input scan fails only on an unrecognised character p, and
      exactly where the run stops: the text before p scans cleanly, the text
      up to and including p fails, and the error names p's line. */
  lemma ScanFromError(source: seq<char>, s: ScanState)
    requires LinesCounted(source, s)
    ensures var r := ScanFrom(source, s);
            r.Err? ==> r.error.message == UnexpectedCharacter
                       && exists p: nat :: StopsAt(source, s, p) && r.error.line == 1 + Newlines(source[..p])
  {
    ErrorPosRejected(source, s);
    ErrorPosCleanBefore(source, s);
    if ScanFrom(source, s).Err? {
      var p := ErrorPos(source, s);
      ErrorPosFailsThrough(source, s, p);
      assert StopsAt(source, s, p);
    }
  }

  /** The only stop position of "a\nb" is the `a` at offset 0, on line 1. */
  lemma ErrorPinsFirst(p: nat)
    requires StopsAt("a\nb", Initial(), p)
    ensures p == 0 && 1 + Newlines("a\nb"[..p]) == 1
  {
    assert "a\nb"[..0] == [];
  }

  /** A character inside a comment is never rejected: "//a\nb" fails on
      line 2, and the error clause admits only the `b`, not the commented `a`. */
  lemma ErrorSkipsComment(p: nat)
    requires StopsAt("//a\nb", Initial(), p)
    ensures p == 4 && 1 + Newlines("//a\nb"[..p]) == 2
  {
    var src := "//a\nb";
    if p == 2 {
      assert src[..3] == "//a";
      ExampleCommentOnly();
      assert false;
    }
    assert src[..4] == "//a\n";
    assert Newlines("//a\n") == 1 by {
      assert "//a\n"[..3] == "//a";
      assert "//a"[..2] == "//";
      assert "//"[..1] == "/";
      assert "/"[..0] == [];
    }
  }

  /** A text that is only a comment scans to no tokens, whatever the comment holds. */
  lemma ExampleCommentOnly()
    ensures ScanSource("//a") == Ok([])
  {
    var src := "//a";
    assert Step(src, Initial()).state == Initial().(current := 3);
  }

  /** The whole scan of "//a\nb": the comment hides the `a`, and the `b` on
      line 2 is rejected. */
  lemma ExampleCommentedLetter()
    ensures ScanSource("//a\nb") == Err(ParsingError(2, UnexpectedCharacter))
  {
    var src := "//a\nb";
    var s1 := Step(src, Initial()).state;
    assert s1.current == 3 && s1.line == 1 && s1.tokens == [];
    var s2 := Step(src, s1.(start := 3)).state;
    assert s2.current == 4 && s2.line == 2;
  }

  /** A text whose every remaining character may begin a lexeme scans without error. */
  lemma {:induction false} ScanFromRecognized(source: seq<char>, s: ScanState)
    requires s.current <= |source|
    requires forall i :: s.current <= i < |source| ==> Recognized(source[i])
    ensures ScanFrom(source, s).Ok?
    decreases |source| - s.current
  {
    if s.current < |source| {
      var s0 := s.(start := s.current);
      StepErrorIff(source, s0);
      ScanFromRecognized(source, Step(source, s0).state);
    }
  }

  /** From a fresh scanner: an empty text gives no tokens at all (there is no
      end-of-input token), every token of a successful scan is well formed,
      and an error names the unrecognised character the scan stops at (the
      text before it scans cleanly, the text through it does not) and that
      character's line. */
  lemma ScanSourceProperties(source: seq<char>)
    ensures source == [] ==> ScanSource(source) == Ok([])
    ensures ScanSource(source).Ok? ==> exists offs :: Placed(source, ScanSource(source).value, offs)
    ensures ScanSource(source).Err? ==>
              exists p: nat :: StopsAt(source, Initial(), p)
                          && ScanSource(source).error.line == 1 + Newlines(source[..p])
  {
    InitialLinesCounted(source);
    ScanFromWellFormed(source, Initial(), []);
    if ScanSource(source).Ok? {
      assert Placed(source, ScanSource(source).value, OffsetsFrom(source, Initial(), []));
    }
    ScanFromError(source, Initial());
  }

  /** A single parenthesis. */
  lemma ExampleParen()
    ensures ScanSource("(") == Ok([Token(LeftParen, "(", None, 1)])
  {
    var src := "(";
    assert src[0..1] == "(";
  }

  /** A two-character operator is one token. */
  lemma ExampleBangEqual()
    ensures ScanSource("!=") == Ok([Token(BangEqual, "!=", None, 1)])
  {
    var src := "!=";
    assert src[0..2] == "!=";
  }

  /** With start reset before each lexeme, "((" gives two one-character lexemes. */
  lemma ExampleTwoParens()
    ensures ScanSource("((") == Ok([Token(LeftParen, "(", None, 1), Token(LeftParen, "(", None, 1)])
  {
    var src := "((";
    var t := Token(LeftParen, "(", None, 1);
    assert src[0..1] == "(" && src[1..2] == "(";
    assert Step(src, Initial()).state == ScanState([t], 0, 1, 1);
    assert Step(src, ScanState([t], 1, 1, 1)).state == ScanState([t, t], 1, 2, 1);
    assert ScanFrom(src, ScanState([t, t], 1, 2, 1)) == Ok([t, t]);
  }

  /** A comment is skipped and the newline after it is counted. */
  lemma ExampleComment()
    ensures ScanSource("// c\n(") == Ok([Token(LeftParen, "(", None, 2)])
  {
    var src := "// c\n(";
    assert CommentEnd(src, 2) == 4;
    assert Step(src, Initial()).state == ScanState([], 0, 4, 1);
    assert Step(src, ScanState([], 4, 4, 1)).state == ScanState([], 4, 5, 2);
    assert src[5..6] == "(";
  }

  /** Numbers are not recognised: "12." fails on its first digit. */
  lemma ExampleNumberRejected()
    ensures ScanSource("12.") == Err(ParsingError(1, UnexpectedCharacter))
  {
  }
}
