/** Properties of one ScanToken call, stated about Step (and so about every
    Scanner whose ScanToken is proved against it), each against a reference
    table of the characters the scanner recognises. */
module ScannerProperties {
  import opened Tokens
  import opened Errors
  import opened Scanning

  /** The single-character punctuation and the kind each one yields. */
  const Punctuation: map<char, TokenType> :=
    map['(' := LeftParen, ')' := RightParen, '{' := LeftBrace, '}' := RightBrace,
        ',' := Comma, '.' := Dot, '-' := Minus, '+' := Plus, ';' := Semicolon, '*' := Star]

  /** The operators that may be followed by `=`, with their one- and
      two-character kinds. */
  const Operators: map<char, (TokenType, TokenType)> :=
    map['!' := (Bang, BangEqual), '=' := (Equal, EqualEqual),
        '<' := (Less, LessEqual), '>' := (Greater, GreaterEqual)]

  /** Blanks that are skipped without touching the line counter. */
  const Blanks: set<char> := {' ', '\r', '\t'}

  /** The characters that may begin a lexeme. */
  predicate Recognized(c: char) {
    c in Punctuation || c in Operators || c == '/' || c in Blanks || c == '\n'
  }

  /** The line counter equals one plus the newlines before the cursor. */
  ghost predicate LinesCounted(source: seq<char>, s: ScanState) {
    s.current <= |source| && s.line == 1 + Newlines(source[..s.current])
  }

  /** Each punctuation character yields the kind spelled by that character. */
  lemma PunctuationSpelled(c: char)
    requires c in Punctuation
    ensures Spelling(Punctuation[c]) == [c]
  {
    if c == '(' {} else if c == ')' {} else if c == '{' {} else if c == '}' {}
    else if c == ',' {} else if c == '.' {} else if c == '-' {} else if c == '+' {}
    else if c == ';' {} else { assert c == '*'; }
  }

  /** Each operator's one-character kind is spelled by the operator alone and
      its two-character kind by the operator followed by `=`. */
  lemma OperatorSpelled(c: char)
    requires c in Operators
    ensures Spelling(Operators[c].0) == [c] && Spelling(Operators[c].1) == [c, '=']
  {
    if c == '!' {} else if c == '=' {} else if c == '<' {} else { assert c == '>'; }
  }

  /** Single-character punctuation appends exactly its token and consumes one character. */
  lemma StepPunctuation(source: seq<char>, s: ScanState)
    requires s.start <= s.current < |source| && source[s.current] in Punctuation
    ensures Step(source, s) ==
              Stepped(s.(current := s.current + 1,
                         tokens := s.tokens + [Token(Punctuation[source[s.current]],
                                                     source[s.start..s.current + 1], None, s.line)]),
                      Ok(()))
  {
  }

  /** `! = < >` append exactly one token: the two-character kind, with the
      `=` consumed, exactly when the next character is `=`. */
  lemma StepOperator(source: seq<char>, s: ScanState)
    requires s.start <= s.current < |source| && source[s.current] in Operators
    ensures var r := Step(source, s);
            var kinds := Operators[source[s.current]];
            var eq := s.current + 1 < |source| && source[s.current + 1] == '=';
            && r.outcome == Ok(())
            && r.state.tokens == s.tokens + [Token(if eq then kinds.1 else kinds.0,
                                                   source[s.start..r.state.current], None, s.line)]
            && r.state.line == s.line
            && (r.state.tokens[|s.tokens|].tokType == kinds.1 <==> eq)
            && (r.state.tokens[|s.tokens|].tokType == kinds.0 <==> !eq)
            && r.state.current == (if eq then s.current + 2 else s.current + 1)
  {
  }

  /** `//` starts a comment: the cursor stops at the first newline after it,
      or at the end, without consuming the newline and without adding a token. */
  lemma StepComment(source: seq<char>, s: ScanState)
    requires s.start <= s.current && s.current + 1 < |source|
    requires source[s.current] == '/' && source[s.current + 1] == '/'
    ensures var r := Step(source, s);
            && r.outcome == Ok(())
            && r.state.tokens == s.tokens && r.state.line == s.line
            && s.current + 2 <= r.state.current <= |source|
            && (r.state.current == |source| || source[r.state.current] == '\n')
            && (forall k :: s.current + 2 <= k < r.state.current ==> source[k] != '\n')
  {
  }

  /** A `/` not followed by another `/` appends SLASH. */
  lemma StepSlash(source: seq<char>, s: ScanState)
    requires s.start <= s.current < |source| && source[s.current] == '/'
    requires !(s.current + 1 < |source| && source[s.current + 1] == '/')
    ensures Step(source, s) ==
              Stepped(s.(current := s.current + 1,
                         tokens := s.tokens + [Token(Slash, source[s.start..s.current + 1], None, s.line)]),
                      Ok(()))
  {
  }

  /** Blanks are consumed and nothing else changes. */
  lemma StepBlank(source: seq<char>, s: ScanState)
    requires s.start <= s.current < |source| && source[s.current] in Blanks
    ensures Step(source, s) == Stepped(s.(current := s.current + 1), Ok(()))
  {
  }

  /** A newline is consumed and advances the line counter by exactly one. */
  lemma StepNewline(source: seq<char>, s: ScanState)
    requires s.start <= s.current < |source| && source[s.current] == '\n'
    ensures Step(source, s) == Stepped(s.(current := s.current + 1, line := s.line + 1), Ok(()))
  {
  }

  /** ScanToken fails exactly on the characters that begin no lexeme, and then
      reports the current line and leaves the tokens alone. */
  lemma StepErrorIff(source: seq<char>, s: ScanState)
    requires s.start <= s.current < |source|
    ensures var r := Step(source, s);
            && (r.outcome.Err? <==> !Recognized(source[s.current]))
            && (r.outcome.Err? ==>
                  r.outcome.error == ParsingError(s.line, UnexpectedCharacter)
                  && r.state.tokens == s.tokens && r.state.line == s.line)
  {
  }

  /** Digits, letters, underscores and quotes begin no lexeme in this scanner. */
  lemma StepRejectsLiterals(source: seq<char>, s: ScanState)
    requires s.start <= s.current < |source|
    requires var c := source[s.current];
             '0' <= c <= '9' || 'a' <= c <= 'z' || 'A' <= c <= 'Z' || c == '_' || c == '"'
    ensures Step(source, s).outcome == Err(ParsingError(s.line, UnexpectedCharacter))
  {
    StepErrorIff(source, s);
  }

  /** Extending a prefix by one character adds one newline exactly when that character is one. */
  lemma NewlinesSnoc(source: seq<char>, i: nat)
    requires i < |source|
    ensures Newlines(source[..i + 1]) == Newlines(source[..i]) + (if source[i] == '\n' then 1 else 0)
  {
    assert source[..i + 1][..i] == source[..i];
  }

  /** A stretch without newlines leaves the newline count unchanged. */
  lemma {:induction false} NewlinesSkip(source: seq<char>, i: nat, j: nat)
    requires i <= j <= |source|
    requires forall k :: i <= k < j ==> source[k] != '\n'
    ensures Newlines(source[..j]) == Newlines(source[..i])
    decreases j - i
  {
    if i < j {
      NewlinesSkip(source, i, j - 1);
      NewlinesSnoc(source, j - 1);
    }
  }

  /** A newline count never exceeds the length of the text. */
  lemma {:induction false} NewlinesBound(s: seq<char>)
    ensures Newlines(s) <= |s|
  {
    if s != [] {
      NewlinesBound(s[..|s| - 1]);
    }
  }

  /** The line counter is at most the cursor plus one. A Rust String holds
      at most isize::MAX bytes, so the cursor stays below 2^63 and the line
      counter at most 2^63, both inside an unsigned 64-bit field. */
  lemma LineBound(source: seq<char>, s: ScanState)
    requires LinesCounted(source, s)
    ensures s.line <= s.current + 1
  {
    NewlinesBound(source[..s.current]);
  }

  /** ScanToken keeps the line counter equal to one plus the newlines consumed. */
  lemma StepKeepsLineCount(source: seq<char>, s: ScanState)
    requires s.start <= s.current < |source| && LinesCounted(source, s)
    ensures LinesCounted(source, Step(source, s).state)
  {
    var r := Step(source, s);
    NewlinesSnoc(source, s.current);
    NewlinesSkip(source, s.current + 1, r.state.current);
  }

  /** A fresh scanner's line counter is in step with its cursor. */
  lemma InitialLinesCounted(source: seq<char>)
    ensures LinesCounted(source, Initial())
  {
    assert source[..0] == [];
  }

  /** Nothing resets start, so a second ScanToken call on "((" gives a token
      whose lexeme spans both parentheses. */
  lemma StartNeverReset()
    ensures Step("((", Initial()).state == ScanState([Token(LeftParen, "(", None, 1)], 0, 1, 1)
    ensures Step("((", ScanState([Token(LeftParen, "(", None, 1)], 0, 1, 1)).state.tokens
              == [Token(LeftParen, "(", None, 1), Token(LeftParen, "((", None, 1)]
    ensures Spelling(LeftParen) != "(("
  {
    var src := "((";
    assert src[0..1] == "(";
    assert src[0..2] == "((";
  }
}
