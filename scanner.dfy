/** The Lox scanner: a cursor over the source text that reads one lexeme per
    call of ScanToken and appends the tokens it recognises to a list.

    The pure part (ScanState, Step and its helpers) says what one call of
    ScanToken does to the scanner's fields; the class Scanner holds those
    fields and its methods are proved against it. */
module Scanning {
  import opened Tokens
  import opened Errors

  /** Every character is below 128, so that byte offsets and character
      offsets into the text agree. */
  ghost predicate IsAscii(source: seq<char>) {
    forall i :: 0 <= i < |source| ==> source[i] as int < 128
  }

  /** The scanner's mutable fields, as a value. */
  datatype ScanState = ScanState(tokens: seq<Token>, start: nat, current: nat, line: nat)

  /** What one ScanToken call leaves behind: the new fields and its result. */
  datatype Stepped = Stepped(state: ScanState, outcome: Result<()>)

  /** The state of a freshly built scanner. */
  function Initial(): ScanState {
    ScanState([], 0, 0, 1)
  }

  /** The number of newline characters in s. */
  function Newlines(s: seq<char>): nat {
    if s == [] then 0
    else Newlines(s[..|s| - 1]) + (if s[|s| - 1] == '\n' then 1 else 0)
  }

  /** The cursor position where a line comment whose body starts at i stops:
      the first newline at or after i, or the end of the text. */
  function CommentEnd(source: seq<char>, i: nat): (r: nat)
    requires i <= |source|
    ensures i <= r <= |source|
    ensures r == |source| || source[r] == '\n'
    ensures forall k :: i <= k < r ==> source[k] != '\n'
    decreases |source| - i
  {
    if i == |source| || source[i] == '\n' then i else CommentEnd(source, i + 1)
  }

  /** The state after appending one token of kind k whose lexeme is the text
      from start up to the cursor. */
  function WithToken(source: seq<char>, s: ScanState, k: TokenType): ScanState
    requires s.start <= s.current <= |source|
  {
    s.(tokens := s.tokens + [Token(k, source[s.start..s.current], None, s.line)])
  }

  /** One of the operators `! = < >`, just consumed: the two-character kind
      when an `=` follows (and is consumed), the one-character kind otherwise. */
  function OneOrTwo(source: seq<char>, s: ScanState, two: TokenType, one: TokenType): ScanState
    requires s.start <= s.current <= |source|
  {
    if s.current < |source| && source[s.current] == '=' then
      WithToken(source, s.(current := s.current + 1), two)
    else
      WithToken(source, s, one)
  }

  /** What one ScanToken call does, read off src/lox/scanner.rs: it consumes
      the character under the cursor and branches on it. */
  function Step(source: seq<char>, s: ScanState): (r: Stepped)
    requires s.start <= s.current < |source|
    ensures s.current < r.state.current <= |source|
    ensures r.state.start == s.start
    ensures r.state.line == s.line + (if source[s.current] == '\n' then 1 else 0)
    ensures forall k :: s.current < k < r.state.current ==> source[k] != '\n'
    ensures |s.tokens| <= |r.state.tokens| <= |s.tokens| + 1
    ensures r.state.tokens[..|s.tokens|] == s.tokens
    ensures |r.state.tokens| == |s.tokens| + 1 ==>
              var t := r.state.tokens[|s.tokens|];
              t.lexeme == source[s.start..r.state.current] && t.line == s.line && t.literal == None
    ensures r.outcome.Err? ==>
              r.outcome.error == ParsingError(s.line, UnexpectedCharacter)
              && r.state == s.(current := s.current + 1)
  {
    var s1 := s.(current := s.current + 1);
    match source[s.current]
    case '(' => Stepped(WithToken(source, s1, LeftParen), Ok(()))
    case ')' => Stepped(WithToken(source, s1, RightParen), Ok(()))
    case '{' => Stepped(WithToken(source, s1, LeftBrace), Ok(()))
    case '}' => Stepped(WithToken(source, s1, RightBrace), Ok(()))
    case ',' => Stepped(WithToken(source, s1, Comma), Ok(()))
    case '.' => Stepped(WithToken(source, s1, Dot), Ok(()))
    case '-' => Stepped(WithToken(source, s1, Minus), Ok(()))
    case '+' => Stepped(WithToken(source, s1, Plus), Ok(()))
    case ';' => Stepped(WithToken(source, s1, Semicolon), Ok(()))
    case '*' => Stepped(WithToken(source, s1, Star), Ok(()))
    case '!' => Stepped(OneOrTwo(source, s1, BangEqual, Bang), Ok(()))
    case '=' => Stepped(OneOrTwo(source, s1, EqualEqual, Equal), Ok(()))
    case '<' => Stepped(OneOrTwo(source, s1, LessEqual, Less), Ok(()))
    case '>' => Stepped(OneOrTwo(source, s1, GreaterEqual, Greater), Ok(()))
    case '/' =>
      if s1.current < |source| && source[s1.current] == '/' then
        Stepped(s1.(current := CommentEnd(source, s1.current + 1)), Ok(()))
      else
        Stepped(WithToken(source, s1, Slash), Ok(()))
    case ' ' => Stepped(s1, Ok(()))
    case '\r' => Stepped(s1, Ok(()))
    case '\t' => Stepped(s1, Ok(()))
    case '\n' => Stepped(s1.(line := s1.line + 1), Ok(()))
    case _ => Stepped(s1, Err(ParsingError(s.line, UnexpectedCharacter)))
  }

  class Scanner {
    const source: seq<char>
    var tokens: seq<Token>
    var start: nat
    var current: nat
    var line: nat

    /** The cursor stays inside the text and the lexeme start never passes it. */
    ghost predicate Valid()
      reads this
    {
      IsAscii(source) && start <= current <= |source|
    }

    /** The mutable fields as a value. */
    ghost function State(): ScanState
      reads this
    {
      ScanState(tokens, start, current, line)
    }

    /** `Scanner::new`: both cursors at 0, line 1, no tokens yet. */
    constructor (text: seq<char>)
      requires IsAscii(text)
      ensures Valid()
      ensures source == text
      ensures State() == Initial()
    {
      source := text;
      tokens := [];
      start := 0;
      current := 0;
      line := 1;
    }

    /** `scan_tokens`: hands back the token list as it stands; it scans nothing. */
    method ScanTokens() returns (r: Result<seq<Token>>)
      ensures r == Ok(tokens)
    {
      r := Ok(tokens);
    }

    predicate IsAtEnd()
      reads this
      requires Valid()
      ensures IsAtEnd() <==> current == |source|
    {
      current >= |source|
    }

    /** The character under the cursor, or NUL at the end; changes nothing. */
    function Peek(): (c: char)
      reads this
      requires Valid()
      ensures current == |source| ==> c == '\0'
      ensures current < |source| ==> c == source[current]
    {
      if IsAtEnd() then '\0' else source[current]
    }

    /** Consumes the character under the cursor when it is `expected`. */
    method MatchNext(expected: char) returns (matched: bool)
      requires Valid()
      modifies this`current
      ensures Valid()
      ensures matched <==> old(current) < |source| && source[old(current)] == expected
      ensures current == if matched then old(current) + 1 else old(current)
    {
      if IsAtEnd() {
        return false;
      }
      if source[current] != expected {
        return false;
      }
      current := current + 1;
      matched := true;
    }

    /** Consumes and returns the character under the cursor. */
    method Advance() returns (c: char)
      requires Valid() && current < |source|
      modifies this`current
      ensures Valid()
      ensures c == source[old(current)]
      ensures current == old(current) + 1
    {
      c := source[current];
      current := current + 1;
    }

    /** Appends a token whose lexeme is the text from start to the cursor. */
    method AddToken(k: TokenType, literal: Literal)
      requires Valid()
      modifies this`tokens
      ensures Valid()
      ensures tokens == old(tokens) + [Token(k, source[start..current], literal, line)]
    {
      tokens := tokens + [Token(k, source[start..current], literal, line)];
    }

    /** The body of the `! = < >` arms: the two-character kind when an `=`
        follows, consuming it, and the one-character kind otherwise. */
    method AddOneOrTwo(two: TokenType, one: TokenType)
      requires Valid()
      modifies this`current, this`tokens
      ensures Valid()
      ensures State() == OneOrTwo(source, old(State()), two, one)
    {
      ghost var s0 := State();
      var m := MatchNext('=');
      if m {
        assert State() == s0.(current := s0.current + 1);
        AddToken(two, None);
      } else {
        assert State() == s0;
        AddToken(one, None);
      }
    }

    /** The body of the `/` arm: a line comment when a second `/` follows,
        skipped up to the next newline, and a SLASH token otherwise. */
    method SlashOrComment()
      requires Valid()
      modifies this`current, this`tokens
      ensures Valid()
      ensures State() == if old(current) < |source| && source[old(current)] == '/'
                         then old(State()).(current := CommentEnd(source, old(current) + 1))
                         else WithToken(source, old(State()), Slash)
    {
      var m := MatchNext('/');
      if m {
        ghost var body := current;
        while Peek() != '\n' && !IsAtEnd()
          invariant Valid() && body <= current
          invariant CommentEnd(source, current) == CommentEnd(source, body)
          invariant tokens == old(tokens)
          decreases |source| - current
        {
          var skipped := Advance();
        }
      } else {
        AddToken(Slash, None);
      }
    }

    /** `scan_token`: consumes one lexeme. */
    method ScanToken() returns (r: Result<()>)
      requires Valid() && current < |source|
      modifies this
      ensures Valid()
      ensures Stepped(State(), r) == Step(source, old(State()))
    {
      ghost var s0 := State();
      var c := Advance();
      r := Ok(());
      match c
      case '(' => AddToken(LeftParen, None);
      case ')' => AddToken(RightParen, None);
      case '{' => AddToken(LeftBrace, None);
      case '}' => AddToken(RightBrace, None);
      case ',' => AddToken(Comma, None);
      case '.' => AddToken(Dot, None);
      case '-' => AddToken(Minus, None);
      case '+' => AddToken(Plus, None);
      case ';' => AddToken(Semicolon, None);
      case '*' => AddToken(Star, None);
      case '!' => AddOneOrTwo(BangEqual, Bang);
      case '=' => AddOneOrTwo(EqualEqual, Equal);
      case '<' => AddOneOrTwo(LessEqual, Less);
      case '>' => AddOneOrTwo(GreaterEqual, Greater);
      case '/' => SlashOrComment();
      case ' ' =>
      case '\r' =>
      case '\t' =>
      case '\n' => line := line + 1;
      case _ =>
        r := Err(ParsingError(line, UnexpectedCharacter));
    }
  }
}
