/** Lexical tokens of the Lox scanner: the token kinds, the literal values a
    token may carry, and the token record itself. */
module Tokens {

  /** The closed set of token kinds, in the order the source declares them.
      There is no end-of-input kind. */
  datatype TokenType =
    // single-character punctuation
    | LeftParen | RightParen | LeftBrace | RightBrace
    | Comma | Dot | Minus | Plus | Semicolon | Slash | Star
    // one- or two-character operators
    | Bang | BangEqual | Equal | EqualEqual
    | Greater | GreaterEqual | Less | LessEqual
    // literals
    | Identifier | String | Number
    // reserved words
    | And | Class | Else | False | Fun | For | If | Nil | Or
    | Print | Return | Super | This | True | Var | While

  /** A signed 64-bit integer. */
  newtype I64 = x: int | -0x8000_0000_0000_0000 <= x < 0x8000_0000_0000_0000

  /** The decoded value a token may carry. */
  datatype Literal = None | Str(text: string) | Int(value: I64)

  /** A classified lexeme together with the line it was read on. */
  datatype Token = Token(tokType: TokenType, lexeme: string, literal: Literal, line: nat)

  /** The fixed text of each kind that has one; the empty string for the
      kinds whose text varies (identifiers, strings and numbers). */
  function Spelling(k: TokenType): string {
    match k
    case LeftParen => "("
    case RightParen => ")"
    case LeftBrace => "{"
    case RightBrace => "}"
    case Comma => ","
    case Dot => "."
    case Minus => "-"
    case Plus => "+"
    case Semicolon => ";"
    case Slash => "/"
    case Star => "*"
    case Bang => "!"
    case BangEqual => "!="
    case Equal => "="
    case EqualEqual => "=="
    case Greater => ">"
    case GreaterEqual => ">="
    case Less => "<"
    case LessEqual => "<="
    case Identifier => ""
    case String => ""
    case Number => ""
    case And => "and"
    case Class => "class"
    case Else => "else"
    case False => "false"
    case Fun => "fun"
    case For => "for"
    case If => "if"
    case Nil => "nil"
    case Or => "or"
    case Print => "print"
    case Return => "return"
    case Super => "super"
    case This => "this"
    case True => "true"
    case Var => "var"
    case While => "while"
  }
}
