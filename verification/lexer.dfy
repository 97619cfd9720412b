/** The tokenizer of the equation markup (analyser.py, LexicalAnalyser):
    a four-state machine over the remaining text, a push-back operation that
    puts a token's textual form back in front of the text, and the token
    stream the parser reads. */
module Lexer {

  datatype Kind =
    | Text          // run of ordinary characters, or a single `[` / `]`
    | Command       // `\name`, `\!` `\;` `\:` `\,`, or the `\ ` fallback
    | SpecialChar   // escaped `\{` `\}` `\&` `\_`
    | Enter         // `\\`
    | OpenBracket | CloseBracket | Caret | Underscore | Ampersand
    | End           // end of input

  datatype Token = Token(kind: Kind, value: string)

  /** Character classes of get_char. */
  datatype CharClass =
    | BackslashChar | OpenChar | CloseChar | CaretChar | UnderscoreChar
    | AmpersandChar | SpacingChar | AngleChar | WhitespaceChar | OtherChar

  function ClassOf(c: char): CharClass
  {
    if c == '\\' then BackslashChar
    else if c == '{' then OpenChar
    else if c == '}' then CloseChar
    else if c == '^' then CaretChar
    else if c == '_' then UnderscoreChar
    else if c == '&' then AmpersandChar
    else if c == '!' || c == ';' || c == ':' || c == ',' then SpacingChar
    else if c == '[' || c == ']' then AngleChar
    else if c == ' ' || c == '\n' then WhitespaceChar
    else OtherChar
  }

  /** is_special_char: the classes that a backslash escapes into a literal. */
  predicate IsSpecial(cl: CharClass)
  {
    cl == OpenChar || cl == CloseChar || cl == AmpersandChar || cl == UnderscoreChar
  }

  /** Characters that extend a text token. */
  predicate IsTextChar(c: char)
  {
    ClassOf(c) == OtherChar || ClassOf(c) == SpacingChar
  }

  /** `str.isalpha`, restricted to ASCII letters. */
  predicate IsLetter(c: char)
  {
    ('a' <= c <= 'z') || ('A' <= c <= 'Z')
  }

  /** Characters that extend a command name: ordinary characters that are
      letters, which is every letter (LexerLemmas.LettersAreOrdinary). */
  predicate IsNameChar(c: char)
  {
    IsLetter(c)
  }

  predicate IsBlank(c: char)
  {
    ClassOf(c) == WhitespaceChar
  }

  predicate AllText(v: string)
  {
    forall i :: 0 <= i < |v| ==> IsTextChar(v[i])
  }

  predicate AllName(v: string)
  {
    forall i :: 0 <= i < |v| ==> IsNameChar(v[i])
  }

  predicate AllBlank(v: string)
  {
    forall i :: 0 <= i < |v| ==> IsBlank(v[i])
  }

  /** `a` is what is left of `b` after dropping a prefix. */
  predicate IsSuffix<T(==)>(a: seq<T>, b: seq<T>)
  {
    |a| <= |b| && a == b[|b| - |a|..]
  }

  datatype LexState = Start | InCommand | CommandName | InText

  function Rank(state: LexState): nat
  {
    if state == Start || state == InCommand then 1 else 0
  }

  /** The loop of get_token from state `state` with the characters `tmp`
      already accumulated. Returns the token and the text left unread. */
  function Run(state: LexState, tmp: string, text: string): (r: (Token, string))
    ensures IsSuffix(r.1, text)
    ensures state == Start && text != [] ==> |r.1| < |text|
    ensures state == InText && text != [] && IsTextChar(text[0]) ==> |r.1| < |text|
    decreases |text|, Rank(state)
  {
    match state
    case Start =>
      if text == [] then (Token(End, ""), text)
      else
        var c := text[0];
        var cl := ClassOf(c);
        if cl == BackslashChar then Run(InCommand, tmp, text[1..])
        else if cl == OtherChar || cl == SpacingChar then Run(InText, tmp, text)
        else if cl == WhitespaceChar then Run(Start, tmp, text[1..])
        else if cl == AngleChar then (Token(Text, [c]), text[1..])
        else if cl == OpenChar then (Token(OpenBracket, [c]), text[1..])
        else if cl == CloseChar then (Token(CloseBracket, [c]), text[1..])
        else if cl == CaretChar then (Token(Caret, [c]), text[1..])
        else if cl == UnderscoreChar then (Token(Underscore, [c]), text[1..])
        else (Token(Ampersand, [c]), text[1..])
    case InCommand =>
      if text == [] then (Token(Command, " "), text)
      else
        var c := text[0];
        var cl := ClassOf(c);
        if IsSpecial(cl) then (Token(SpecialChar, [c]), text[1..])
        else if cl == BackslashChar then (Token(Enter, "\\"), text[1..])
        else if cl == SpacingChar then (Token(Command, [c]), text[1..])
        else if cl == OtherChar then Run(CommandName, tmp, text)
        else (Token(Command, " "), text[1..])
    case CommandName =>
      if text != [] && IsNameChar(text[0]) then Run(CommandName, tmp + [text[0]], text[1..])
      else (Token(Command, tmp), text)
    case InText =>
      if text != [] && IsTextChar(text[0]) then Run(InText, tmp + [text[0]], text[1..])
      else (Token(Text, tmp), text)
  }

  /** get_token: the next token and the text after it. On non-empty input
      at least one character is always consumed. */
  function GetToken(s: string): (r: (Token, string))
    ensures IsSuffix(r.1, s)
    ensures s != [] ==> |r.1| < |s|
  {
    Run(Start, "", s)
  }

  /** return_token: puts the token's textual form back in front of the text;
      commands, escaped characters and line breaks get their backslash back. */
  function ReturnToken(t: Token, s: string): (r: string)
    ensures IsSuffix(s, r)
    ensures |r| == |s| + |t.value| + (if t.kind == Command || t.kind == SpecialChar || t.kind == Enter then 1 else 0)
  {
    if t.kind == Command || t.kind == SpecialChar || t.kind == Enter then "\\" + t.value + s
    else t.value + s
  }

  /** The whole token stream of a markup string, ending with the End token. */
  function Tokenize(s: string): (ts: seq<Token>)
    ensures |ts| > 0 && ts[|ts| - 1].kind == End
    ensures forall i :: 0 <= i < |ts| - 1 ==> ts[i].kind != End
    decreases |s|
  {
    var (t, rest) := GetToken(s);
    if t.kind == End then [t] else [t] + Tokenize(rest)
  }
}
