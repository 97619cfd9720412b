/** Laws of the tokenizer: what each kind of token looks like, that pushing
    a token back and reading again gives the same token and the same rest,
    and what a backslash turns the next character into. */
module LexerLemmas {
  import opened Lexer

  /** The shape of every (token, rest) pair the tokenizer can produce:
      text tokens are maximal runs (or a lone `[`/`]`), command names are
      maximal runs of letters, and single-character tokens carry their
      character. */
  predicate Pushable(t: Token, rest: string)
  {
    match t.kind
    case End => t.value == [] && rest == []
    case Text =>
      (|t.value| == 1 && ClassOf(t.value[0]) == AngleChar)
      || (t.value != [] && AllText(t.value) && (rest == [] || !IsTextChar(rest[0])))
    case Command => CommandShape(t.value, rest)
    case SpecialChar => |t.value| == 1 && IsSpecial(ClassOf(t.value[0]))
    case Enter => t.value == "\\"
    case OpenBracket => t.value == "{"
    case CloseBracket => t.value == "}"
    case Caret => t.value == "^"
    case Underscore => t.value == "_"
    case Ampersand => t.value == "&"
  }

  /** A command value: a spacing mark, the `\ ` fallback, or a maximal run of
      letters (empty only when a non-letter ordinary character follows). */
  predicate CommandShape(v: string, rest: string)
  {
    (|v| == 1 && ClassOf(v[0]) == SpacingChar)
    || v == " "
    || (AllName(v) && (rest == [] || !IsNameChar(rest[0]))
        && (v == [] ==> rest != [] && ClassOf(rest[0]) == OtherChar))
  }

  /** One step of the text state. */
  lemma TextStep(tmp: string, text: string)
    requires text != [] && IsTextChar(text[0])
    ensures Run(InText, tmp, text) == Run(InText, tmp + [text[0]], text[1..])
  {
  }

  lemma AllTextSnoc(v: string, c: char)
    requires AllText(v) && IsTextChar(c)
    ensures AllText(v + [c])
  {
    forall i | 0 <= i < |v + [c]| ensures IsTextChar((v + [c])[i]) {
      if i < |v| { assert (v + [c])[i] == v[i]; }
    }
  }

  /** What the text state returns from `tmp` and `text`: a text token
      whose value extends `tmp`, the two put together giving back `tmp` and
      `text`, made of text characters and stopped by a non-text character. */
  predicate TextResult(tmp: string, text: string, r: (Token, string))
  {
    && r.0.kind == Text
    && r.0.value + r.1 == tmp + text
    && AllText(r.0.value)
    && |r.0.value| >= |tmp|
    && (text != [] && IsTextChar(text[0]) ==> |r.0.value| > |tmp|)
    && (r.1 == [] || !IsTextChar(r.1[0]))
  }

  /** The text state reads the longest run of text characters. */
  lemma {:induction false} TextRun(tmp: string, text: string)
    requires AllText(tmp)
    ensures TextResult(tmp, text, Run(InText, tmp, text))
    decreases |text|
  {
    if text != [] && IsTextChar(text[0]) {
      var tmp' := tmp + [text[0]];
      AllTextSnoc(tmp, text[0]);
      TextStep(tmp, text);
      TextRun(tmp', text[1..]);
      TextResultStep(tmp, text, Run(InText, tmp', text[1..]));
    } else {
      assert Run(InText, tmp, text) == (Token(Text, tmp), text);
    }
  }

  lemma TextResultStep(tmp: string, text: string, r: (Token, string))
    requires text != [] && IsTextChar(text[0])
    requires TextResult(tmp + [text[0]], text[1..], r)
    ensures TextResult(tmp, text, r)
  {
    assert text == [text[0]] + text[1..];
    assert (tmp + [text[0]]) + text[1..] == tmp + text;
  }

  /** Reading a maximal run of text characters gives exactly that run. */
  lemma {:induction false} TextRunInverse(tmp: string, v: string, rest: string)
    requires AllText(v)
    requires rest == [] || !IsTextChar(rest[0])
    ensures Run(InText, tmp, v + rest) == (Token(Text, tmp + v), rest)
    decreases |v|
  {
    if v == [] {
      assert v + rest == rest;
      assert tmp + v == tmp;
    } else {
      assert (v + rest)[0] == v[0];
      assert (v + rest)[1..] == v[1..] + rest;
      TextRunInverse(tmp + [v[0]], v[1..], rest);
      assert tmp + [v[0]] + v[1..] == tmp + v;
    }
  }

  /** Every letter is an ordinary character, so the command-name test of the
      source (an ordinary character that is a letter) is the letter test. */
  lemma LettersAreOrdinary(c: char)
    requires IsLetter(c)
    ensures ClassOf(c) == OtherChar
  {
  }

  /** One step of the command-name state. */
  lemma NameStep(tmp: string, text: string)
    requires text != [] && IsNameChar(text[0])
    ensures Run(CommandName, tmp, text) == Run(CommandName, tmp + [text[0]], text[1..])
  {
  }

  /** After a backslash a letter starts a command name. */
  lemma LetterStartsName(text: string)
    requires text != [] && IsLetter(text[0])
    ensures Run(InCommand, "", text) == Run(CommandName, "", text)
  {
    var cl := ClassOf(text[0]);
    LettersAreOrdinary(text[0]);
    assert !IsSpecial(cl) && cl != BackslashChar && cl != SpacingChar && cl == OtherChar;
  }

  /** The command-name state reads the longest run of letters. */
  lemma {:induction false} NameRun(tmp: string, text: string)
    requires AllName(tmp)
    ensures var r := Run(CommandName, tmp, text);
      var n := |text| - |r.1|;
      && r.0.kind == Command
      && r.0.value == tmp + text[..n]
      && AllName(r.0.value)
      && (r.1 == [] || !IsNameChar(r.1[0]))
    decreases |text|
  {
    if text != [] && IsNameChar(text[0]) {
      var tmp' := tmp + [text[0]];
      assert AllName(tmp') by {
        forall i | 0 <= i < |tmp'| ensures IsNameChar(tmp'[i]) {
          if i < |tmp| { assert tmp'[i] == tmp[i]; }
        }
      }
      NameStep(tmp, text);
      NameRun(tmp', text[1..]);
      var r := Run(CommandName, tmp', text[1..]);
      var n := |text| - |r.1|;
      assert text[..n] == [text[0]] + text[1..][..n - 1];
    }
  }

  /** Reading a maximal run of letters gives exactly that name. */
  lemma {:induction false} NameRunInverse(tmp: string, v: string, rest: string)
    requires AllName(v)
    requires rest == [] || !IsNameChar(rest[0])
    ensures Run(CommandName, tmp, v + rest) == (Token(Command, tmp + v), rest)
    decreases |v|
  {
    if v == [] {
      assert v + rest == rest;
      assert tmp + v == tmp;
    } else {
      assert (v + rest)[0] == v[0];
      assert (v + rest)[1..] == v[1..] + rest;
      NameRunInverse(tmp + [v[0]], v[1..], rest);
      assert tmp + [v[0]] + v[1..] == tmp + v;
    }
  }

  /** After a backslash the token is always well shaped. */
  lemma CommandPushable(text: string)
    ensures Pushable(Run(InCommand, "", text).0, Run(InCommand, "", text).1)
  {
    if text != [] && ClassOf(text[0]) == OtherChar {
      NameAfterBackslashPushable(text);
    } else {
      MarkAfterBackslashPushable(text);
    }
  }

  /** A backslash followed by an ordinary character: a command name, empty
      when that character is not a letter. */
  lemma NameAfterBackslashPushable(text: string)
    requires text != [] && ClassOf(text[0]) == OtherChar
    ensures Pushable(Run(InCommand, "", text).0, Run(InCommand, "", text).1)
  {
    if IsNameChar(text[0]) {
      LetterAfterBackslashPushable(text);
    } else {
      EmptyNamePushable(text);
    }
  }

  lemma LetterAfterBackslashPushable(text: string)
    requires text != [] && IsNameChar(text[0])
    ensures Pushable(Run(InCommand, "", text).0, Run(InCommand, "", text).1)
  {
    var c := text[0];
    LetterStartsName(text);
    NameStep("", text);
    assert "" + [c] == [c];
    NameRun([c], text[1..]);
    NamePushable(Run(CommandName, [c], text[1..]));
  }

  lemma EmptyNamePushable(text: string)
    requires text != [] && ClassOf(text[0]) == OtherChar && !IsNameChar(text[0])
    ensures Pushable(Run(InCommand, "", text).0, Run(InCommand, "", text).1)
  {
    assert Run(InCommand, "", text) == (Token(Command, ""), text);
    assert AllName("");
  }

  /** A backslash followed by anything else reads at most one character. */
  lemma MarkAfterBackslashPushable(text: string)
    requires text == [] || ClassOf(text[0]) != OtherChar
    ensures Pushable(Run(InCommand, "", text).0, Run(InCommand, "", text).1)
  {
  }

  lemma NamePushable(r: (Token, string))
    requires r.0.kind == Command && r.0.value != [] && AllName(r.0.value)
    requires r.1 == [] || !IsNameChar(r.1[0])
    ensures Pushable(r.0, r.1)
  {
  }

  /** Every token get_token returns, with the text it leaves, is well shaped. */
  lemma {:induction false} StartPushable(text: string)
    ensures Pushable(Run(Start, "", text).0, Run(Start, "", text).1)
    decreases |text|
  {
    if text != [] {
      var cl := ClassOf(text[0]);
      if cl == BackslashChar {
        CommandPushable(text[1..]);
      } else if cl == OtherChar || cl == SpacingChar {
        TextRun("", text);
        var r := Run(InText, "", text);
        assert |r.1| < |text|;
      } else if cl == WhitespaceChar {
        StartPushable(text[1..]);
      }
    }
  }

  lemma GetTokenPushable(s: string)
    ensures Pushable(GetToken(s).0, GetToken(s).1)
  {
    StartPushable(s);
  }

  /** Round trip of a text token. */
  lemma TextRoundTrip(t: Token, rest: string)
    requires t.kind == Text && Pushable(t, rest)
    ensures GetToken(ReturnToken(t, rest)) == (t, rest)
  {
    var s := ReturnToken(t, rest);
    if |t.value| == 1 && ClassOf(t.value[0]) == AngleChar {
      assert s == [t.value[0]] + rest;
      assert t.value == [t.value[0]];
      assert s[1..] == rest;
    } else {
      assert s == t.value + rest;
      assert s[0] == t.value[0];
      TextRunInverse("", t.value, rest);
      assert "" + t.value == t.value;
    }
  }

  /** The command state reads a command's value back. */
  lemma CommandReadBack(v: string, rest: string)
    requires CommandShape(v, rest)
    ensures Run(InCommand, "", v + rest) == (Token(Command, v), rest)
  {
    if |v| == 1 && ClassOf(v[0]) == SpacingChar {
      SpacingReadBack(v, rest);
    } else if v == " " {
      BlankReadBack(rest);
    } else if v == [] {
      assert v + rest == rest;
      EmptyNameReadBack(rest);
    } else {
      NameReadBack(Token(Command, v), rest);
    }
  }

  lemma SpacingReadBack(v: string, rest: string)
    requires |v| == 1 && ClassOf(v[0]) == SpacingChar
    ensures Run(InCommand, "", v + rest) == (Token(Command, v), rest)
  {
    var u := v + rest;
    assert u[0] == v[0] && u[1..] == rest;
    assert v == [u[0]];
  }

  lemma BlankReadBack(rest: string)
    ensures Run(InCommand, "", " " + rest) == (Token(Command, " "), rest)
  {
    var u := " " + rest;
    assert u[0] == ' ' && u[1..] == rest;
    BlankMark(u);
  }

  /** A blank after a backslash is the `\ ` fallback command. */
  lemma BlankMark(u: string)
    requires u != [] && u[0] == ' '
    ensures Run(InCommand, "", u) == (Token(Command, " "), u[1..])
  {
    assert ClassOf(u[0]) == WhitespaceChar;
  }

  lemma EmptyNameReadBack(rest: string)
    requires rest != [] && ClassOf(rest[0]) == OtherChar && !IsNameChar(rest[0])
    ensures Run(InCommand, "", rest) == (Token(Command, ""), rest)
  {
    assert Run(CommandName, "", rest) == (Token(Command, ""), rest);
    assert Run(InCommand, "", rest) == Run(CommandName, "", rest);
  }

  lemma NameReadBack(t: Token, rest: string)
    requires t.kind == Command && t.value != [] && AllName(t.value)
    requires rest == [] || !IsNameChar(rest[0])
    ensures Run(InCommand, "", t.value + rest) == (t, rest)
  {
    var u := t.value + rest;
    assert u[0] == t.value[0];
    LetterStartsName(u);
    NameRunInverse("", t.value, rest);
    assert "" + t.value == t.value;
  }

  /** Round trip of a command token. */
  lemma CommandRoundTrip(t: Token, rest: string)
    requires t.kind == Command && Pushable(t, rest)
    ensures GetToken(ReturnToken(t, rest)) == (t, rest)
  {
    assert ReturnToken(t, rest) == "\\" + (t.value + rest);
    BackslashUnfold(t.value + rest);
    CommandReadBack(t.value, rest);
  }

  /** Round trip of an escaped character or a line break. */
  lemma EscapeRoundTrip(t: Token, rest: string)
    requires (t.kind == SpecialChar || t.kind == Enter) && Pushable(t, rest)
    ensures GetToken(ReturnToken(t, rest)) == (t, rest)
  {
    var s := ReturnToken(t, rest);
    var u := t.value + rest;
    assert s == "\\" + u;
    BackslashUnfold(u);
    assert t.value == [t.value[0]];
    assert u[0] == t.value[0];
    assert u[1..] == rest;
  }

  /** Round trip of a one-character structural token. */
  lemma MarkRoundTrip(t: Token, rest: string)
    requires t.kind == OpenBracket || t.kind == CloseBracket || t.kind == Caret
      || t.kind == Underscore || t.kind == Ampersand
    requires Pushable(t, rest)
    ensures GetToken(ReturnToken(t, rest)) == (t, rest)
  {
    var s := ReturnToken(t, rest);
    assert s == t.value + rest;
    match t.kind
    case OpenBracket => MarkRead('{', rest);
    case CloseBracket => MarkRead('}', rest);
    case Caret => MarkRead('^', rest);
    case Underscore => MarkRead('_', rest);
    case Ampersand => MarkRead('&', rest);
  }

  /** Start state on a structural character: a one-character token. */
  lemma MarkRead(c: char, rest: string)
    requires c == '{' || c == '}' || c == '^' || c == '_' || c == '&'
    ensures GetToken([c] + rest).1 == rest
    ensures GetToken([c] + rest).0.value == [c]
    ensures GetToken([c] + rest).0.kind
      == (if c == '{' then OpenBracket else if c == '}' then CloseBracket
          else if c == '^' then Caret else if c == '_' then Underscore else Ampersand)
  {
    var s := [c] + rest;
    assert s[0] == c && s[1..] == rest;
  }

  /** Push-back is loss-less: for every token the tokenizer can produce,
      returning it to the text and reading again yields the same token and
      the same rest. */
  lemma ReturnTokenRoundTrip(t: Token, rest: string)
    requires Pushable(t, rest)
    ensures GetToken(ReturnToken(t, rest)) == (t, rest)
  {
    match t.kind
    case End =>
      assert ReturnToken(t, rest) == [];
    case Text => TextRoundTrip(t, rest);
    case Command => CommandRoundTrip(t, rest);
    case SpecialChar => EscapeRoundTrip(t, rest);
    case Enter => EscapeRoundTrip(t, rest);
    case _ => MarkRoundTrip(t, rest);
  }

  /** get_token, return_token, get_token yields the first token and rest again,
      for every input. */
  lemma GetTokenRoundTrip(s: string)
    ensures GetToken(ReturnToken(GetToken(s).0, GetToken(s).1)) == GetToken(s)
  {
    GetTokenPushable(s);
    ReturnTokenRoundTrip(GetToken(s).0, GetToken(s).1);
  }

  /** Pushing the first token back does not change the token stream, so the
      parser's one-token look-ahead is a peek at a fixed sequence. */
  lemma PushBackTransparent(s: string)
    ensures Tokenize(ReturnToken(GetToken(s).0, GetToken(s).1)) == Tokenize(s)
  {
    GetTokenRoundTrip(s);
  }

  /** get_token returns End exactly when only blanks (spaces and line feeds)
      remain, and then it leaves nothing unread; the value of End is empty. */
  lemma {:induction false} EndIffBlank(s: string)
    ensures GetToken(s).0.kind == End <==> AllBlank(s)
    ensures GetToken(s).0.kind == End ==> GetToken(s) == (Token(End, ""), "")
    decreases |s|
  {
    GetTokenPushable(s);
    if s != [] {
      if IsBlank(s[0]) {
        EndIffBlank(s[1..]);
        assert AllBlank(s) <==> AllBlank(s[1..]) by {
          if AllBlank(s[1..]) {
            forall i | 0 <= i < |s| ensures IsBlank(s[i]) {
              if i > 0 { assert s[i] == s[1..][i - 1]; }
            }
          }
        }
      } else {
        assert !AllBlank(s);
        var cl := ClassOf(s[0]);
        if cl == OtherChar || cl == SpacingChar {
          TextRun("", s);
        } else if cl == BackslashChar {
          CommandKinds(s[1..]);
        }
      }
    }
  }

  /** After a backslash the token is a command, an escaped character or a
      line break. */
  lemma CommandKinds(text: string)
    ensures Run(InCommand, "", text).0.kind in {Command, SpecialChar, Enter}
  {
    if text != [] && ClassOf(text[0]) == OtherChar {
      NameRun("", text);
    }
  }

  /** A blank in front of the text is skipped: it never starts a token. */
  lemma SkipBlank(c: char, s: string)
    requires IsBlank(c)
    ensures GetToken([c] + s) == GetToken(s)
  {
    assert ([c] + s)[1..] == s;
  }

  /** A backslash hands the rest of the text to the command state. */
  lemma BackslashUnfold(s: string)
    ensures GetToken("\\" + s) == Run(InCommand, "", s)
  {
    var b := "\\" + s;
    assert b[0] == '\\';
    assert b[1..] == s;
  }

  /** A command name is the longest run of letters after the backslash. */
  lemma LetterCommand(s: string)
    requires s != [] && IsNameChar(s[0])
    ensures var r := Run(InCommand, "", s);
      && r.0.kind == Command && r.0.value != [] && AllName(r.0.value)
      && r.0.value + r.1 == s
      && (r.1 == [] || !IsNameChar(r.1[0]))
  {
    LetterStartsName(s);
    NameRun("", s);
    var r := Run(CommandName, "", s);
    var n := |s| - |r.1|;
    assert r.1 == s[n..];
    assert r.0.value == s[..n];
    assert s[..n] + s[n..] == s;
  }

  /** What a backslash turns the next character into. */
  lemma AfterBackslash(s: string)
    ensures s == [] ==> GetToken("\\" + s) == (Token(Command, " "), [])
    ensures s != [] && IsSpecial(ClassOf(s[0])) ==> GetToken("\\" + s) == (Token(SpecialChar, [s[0]]), s[1..])
    ensures s != [] && s[0] == '\\' ==> GetToken("\\" + s) == (Token(Enter, "\\"), s[1..])
    ensures s != [] && ClassOf(s[0]) == SpacingChar ==> GetToken("\\" + s) == (Token(Command, [s[0]]), s[1..])
    ensures s != [] && IsNameChar(s[0]) ==>
      var (t, rest) := GetToken("\\" + s);
      t.kind == Command && t.value != [] && AllName(t.value) && t.value + rest == s
      && (rest == [] || !IsNameChar(rest[0]))
    ensures s != [] && ClassOf(s[0]) == OtherChar && !IsLetter(s[0]) ==> GetToken("\\" + s) == (Token(Command, ""), s)
    ensures s != [] && (ClassOf(s[0]) == CaretChar || ClassOf(s[0]) == AngleChar || IsBlank(s[0])) ==>
      GetToken("\\" + s) == (Token(Command, " "), s[1..])
  {
    BackslashUnfold(s);
    if s != [] && IsNameChar(s[0]) {
      LetterCommand(s);
    }
  }
}
