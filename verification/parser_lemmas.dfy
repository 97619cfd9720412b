/** Laws of the recogniser: the whole stream is read on success, the
    script-combination guard, how a matrix body builds the grid, the
    tables of spacing commands and matrix delimiters, and the documented
    quirks shown on concrete token streams. */
module ParserLemmas {
  import opened Lexer
  import opened LexerLemmas
  import opened Parser
  import Layout

  // ---------------------------------------------------------------------
  // Whole programs

  /** A successful compile has read the whole token stream, End included,
      and the levels are back where they started. */
  lemma CompileConsumesAll(s: string, known: set<string>)
    ensures var r := Compile(s, known);
      r.Ok? ==> r.st.pos == |Tokenize(s)| && r.st.levels == InitialLevels
  {
  }

  /** A program is accepted only if, after the terms, the next token is End:
      any trailing token the terms stop at is reported as unread. */
  lemma StopsBeforeEnd(ts: seq<Token>, known: set<string>, st: State)
    requires Inv(ts, st)
    ensures var r1 := Term(ts, known, st);
      r1.Ok? && MoreTerm(ts, known, r1.st).Ok?
      && Peek(ts, MoreTerm(ts, known, r1.st).st.pos).kind != End
      ==> Prog(ts, known, st).Err? && Prog(ts, known, st).diag == NotAllRead
  {
  }

  /** `\begin` always starts a block, never a command, and `\end` starts no
      term at all: it closes a group of terms. */
  lemma BeginEndDispatch(ts: seq<Token>, known: set<string>, st: State)
    requires Inv(ts, st)
    ensures Peek(ts, st.pos) == Token(Command, "begin") ==> Term(ts, known, st) == Block(ts, known, st)
    ensures Peek(ts, st.pos) == Token(Command, "end") ==>
      Term(ts, known, st) == Err(Next(ts, st), NoTerminal) && MoreTerm(ts, known, st) == Ok(st)
  {
  }

  // ---------------------------------------------------------------------
  // Scripts

  /** The combination guard of is_both_ei: while the global flag is set no
      further marker is allowed; the same marker twice needs braces; the
      opposite marker is read as the paired script, after which the flag is
      clear again. */
  lemma ScriptGuard(ts: seq<Token>, known: set<string>, st: State, mode: Kind)
    requires Inv(ts, st) && |st.levels.eiArray| > 0 && (mode == Caret || mode == Underscore)
    ensures var t := Peek(ts, st.pos);
      var r := BothScripts(ts, known, st, mode);
      && (st.levels.expIx && IsScript(t) ==> r.Err? && r.diag == OnlyOnce)
      && (!st.levels.expIx && t.kind == mode ==> r.Err? && r.diag == UseBraces)
      && (!IsScript(t) ==> r.Ok? && r.st.pos == st.pos)
      && (r.Ok? && IsScript(t) ==> !r.st.levels.expIx && r.st.pos > st.pos)
  {
  }

  /** A script always leaves the level stack and the flag as it found them:
      `x^a`, `x_a^b` and `x^{...}` are balanced. */
  lemma ScriptBalanced(ts: seq<Token>, known: set<string>, st: State)
    requires Inv(ts, st) && IsScript(Peek(ts, st.pos))
    ensures var r := Const(ts, known, st);
      r.Ok? ==> (|r.st.levels.eiArray| == |st.levels.eiArray|
                 && r.st.levels.expIx == st.levels.expIx)
  {
  }

  /** Markup opening with `x^a^`, as in `x^a^b`: the same marker twice
      without braces. */
  lemma DoubleExponent(ts: seq<Token>, known: set<string>, st: State)
    requires Inv(ts, st) && !st.levels.expIx && Plain(Peek(ts, st.pos))
    requires Peek(ts, st.pos + 1).kind == Caret && IsAtom(Peek(ts, st.pos + 2))
    requires Peek(ts, st.pos + 3).kind == Caret
    ensures var r := Prog(ts, known, st);
      r.Err? && r.diag == UseBraces
  {
    var s1 := st.(pos := st.pos + 1);
    assert Term(ts, known, st) == Ok(s1);
    AtomScript(ts, known, s1);
    var p := Push(st.(pos := st.pos + 3), Layout.Exp);
    assert BothScripts(ts, known, p, Caret) == Err(Next(ts, p), UseBraces);
    TermsFail(ts, known, s1);
  }

  /** The level a script marker pushes. */
  function TagOf(k: Kind): Layout.Tag
  {
    if k == Caret then Layout.Exp else Layout.Ix
  }

  /** Tokens that form a script argument on their own. */
  predicate IsAtom(t: Token)
  {
    t.kind == Text || t.kind == SpecialChar || t.kind == Command
  }

  /** A state of the literal examples: no fraction, no sum, empty grid. */
  function At(pos: nat, ei: seq<Layout.Tag>, expIx: bool, sqrt: bool): State
  {
    State(pos, Parser.Levels(ei, expIx, 0), sqrt, false, EmptyGrid, 0)
  }

  /** `^a` or `_a` with a one-token argument: the marker and the argument are
      read, one level is pushed, and the combination check follows. */
  lemma AtomScript(ts: seq<Token>, known: set<string>, st: State)
    requires Inv(ts, st) && IsScript(Peek(ts, st.pos)) && IsAtom(Peek(ts, st.pos + 1))
    ensures var k := Peek(ts, st.pos).kind;
      Inv(ts, Push(st.(pos := st.pos + 2), TagOf(k)))
      && Term(ts, known, st) == Const(ts, known, st)
      && Const(ts, known, st) == BothScripts(ts, known, Push(st.(pos := st.pos + 2), TagOf(k)), k)
  {
    var k := Peek(ts, st.pos).kind;
    var s1 := Push(Next(ts, st), TagOf(k));
    assert s1 == Push(st.(pos := st.pos + 1), TagOf(k));
    assert Next(ts, s1) == Push(st.(pos := st.pos + 2), TagOf(k));
    assert AfterScript(ts, known, s1, k) == BothScripts(ts, known, Next(ts, s1), k);
  }

  /** Once a pair is open (the flag is set), a script whose one-token
      argument is followed by another marker is rejected, at any depth of
      the level stack. */
  lemma MarkerUnderFlag(ts: seq<Token>, known: set<string>, st: State)
    requires Inv(ts, st) && st.levels.expIx
    requires IsScript(Peek(ts, st.pos)) && IsAtom(Peek(ts, st.pos + 1)) && IsScript(Peek(ts, st.pos + 2))
    ensures var r := Term(ts, known, st);
      r.Err? && r.diag == OnlyOnce && r.st.pos == st.pos + 3
  {
    AtomScript(ts, known, st);
  }

  /** A pair `_a^b` (or `^a_b`) of one-token arguments with no marker after
      it, read while no pair is open: accepted, and nothing but the position
      changes. */
  lemma SimplePair(ts: seq<Token>, known: set<string>, st: State)
    requires Inv(ts, st) && !st.levels.expIx
    requires IsScript(Peek(ts, st.pos)) && IsAtom(Peek(ts, st.pos + 1))
    requires IsScript(Peek(ts, st.pos + 2)) && Peek(ts, st.pos + 2).kind != Peek(ts, st.pos).kind
    requires IsAtom(Peek(ts, st.pos + 3)) && !IsScript(Peek(ts, st.pos + 4))
    ensures Term(ts, known, st) == Ok(st.(pos := st.pos + 4))
  {
    var k0 := Peek(ts, st.pos).kind;
    var s2 := Push(st.(pos := st.pos + 2), TagOf(k0));
    AtomScript(ts, known, st);
    var paired := s2.(levels := s2.levels.(expIx := true, eiArray := Pop(s2.levels.eiArray)));
    assert Pop(s2.levels.eiArray) == st.levels.eiArray;
    assert paired == st.(pos := st.pos + 2, levels := st.levels.(expIx := true));
    AtomScript(ts, known, paired);
    var k1 := Peek(ts, st.pos + 2).kind;
    var s4 := Push(paired.(pos := st.pos + 4), TagOf(k1));
    assert Pop(s4.levels.eiArray) == st.levels.eiArray;
    assert BothScripts(ts, known, s4, k1) == Ok(st.(pos := st.pos + 4, levels := st.levels.(expIx := true)));
    assert Const(ts, known, paired) == Ok(st.(pos := st.pos + 4, levels := st.levels.(expIx := true)));
  }

  /** The same pair is accepted exactly when no pair is open around it. */
  lemma PairNeedsClearFlag(ts: seq<Token>, known: set<string>, st: State)
    requires Inv(ts, st)
    requires IsScript(Peek(ts, st.pos)) && IsAtom(Peek(ts, st.pos + 1))
    requires IsScript(Peek(ts, st.pos + 2)) && Peek(ts, st.pos + 2).kind != Peek(ts, st.pos).kind
    requires IsAtom(Peek(ts, st.pos + 3)) && !IsScript(Peek(ts, st.pos + 4))
    ensures Term(ts, known, st).Ok? <==> !st.levels.expIx
  {
    if st.levels.expIx {
      MarkerUnderFlag(ts, known, st);
    } else {
      SimplePair(ts, known, st);
    }
  }

  /** A failing term at the head of a group of terms fails the group. */
  lemma TermsFail(ts: seq<Token>, known: set<string>, st: State)
    requires Inv(ts, st) && IsScript(Peek(ts, st.pos)) && Term(ts, known, st).Err?
    ensures MoreTerm(ts, known, st) == Term(ts, known, st)
  {
  }

  /** Braces whose terms fail fail with them. */
  lemma GroupFails(ts: seq<Token>, known: set<string>, st: State, d: Diag)
    requires Inv(ts, st) && Peek(ts, st.pos).kind == OpenBracket
    requires MoreTerm(ts, known, Next(ts, st)).Err?
    ensures Group(ts, known, st, d) == MoreTerm(ts, known, Next(ts, st))
  {
  }

  /** `^{_c^d ...}` read as the second script of a pair: the flag is still
      set inside the braces, so the inner pair is rejected. */
  lemma PairedBracesRejected(ts: seq<Token>, known: set<string>, st: State)
    requires Inv(ts, st) && st.levels.expIx
    requires IsScript(Peek(ts, st.pos)) && Peek(ts, st.pos + 1).kind == OpenBracket
    requires IsScript(Peek(ts, st.pos + 2)) && IsAtom(Peek(ts, st.pos + 3)) && IsScript(Peek(ts, st.pos + 4))
    ensures var r := Const(ts, known, st);
      r.Err? && r.diag == OnlyOnce
  {
    var k := Peek(ts, st.pos).kind;
    var s1 := Push(Next(ts, st), TagOf(k));
    assert s1 == Push(st.(pos := st.pos + 1), TagOf(k));
    var s2 := Next(ts, s1);
    assert s2 == Push(st.(pos := st.pos + 2), TagOf(k));
    MarkerUnderFlag(ts, known, s2);
    TermsFail(ts, known, s2);
    GroupFails(ts, known, s1, BadScript);
    assert AfterScript(ts, known, s1, k) == MoreTerm(ts, known, s2);
  }

  /** `_a^{_c^d}`: the combination flag is one global bit, so a pair inside
      the braces of the second script of a pair is rejected although it is
      braced (compare BracedPair, where the same braces are accepted). */
  lemma NestedPairRejected(ts: seq<Token>, known: set<string>, st: State)
    requires Inv(ts, st) && !st.levels.expIx
    requires IsScript(Peek(ts, st.pos)) && IsAtom(Peek(ts, st.pos + 1))
    requires IsScript(Peek(ts, st.pos + 2)) && Peek(ts, st.pos + 2).kind != Peek(ts, st.pos).kind
    requires Peek(ts, st.pos + 3).kind == OpenBracket
    requires IsScript(Peek(ts, st.pos + 4)) && IsAtom(Peek(ts, st.pos + 5)) && IsScript(Peek(ts, st.pos + 6))
    ensures var r := Term(ts, known, st);
      r.Err? && r.diag == OnlyOnce
  {
    var k0 := Peek(ts, st.pos).kind;
    var s2 := Push(st.(pos := st.pos + 2), TagOf(k0));
    AtomScript(ts, known, st);
    var paired := s2.(levels := s2.levels.(expIx := true, eiArray := Pop(s2.levels.eiArray)));
    assert Pop(s2.levels.eiArray) == st.levels.eiArray;
    assert paired.pos == st.pos + 2 && paired.levels.expIx;
    PairedBracesRejected(ts, known, paired);
  }

  /** `^{_c^d}` as a plain script, with no marker after it: accepted, and
      nothing but the position changes. */
  lemma BracedPair(ts: seq<Token>, known: set<string>, st: State)
    requires Inv(ts, st) && !st.levels.expIx
    requires IsScript(Peek(ts, st.pos)) && Peek(ts, st.pos + 1).kind == OpenBracket
    requires IsScript(Peek(ts, st.pos + 2)) && IsAtom(Peek(ts, st.pos + 3))
    requires IsScript(Peek(ts, st.pos + 4)) && Peek(ts, st.pos + 4).kind != Peek(ts, st.pos + 2).kind
    requires IsAtom(Peek(ts, st.pos + 5)) && Peek(ts, st.pos + 6).kind == CloseBracket
    requires !IsScript(Peek(ts, st.pos + 7))
    ensures Term(ts, known, st) == Ok(st.(pos := st.pos + 7))
  {
    var k := Peek(ts, st.pos).kind;
    var s1 := Push(st.(pos := st.pos + 1), TagOf(k));
    assert Push(Next(ts, st), TagOf(k)) == s1;
    BracedPairGroup(ts, known, s1);
    assert Pop(s1.levels.eiArray) == st.levels.eiArray;
    assert BothScripts(ts, known, s1.(pos := st.pos + 7), k) == Ok(st.(pos := st.pos + 7));
    assert AfterScript(ts, known, s1, k) == Ok(st.(pos := st.pos + 7));
    ScriptTerm(ts, known, st);
  }

  /** A script marker starts a constant. */
  lemma ScriptTerm(ts: seq<Token>, known: set<string>, st: State)
    requires Inv(ts, st) && IsScript(Peek(ts, st.pos))
    ensures Term(ts, known, st) == Const(ts, known, st)
  {
  }

  /** The braces `{_c^d}` of BracedPair. */
  lemma BracedPairGroup(ts: seq<Token>, known: set<string>, st: State)
    requires Inv(ts, st) && !st.levels.expIx && Peek(ts, st.pos).kind == OpenBracket
    requires IsScript(Peek(ts, st.pos + 1)) && IsAtom(Peek(ts, st.pos + 2))
    requires IsScript(Peek(ts, st.pos + 3)) && Peek(ts, st.pos + 3).kind != Peek(ts, st.pos + 1).kind
    requires IsAtom(Peek(ts, st.pos + 4)) && Peek(ts, st.pos + 5).kind == CloseBracket
    ensures Group(ts, known, st, BadScript) == Ok(st.(pos := st.pos + 6))
  {
    var s2 := st.(pos := st.pos + 1);
    assert Next(ts, st) == s2;
    BracedPairInside(ts, known, s2);
    assert Next(ts, st.(pos := st.pos + 5)) == st.(pos := st.pos + 6);
  }

  /** The terms `_c^d` inside the braces of BracedPair stop at the `}`. */
  lemma BracedPairInside(ts: seq<Token>, known: set<string>, st: State)
    requires Inv(ts, st) && !st.levels.expIx
    requires IsScript(Peek(ts, st.pos)) && IsAtom(Peek(ts, st.pos + 1))
    requires IsScript(Peek(ts, st.pos + 2)) && Peek(ts, st.pos + 2).kind != Peek(ts, st.pos).kind
    requires IsAtom(Peek(ts, st.pos + 3)) && Peek(ts, st.pos + 4).kind == CloseBracket
    ensures MoreTerm(ts, known, st) == Ok(st.(pos := st.pos + 4))
  {
    SimplePair(ts, known, st);
    assert MoreTerm(ts, known, st.(pos := st.pos + 4)) == Ok(st.(pos := st.pos + 4));
  }

  // ---------------------------------------------------------------------
  // Square roots and line breaks

  /** After any square root the flag stays set, so a later `]` ends the
      terms instead of being read as text. */
  lemma SqrtFlagSticks(ts: seq<Token>, known: set<string>, st: State)
    requires Inv(ts, st)
    ensures var r := Sqrt(ts, known, st);
      r.Ok? && Peek(ts, r.st.pos) == Token(Text, "]") ==> MoreTerm(ts, known, r.st) == Ok(r.st)
  {
  }

  /** `\sqrt{x}]` is rejected with a token unread. */
  lemma SqrtThenBracket(known: set<string>)
    ensures var r := Prog([Token(Command, "sqrt"), Token(OpenBracket, "{"), Token(Text, "x"),
                           Token(CloseBracket, "}"), Token(Text, "]"), Token(End, "")], known, Initial);
      r.Err? && r.diag == NotAllRead
  {
    var ts := [Token(Command, "sqrt"), Token(OpenBracket, "{"), Token(Text, "x"),
               Token(CloseBracket, "}"), Token(Text, "]"), Token(End, "")];
    assert MoreTerm(ts, known, At(3, [], false, true)) == Ok(At(3, [], false, true));
    assert Term(ts, known, At(2, [], false, true)) == Ok(At(3, [], false, true));
    assert MoreTerm(ts, known, At(2, [], false, true)) == Ok(At(3, [], false, true));
    assert Group(ts, known, At(1, [], false, true), BadSqrt) == Ok(At(4, [], false, true));
    assert Sqrt(ts, known, At(1, [], false, false)) == Ok(At(4, [], false, true));
    assert Term(ts, known, At(0, [], false, false)) == Ok(At(4, [], false, true));
    assert MoreTerm(ts, known, At(4, [], false, true)) == Ok(At(4, [], false, true));
  }

  /** `x]` without a square root before it is accepted: `]` is text. */
  lemma BracketAsText(known: set<string>)
    ensures Prog([Token(Text, "x"), Token(Text, "]"), Token(End, "")], known, Initial).Ok?
  {
  }

  /** A text token that is not the `]` closing a square-root multiplier. */
  predicate Plain(t: Token)
  {
    t.kind == Text && t.value != "]"
  }

  /** A one-token multiplier stops at the `]` while the flag is set. */
  lemma SqrtMultiplierStops(ts: seq<Token>, known: set<string>, st: State)
    requires Inv(ts, st) && st.sqrt && Plain(Peek(ts, st.pos)) && Peek(ts, st.pos + 1) == Token(Text, "]")
    ensures MoreTerm(ts, known, st) == Ok(st.(pos := st.pos + 1))
  {
    assert Term(ts, known, st) == Ok(st.(pos := st.pos + 1));
    assert MoreTerm(ts, known, st.(pos := st.pos + 1)) == Ok(st.(pos := st.pos + 1));
  }

  /** `\sqrt{x}` with a one-token radicand: read, and the flag is set. */
  lemma SqrtRadicand(ts: seq<Token>, known: set<string>, st: State)
    requires Inv(ts, st) && Peek(ts, st.pos).kind == OpenBracket
    requires Plain(Peek(ts, st.pos + 1)) && Peek(ts, st.pos + 2).kind == CloseBracket
    ensures Sqrt(ts, known, st) == Ok(st.(pos := st.pos + 3, sqrt := true))
  {
    var s1 := st.(pos := st.pos + 1, sqrt := true);
    assert Next(ts, st.(sqrt := true)) == s1;
    assert Term(ts, known, s1) == Ok(s1.(pos := st.pos + 2));
    assert MoreTerm(ts, known, s1.(pos := st.pos + 2)) == Ok(s1.(pos := st.pos + 2));
    assert MoreTerm(ts, known, s1) == Ok(s1.(pos := st.pos + 2));
    assert Group(ts, known, st.(sqrt := true), BadSqrt) == Ok(s1.(pos := st.pos + 3));
  }

  /** `\sqrt[n]{x}` with one-token parts: the multiplier is read one `exp`
      level deeper with the flag set, so the `]` ends it; the level is
      popped and the flag cleared before the radicand, which sets the flag
      again. Only the position and the flag change. */
  lemma SqrtWithIndex(ts: seq<Token>, known: set<string>, st: State)
    requires Inv(ts, st) && Peek(ts, st.pos) == Token(Text, "[")
    requires Plain(Peek(ts, st.pos + 1)) && Peek(ts, st.pos + 2) == Token(Text, "]")
    requires Peek(ts, st.pos + 3).kind == OpenBracket && Plain(Peek(ts, st.pos + 4))
    requires Peek(ts, st.pos + 5).kind == CloseBracket
    ensures Sqrt(ts, known, st) == Ok(st.(pos := st.pos + 6, sqrt := true))
  {
    var s1 := Push(st.(pos := st.pos + 1, sqrt := true), Layout.Exp);
    assert Push(Next(ts, st.(sqrt := true)), Layout.Exp) == s1;
    SqrtMultiplierStops(ts, known, s1);
    var s2 := s1.(pos := st.pos + 3);
    assert Next(ts, s1.(pos := st.pos + 2)) == s2;
    assert Pop(s2.levels.eiArray) == st.levels.eiArray;
    var s3 := st.(pos := st.pos + 3);
    assert s2.(sqrt := false, levels := s2.levels.(eiArray := Pop(s2.levels.eiArray))) == s3.(sqrt := false);
    SqrtRadicand(ts, known, s3.(sqrt := false));
  }

  /** A line break outside a matrix is read and ignored: the grid is not
      touched. */
  lemma EnterOutsideMatrix(known: set<string>)
    ensures var r := Prog([Token(Text, "x"), Token(Enter, "\\"), Token(Text, "y"), Token(End, "")], known, Initial);
      r.Ok? && r.st.grid == EmptyGrid && r.st.nextCell == 0
  {
  }

  /** `\begin{name} a` followed by something that neither continues the
      body nor is `\end`: the block fails without a message. */
  lemma UnclosedBlock(ts: seq<Token>, known: set<string>, st: State)
    requires Inv(ts, st) && Peek(ts, st.pos) == Token(Command, "begin")
    requires Peek(ts, st.pos + 1).kind == OpenBracket
    requires Peek(ts, st.pos + 2).kind == Text && IsEnvName(Peek(ts, st.pos + 2).value)
    requires Peek(ts, st.pos + 3).kind == CloseBracket && Peek(ts, st.pos + 4).kind == Text
    requires Peek(ts, st.pos + 5).kind == CloseBracket
    ensures var r := Block(ts, known, st);
      r.Err? && r.diag == NoMessage
  {
    var s1 := AddCell(Next(ts, st));
    var o := s1.(pos := st.pos + 4);
    assert EnvName(ts, s1, false) == Ok(o);
    OneTextBody(ts, known, o);
    BlockUnclosed(ts, known, st, o, Matrix(ts, known, o));
  }

  /** A body of one text token before a `}`. */
  lemma OneTextBody(ts: seq<Token>, known: set<string>, st: State)
    requires Inv(ts, st) && Peek(ts, st.pos).kind == Text && Peek(ts, st.pos + 1).kind == CloseBracket
    ensures Matrix(ts, known, st) == Ok(st.(pos := st.pos + 1))
  {
    assert Const(ts, known, st) == Ok(st.(pos := st.pos + 1));
  }

  /** A block whose body stops at anything but `\end` fails silently. */
  lemma BlockUnclosed(ts: seq<Token>, known: set<string>, st: State, o: State, r2: Res)
    requires Inv(ts, st) && Peek(ts, st.pos) == Token(Command, "begin")
    requires EnvName(ts, AddCell(Next(ts, st)), false) == Ok(o)
    requires r2 == Matrix(ts, known, o) && r2.Ok? && Peek(ts, r2.st.pos) != Token(Command, "end")
    ensures Block(ts, known, st) == Err(Next(ts, r2.st), NoMessage)
  {
  }

  /** A numerator that fails without a message: the fraction's own message
      is the first one. */
  lemma SilentNumerator(ts: seq<Token>, known: set<string>, st: State)
    requires Inv(ts, st) && Peek(ts, st.pos).kind == OpenBracket
    requires var m := MoreTerm(ts, known, Next(ts, st.(levels := st.levels.(frac := st.levels.frac + 1))));
      m.Err? && m.diag == NoMessage
    ensures var r := Frac(ts, known, st);
      r.Err? && r.diag == BadFrac
  {
    var s1 := st.(levels := st.levels.(frac := st.levels.frac + 1));
    GroupFails(ts, known, s1, BadFrac);
    NumeratorFails(ts, known, st, s1);
  }

  /** A failing numerator fails the fraction. */
  lemma NumeratorFails(ts: seq<Token>, known: set<string>, st: State, s1: State)
    requires Inv(ts, st) && s1 == st.(levels := st.levels.(frac := st.levels.frac + 1))
    requires Group(ts, known, s1, BadFrac).Err?
    ensures var g := Group(ts, known, s1, BadFrac);
      Frac(ts, known, st) == Err(g.st, FirstOf(g.diag, BadFrac))
  {
  }

  /** Markup opening with `\frac{\begin{matrix}a}`, as in
      `\frac{\begin{matrix}a}{b}`: the block inside the numerator has no
      `\end` and fails silently; the first message is the fraction's. */
  lemma UnclosedBlockInFrac(ts: seq<Token>, known: set<string>, st: State)
    requires Inv(ts, st) && Peek(ts, st.pos) == Token(Command, "frac")
    requires Peek(ts, st.pos + 1).kind == OpenBracket && Peek(ts, st.pos + 2) == Token(Command, "begin")
    requires Peek(ts, st.pos + 3).kind == OpenBracket
    requires Peek(ts, st.pos + 4).kind == Text && IsEnvName(Peek(ts, st.pos + 4).value)
    requires Peek(ts, st.pos + 5).kind == CloseBracket && Peek(ts, st.pos + 6).kind == Text
    requires Peek(ts, st.pos + 7).kind == CloseBracket
    ensures var r := Prog(ts, known, st);
      r.Err? && r.diag == BadFrac
  {
    FracOverUnclosedBlock(ts, known, Next(ts, st));
    FracFailsProg(ts, known, st);
  }

  /** The fraction production of UnclosedBlockInFrac. */
  lemma FracOverUnclosedBlock(ts: seq<Token>, known: set<string>, st: State)
    requires Inv(ts, st) && Peek(ts, st.pos).kind == OpenBracket && Peek(ts, st.pos + 1) == Token(Command, "begin")
    requires Peek(ts, st.pos + 2).kind == OpenBracket
    requires Peek(ts, st.pos + 3).kind == Text && IsEnvName(Peek(ts, st.pos + 3).value)
    requires Peek(ts, st.pos + 4).kind == CloseBracket && Peek(ts, st.pos + 5).kind == Text
    requires Peek(ts, st.pos + 6).kind == CloseBracket
    ensures var r := Frac(ts, known, st);
      r.Err? && r.diag == BadFrac
  {
    var s1 := Next(ts, st.(levels := st.levels.(frac := st.levels.frac + 1)));
    UnclosedBlock(ts, known, s1);
    BlockFailsTerms(ts, known, s1);
    SilentNumerator(ts, known, st);
  }

  /** A failing block at the head of a group of terms fails the group. */
  lemma BlockFailsTerms(ts: seq<Token>, known: set<string>, st: State)
    requires Inv(ts, st) && Peek(ts, st.pos) == Token(Command, "begin") && Block(ts, known, st).Err?
    ensures MoreTerm(ts, known, st) == Block(ts, known, st)
  {
  }

  /** A failing fraction at the head of the markup fails it. */
  lemma FracFailsProg(ts: seq<Token>, known: set<string>, st: State)
    requires Inv(ts, st) && Peek(ts, st.pos) == Token(Command, "frac")
    requires Frac(ts, known, Next(ts, st)).Err?
    ensures Prog(ts, known, st) == Frac(ts, known, Next(ts, st))
  {
    assert Term(ts, known, st) == CommandTerm(ts, known, st);
  }

  // ---------------------------------------------------------------------
  // Matrix grid

  /** Matrix body tokens that make no nested production: text, escaped
      characters, `&` and line breaks. */
  predicate Flat(t: Token)
  {
    t.kind == Text || t.kind == SpecialChar || t.kind == Ampersand || t.kind == Enter
  }

  /** A one-token command a matrix body reads as a symbol: a spacing
      command or a known name, other than the commands with productions of
      their own and `end`, which closes the body. Inside a body `\begin`
      is looked up like any other name. */
  predicate Symbol(known: set<string>, t: Token)
  {
    && t.kind == Command
    && t.value != "sqrt" && t.value != "frac" && t.value != "sum" && t.value != "prod"
    && t.value != "end"
    && (IsSpace(t.value) || t.value in known)
  }

  /** The body items the grid lemmas cover. */
  predicate Simple(known: set<string>, t: Token)
  {
    Flat(t) || Symbol(known, t)
  }

  function CountKind(s: seq<Token>, k: Kind): nat
  {
    if s == [] then 0 else (if s[0].kind == k then 1 else 0) + CountKind(s[1..], k)
  }

  /** The body split at its line breaks: one line per row. */
  function Lines(body: seq<Token>): (ls: seq<seq<Token>>)
    ensures |ls| == CountKind(body, Enter) + 1
  {
    if body == [] then [[]]
    else
      var rest := Lines(body[1..]);
      if body[0].kind == Enter then [[]] + rest
      else [[body[0]] + rest[0]] + rest[1..]
  }

  /** `k` consecutive cell identifiers from `n` on. */
  function Range(n: nat, k: nat): (s: seq<nat>)
    ensures |s| == k
    decreases k
  {
    if k == 0 then [] else [n] + Range(n + 1, k - 1)
  }

  /** Rows of consecutive identifiers from `n` on: each line gets its first
      cell (the one the line break, or `\begin`, opened) and one cell per
      `&` in it. */
  function Numbered(n: nat, lines: seq<seq<Token>>): (rows: seq<seq<nat>>)
    ensures |rows| == |lines|
    decreases |lines|
  {
    if lines == [] then []
    else
      var a := CountKind(lines[0], Ampersand);
      [Range(n, 1 + a)] + Numbered(n + 1 + a, lines[1..])
  }

  /** The cells once `lines` have been read into grid `g` with `m` the next
      identifier: the current row gets one cell per `&` of the first line,
      and every further line is a new row. */
  function Filled(g: Grid, m: nat, lines: seq<seq<Token>>): seq<seq<nat>>
    requires GridOk(g) && |lines| > 0
  {
    var a := CountKind(lines[0], Ampersand);
    g.cells[..g.rowNum] + [g.cells[g.rowNum] + Range(m, a)] + Numbered(m + a, lines[1..])
  }

  /** The current row is the last one. */
  lemma CurrentRowLast(g: Grid)
    requires GridOk(g)
    ensures g.cells[..g.rowNum] + [g.cells[g.rowNum]] == g.cells
  {
    var c := g.cells[..g.rowNum] + [g.cells[g.rowNum]];
    assert |c| == |g.cells|;
    forall i | 0 <= i < |c|
      ensures c[i] == g.cells[i]
    {
    }
  }

  /** The state after one simple body token. */
  function Advance(ts: seq<Token>, known: set<string>, st: State): (r: State)
    requires Inv(ts, st) && st.pos < |ts| && Simple(known, ts[st.pos])
    ensures Inv(ts, r) && r.pos == st.pos + 1
    ensures r == st.(pos := r.pos, grid := r.grid, nextCell := r.nextCell)
    ensures var g := st.grid; var m := st.nextCell; var k := ts[st.pos].kind;
      && (k == Ampersand ==> r.grid == Grid(g.cells[..g.rowNum] + [g.cells[g.rowNum] + [m]], g.rowNum))
      && (k == Enter ==> r.grid == Grid(g.cells + [[m]], g.rowNum + 1))
      && (k != Ampersand && k != Enter ==> r.grid == g)
      && r.nextCell == m + (if k == Ampersand || k == Enter then 1 else 0)
  {
    var t := ts[st.pos];
    if t.kind == Ampersand then AddCell(Next(ts, st))
    else if t.kind == Enter then Next(ts, NewRow(st))
    else Next(ts, st)
  }

  /** One simple token: the matrix production reads it and hands over to
      the rest of the body. */
  lemma MatrixSimpleStep(ts: seq<Token>, known: set<string>, st: State)
    requires Inv(ts, st) && st.pos < |ts| && Simple(known, ts[st.pos])
    ensures Matrix(ts, known, st) == MoreMatrix(ts, known, Advance(ts, known, st))
  {
    var t := ts[st.pos];
    if t.kind == Enter {
      assert Const(ts, known, NewRow(st)) == Ok(Next(ts, NewRow(st)));
    } else if t.kind == Command {
      assert CommandTerm(ts, known, st) == Ok(Next(ts, st));
    } else if t.kind != Ampersand {
      assert Const(ts, known, st) == Ok(Next(ts, st));
    }
  }

  /** A matrix body stops at a token that starts no cell. */
  lemma MoreMatrixStops(ts: seq<Token>, known: set<string>, st: State)
    requires Inv(ts, st) && !IsCellStart(Peek(ts, st.pos))
    ensures MoreMatrix(ts, known, st) == Ok(st)
  {
  }

  /** Text, escaped characters and symbols leave the grid alone. */
  lemma FilledOther(g: Grid, m: nat, t: Token, lines: seq<seq<Token>>)
    requires GridOk(g) && |lines| > 0 && t.kind != Ampersand && t.kind != Enter
    ensures Filled(g, m, [[t] + lines[0]] + lines[1..]) == Filled(g, m, lines)
  {
    var ls := [[t] + lines[0]] + lines[1..];
    assert ls[0][1..] == lines[0] && ls[1..] == lines[1..];
  }

  /** `&` adds the next identifier to the current row. */
  lemma FilledAmpersand(g: Grid, m: nat, t: Token, lines: seq<seq<Token>>)
    requires GridOk(g) && |lines| > 0 && t.kind == Ampersand
    ensures var g' := Grid(g.cells[..g.rowNum] + [g.cells[g.rowNum] + [m]], g.rowNum);
      GridOk(g') && Filled(g, m, [[t] + lines[0]] + lines[1..]) == Filled(g', m + 1, lines)
  {
    var ls := [[t] + lines[0]] + lines[1..];
    var g' := Grid(g.cells[..g.rowNum] + [g.cells[g.rowNum] + [m]], g.rowNum);
    var a := CountKind(lines[0], Ampersand);
    assert ls[0][1..] == lines[0] && ls[1..] == lines[1..];
    assert CountKind(ls[0], Ampersand) == a + 1;
    assert Range(m, a + 1) == [m] + Range(m + 1, a);
    assert g'.cells[..g'.rowNum] == g.cells[..g.rowNum];
    assert g'.cells[g'.rowNum] + Range(m + 1, a) == g.cells[g.rowNum] + Range(m, a + 1);
  }

  /** A line break opens a row holding the next identifier. */
  lemma FilledEnter(g: Grid, m: nat, lines: seq<seq<Token>>)
    requires GridOk(g) && |lines| > 0
    ensures var g' := Grid(g.cells + [[m]], g.rowNum + 1);
      GridOk(g') && Filled(g, m, [[]] + lines) == Filled(g', m + 1, lines)
  {
    var ls := [[]] + lines;
    var g' := Grid(g.cells + [[m]], g.rowNum + 1);
    var a := CountKind(lines[0], Ampersand);
    assert ls[0] == [] && ls[1..] == lines;
    assert Range(m, 1 + a) == [m] + Range(m + 1, a);
    assert Numbered(m, lines) == [Range(m, 1 + a)] + Numbered(m + 1 + a, lines[1..]);
    CurrentRowLast(g);
    assert g.cells[g.rowNum] + [] == g.cells[g.rowNum];
    assert g'.cells[..g'.rowNum] == g.cells;
    assert g'.cells[g'.rowNum] == [m];
  }

  /** Lines of a body with a head token. */
  lemma LinesCons(body: seq<Token>)
    requires body != []
    ensures body[0].kind == Enter ==> Lines(body) == [[]] + Lines(body[1..])
    ensures body[0].kind != Enter ==>
      Lines(body) == [[body[0]] + Lines(body[1..])[0]] + Lines(body[1..])[1..]
  {
  }

  /** One simple token read into the grid, in terms of the lines left. */
  lemma AdvanceFilled(ts: seq<Token>, known: set<string>, st: State, e: nat)
    requires Inv(ts, st) && st.pos < e <= |ts| && Simple(known, ts[st.pos])
    ensures var st1 := Advance(ts, known, st);
      && Filled(st.grid, st.nextCell, Lines(ts[st.pos..e]))
         == Filled(st1.grid, st1.nextCell, Lines(ts[st.pos + 1..e]))
      && st1.nextCell == st.nextCell + (if ts[st.pos].kind == Ampersand || ts[st.pos].kind == Enter then 1 else 0)
  {
    var body := ts[st.pos..e];
    var t := ts[st.pos];
    assert body[0] == t && body[1..] == ts[st.pos + 1..e];
    LinesCons(body);
    var rest := Lines(ts[st.pos + 1..e]);
    if t.kind == Ampersand {
      FilledAmpersand(st.grid, st.nextCell, t, rest);
    } else if t.kind == Enter {
      FilledEnter(st.grid, st.nextCell, rest);
    } else {
      FilledOther(st.grid, st.nextCell, t, rest);
    }
  }

  /** A matrix body of simple items up to a token that starts no cell: read
      whole, with every `&` adding the next identifier to the row it appears
      in and every line break opening a row holding the next identifier.
      Nothing but the position, the grid and the identifier counter
      changes. */
  lemma {:induction false} BodyGrid(ts: seq<Token>, known: set<string>, st: State, e: nat)
    requires Inv(ts, st) && st.pos <= e <= |ts|
    requires forall i :: st.pos <= i < e ==> Simple(known, ts[i])
    requires !IsCellStart(Peek(ts, e))
    ensures var r := MoreMatrix(ts, known, st);
      var body := ts[st.pos..e];
      && r.Ok? && r.st == st.(pos := e, grid := r.st.grid, nextCell := r.st.nextCell)
      && r.st.grid.rowNum == st.grid.rowNum + CountKind(body, Enter)
      && r.st.grid.cells == Filled(st.grid, st.nextCell, Lines(body))
      && r.st.nextCell == st.nextCell + CountKind(body, Ampersand) + CountKind(body, Enter)
    decreases e - st.pos
  {
    var body := ts[st.pos..e];
    if st.pos == e {
      MoreMatrixStops(ts, known, st);
      assert body == [];
      FilledNothing(st.grid, st.nextCell);
    } else {
      assert body[0] == ts[st.pos] && body[1..] == ts[st.pos + 1..e];
      var st1 := Advance(ts, known, st);
      MatrixSimpleStep(ts, known, st);
      AdvanceFilled(ts, known, st, e);
      BodyGrid(ts, known, st1, e);
      var r1 := MoreMatrix(ts, known, st1);
      MoreMatrixStops(ts, known, r1.st);
      assert IsCellStart(ts[st.pos]);
      assert MoreMatrix(ts, known, st) == r1;
    }
  }

  /** On such a body the matrix production reads the same as the
      rest-of-body production. */
  lemma MatrixBody(ts: seq<Token>, known: set<string>, st: State, e: nat)
    requires Inv(ts, st) && st.pos <= e <= |ts|
    requires forall i :: st.pos <= i < e ==> Simple(known, ts[i])
    requires !IsCellStart(Peek(ts, e))
    ensures var r := Matrix(ts, known, st);
      var body := ts[st.pos..e];
      && r == MoreMatrix(ts, known, st)
      && r.Ok? && r.st == st.(pos := e, grid := r.st.grid, nextCell := r.st.nextCell)
      && r.st.grid.cells == Filled(st.grid, st.nextCell, Lines(body))
      && r.st.nextCell == st.nextCell + CountKind(body, Ampersand) + CountKind(body, Enter)
  {
    BodyGrid(ts, known, st, e);
    if st.pos < e {
      MatrixSimpleStep(ts, known, st);
      BodyGrid(ts, known, Advance(ts, known, st), e);
      var r := MoreMatrix(ts, known, Advance(ts, known, st));
      MoreMatrixStops(ts, known, r.st);
    } else {
      MoreMatrixStops(ts, known, st);
    }
  }

  // ---------------------------------------------------------------------
  // Matrix grid of any body without a nested `\begin`

  /** One cell item of a matrix body, as sa_matrix reads it before handing
      over to the rest of the body: a command; a constant, a line break
      first opening a new row; or `&`, which opens a new cell. */
  function Item(ts: seq<Token>, known: set<string>, st: State): (r: Res)
    requires Inv(ts, st) && IsCellStart(Peek(ts, st.pos))
    ensures Steps(ts, st, r)
    ensures r.Ok? ==> r.st.pos > st.pos
  {
    var t := Peek(ts, st.pos);
    if IsCommand(t) then CommandTerm(ts, known, st)
    else if IsConst(t) then Const(ts, known, if t.kind == Enter then NewRow(st) else st)
    else Ok(AddCell(Next(ts, st)))
  }

  /** The first token of each cell item of the body read from `st`, as far
      as the items are read successfully. */
  function Heads(ts: seq<Token>, known: set<string>, st: State): seq<Token>
    requires Inv(ts, st)
    decreases |ts| - st.pos
  {
    var t := Peek(ts, st.pos);
    if !IsCellStart(t) then []
    else
      var r := Item(ts, known, st);
      if r.Err? then [] else [t] + Heads(ts, known, r.st)
  }

  /** The matrix production is one item followed by the rest of the body. */
  lemma MatrixItem(ts: seq<Token>, known: set<string>, st: State)
    requires Inv(ts, st) && IsCellStart(Peek(ts, st.pos))
    ensures var i := Item(ts, known, st);
      && (i.Err? ==> Matrix(ts, known, st).Err?)
      && (i.Ok? ==> Matrix(ts, known, st) == MoreMatrix(ts, known, i.st))
  {
  }

  /** A body read successfully from a cell start: its first item is read,
      the rest of the body follows from there, and the item's first token
      heads the heads. */
  lemma HeadsStep(ts: seq<Token>, known: set<string>, st: State)
    requires Inv(ts, st) && IsCellStart(Peek(ts, st.pos)) && MoreMatrix(ts, known, st).Ok?
    ensures var i := Item(ts, known, st);
      && i.Ok? && MoreMatrix(ts, known, st) == MoreMatrix(ts, known, i.st)
      && Heads(ts, known, st) == [Peek(ts, st.pos)] + Heads(ts, known, i.st)
  {
    MatrixItem(ts, known, st);
    var r1 := Matrix(ts, known, st);
    MoreMatrixStops(ts, known, r1.st);
  }

  /** A body reads the same through the matrix production and the
      rest-of-body production: both stop at the first token that starts no
      cell. */
  lemma MatrixIsMoreMatrix(ts: seq<Token>, known: set<string>, st: State)
    requires Inv(ts, st)
    ensures Matrix(ts, known, st) == MoreMatrix(ts, known, st)
  {
    if IsCellStart(Peek(ts, st.pos)) {
      var r1 := Matrix(ts, known, st);
      if r1.Ok? {
        MoreMatrixStops(ts, known, r1.st);
      }
    }
  }

  /** A cell item read without meeting `\begin` changes the grid exactly as
      its first token says: `&` adds a cell to the current row, a line
      break opens a row holding a new cell, and any other item, however
      nested (a group, a script, a square root, a fraction, a sum), leaves
      the grid and the counter alone. */
  lemma ItemGrid(ts: seq<Token>, known: set<string>, st: State)
    requires Inv(ts, st) && IsCellStart(Peek(ts, st.pos))
    requires var r := Item(ts, known, st);
      r.Ok? && NoBegin(ts, st.pos, r.st.pos)
    ensures var r := Item(ts, known, st);
      var g := st.grid; var m := st.nextCell; var k := Peek(ts, st.pos).kind;
      && (k == Ampersand ==> r.st.grid == Grid(g.cells[..g.rowNum] + [g.cells[g.rowNum] + [m]], g.rowNum))
      && (k == Enter ==> r.st.grid == Grid(g.cells + [[m]], g.rowNum + 1))
      && (k != Ampersand && k != Enter ==> r.st.grid == g)
      && r.st.nextCell == m + (if k == Ampersand || k == Enter then 1 else 0)
  {
  }

  /** `{x \\ y}` as a cell item: the line break inside the braces is read
      as a constant of the group and opens no row; the item reads the five
      tokens and changes nothing else, the grid included. */
  lemma BreakInsideBraces(ts: seq<Token>, known: set<string>, st: State)
    requires Inv(ts, st) && Peek(ts, st.pos).kind == OpenBracket
    requires Plain(Peek(ts, st.pos + 1)) && Peek(ts, st.pos + 2).kind == Enter
    requires Plain(Peek(ts, st.pos + 3)) && Peek(ts, st.pos + 4).kind == CloseBracket
    ensures Item(ts, known, st) == Ok(st.(pos := st.pos + 5))
  {
    var s1 := st.(pos := st.pos + 1);
    BreakTerms(ts, known, s1);
    assert Next(ts, st) == s1;
    assert Group(ts, known, st, NoMessage) == Ok(st.(pos := st.pos + 5));
  }

  /** The terms `x \\ y` inside the braces of BreakInsideBraces. */
  lemma BreakTerms(ts: seq<Token>, known: set<string>, st: State)
    requires Inv(ts, st) && Plain(Peek(ts, st.pos)) && Peek(ts, st.pos + 1).kind == Enter
    requires Plain(Peek(ts, st.pos + 2)) && Peek(ts, st.pos + 3).kind == CloseBracket
    ensures MoreTerm(ts, known, st) == Ok(st.(pos := st.pos + 3))
  {
    ConstTerm(ts, known, st);
    ConstTerm(ts, known, st.(pos := st.pos + 1));
    ConstTerm(ts, known, st.(pos := st.pos + 2));
    assert MoreTerm(ts, known, st.(pos := st.pos + 3)) == Ok(st.(pos := st.pos + 3));
  }

  /** A text token other than `]`, or a line break, is one constant term. */
  lemma ConstTerm(ts: seq<Token>, known: set<string>, st: State)
    requires Inv(ts, st) && (Plain(Peek(ts, st.pos)) || Peek(ts, st.pos).kind == Enter)
    ensures MoreTerm(ts, known, st) == MoreTerm(ts, known, st.(pos := st.pos + 1))
  {
    assert Term(ts, known, st) == Ok(st.(pos := st.pos + 1));
  }

  /** The grid after a head token `t` and then heads `hs`, in terms of the
      grid `g1` and counter `m1` right after `t`'s item. */
  lemma HeadsCombine(g: Grid, m: nat, t: Token, hs: seq<Token>, g1: Grid, m1: nat, after: State)
    requires GridOk(g) && GridOk(g1)
    requires t.kind == Ampersand ==> g1 == Grid(g.cells[..g.rowNum] + [g.cells[g.rowNum] + [m]], g.rowNum)
    requires t.kind == Enter ==> g1 == Grid(g.cells + [[m]], g.rowNum + 1)
    requires t.kind != Ampersand && t.kind != Enter ==> g1 == g
    requires m1 == m + (if t.kind == Ampersand || t.kind == Enter then 1 else 0)
    requires after.grid.rowNum == g1.rowNum + CountKind(hs, Enter)
    requires after.grid.cells == Filled(g1, m1, Lines(hs))
    requires after.nextCell == m1 + CountKind(hs, Ampersand) + CountKind(hs, Enter)
    ensures var body := [t] + hs;
      && after.grid.rowNum == g.rowNum + CountKind(body, Enter)
      && after.grid.cells == Filled(g, m, Lines(body))
      && after.nextCell == m + CountKind(body, Ampersand) + CountKind(body, Enter)
  {
    var body := [t] + hs;
    assert body[0] == t && body[1..] == hs;
    LinesCons(body);
    if t.kind == Ampersand {
      FilledAmpersand(g, m, t, Lines(hs));
    } else if t.kind == Enter {
      FilledEnter(g, m, Lines(hs));
    } else {
      FilledOther(g, m, t, Lines(hs));
    }
  }

  /** No lines read: the grid is as it was. */
  lemma FilledNothing(g: Grid, m: nat)
    requires GridOk(g)
    ensures Filled(g, m, Lines([])) == g.cells
  {
    assert Lines([]) == [[]];
    assert CountKind(Lines([])[0], Ampersand) == 0;
    assert Range(m, 0) == [];
    assert Numbered(m, Lines([])[1..]) == [];
    CurrentRowLast(g);
    assert g.cells[g.rowNum] + [] == g.cells[g.rowNum];
  }

  /** Any matrix body read successfully without meeting `\begin`: the grid
      gains the rows and cells of the lines of its item heads, whatever the
      items hold. Line breaks and `&` inside an item (within braces, say)
      are not heads and open nothing. */
  lemma {:induction false} HeadsGrid(ts: seq<Token>, known: set<string>, st: State)
    requires Inv(ts, st)
    requires var r := MoreMatrix(ts, known, st);
      r.Ok? && NoBegin(ts, st.pos, r.st.pos)
    ensures var r := MoreMatrix(ts, known, st);
      var hs := Heads(ts, known, st);
      && r.st.grid.rowNum == st.grid.rowNum + CountKind(hs, Enter)
      && r.st.grid.cells == Filled(st.grid, st.nextCell, Lines(hs))
      && r.st.nextCell == st.nextCell + CountKind(hs, Ampersand) + CountKind(hs, Enter)
    decreases |ts| - st.pos
  {
    var t := Peek(ts, st.pos);
    var hs := Heads(ts, known, st);
    if !IsCellStart(t) {
      MoreMatrixStops(ts, known, st);
      FilledNothing(st.grid, st.nextCell);
    } else {
      HeadsStep(ts, known, st);
      var i := Item(ts, known, st);
      ItemGrid(ts, known, st);
      HeadsGrid(ts, known, i.st);
      HeadsCombine(st.grid, st.nextCell, t, Heads(ts, known, i.st), i.st.grid, i.st.nextCell,
                   MoreMatrix(ts, known, st).st);
    }
  }

  /** The grid a block builds from any body without a nested `\begin`,
      just before its `\end`: the cell `\begin` opens heads the first
      line's cells in the current row, and every further line of item
      heads is a new row headed by its line break's cell. */
  lemma HeadsBlockGrid(ts: seq<Token>, known: set<string>, st: State)
    requires Inv(ts, st) && st.pos + 4 <= |ts|
    requires var r2 := Matrix(ts, known, Opened(st));
      r2.Ok? && NoBegin(ts, st.pos + 4, r2.st.pos)
    ensures var r2 := Matrix(ts, known, Opened(st));
      r2.st.grid.cells == BlockCells(st.grid, st.nextCell, Lines(Heads(ts, known, Opened(st))))
  {
    var o := Opened(st);
    MatrixIsMoreMatrix(ts, known, o);
    HeadsGrid(ts, known, o);
    FilledAfterBegin(st, Lines(Heads(ts, known, o)), Matrix(ts, known, o).st.grid.cells);
  }

  /** `\begin{a}` at `st.pos`, `\end{b}` at `e` and simple items between. */
  predicate SimpleBlock(ts: seq<Token>, known: set<string>, st: State, e: nat)
  {
    && Inv(ts, st) && st.pos + 4 <= e
    && EnvAt(ts, st.pos, "begin") && EnvAt(ts, e, "end")
    && (forall i :: st.pos + 4 <= i < e ==> Simple(known, ts[i]))
  }

  /** `\begin{a}` or `\end{a}` at `p`, with an accepted name `a`. */
  predicate EnvAt(ts: seq<Token>, p: nat, cmd: string)
  {
    && p + 4 <= |ts|
    && ts[p] == Token(Command, cmd) && ts[p + 1] == Token(OpenBracket, "{")
    && ts[p + 2].kind == Text && IsEnvName(ts[p + 2].value)
    && ts[p + 3] == Token(CloseBracket, "}")
  }

  /** The state in which the matrix body of a block starts: the first cell
      added to the current row, the opening name read. */
  function Opened(st: State): (r: State)
    requires GridOk(st.grid)
    ensures GridOk(r.grid) && r.pos == st.pos + 4 && r.nextCell == st.nextCell + 1
  {
    var g := st.grid;
    st.(pos := st.pos + 4, grid := Grid(g.cells[..g.rowNum] + [g.cells[g.rowNum] + [st.nextCell]], g.rowNum),
        nextCell := st.nextCell + 1)
  }

  /** `\begin{a}` adds the first cell to the current row before reading
      the name. */
  lemma BlockOpens(ts: seq<Token>, known: set<string>, st: State, e: nat)
    requires SimpleBlock(ts, known, st, e)
    ensures EnvName(ts, AddCell(Next(ts, st)), false) == Ok(Opened(st))
  {
  }

  /** `\end{b}` clears the grid. */
  lemma BlockCloses(ts: seq<Token>, st: State)
    requires Inv(ts, st) && EnvAt(ts, st.pos, "end")
    ensures EnvName(ts, Next(ts, st), true) == Ok(st.(pos := st.pos + 4, grid := EmptyGrid))
  {
  }

  lemma RangeCons(m: nat, a: nat)
    ensures Range(m, 1 + a) == [m] + Range(m + 1, a)
  {
  }

  /** The cells of a block's grid just before its `\end`, when its body's
      lines were read into grid `g` with `m` the next identifier: the cell
      `\begin` opens, `m`, and one cell per `&` of the first line follow the
      current row's cells; every further line is a new row headed by its
      line break's cell; identifiers run on consecutively. */
  function BlockCells(g: Grid, m: nat, lines: seq<seq<Token>>): seq<seq<nat>>
    requires GridOk(g) && |lines| > 0
  {
    var a := CountKind(lines[0], Ampersand);
    g.cells[..g.rowNum] + [g.cells[g.rowNum] + Range(m, 1 + a)] + Numbered(m + 1 + a, lines[1..])
  }

  /** Filling lines after the `\begin` cell gives the block's cells. */
  lemma FilledAfterBegin(st: State, lines: seq<seq<Token>>, cells: seq<seq<nat>>)
    requires GridOk(st.grid) && |lines| > 0
    requires cells == Filled(Opened(st).grid, Opened(st).nextCell, lines)
    ensures cells == BlockCells(st.grid, st.nextCell, lines)
  {
    var g := st.grid;
    var m := st.nextCell;
    var k := g.rowNum;
    var pre := g.cells[..k];
    var row := g.cells[k];
    var g' := Opened(st).grid;
    assert g' == Grid(pre + [row + [m]], k);
    var a := CountKind(lines[0], Ampersand);
    var rest := Numbered(m + 1 + a, lines[1..]);
    assert g'.cells[..k] == pre;
    assert g'.cells[k] == row + [m];
    assert Filled(g', m + 1, lines) == pre + [(row + [m]) + Range(m + 1, a)] + rest;
    RangeCons(m, a);
    assert (row + [m]) + Range(m + 1, a) == row + Range(m, 1 + a);
  }

  /** From an empty grid, the rows are exactly the numbered lines. */
  lemma FilledFromEmpty(m: nat, lines: seq<seq<Token>>, cells: seq<seq<nat>>)
    requires |lines| > 0 && cells == BlockCells(EmptyGrid, m, lines)
    ensures cells == Numbered(m, lines)
  {
    var a := CountKind(lines[0], Ampersand);
    var first: seq<nat> := EmptyGrid.cells[0];
    assert first == [] && first + Range(m, 1 + a) == Range(m, 1 + a);
    assert EmptyGrid.cells[..0] + [first + Range(m, 1 + a)] == [Range(m, 1 + a)];
  }

  /** The grid a block builds from a body of simple items, just before its
      `\end`: the cell `\begin` opens heads the first line's cells in the
      current row, and every further line is a new row headed by its line
      break's cell, with identifiers running on consecutively. */
  lemma BlockGrid(ts: seq<Token>, known: set<string>, st: State, e: nat)
    requires Inv(ts, st) && st.pos + 4 <= e <= |ts|
    requires forall i :: st.pos + 4 <= i < e ==> Simple(known, ts[i])
    requires !IsCellStart(Peek(ts, e))
    ensures var r2 := Matrix(ts, known, Opened(st));
      && r2.Ok? && r2.st.pos == e
      && r2.st.grid.cells == BlockCells(st.grid, st.nextCell, Lines(ts[st.pos + 4..e]))
  {
    var o := Opened(st);
    var lines := Lines(ts[st.pos + 4..e]);
    assert o.pos == st.pos + 4;
    MatrixBody(ts, known, o, e);
    FilledAfterBegin(st, lines, Matrix(ts, known, o).st.grid.cells);
  }

  /** A block read from an empty grid: its rows are exactly the numbered
      lines of its body. */
  lemma BlockGridFromEmpty(ts: seq<Token>, known: set<string>, st: State, e: nat)
    requires Inv(ts, st) && st.pos + 4 <= e <= |ts| && st.grid == EmptyGrid
    requires forall i :: st.pos + 4 <= i < e ==> Simple(known, ts[i])
    requires !IsCellStart(Peek(ts, e))
    ensures Matrix(ts, known, Opened(st)).st.grid.cells == Numbered(st.nextCell, Lines(ts[st.pos + 4..e]))
  {
    BlockGrid(ts, known, st, e);
    FilledFromEmpty(st.nextCell, Lines(ts[st.pos + 4..e]), Matrix(ts, known, Opened(st)).st.grid.cells);
  }

  /** Such a block is accepted for any two environment names, whether or not
      they agree; the grid is clear afterwards and only the position and the
      identifier counter have changed. */
  lemma SimpleBlockAccepted(ts: seq<Token>, known: set<string>, st: State, e: nat)
    requires SimpleBlock(ts, known, st, e)
    ensures var r := Block(ts, known, st);
      var body := ts[st.pos + 4..e];
      r == Ok(st.(pos := e + 4, grid := EmptyGrid,
                  nextCell := st.nextCell + 1 + CountKind(body, Ampersand) + CountKind(body, Enter)))
  {
    BlockOpens(ts, known, st, e);
    MatrixBody(ts, known, Opened(st), e);
    var r2 := Matrix(ts, known, Opened(st));
    assert r2.st.pos == e;
    BlockParts(ts, known, st, Opened(st), r2);
    BlockCloses(ts, r2.st);
  }

  /** A block whose opening and body are read and whose body stops at
      `\end` ends with the closing name. */
  lemma BlockParts(ts: seq<Token>, known: set<string>, st: State, o: State, r2: Res)
    requires Inv(ts, st) && Peek(ts, st.pos) == Token(Command, "begin")
    requires EnvName(ts, AddCell(Next(ts, st)), false) == Ok(o)
    requires r2 == Matrix(ts, known, o) && r2.Ok? && Peek(ts, r2.st.pos) == Token(Command, "end")
    ensures Block(ts, known, st) == EnvName(ts, Next(ts, r2.st), true)
  {
  }

  // ---------------------------------------------------------------------
  // Tables

  /** is_space and get_space_size agree: exactly the spacing commands have a
      width, and only the negative thin space `\!` pulls back. */
  lemma SpaceTable(v: string, scale: real)
    requires scale > 0.0
    ensures IsSpace(v) <==> SpaceSize(v, scale) != 0.0
    ensures SpaceSize(v, scale) < 0.0 <==> v == "!"
    ensures v == "qquad" ==> SpaceSize(v, scale) == 2.0 * SpaceSize("quad", scale)
  {
  }

  /** Every one-character command the tokenizer produces is a spacing
      command, so `\!`, `\,`, `\:` and `\;` never need the symbol table. */
  lemma LexedSpacing(s: string)
    requires s != [] && ClassOf(s[0]) == SpacingChar
    ensures GetToken("\\" + s).0.kind == Command && IsSpace(GetToken("\\" + s).0.value)
  {
    AfterBackslash(s);
  }

  /** Matrix delimiters: the five bracketed environments get a non-empty
      left and right delimiter of the same length; `matrix`, `Pmatrix` and
      any other name get none, although `Pmatrix` is an accepted name. */
  lemma BracketTable(v: string)
    ensures var (l, r) := MatrixBrackets(v);
      && (l != "" <==> v in {"bmatrix", "Bmatrix", "pmatrix", "vmatrix", "Vmatrix"})
      && |l| == |r|
      && (l == "" ==> r == "")
    ensures IsEnvName("Pmatrix") && MatrixBrackets("Pmatrix") == ("", "")
  {
  }
}
