/** The recursive-descent recogniser of the equation markup (analyser.py,
    SyntaxAnalyser) with every rendering call stubbed out. It reads the token
    stream `ts` of the markup at a position `pos`: since pushing a token back
    and reading again gives the same token and the same rest
    (LexerLemmas.PushBackTransparent), the one-token push-back of the source
    is a peek at `ts[pos]`. What is left is the bookkeeping the source keeps
    between productions: the script levels, the fraction depth, the
    square-root flag, the sum flag and the matrix grid. */
module Parser {
  import opened Lexer
  import Layout

  /** Levels: the stack of open exponents and indices, the global
      "index and exponent combined" flag, and the fraction depth. */
  datatype Levels = Levels(eiArray: seq<Layout.Tag>, expIx: bool, frac: nat)

  /** The matrix grid: one sequence of cell identifiers per row, and the
      number of the row being filled. */
  datatype Grid = Grid(cells: seq<seq<nat>>, rowNum: nat)

  /** The current row always exists. */
  predicate GridOk(g: Grid)
  {
    |g.cells| == g.rowNum + 1
  }

  const EmptyGrid := Grid([[]], 0)

  /** The recogniser's state; `nextCell` names the next cell created. */
  datatype State = State(pos: nat, levels: Levels, sqrt: bool, sumActive: bool,
                         grid: Grid, nextCell: nat)

  /** The first error message the source prints on a failing path;
      `NoMessage` where it fails without printing. The warning gen_math_sym
      prints for an unknown command after a script marker is not one of
      them: the source goes on parsing after it (see AfterScript). */
  datatype Diag =
    | NoTerminal        // no corresponding terminals
    | MissingClose      // missing closing bracket
    | BadMatrix         // error in the syntax of environment 'matrix'
    | BadSqrt           // error in the syntax of command 'sqrt'
    | BadFrac           // error in the syntax of command 'frac'
    | BadScript         // error in creating exponent or index
    | OnlyOnce          // index and exponent may be combined only once
    | UseBraces         // use brackets for multiple exponents or indices
    | UnknownSymbol(name: string)
    | NotAllRead        // not all tokens have been read
    | NoMessage

  datatype Res = Ok(st: State) | Err(st: State, diag: Diag)

  /** The first message on a path where an inner part failed and the
      enclosing production then prints `own`: the inner part's message if
      it printed one, else `own`. */
  function FirstOf(inner: Diag, own: Diag): (r: Diag)
    ensures r == inner || r == own
    ensures r == NoMessage <==> inner == NoMessage && own == NoMessage
  {
    if inner == NoMessage then own else inner
  }

  const InitialLevels := Levels([], false, 0)

  const Initial := State(0, InitialLevels, false, false, EmptyGrid, 0)

  // ---------------------------------------------------------------------
  // Token stream

  /** The token at `pos`; past the end the tokenizer keeps returning End. */
  function Peek(ts: seq<Token>, pos: nat): (t: Token)
    ensures pos < |ts| ==> t == ts[pos]
    ensures t.kind != End ==> pos < |ts|
  {
    if pos < |ts| then ts[pos] else Token(End, "")
  }

  /** Consumes the current token (nothing once the stream is exhausted). */
  function Next(ts: seq<Token>, st: State): (r: State)
    ensures r == st.(pos := r.pos)
    ensures st.pos < |ts| ==> r.pos == st.pos + 1
    ensures st.pos >= |ts| ==> r.pos == st.pos
  {
    if st.pos < |ts| then st.(pos := st.pos + 1) else st
  }

  /** What every state reached by the recogniser satisfies. */
  predicate Inv(ts: seq<Token>, st: State)
  {
    st.pos <= |ts| && GridOk(st.grid)
  }

  /** What every production guarantees, whether it succeeds or fails: it
      only reads forward, keeps the grid well formed and never lowers the
      fraction depth. */
  predicate Steps(ts: seq<Token>, st: State, r: Res)
  {
    st.pos <= r.st.pos <= |ts| && GridOk(r.st.grid)
    && r.st.levels.frac >= st.levels.frac
    && r.st.nextCell >= st.nextCell
  }

  /** What every successful production restores: the levels exactly, and
      once set the square-root flag stays set. */
  predicate Kept(st: State, s: State)
  {
    s.levels == st.levels && (st.sqrt ==> s.sqrt)
  }

  /** No `\begin` among the tokens from `i` up to `j`. Only a block touches
      the matrix grid, and every block starts with `\begin`, so a
      production that succeeds over such a stretch leaves the grid alone. */
  predicate NoBegin(ts: seq<Token>, i: nat, j: nat)
  {
    forall k :: i <= k < j && k < |ts| ==> ts[k] != Token(Command, "begin")
  }

  /** The grid and the cell counter are as they were. */
  predicate GridKept(st: State, s: State)
  {
    s.grid == st.grid && s.nextCell == st.nextCell
  }

  // ---------------------------------------------------------------------
  // Token classes

  /** is_const */
  predicate IsConst(t: Token)
  {
    t.kind == Text || t.kind == SpecialChar || t.kind == Underscore || t.kind == Caret
      || t.kind == Enter
  }

  /** is_command: an open bracket, or any command but `end`. */
  predicate IsCommand(t: Token)
  {
    t.kind == OpenBracket || (t.kind == Command && t.value != "end")
  }

  /** is_block */
  predicate IsBlock(t: Token)
  {
    t == Token(Command, "begin")
  }

  /** The tokens that open a matrix cell item. */
  predicate IsCellStart(t: Token)
  {
    IsCommand(t) || IsConst(t) || t.kind == Ampersand
  }

  predicate IsScript(t: Token)
  {
    t.kind == Underscore || t.kind == Caret
  }

  // ---------------------------------------------------------------------
  // Tables

  /** is_space: the spacing commands. */
  predicate IsSpace(v: string)
  {
    v == "!" || v == "," || v == ":" || v == ";" || v == " " || v == "quad" || v == "qquad"
  }

  /** get_space_size: the width a spacing command adds, in units of the
      current scale; 0 for anything else. */
  function SpaceSize(v: string, scale: real): real
  {
    if v == "!" then -0.1 * scale
    else if v == "," then 0.15 * scale
    else if v == ":" then 0.2 * scale
    else if v == ";" then 0.25 * scale
    else if v == " " then 0.3 * scale
    else if v == "quad" then 0.6 * scale
    else if v == "qquad" then 1.2 * scale
    else 0.0
  }

  /** The environment names is_matrix_figure accepts. */
  predicate IsEnvName(v: string)
  {
    || v == "bmatrix" || v == "Bmatrix" || v == "matrix" || v == "pmatrix"
    || v == "Pmatrix" || v == "vmatrix" || v == "Vmatrix"
  }

  /** get_mx_brackets: the delimiters drawn around a matrix environment. */
  function MatrixBrackets(v: string): (string, string)
  {
    if v == "bmatrix" then ("[", "]")
    else if v == "Bmatrix" then ("{", "}")
    else if v == "pmatrix" then ("(", ")")
    else if v == "vmatrix" then ("|", "|")
    else if v == "Vmatrix" then ("||", "||")
    else ("", "")
  }

  // ---------------------------------------------------------------------
  // State updates

  function Push(st: State, tag: Layout.Tag): State
  {
    st.(levels := st.levels.(eiArray := st.levels.eiArray + [tag]))
  }

  /** `list.pop()` on the script stack; every call site pops a level it
      pushed itself. */
  function Pop(ei: seq<Layout.Tag>): seq<Layout.Tag>
  {
    if ei == [] then [] else ei[..|ei| - 1]
  }

  /** Total number of cells in the grid. */
  function CellCount(cells: seq<seq<nat>>): nat
  {
    if cells == [] then 0 else CellCount(cells[..|cells| - 1]) + |cells[|cells| - 1]|
  }

  /** A new cell at the end of the current row. */
  function AddCell(st: State): (r: State)
    requires GridOk(st.grid)
    ensures GridOk(r.grid) && r.grid.rowNum == st.grid.rowNum
    ensures r.grid.cells[..r.grid.rowNum] == st.grid.cells[..st.grid.rowNum]
    ensures r.grid.cells[r.grid.rowNum] == st.grid.cells[st.grid.rowNum] + [st.nextCell]
    ensures CellCount(r.grid.cells) == CellCount(st.grid.cells) + 1
    ensures r == st.(grid := r.grid, nextCell := st.nextCell + 1)
  {
    var g := st.grid;
    var cells := g.cells[..g.rowNum] + [g.cells[g.rowNum] + [st.nextCell]];
    assert cells[..|cells| - 1] == g.cells[..g.rowNum];
    assert g.cells[..|g.cells| - 1] == g.cells[..g.rowNum];
    st.(grid := Grid(cells, g.rowNum), nextCell := st.nextCell + 1)
  }

  /** A line break inside a matrix: a new row holding one new cell. */
  function NewRow(st: State): (r: State)
    requires GridOk(st.grid)
    ensures GridOk(r.grid) && r.grid.rowNum == st.grid.rowNum + 1
    ensures r.grid.cells == st.grid.cells + [[st.nextCell]]
    ensures CellCount(r.grid.cells) == CellCount(st.grid.cells) + 1
    ensures r == st.(grid := r.grid, nextCell := st.nextCell + 1)
  {
    var cells := st.grid.cells + [[st.nextCell]];
    assert cells[..|cells| - 1] == st.grid.cells;
    st.(grid := Grid(cells, st.grid.rowNum + 1), nextCell := st.nextCell + 1)
  }

  // ---------------------------------------------------------------------
  // Productions. Each takes the token stream, the set `known` of names in
  // the symbol table of gen_math_sym and the state; `decreases` pairs the
  // unread length with the rank of the production in the call graph.

  /** <MORE_TERM> -> <TERM> <MORE_TERM> | epsilon; a `]` ends it while the
      square-root flag is set. */
  function MoreTerm(ts: seq<Token>, known: set<string>, st: State): (r: Res)
    requires Inv(ts, st)
    ensures Steps(ts, st, r)
    ensures r.Ok? ==> Kept(st, r.st)
    ensures r.Ok? && NoBegin(ts, st.pos, r.st.pos) ==> GridKept(st, r.st)
    decreases |ts| - st.pos, 3
  {
    var t := Peek(ts, st.pos);
    if st.sqrt && t == Token(Text, "]") then Ok(st)
    else if IsConst(t) || IsCommand(t) || IsBlock(t) then
      var r1 := Term(ts, known, st);
      if r1.Err? then r1 else MoreTerm(ts, known, r1.st)
    else Ok(st)
  }

  /** <TERM> -> <CONST> | <BLOCK> | <COMMAND>, tried in that order. */
  function Term(ts: seq<Token>, known: set<string>, st: State): (r: Res)
    requires Inv(ts, st)
    ensures Steps(ts, st, r)
    ensures r.Ok? ==> Kept(st, r.st) && r.st.pos > st.pos
    ensures r.Ok? && NoBegin(ts, st.pos, r.st.pos) ==> GridKept(st, r.st)
    decreases |ts| - st.pos, 2
  {
    var t := Peek(ts, st.pos);
    if IsConst(t) then Const(ts, known, st)
    else if IsBlock(t) then Block(ts, known, st)
    else if IsCommand(t) then CommandTerm(ts, known, st)
    else Err(Next(ts, st), NoTerminal)
  }

  /** <CONST> -> text | special_symbols | enter | index_exponent <AFTER_EI>.
      A line break is accepted and ignored outside a matrix as well. */
  function Const(ts: seq<Token>, known: set<string>, st: State): (r: Res)
    requires Inv(ts, st)
    ensures Steps(ts, st, r)
    ensures r.Ok? ==> Kept(st, r.st) && r.st.pos > st.pos
    ensures r.Err? && IsScript(Peek(ts, st.pos)) ==> r.diag != NoMessage
    ensures r.Ok? && NoBegin(ts, st.pos, r.st.pos) ==> GridKept(st, r.st)
    decreases |ts| - st.pos, 1
  {
    var t := Peek(ts, st.pos);
    if t.kind == Text || t.kind == SpecialChar || t.kind == Enter then Ok(Next(ts, st))
    else if t.kind == Underscore then AfterScript(ts, known, Push(Next(ts, st), Layout.Ix), Underscore)
    else if t.kind == Caret then AfterScript(ts, known, Push(Next(ts, st), Layout.Exp), Caret)
    else Err(Next(ts, st), NoMessage)
  }

  /** <AFTER_EI> -> { <MORE_TERM> } | text | special_symbols | command,
      followed by the combination check. A command after a script marker is
      accepted whether or not it is a known symbol. */
  function AfterScript(ts: seq<Token>, known: set<string>, st: State, mode: Kind): (r: Res)
    requires Inv(ts, st) && |st.levels.eiArray| > 0
    ensures Steps(ts, st, r)
    ensures r.Ok? ==> r.st.levels == st.levels.(eiArray := Pop(st.levels.eiArray))
    ensures r.Ok? ==> (st.sqrt ==> r.st.sqrt) && r.st.pos > st.pos
    ensures r.Err? ==> r.diag != NoMessage
    ensures r.Ok? && NoBegin(ts, st.pos, r.st.pos) ==> GridKept(st, r.st)
    decreases |ts| - st.pos, 1
  {
    var t := Peek(ts, st.pos);
    if t.kind == OpenBracket then
      var r1 := Group(ts, known, st, BadScript);
      if r1.Err? then Err(r1.st, FirstOf(r1.diag, BadScript)) else BothScripts(ts, known, r1.st, mode)
    else if t.kind == Text || t.kind == SpecialChar || t.kind == Command then
      BothScripts(ts, known, Next(ts, st), mode)
    else Err(Next(ts, st), BadScript)
  }

  /** is_both_ei: after a script of kind `mode`, the opposite marker opens
      the paired script (allowed once, tracked by the single global flag);
      the same marker again is an error; anything else closes the level. */
  function BothScripts(ts: seq<Token>, known: set<string>, st: State, mode: Kind): (r: Res)
    requires Inv(ts, st) && |st.levels.eiArray| > 0
    ensures Steps(ts, st, r)
    ensures r.Ok? ==> r.st.levels == st.levels.(eiArray := Pop(st.levels.eiArray))
    ensures r.Ok? ==> (st.sqrt ==> r.st.sqrt)
    ensures r.Err? ==> r.diag != NoMessage
    ensures r.Ok? && NoBegin(ts, st.pos, r.st.pos) ==> GridKept(st, r.st)
    decreases |ts| - st.pos, 2
  {
    var t := Peek(ts, st.pos);
    if st.levels.expIx && IsScript(t) then Err(Next(ts, st), OnlyOnce)
    else if IsScript(t) && t.kind != mode then
      var paired := st.(levels := st.levels.(expIx := true, eiArray := Pop(st.levels.eiArray)));
      var r1 := Const(ts, known, paired);
      if r1.Err? then r1
      else Ok(r1.st.(levels := r1.st.levels.(expIx := false)))
    else if IsScript(t) then Err(Next(ts, st), UseBraces)
    else Ok(st.(levels := st.levels.(eiArray := Pop(st.levels.eiArray))))
  }

  /** `{ <MORE_TERM> }`; `missingOpen` is the diagnostic when the first
      token is not `{`. */
  function Group(ts: seq<Token>, known: set<string>, st: State, missingOpen: Diag): (r: Res)
    requires Inv(ts, st)
    ensures Steps(ts, st, r)
    ensures r.Ok? ==> Kept(st, r.st) && r.st.pos > st.pos
    ensures r.Ok? && NoBegin(ts, st.pos, r.st.pos) ==> GridKept(st, r.st)
    decreases |ts| - st.pos, 0
  {
    if Peek(ts, st.pos).kind != OpenBracket then Err(Next(ts, st), missingOpen)
    else
      var r1 := MoreTerm(ts, known, Next(ts, st));
      if r1.Err? then r1
      else if Peek(ts, r1.st.pos).kind != CloseBracket then Err(Next(ts, r1.st), MissingClose)
      else Ok(Next(ts, r1.st))
  }

  /** <COMMAND> -> { <MORE_TERM> } | sqrt <SQRT> | frac <FRAC> | sum/prod <SUM>
      | spacing | symbol; a symbol must be in the table. */
  function CommandTerm(ts: seq<Token>, known: set<string>, st: State): (r: Res)
    requires Inv(ts, st)
    ensures Steps(ts, st, r)
    ensures r.Ok? ==> Kept(st, r.st) && r.st.pos > st.pos
    ensures r.Ok? && NoBegin(ts, st.pos, r.st.pos) ==> GridKept(st, r.st)
    decreases |ts| - st.pos, 1
  {
    var t := Peek(ts, st.pos);
    if t.kind == OpenBracket then Group(ts, known, st, NoMessage)
    else if t.kind == Command then
      var s1 := Next(ts, st);
      if t.value == "sqrt" then Sqrt(ts, known, s1)
      else if t.value == "frac" then Frac(ts, known, s1)
      else if t.value == "sum" || t.value == "prod" then Sum(ts, known, s1, t.value)
      else if IsSpace(t.value) then Ok(s1)
      else if t.value in known then Ok(s1)
      else Err(s1, UnknownSymbol(t.value))
    else Err(Next(ts, st), NoMessage)
  }

  /** <SQRT> -> [ <MORE_TERM> ] { <MORE_TERM> } | { <MORE_TERM> }. The flag
      is set on entry and cleared only after the `]` of the multiplier form,
      right before the radicand re-enters this production. */
  function Sqrt(ts: seq<Token>, known: set<string>, st: State): (r: Res)
    requires Inv(ts, st)
    ensures Steps(ts, st, r)
    ensures r.Ok? ==> Kept(st, r.st) && r.st.sqrt
    ensures r.Err? ==> r.diag != NoMessage
    ensures r.Ok? && NoBegin(ts, st.pos, r.st.pos) ==> GridKept(st, r.st)
    decreases |ts| - st.pos, 1
  {
    var s0 := st.(sqrt := true);
    var t := Peek(ts, s0.pos);
    if t == Token(Text, "[") then
      var r1 := MoreTerm(ts, known, Push(Next(ts, s0), Layout.Exp));
      if r1.Err? then Err(r1.st, FirstOf(r1.diag, BadSqrt))
      else if Peek(ts, r1.st.pos) != Token(Text, "]") then Err(Next(ts, r1.st), BadSqrt)
      else
        var s2 := Next(ts, r1.st);
        var s3 := s2.(sqrt := false, levels := s2.levels.(eiArray := Pop(s2.levels.eiArray)));
        if Peek(ts, s3.pos).kind != OpenBracket then Err(Next(ts, s3), BadSqrt)
        else Sqrt(ts, known, s3)
    else if t.kind == OpenBracket then
      var r1 := Group(ts, known, s0, BadSqrt);
      if r1.Err? then Err(r1.st, FirstOf(r1.diag, BadSqrt)) else r1
    else Err(Next(ts, s0), BadSqrt)
  }

  /** <FRAC> -> { <MORE_TERM> } { <MORE_TERM> }: one fraction level deeper
      while the two parts are read; the level is given back only on
      success. */
  function Frac(ts: seq<Token>, known: set<string>, st: State): (r: Res)
    requires Inv(ts, st)
    ensures Steps(ts, st, r)
    ensures r.Ok? ==> Kept(st, r.st) && r.st.pos > st.pos
    ensures r.Err? ==> r.st.levels.frac > st.levels.frac
    ensures r.Err? ==> r.diag != NoMessage
    ensures r.Ok? && NoBegin(ts, st.pos, r.st.pos) ==> GridKept(st, r.st)
    decreases |ts| - st.pos, 1
  {
    var s1 := st.(levels := st.levels.(frac := st.levels.frac + 1));
    var r1 := Group(ts, known, s1, BadFrac);
    if r1.Err? then Err(r1.st, FirstOf(r1.diag, BadFrac))
    else
      var r2 := Group(ts, known, r1.st, BadFrac);
      if r2.Err? then Err(r2.st, FirstOf(r2.diag, BadFrac))
      else Ok(r2.st.(levels := r2.st.levels.(frac := r2.st.levels.frac - 1)))
  }

  /** <SUM> -> index_exponent | epsilon, after the symbol `name`. When the
      scripts fail the source falls off the end of the function, which its
      caller reads as failure, and the sum flag stays set. */
  function Sum(ts: seq<Token>, known: set<string>, st: State, name: string): (r: Res)
    requires Inv(ts, st)
    ensures Steps(ts, st, r)
    ensures r.Ok? ==> Kept(st, r.st) && (!r.st.sumActive || r.st == st)
    ensures name !in known ==> r == Err(st, UnknownSymbol(name))
    ensures r.Ok? && NoBegin(ts, st.pos, r.st.pos) ==> GridKept(st, r.st)
    decreases |ts| - st.pos, 2
  {
    if name !in known then Err(st, UnknownSymbol(name))
    else if IsScript(Peek(ts, st.pos)) then
      var r1 := Const(ts, known, st.(sumActive := true));
      if r1.Err? then r1 else Ok(r1.st.(sumActive := false))
    else Ok(st)
  }

  /** is_matrix_figure: `{ name }` with a known environment name; after the
      closing name the grid is cleared. */
  function EnvName(ts: seq<Token>, st: State, closing: bool): (r: Res)
    requires Inv(ts, st)
    ensures Steps(ts, st, r)
    ensures r.Ok? ==> r.st.pos == st.pos + 3 && IsEnvName(ts[st.pos + 1].value)
    ensures r.Ok? ==> r.st == st.(pos := st.pos + 3, grid := if closing then EmptyGrid else st.grid)
  {
    var s1 := Next(ts, st);
    var s2 := Next(ts, s1);
    if Peek(ts, st.pos).kind != OpenBracket then Err(s1, BadMatrix)
    else if !(Peek(ts, s1.pos).kind == Text && IsEnvName(Peek(ts, s1.pos).value)) then Err(s2, BadMatrix)
    else if Peek(ts, s2.pos).kind != CloseBracket then Err(Next(ts, s2), MissingClose)
    else
      var s3 := Next(ts, s2);
      Ok(if closing then s3.(grid := EmptyGrid) else s3)
  }

  /** <BLOCK> -> begin { text } <MATRIX> end { text }. The first cell is
      created before the opening name is read; the two names need not
      agree. */
  function Block(ts: seq<Token>, known: set<string>, st: State): (r: Res)
    requires Inv(ts, st)
    ensures Steps(ts, st, r)
    ensures r.Ok? ==> Kept(st, r.st) && r.st.pos > st.pos && r.st.grid == EmptyGrid
    decreases |ts| - st.pos, 1
  {
    if Peek(ts, st.pos) != Token(Command, "begin") then Err(Next(ts, st), NoMessage)
    else
      var r1 := EnvName(ts, AddCell(Next(ts, st)), false);
      if r1.Err? then r1
      else
        var r2 := Matrix(ts, known, r1.st);
        if r2.Err? then r2
        else if Peek(ts, r2.st.pos) != Token(Command, "end") then Err(Next(ts, r2.st), NoMessage)
        else EnvName(ts, Next(ts, r2.st), true)
  }

  /** <MATRIX> -> <COMMAND> <MORE_MATRIX> | <CONST> <MORE_MATRIX>
      | & <MORE_MATRIX> | epsilon. A line break opens a new row before it is
      read as a constant; `&` opens a new cell in the current row. */
  function Matrix(ts: seq<Token>, known: set<string>, st: State): (r: Res)
    requires Inv(ts, st)
    ensures Steps(ts, st, r)
    ensures r.Ok? ==> Kept(st, r.st)
    ensures r.Ok? && IsCellStart(Peek(ts, st.pos)) ==> r.st.pos > st.pos
    ensures r.Ok? ==> !IsCellStart(Peek(ts, r.st.pos))
    ensures r.Err? ==> r.diag != NoMessage
    decreases |ts| - st.pos, 2
  {
    var t := Peek(ts, st.pos);
    if IsCommand(t) then
      var r1 := CommandTerm(ts, known, st);
      if r1.Err? then Err(r1.st, FirstOf(r1.diag, BadMatrix)) else MoreMatrix(ts, known, r1.st)
    else if IsConst(t) then
      var r1 := Const(ts, known, if t.kind == Enter then NewRow(st) else st);
      if r1.Err? then Err(r1.st, FirstOf(r1.diag, BadMatrix)) else MoreMatrix(ts, known, r1.st)
    else if t.kind == Ampersand then MoreMatrix(ts, known, AddCell(Next(ts, st)))
    else Ok(st)
  }

  /** <MORE_MATRIX> -> <MATRIX> <MORE_MATRIX> | epsilon */
  function MoreMatrix(ts: seq<Token>, known: set<string>, st: State): (r: Res)
    requires Inv(ts, st)
    ensures Steps(ts, st, r)
    ensures r.Ok? ==> Kept(st, r.st) && !IsCellStart(Peek(ts, r.st.pos))
    ensures r.Err? ==> r.diag != NoMessage
    decreases |ts| - st.pos, 3
  {
    if IsCellStart(Peek(ts, st.pos)) then
      var r1 := Matrix(ts, known, st);
      if r1.Err? then r1 else MoreMatrix(ts, known, r1.st)
    else Ok(st)
  }

  /** <PROG> -> <TERM> <MORE_TERM>, and then every token must have been
      read. */
  function Prog(ts: seq<Token>, known: set<string>, st: State): (r: Res)
    requires Inv(ts, st)
    ensures Steps(ts, st, r)
    ensures r.Ok? ==> Kept(st, r.st) && (r.st.pos == |ts| || (0 < r.st.pos && ts[r.st.pos - 1].kind == End))
  {
    var r1 := Term(ts, known, st);
    if r1.Err? then r1
    else
      var r2 := MoreTerm(ts, known, r1.st);
      if r2.Err? then r2
      else if Peek(ts, r2.st.pos).kind != End then Err(Next(ts, r2.st), NotAllRead)
      else Ok(Next(ts, r2.st))
  }

  /** The whole compile step: tokenize, then recognise from the initial
      state. */
  function Compile(s: string, known: set<string>): Res
  {
    Prog(Tokenize(s), known, Initial)
  }
}
