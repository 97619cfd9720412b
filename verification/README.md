# Equation markup: tokenizer, recogniser and layout arithmetic

A model of the compile step of a Blender add-on that typesets a LaTeX-like
equation markup as 3-D text. The model covers three parts:

- **`Lexer`** (lexer.dfy) models `LexicalAnalyser` in analyser.py.
  - `get_char` classifies characters into `CharClass`.
  - `get_token`'s four-state loop is `Run` / `GetToken`.
  - `return_token` pushes a token back.
  - `Tokenize` gives the resulting token stream.
- **`Parser`** (parser.dfy) models the recursive-descent `SyntaxAnalyser`: `sa_prog`, `sa_term`, `sa_more_term`, `sa_const`, `sa_after_ei`, `is_both_ei`, `sa_command`, `sa_sqrt`, `sa_frac`, `sa_sum`, `sa_block`, `is_matrix_figure`, `sa_matrix` and `sa_more_matrix`.
  - Every Blender call is stubbed out.
  - What remains is the bookkeeping the source keeps between productions:
    - the exponent/index stack `ei_array`;
    - the global `exp_ix` flag;
    - the fraction depth;
    - the square-root flag;
    - the sum flag;
    - the matrix grid `obj_array`/`row_num`.
  - Each production returns `Ok(state)` or `Err(state, diagnostic)`. The diagnostic is the first error message the source prints on that path. Where an inner part fails silently and the enclosing production then prints (`sa_after_ei`, `sa_sqrt`, `sa_frac`, `sa_matrix`), that production's message is reported (`Parser.FirstOf`).
  - The one-token push-back of the source is a peek at the token stream. `LexerLemmas.PushBackTransparent` justifies this.
- **`Layout`** (layout.dfy) models the pure arithmetic of generator.py:
  - `gen_calculate`'s scale and baseline rules;
  - `gen_position`'s cursor advance;
  - the extent folds `gen_group_width`, `gen_min_x`, `gen_group_height` and `gen_min_y` over bounding boxes;
  - the fraction docking `gen_frac_num`/`gen_frac_den`, `gen_center`, `gen_center_sum`, and the fraction bar choice in `sa_frac`;
  - the column rule of `gen_matrix_x`.

`LexerLemmas` and `ParserLemmas` hold the properties that relate several calls.

The main properties proved are:

- **Lexer round trip.** Reading a token, pushing it back and reading again gives the same token and rest, for every input.
- **Lexer shape.** Tokens are maximal runs, and get_token reports End exactly on blank text.
- **`gen_calculate`.** Its counter loop agrees with an independent recursive definition of level scale and offset.
- **Script-combination guard** (`is_both_ei`), including its global-flag quirks.
- **Square-root flag** behaviour.
- **Matrix grid.** The grid a block builds: the `\begin` cell extends the current row, every line break that starts a cell item opens a row with its own cell, and every `&` appends a cell to its row. Items nested inside a cell leave the grid alone.
- **Column rule.** Each matrix column is the largest value present in it.

## Model

| member | source | states |
|---|---|---|
| Lexer.Run | analyser.py:64-145 | the get_token loop from any state consumes a suffix of the text, and strictly shortens it from the start state |
| Lexer.GetToken | analyser.py:64-145 | on non-empty text at least one character is consumed; what is left is a suffix of the input |
| Lexer.ReturnToken | analyser.py:194-198 | the text grows by exactly the token's value plus one backslash for commands, escapes and line breaks, and keeps the old text as its suffix |
| Lexer.Tokenize | analyser.py:72-74 | the stream ends with exactly one End token, and no earlier token is End |
| LexerLemmas.TextRun | analyser.py:137-144 | the text state reads the longest run of ordinary and spacing characters and stops at the first other character |
| LexerLemmas.TextRunInverse | analyser.py:137-144 | a maximal run of text characters is read back as exactly that text token, leaving the rest |
| LexerLemmas.LettersAreOrdinary | analyser.py:128 | a letter is always an OTHER character, so the name test is the letter test |
| LexerLemmas.LetterStartsName | analyser.py:118-119 | after a backslash a letter enters the command-name state |
| LexerLemmas.NameRun | analyser.py:127-134 | the command-name state reads the longest run of letters, and what follows is not a letter |
| LexerLemmas.NameRunInverse | analyser.py:127-134 | a maximal run of letters is read back as exactly that command name |
| LexerLemmas.CommandPushable | analyser.py:102-134 | every token read after a backslash has the shape of a command, escape or line break |
| LexerLemmas.StartPushable | analyser.py:64-145 | every (token, rest) pair get_token produces is one that push-back can restore |
| LexerLemmas.GetTokenPushable | analyser.py:64-145 | the same fact for get_token on any text |
| LexerLemmas.CommandReadBack | analyser.py:102-134 | a command value of any admissible shape (spacing mark, `\ ` fallback, empty or letter name) is read back from `value + rest` after its backslash |
| LexerLemmas.TextRoundTrip | analyser.py:194-198 | a pushed-back text token (a run or a lone `[`/`]`) is read again unchanged |
| LexerLemmas.CommandRoundTrip | analyser.py:194-198 | a pushed-back command is read again unchanged, with the same rest |
| LexerLemmas.EscapeRoundTrip | analyser.py:194-198 | a pushed-back escaped character or line break is read again unchanged |
| LexerLemmas.MarkRoundTrip | analyser.py:194-198 | a pushed-back `{ } ^ _ &` token is read again unchanged |
| LexerLemmas.ReturnTokenRoundTrip | analyser.py:194-198 | for every token shape the tokenizer can produce, return_token followed by get_token gives back the token and the rest |
| LexerLemmas.GetTokenRoundTrip | analyser.py:194-198 | get_token, return_token, get_token equals get_token, for every input |
| LexerLemmas.PushBackTransparent | analyser.py:194-198 | pushing the first token back leaves the whole token stream unchanged |
| LexerLemmas.EndIffBlank | analyser.py:72-89 | get_token returns END exactly when only spaces and line feeds remain, and then consumes them all |
| LexerLemmas.CommandKinds | analyser.py:102-124 | after a backslash the token is a command, an escaped character or a line break, never anything else |
| LexerLemmas.LetterCommand | analyser.py:118-134 | a letter after a backslash yields a non-empty command name of letters that, together with the rest, gives back the text |
| LexerLemmas.AfterBackslash | analyser.py:102-134 | the complete table of what a backslash turns the next character into (end of text, escape, line break, spacing, name, empty name, `\ ` fallback) |
| Layout.Calculate | generator.py:290-331 | the scale and height equal the independent reference LevelScale and line plus Offset of the level stack; width and line are untouched |
| Layout.WalkMatches | generator.py:306-331 | the loop, resumed after any prefix of the stack, agrees with the reference scale and offset of the whole stack |
| Layout.WalkFromEmpty | generator.py:290-331 | the whole loop from empty counters yields the reference scale and offset |
| Layout.ScaleChoices | generator.py:296-316 | the scale is 1, 0.65 or 0.45 times the user scale: 0.65 at the first level outside nested fractions, 0.45 deeper |
| Layout.ExpRaisesHeight | generator.py:320-325 | pushing an exponent raises the baseline by 0.75 (first) or 0.5 (later) of the new scale |
| Layout.IxLowersHeight | generator.py:326-331 | pushing an index lowers the baseline by 0.5 (first) or 0.25 (later) of the new scale |
| Layout.Place | generator.py:56-73 | placing keeps scale, height and line; the cursor only moves when asked and then strictly forward |
| Layout.RunAdvanceClosed | analyser.py:789-795 | the token-by-token advance of a run of text tokens is (sum of widths + 0.1 per token) times the scale |
| Layout.TypesetRunAdvance | analyser.py:789-795 | typesetting a run of text tokens, one object per token as sa_const does, moves the cursor by that advance at the level's scale and leaves the line alone |
| Layout.GroupWidth | generator.py:451-472 | 0 for an empty group, otherwise the right edge of some box that no box exceeds |
| Layout.MinX | generator.py:475-496 | 0 for an empty group, otherwise the left edge of some box that no box undercuts |
| Layout.GroupHeight | generator.py:499-520 | 0 for an empty group, otherwise the top of some box that no box exceeds |
| Layout.MinY | generator.py:523-544 | 0 for an empty group, otherwise the bottom of some box that no box undercuts |
| Layout.ShiftYExtents | generator.py:410-433 | moving a group vertically moves its lowest and highest points by the same amount |
| Layout.FracNum | generator.py:410-419 | the numerator keeps its x extents and its lowest point lands 0.6 scale above the baseline |
| Layout.FracDen | generator.py:423-432 | the denominator keeps its x extents and its highest point lands 0.1 scale above the baseline |
| Layout.CenterShift | generator.py:436-447 | the shift is half the (non-negative) difference of the two widths |
| Layout.CenterAligns | generator.py:436-447 | the shift does not depend on argument order, and two groups starting together end up sharing a midpoint |
| Layout.CenterSumShift | generator.py:364-377 | the label is moved by half the width difference, leftwards exactly when it is wider than the symbol |
| Layout.FracBar | analyser.py:589-601 | the bar is as long as the wider part, and the numerator is the one centred exactly when the denominator is wider |
| Layout.ColumnWidths | generator.py:563-578 | one column per cell of the longest row; each column value is the largest cell value in it, is attained by some cell (or is 0), and is never negative |
| Parser.FirstOf | analyser.py:514-517 | after a failed inner part the first message is the inner part's if it printed one, else the production's own; none only when neither prints |
| Parser.AddCell | analyser.py:400 | a new cell with the next identifier is appended to the current row; other rows and the row number are unchanged |
| Parser.NewRow | analyser.py:379-381 | a new row holding one new cell is appended and becomes the current row |
| Parser.MoreTerm | analyser.py:970-989 | reads forward only; on success the levels are restored and a set square-root flag stays set; a success over tokens holding no `\begin` leaves the grid and the cell counter alone |
| Parser.Term | analyser.py:940-966 | on success at least one token is read and the levels are restored; a success over tokens holding no `\begin` leaves the grid and the cell counter alone |
| Parser.Const | analyser.py:785-817 | on success at least one token is read and the levels are restored; a failing script always reports a message; a success over tokens holding no `\begin` leaves the grid and the cell counter alone |
| Parser.AfterScript | analyser.py:738-779 | on success exactly the level the marker pushed is popped, and at least one token is read; a failure always reports a message, "error in creating exponent or index" when the braced terms failed silently; a success over tokens holding no `\begin` leaves the grid and the cell counter alone |
| Parser.BothScripts | analyser.py:663-731 | on success the script level is popped; the levels are otherwise as on entry; a failure always reports a message; a success over tokens holding no `\begin` leaves the grid and the cell counter alone |
| Parser.Group | analyser.py:824-834 | on success the braces and what they hold are read, and the levels are restored; a success over tokens holding no `\begin` leaves the grid and the cell counter alone |
| Parser.CommandTerm | analyser.py:823-880 | on success at least one token is read and the levels are restored; a success over tokens holding no `\begin` leaves the grid and the cell counter alone |
| Parser.Sqrt | analyser.py:432-518 | on success the levels are restored and the square-root flag is set; a failure always reports a message, the square-root one when an inner part failed silently; a success over tokens holding no `\begin` leaves the grid and the cell counter alone |
| Parser.Frac | analyser.py:538-627 | on success the fraction depth is given back; on failure it stays one deeper and a message is always reported, the fraction one when a part failed silently; a success over tokens holding no `\begin` leaves the grid and the cell counter alone |
| Parser.Sum | analyser.py:631-659 | an unknown sum symbol fails at once; on success the sum flag is clear again or nothing changed; a success over tokens holding no `\begin` leaves the grid and the cell counter alone |
| Parser.EnvName | analyser.py:306-353 | on success three tokens `{ name }` with an accepted environment name are read, and only the closing form clears the grid |
| Parser.Block | analyser.py:883-935 | on success the grid is clear again and the levels are restored |
| Parser.Matrix | analyser.py:359-411 | on success the levels are restored, a token that starts a cell is consumed, and the next token starts no cell; a failure always reports a message, the matrix one when the cell item failed silently |
| Parser.MoreMatrix | analyser.py:415-428 | on success the levels are restored and the next token starts no cell; a failure always reports a message |
| Parser.Prog | analyser.py:993-1038 | on success the levels are restored and the END token has been read |
| ParserLemmas.CompileConsumesAll | analyser.py:1033-1038 | a successful compile has read the whole token stream, End included, with the levels back at their start |
| ParserLemmas.ScriptGuard | analyser.py:665-712 | while the flag is set any marker fails with "only once"; the same marker twice fails with "use brackets"; no marker means success with nothing read; the paired script leaves the flag clear |
| ParserLemmas.ScriptBalanced | analyser.py:803-815 | a successful script leaves the depth of the level stack and the flag as it found them |
| ParserLemmas.DoubleExponent | analyser.py:710-712 | markup opening with `x^a^`, as in `x^a^b`, is rejected with "use brackets" |
| ParserLemmas.AtomScript | analyser.py:803-815 | a marker followed by a one-token argument pushes one level, reads both tokens and hands over to the combination check |
| ParserLemmas.MarkerUnderFlag | analyser.py:668-670 | with the flag set, a script with a one-token argument followed by another marker fails with "only once" at that marker |
| ParserLemmas.SimplePair | analyser.py:673-708 | `_a^b` (or `^a_b`) with no marker after it is accepted and only the position changes |
| ParserLemmas.PairNeedsClearFlag | analyser.py:668-698 | such a pair is accepted exactly when no pair is open around it |
| ParserLemmas.PairedBracesRejected | analyser.py:668-670 | `^{_c^d}` read while a pair is open fails with "only once", although it is braced |
| ParserLemmas.NestedPairRejected | analyser.py:677-698 | `_a^{_c^d}` fails with "only once": the flag is one global bit |
| ParserLemmas.BracedPair | analyser.py:748-757 | `^{_c^d}` as a plain script is accepted and only the position changes |
| ParserLemmas.SqrtFlagSticks | analyser.py:973-976 | after any square root a `]` ends the terms instead of being text |
| ParserLemmas.SqrtThenBracket | analyser.py:973-976 | `\sqrt{x}]` is rejected with a token left unread |
| ParserLemmas.BracketAsText | analyser.py:90-94 | `x]` with no square root before it is accepted: `]` is text |
| ParserLemmas.SqrtMultiplierStops | analyser.py:973-976 | with the flag set, a one-token multiplier stops at its `]` |
| ParserLemmas.SqrtRadicand | analyser.py:459-513 | `\sqrt{x}` with a one-token radicand is read and sets the flag, nothing else changes |
| ParserLemmas.SqrtWithIndex | analyser.py:437-457 | `\sqrt[n]{x}` is read; its level is popped and the flag cleared before the radicand sets it again |
| ParserLemmas.UnclosedBlock | analyser.py:909-935 | `\begin{name} a` followed by `}` instead of `\end` fails without a message |
| ParserLemmas.SilentNumerator | analyser.py:522-535 | a numerator whose terms fail silently makes the fraction fail with its own message |
| ParserLemmas.UnclosedBlockInFrac | analyser.py:624-627 | markup opening with `\frac{\begin{matrix}a}` is rejected with the fraction's message, the block having printed nothing |
| ParserLemmas.EnterOutsideMatrix | analyser.py:797-800 | a line break outside a matrix is read and ignored: no grid change |
| ParserLemmas.Advance | analyser.py:362-403 | one simple body token: `&` appends the next identifier to the current row, a line break opens a row holding it, anything else leaves the grid alone |
| ParserLemmas.MatrixSimpleStep | analyser.py:359-403 | the matrix production reads one simple token and hands over to the rest-of-body production |
| ParserLemmas.MoreMatrixStops | analyser.py:424-428 | the body ends at a token that starts no cell, with nothing read |
| ParserLemmas.BodyGrid | analyser.py:415-428 | a body of simple items is read whole; the grid gains the rows and cells of its lines; the counts of rows and identifiers follow `&` and line breaks; nothing else changes |
| ParserLemmas.MatrixBody | analyser.py:359-428 | the matrix production reads such a body exactly as the rest-of-body production does |
| ParserLemmas.Opened | analyser.py:902-907 | the state after `\begin{name}`: one more cell and four tokens further |
| ParserLemmas.BlockOpens | analyser.py:902-907 | `\begin` adds the first cell to the current row before the name is read |
| ParserLemmas.BlockCloses | analyser.py:343-346 | `\end{name}` clears the grid and only the position changes |
| ParserLemmas.BlockGrid | analyser.py:902-909 | just before `\end`, the current row is headed by the `\begin` cell followed by the first line's `&` cells; every further line is a new row headed by its line break's cell; identifiers run on consecutively |
| ParserLemmas.BlockGridFromEmpty | analyser.py:902-909 | from an empty grid, the rows are exactly the numbered lines of the body |
| ParserLemmas.SimpleBlockAccepted | analyser.py:883-935 | such a block is accepted whatever the two environment names; afterwards the grid is clear and only position and identifier counter have changed |
| ParserLemmas.MatrixItem | analyser.py:362-403 | the matrix production is one cell item followed by the rest of the body, and fails when the item fails |
| ParserLemmas.MatrixIsMoreMatrix | analyser.py:359-428 | a body reads the same through the matrix and the rest-of-body productions |
| ParserLemmas.HeadsStep | analyser.py:415-428 | a body read successfully from a cell start reads its first item whole, then the rest |
| ParserLemmas.ItemGrid | analyser.py:362-403 | a cell item read without meeting `\begin`, however nested, changes the grid only as its first token says: `&` adds a cell to the current row, a line break opens a row holding a new cell, anything else nothing |
| ParserLemmas.BreakInsideBraces | analyser.py:824-834 | `{x \\ y}` as a cell item reads all five tokens and opens no row: the line break is a constant of the group |
| ParserLemmas.HeadsGrid | analyser.py:359-428 | any body read successfully without meeting `\begin`: the grid gains the rows and cells of the lines of its item heads, with the counts of rows and identifiers following the heads' `&` and line breaks |
| ParserLemmas.HeadsBlockGrid | analyser.py:902-909 | for such a body inside a block, just before `\end`: the `\begin` cell and the first line's `&` cells extend the current row, every further line of heads is a new row |
| ParserLemmas.SpaceTable | analyser.py:219-249 | a command has a spacing width exactly when is_space accepts it; only `\!` is negative; `\qquad` is twice `\quad` |
| ParserLemmas.LexedSpacing | analyser.py:113-117 | every one-character command the tokenizer makes is a spacing command |
| ParserLemmas.BracketTable | analyser.py:253-268 | exactly five names get delimiters, left and right of equal length; `Pmatrix` is accepted but gets none |

## Left out

- Rendering is not modelled. This covers every `bpy` call, collections, fonts, gen_text, gen_math_sym's drawing, gen_sqrt_sym/gen_sqrt_move, gen_frac_line, gen_brackets, gen_matrix_param/center/pos/y, and gen_join_collections. The recogniser keeps only the state that decides acceptance.
- The user interface and add-on registration (ui.py, `__init__.py`) are not part of this model.
- `print` is replaced by `Diag`. Each failing path returns the first error message it would print, or `NoMessage` where the source fails silently.
- Parser.AfterScript: a command after a script marker is accepted without consulting `known`. The source calls gen_math_sym there (analyser.py:773) and ignores its result; for an unknown name gen_math_sym prints "not in unicode database" (generator.py:121-124) and parsing goes on. That warning is not recorded, so for `x^\foo^y` with `foo` unknown the first message the source prints is the warning, while the model reports "use brackets".
- The symbol table `unicode_db` used by gen_math_sym is replaced by the set `known` of names it contains.
- Floats are modelled as `real`, without rounding.
- `gen_position`'s measured `bbox[4].x` is not modelled. It depends on Blender's world matrix and becomes the abstract `extent` parameter.
- Parser productions: the `Parameters` cursor (`width`, `height`, `line`) is not threaded through the recogniser. Widths come from rendered geometry, so the layout arithmetic is stated separately in `Layout`. Three source effects are therefore absent from `Parser`:
  - the `line` reset at analyser.py:344;
  - the `line -= 1.0 * scale` at analyser.py:385;
  - the fraction's final `width = line_length + 0.2 * scale` at analyser.py:612.
- Parser.Sum: `\sum` or `\prod` followed by `_` or `^` is accepted. The source instead raises a TypeError:
  - analyser.py:680-682 and 718-720 call gen_move_sum with six arguments, but generator.py:334 takes four;
  - analyser.py:706 calls gen_fin_sum with three arguments, but generator.py:380 takes four.
  
  The model follows the evident intent: the scripts are read as for any symbol. The sum's `array` of moved objects is not kept.
- Lexer.IsLetter: `str.isalpha` is modelled as the ASCII letters only. Python's test is Unicode-aware, so non-ASCII letters behave differently:
  - `GetToken("\\é")` is `(Token(Command, ""), "é")` in the model, while the source reads the command `é`;
  - `x^\é^y` is accepted by the model, while the source rejects it with "use brackets".
- Layout.ColumnWidths: `rows[k][i]` is taken as given. In the source it is the right edge (largest x) gen_group_width reports when column `i` is reached. That is after the earlier iterations have already shifted the column (generator.py:586-595), so it is not a width. The shifting and centring loops of gen_matrix_x (generator.py:580-603) are not modelled.
- Cells are numbered by a counter, `nextCell`, instead of Blender collection names.
- The grid lemmas need a body with no `\begin` token in it:
  - BodyGrid, BlockGrid and SimpleBlockAccepted also prove acceptance, for bodies of simple items (text, escaped characters, `&`, line breaks, and one-token spacing or known-symbol commands);
  - HeadsGrid and HeadsBlockGrid cover any body that is read successfully, whatever its items hold.
  
  A bare `\begin` in a cell is looked up as a symbol (analyser.py:364-366, 863-867) and does not touch the grid. A braced `{\begin{..}..\end{..}}` in a cell does reach sa_block: it adds its first cell to the enclosing grid (analyser.py:904) and its closing name clears that grid (analyser.py:343-346). No grid lemma covers bodies with either form.
- The `mode` arguments of sa_sqrt ("single"/"multiple") and the `brackets`/`saved_width` arguments of is_both_ei affect only rendering, and are dropped.
