# sgeme front end: reader and expander, in Dafny

This project models the front end of `sgeme`, a small Scheme implementation
written in Rust. The front end has four stages:

- `Token::really_lex` drops comments and lexer errors from the lexer's
  output and appends an `Eof` token.
- The `Reader` turns the token stream into `Datum`s by recursive descent with
  one token of lookahead. It has two options: `case_insensitive` (symbol names
  are ASCII-lowercased) and `bracket_paren` (`[`…`]` behave as parentheses).
- `read` collects every top-level datum into one list.
- The `Expander` rewrites a `Datum` into the core syntax of `primsyn`:
  `Program`, `Import`, `Stmt`, `Def`, `Expr`.

Files and modules:

| file | module | contents |
|---|---|---|
| `base.dfy` | `Base` | `Result`, `Option`, the 32-bit `int32` |
| `token.dfy` | `Tokens` | `Token`; `really_lex` as the method `ReallyLex`, proved against the filter function `Kept` |
| `datum.dfy` | `Datums` | `Datum`, `AbbrevPrefix` and the `Datum` helper functions |
| `primsyn.dfy` | `PrimSyn` | the core syntax |
| `expander.dfy` | `Expander` | see below |
| `read.dfy` | `Read` | see below |
| `expander_lemmas.dfy`, `read_lemmas.dfy` | `ExpanderLemmas`, `ReadLemmas` | the properties |

`expander.dfy` has two layers:

- Every rule of the expander is a function `Expanded*` over data.
- Every rule with a loop or a call into another rule is also a method
  `Expand*` with the source's own loops and early returns. Each method is
  proved to return exactly its function's value.
- `define-record`, `import` and `export` are single expressions over their
  operands. They stay functions (`ExpandedDefineRecord`, `ExpandedImport`,
  `ExpandedExport`), and `ExpandDatum` calls them directly.
- The loops of `ExpandCondBranches`, `ExpandLetBindings` and
  `ExpandCaseBranches` handle one clause inline in the loop body, as the
  source's loop bodies do. On the function side, the per-clause steps of
  `cond` and `let` are the separate functions `ExpandedCondBranch` and
  `ExpandedLetBinding`. The step for one `case` clause stays inside
  `ExpandedCaseBranches`.

`read.dfy` has the same two layers:

- The `*At` functions say what each reading procedure yields from a cursor
  position in the token sequence, and where it leaves the cursor.
- The `Reader` class holds the flags, the token sequence and the cursor.
  Its methods `ReadExpr`, `ReadQuote`, `ReadVector`, `ReadSexpr` and `Read`
  mutate the cursor as the source's calls to `next()` do. Each is proved to
  end in the `Step` (result and cursor) its function gives.

The main reader property is a round trip over a printer for the data the
reader can produce. `ReadLemmas.Print` produces tokens for atoms, quotations,
non-empty lists and vectors, and dotted lists with a non-empty front. The
reader turns those tokens back into the same datum, with symbol names
case-folded when `case_insensitive` is set, and consumes exactly those tokens.
`read` turns a sequence of printed data followed by `Eof` back into one list.
The proofs work with positions: `PrintedAt`, `ElemsAt` and `DottedAt` say
that the tokens of a datum sit in a stream from a given index on, and
`PrintedAtPrint` derives them from the printed tokens.

The model keeps the source's observable quirks, and lemmas state each of
them:

- `()` cannot be read (the closer is read as an element).
- `(. x)` reads as the empty list and leaves the dot behind.
- After a dot, the loop of `read_sexpr` accepts any token as the closer
  (`matches!(maybe_term, terminator)` binds rather than compares). Only a dot
  right after the first element checks its closer.
- An unterminated list swallows `Eof` as an element, then runs off the
  stream.
- `case` expands its final `(else …)` clause as an ordinary branch too, so a
  `case` whose last clause starts with `else` always fails.
- A `let` binding list must not be wrapped in an extra pair of parentheses.
  Each element but the last is one binding.
- `letrec` builds `Let`, not `LetRec`.

The source panics in some places: `todo!()`, `unreachable!()`, an `unwrap()`
on an exhausted stream, and an unchecked index. Three `unreachable!` arms no
caller can reach become preconditions:

- `get_string` (datum.rs:42): `Datums.Datum.GetString` requires `IsString()`;
- `get_symbol_name` (datum.rs:56): `Datums.Datum.GetSymbolName` requires
  `IsSymbol()`;
- `read_quote` (read.rs:115): `Read.Reader.ReadQuote`, `Read.ReadQuoteAt` and `Read.PrefixOf`
  require one of the four quote tokens.

Every caller in the source checks `is_string`/`is_symbol` first, and
`read_expr` calls `read_quote` only on a quote token. Every other panic
becomes an explicit error variant:

- `Read.ReadError`: `StreamExhausted`, `Unimplemented`, `NotAList`;
- `Expander.ExpanderError`: `Unsupported`, `IndexOutOfBounds`.

Out of the lexer, the model keeps only what `really_lex` needs: the lexer
yields a sequence of tokens and errors (`Tokens.LexItem`), and its input is a
parameter.

## Model

| member | source | states |
|---|---|---|
| Tokens.ReallyLex | sgeme/src/token.rs:91-105 | the output is the kept tokens (no comment, no lexer error, all else in lexer order) followed by one `Eof`; its length is the kept count plus one; on genuine lexer output `Eof` occurs only at the end |
| Tokens.KeptAppend | sgeme/src/token.rs:95-101 | filtering distributes over concatenation, so kept tokens keep their relative order |
| Tokens.KeptMembers | sgeme/src/token.rs:96-100 | a token is kept iff the lexer produced it and it is not a comment; the count matches |
| Tokens.DroppedItem | sgeme/src/token.rs:97-98 | a lexer error or a comment anywhere leaves the kept tokens exactly as if it were absent |
| Tokens.KeptHasNoEof | sgeme/src/token.rs:87-88 | `Eof` has no lexical pattern, so on lexer output no kept token is `Eof` |
| Datums.Datum.IsList | sgeme/src/datum.rs:25-30 | true exactly for proper lists |
| Datums.Datum.IsString | sgeme/src/datum.rs:32-37 | true exactly for strings |
| Datums.Datum.GetString | sgeme/src/datum.rs:39-44 | on a string, its payload (the source panics otherwise) |
| Datums.Datum.IsSymbol | sgeme/src/datum.rs:46-51 | true exactly for symbols |
| Datums.Datum.GetSymbolName | sgeme/src/datum.rs:53-58 | on a symbol, its name (the source panics otherwise) |
| Datums.SymbolNames | sgeme/src/expander.rs:126 | elementwise names of an all-symbol list, same length |
| Datums.StringPayloads | sgeme/src/expander.rs:209 | elementwise payloads of an all-string list, same length |
| PrimSyn.Program.Init | sgeme/src/primsyn.rs:13-18 | a program with no imports and no statements |
| Expander.SplitThree | sgeme/src/expander.rs:27-37 | present iff at least two elements; then the first two and the rest, which rebuild the input |
| Expander.ExpandExpr | sgeme/src/expander.rs:50-111 | the method with the source's operand loops returns `ExpandedExpr` |
| Expander.ExpandKeywordForm | sgeme/src/expander.rs:67-95 | the keyword dispatch returns `ExpandedKeywordForm` |
| Expander.ExpandSeq | sgeme/src/expander.rs:432-438 | the operand loop (`expand_helper`, `begin`, call operands) returns `ExpandedSeq` |
| Expander.ExpandLambda | sgeme/src/expander.rs:232-268 | returns `ExpandedLambda` |
| Expander.ExpandIf | sgeme/src/expander.rs:271-304 | returns `ExpandedIf` |
| Expander.ExpandCondBranches | sgeme/src/expander.rs:308-331 | the clause loop with early returns returns `ExpandedCondBranches` |
| Expander.ExpandCondElse | sgeme/src/expander.rs:333-356 | returns `ExpandedCondElse`, with the unchecked index as `IndexOutOfBounds` |
| Expander.ExpandCond | sgeme/src/expander.rs:359-369 | returns `ExpandedCond` |
| Expander.ExpandCaseBranches | sgeme/src/expander.rs:372-396 | the nested clause loops return `ExpandedCaseBranches` |
| Expander.ExpandCaseElse | sgeme/src/expander.rs:398-410 | returns `ExpandedCaseElse` |
| Expander.ExpandCase | sgeme/src/expander.rs:413-430 | returns `ExpandedCase` |
| Expander.ExpandTestAndBody | sgeme/src/expander.rs:450-465 | `when_unless_helper` returns `ExpandedTestAndBody` |
| Expander.ExpandLetBindings | sgeme/src/expander.rs:477-511 | the binding loop returns `ExpandedLetBindings` |
| Expander.ExpandLet | sgeme/src/expander.rs:514-537 | `expand_let` (and `expand_letrec`, which has the same body) returns `ExpandedLet` |
| Expander.ExpandDefine | sgeme/src/expander.rs:115-154 | returns `ExpandedDefine` |
| Expander.ExpandDatum | sgeme/src/expander.rs:548-582 | adding one top-level form to a program returns `ExpandedDatum` |
| Expander.ExpandPrgrm | sgeme/src/expander.rs:585-599 | the loop over the top-level forms returns `ExpandedProgram` |
| ExpanderLemmas.KeywordDispatch | sgeme/src/expander.rs:64-87 | a list headed by a keyword symbol is handled by that keyword's rule on the rest of the list |
| ExpanderLemmas.SeqAllOk | sgeme/src/expander.rs:432-438 | a sequence expands iff every element does; then element by element, same length |
| ExpanderLemmas.SeqFirstFailure | sgeme/src/expander.rs:434-436 | the first failing element's error is the sequence's error |
| ExpanderLemmas.EmptyListIllegal | sgeme/src/expander.rs:107 | `()` is `IllegalNonatomic` in expression position and at top level |
| ExpanderLemmas.Atoms | sgeme/src/expander.rs:51-63 | booleans, fixnums, characters, strings, symbols and vectors map to the matching expression; `Eof` is `UnexpectedEof`; data with no expression form are unsupported |
| ExpanderLemmas.Quotation | sgeme/src/expander.rs:58-62 | `'d` and `,d` keep `d` unexpanded; quasiquote and `,@` are unsupported; `(quote …)` quotes the list of its operands |
| ExpanderLemmas.TopLevelOnly | sgeme/src/expander.rs:68-75 | `define`, `define-record`, `import`, `export` in expression position are `IllegalContext` |
| ExpanderLemmas.ProcCallShape | sgeme/src/expander.rs:88-104 | a non-keyword head: the operator's error first; the call succeeds iff operator and all operands do, with the operands in order |
| ExpanderLemmas.IfArity | sgeme/src/expander.rs:271-304 | success needs exactly three operands; any other count is `IllegalNumberOfArgs`; the result is `If` of the three expansions |
| ExpanderLemmas.LambdaShape | sgeme/src/expander.rs:232-268 | success needs a symbol list and exactly one body; each error case as the source orders them |
| ExpanderLemmas.CondBranchShape | sgeme/src/expander.rs:311-328 | a non-final clause succeeds only as a two-element list, else `ListExpected` |
| ExpanderLemmas.CondBranchesAllOk | sgeme/src/expander.rs:308-331 | the clauses succeed iff each does; one pair per clause, in order |
| ExpanderLemmas.CondElseShape | sgeme/src/expander.rs:333-356 | non-list `ListExpected`; a head other than `else` `CondElseExpected`; `(else e …)` expands `e`; fewer than two elements is the out-of-bounds panic |
| ExpanderLemmas.CondShape | sgeme/src/expander.rs:359-369 | no clause is `IllegalNumberOfArgs`; success has one branch per non-final clause and the else expression |
| ExpanderLemmas.CaseBranchesSnoc | sgeme/src/expander.rs:374-395 | appending a clause extends the branches; the front's failure wins |
| ExpanderLemmas.CaseBranchContents | sgeme/src/expander.rs:375-388 | an empty clause is skipped; a clause stores its datum list and that list's expansion |
| ExpanderLemmas.CaseElseIncludesElse | sgeme/src/expander.rs:398-404 | the else sequence is the expansion of the whole final clause, the `else` symbol included |
| ExpanderLemmas.CaseWithElseFails | sgeme/src/expander.rs:415-418 | a `case` whose final clause is `(else …)` always fails, with `ListExpected` when key and earlier clauses are fine |
| ExpanderLemmas.CaseArity | sgeme/src/expander.rs:414-429 | fewer than two operands is `IllegalNumberOfArgs` |
| ExpanderLemmas.CaseShape | sgeme/src/expander.rs:414-429 | with two or more operands, `case` succeeds exactly when the key, the branches of the clauses after it and the last clause as else expand, and then holds those three; otherwise the first of them to fail, in that order, gives the error |
| ExpanderLemmas.WhenUnlessShape | sgeme/src/expander.rs:450-475 | no operand is `IllegalNumberOfArgs`; otherwise test and body, the test's error first |
| ExpanderLemmas.AndOrBeginShape | sgeme/src/expander.rs:441-448 | `and`, `or`, `begin` wrap the operand expansions, or fail with the sequence's error |
| ExpanderLemmas.LetBindingShape | sgeme/src/expander.rs:480-507 | a binding succeeds only as a two-element list headed by a symbol; each error case |
| ExpanderLemmas.LetBindingsAllOk | sgeme/src/expander.rs:477-511 | bindings succeed iff each does, in order |
| ExpanderLemmas.LetUnwrapped | sgeme/src/expander.rs:514-518 | the textbook `(let ((x e)) body)` is `ListExpected`; a success has one binding per non-final element |
| ExpanderLemmas.LetRecIsLet | sgeme/src/expander.rs:527-537 | `letrec` expands exactly as `let` and builds `Let` |
| ExpanderLemmas.DefineShape | sgeme/src/expander.rs:115-154 | exactly two operands; a symbol gives `DefValue`; a non-empty symbol list gives `DefFunc` of name and formals; each error case |
| ExpanderLemmas.DefineRecordShape | sgeme/src/expander.rs:158-203 | success iff a symbol and exactly one list of symbols; then `DefRecord` of their names |
| Expander.ExpandedDefineRecord | sgeme/src/expander.rs:158-203 | a success is `DefRecord` of the first operand's name and the member names, element for element, with exactly two operands; failures are `IllegalNumberOfArgs`, `IdentifierExpected` or `ListExpected` (`DefineRecordShape` gives the exact condition) |
| Expander.ExpandedImport | sgeme/src/expander.rs:206-216 | a success is `Import` of the operands' string payloads, element for element, and needs at least one operand; a failure is `StringExpected`, with no operand or a non-string one |
| Expander.ExpandedExport | sgeme/src/expander.rs:218-229 | a success is `Export` of the operands' symbol names, element for element, and needs at least one operand; a failure is `StringExpected`, with no operand or a non-symbol one |
| ExpanderLemmas.ImportExportShape | sgeme/src/expander.rs:206-229 | `import` iff one or more strings, `export` iff one or more symbols; the payloads; `StringExpected` otherwise |
| ExpanderLemmas.EntryKinds | sgeme/src/expander.rs:548-580 | import and export forms become import entries and nothing else does; definitions become `Def`; other forms become the statement of `expand_expr` |
| ExpanderLemmas.FormsInOrder | sgeme/src/expander.rs:588-592 | the program succeeds iff every form does; earlier imports and statements are kept as prefixes; the import count is the import-form count |
| ExpanderLemmas.FormsAppended | sgeme/src/expander.rs:585-593 | when every form expands, the program is the start program with the forms' imports appended to its imports and their statements to its statements, each in the forms' order |
| ExpanderLemmas.FormsFirstFailure | sgeme/src/expander.rs:589-591 | the first failing form's error is the program's error |
| ExpanderLemmas.ProgramSource | sgeme/src/expander.rs:585-599 | a non-list source is one form; a list is its elements, from an empty program |
| Read.AsciiLower | sgeme/src/read.rs:141 | no capital in the result; capitals move up by 32; all else unchanged |
| Read.AsciiLowercase | sgeme/src/read.rs:141 | same length, `AsciiLower` at every index |
| Read.ReadExprAt | sgeme/src/read.rs:136-189 | the cursor never moves back or past the end; one token or more is consumed when any is left; an exhausted stream is `Eof` |
| Read.Reader.ReadExpr | sgeme/src/read.rs:136-189 | the method ends in the result and cursor of `ReadExprAt` |
| Read.Reader.ReadQuote | sgeme/src/read.rs:109-122 | ends as `ReadQuoteAt` says |
| Read.Reader.ReadVector | sgeme/src/read.rs:128-134 | ends as `ReadVectorAt` says |
| Read.Reader.ReadSexpr | sgeme/src/read.rs:51-107 | the loop ends as `ReadSexprAt` says |
| Read.Reader.ReadDotTail | sgeme/src/read.rs:73-83 | the dot, the tail datum and one more token: ends as `DotTail` says, with the closer checked only when strict |
| Read.Reader.Read | sgeme/src/read.rs:198-214 | the loop ends as `ReadAt` says |
| Read.Reader.Peek | sgeme/src/read.rs:62-93 | `peek()`: the token at the cursor, or nothing exactly when the stream is exhausted; it consumes nothing |
| Read.Reader.Next | sgeme/src/read.rs:17 | yields the peeked token and advances the cursor by one, or by none at the end |
| Read.Reader.Init | sgeme/src/read.rs:39-49 | flags and stream as given, cursor at the start |
| ReadLemmas.QuoteTokens | sgeme/src/read.rs:110-116 | quote tokens and abbreviation prefixes correspond one to one |
| ReadLemmas.FoldedIdentity | sgeme/src/read.rs:140-144 | without case folding, folding changes no datum |
| ReadLemmas.ReadPrinted | sgeme/src/read.rs:136-189 | a printed datum reads back as itself, folded as the options say, consuming exactly its tokens |
| ReadLemmas.SexprPrinted | sgeme/src/read.rs:51-107 | printed elements and the matching closer read back as the list of those elements |
| ReadLemmas.DottedPrinted | sgeme/src/read.rs:71-101 | a printed dotted list with any closer token: one front element needs the right closer, else `ExpectedListTerminator`; a longer front accepts any token |
| ReadLemmas.ReadLoopPrinted | sgeme/src/read.rs:202-208 | printed top-level data are collected in order |
| ReadLemmas.ReadAllPrinted | sgeme/src/read.rs:198-214 | `read` of printed data and `Eof` is the list of those data, folded |
| ReadLemmas.ReadExhausted | sgeme/src/read.rs:186-188 | an exhausted stream reads as `Eof` and consumes nothing |
| ReadLemmas.ReadFirstError | sgeme/src/read.rs:203-206 | after printed data, the first failing datum's result is `read`'s result |
| ReadLemmas.ReadAtomTokens | sgeme/src/read.rs:139-150 | each atom token reads as its datum and consumes one token; names fold only with `case_insensitive` |
| ReadLemmas.CaseFolding | sgeme/src/read.rs:139-145 | with folding, names equal up to ASCII case read the same; no capitals remain; folding again changes nothing |
| ReadLemmas.MisplacedTokens | sgeme/src/read.rs:154-184 | a stray `)` is `UnexpectedListTerminator`; a bare dot and a comment are `UnknownSymbol`; `#` and `#u8(` are unimplemented |
| ReadLemmas.EmptyListUnreadable | sgeme/src/read.rs:68 | `()` and `#()` are `UnexpectedListTerminator` |
| ReadLemmas.DotAfterOpener | sgeme/src/read.rs:62-66 | `(.` yields the empty list and leaves the dot, which `read` then rejects |
| ReadLemmas.BracketsOff | sgeme/src/read.rs:52-58 | without `bracket_paren`, `[` has no closer and `[`, `]`, `#[` are `UnknownSymbol` |
| ReadLemmas.BracketsOn | sgeme/src/read.rs:155-157 | with `bracket_paren`, `[` closes with `]` and a stray `]` is `UnexpectedListTerminator` |
| ReadLemmas.BracketList | sgeme/src/read.rs:172-175 | with `bracket_paren`, `[`…`]` reads as a list |
| ReadLemmas.BracketVector | sgeme/src/read.rs:162-164 | with `bracket_paren`, `#[`…`]` reads as a vector |
| ReadLemmas.MismatchedCloser | sgeme/src/read.rs:88-105 | printed elements between an opener and a closer of the other kind: with `bracket_paren`, `[`…`)` is `UnexpectedListTerminator(RParen)` and `(`…`]` is `UnexpectedListTerminator(RBracket)`; without it, `(`…`]` is `UnknownSymbol(RBracket)`; all tokens are consumed |
| ReadLemmas.FirstDotChecksCloser | sgeme/src/read.rs:76-82 | `(x . y t)` with `t` not `)` is `ExpectedListTerminator(t)` |
| ReadLemmas.LaterDotAcceptsAnyCloser | sgeme/src/read.rs:96-98 | `(x y … . z t)` reads as a dotted list for every token `t` |
| ReadLemmas.QuoteBeforeEof | sgeme/src/read.rs:117-119 | a quote token before `Eof` is `UnhandledQuote` |
| ReadLemmas.DottedVector | sgeme/src/read.rs:129-133 | `#(x . y)` is the vector reader's `unreachable!` |
| ReadLemmas.UnterminatedList | sgeme/src/read.rs:88-105 | an open list before the final `Eof` reads `Eof` as an element and then exhausts the stream |

## Left out

- The `logos` lexer itself (token.rs:4-88) is a generated regular-expression
  lexer, so it is an input here: `really_lex` takes the lexer's items as a
  parameter. The model does not capture the keyword `quote` lexing to the same
  token as `'` (token.rs:59).
- Tokens.ReallyLex: the sequence of lexer items stands for the source string, so nothing is said about the characters.
- `Expander::find_syntax_rules` returns an empty vector and is not called by
  the core. `Expander::init` has no state. Neither is modelled.
- The `dbg!` call in `read_sexpr` writes to standard error only.
- Error messages: the `String` payloads of `ExpanderError` are not modelled,
  only the variants.
- `ReadError::ExpandError` and `ReadError::Nothing` are declared but never
  produced by the reader. They are kept as variants only.
- `Read.Reader`: the shared `Peekable` iterator borrowed from the caller is a
  token sequence and a cursor owned by the reader. Aliasing between readers of
  one iterator is not modelled.
- `read_bytevector` and the `#` arm are `todo!()` panics, modelled as the
  error `Unimplemented`. The other panics become error variants in the same
  way, except the three unreachable arms that become preconditions (see the
  panic list at the top).
- `Expander.ExpandDatum`: `expand_datum` pushes onto a `&mut Program` in
  place. The method takes the program by value and returns the extended one,
  and `ExpandPrgrm` threads it through its loop. This keeps the order and
  contents of the pushes, but not the in-place update. On an error the source
  pushes nothing, so no partial update is lost.
- `Read.AsciiLowercase`: strings are sequences of characters, so the model
  does not capture UTF-8 encoding. Only ASCII letters change, as with
  `to_ascii_lowercase`.
- The `int32` fixnum is carried through unchanged. The lexer's `parse::<i32>`
  overflow check belongs to the lexer.
- The evaluator, the command-line driver and the other crates of the
  repository are not part of this model.
