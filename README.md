# flexi-parse, modelled in Dafny

flexi-parse is a Rust library for writing hand-written recursive-descent
parsers. A source file is split into a token stream of identifiers,
single-character punctuation (each marked `Joint` or `Alone`), literals and
whitespace. A `ParseStream` cursor walks that stream. Every token type and
every grammar rule implements `Parse`. A failed attempt rolls the cursor back.
Errors either stop a parse or are recorded with `add_error` and reported
at the end.

This project models the core of that library and of its two example
grammars:

- **Tokens** (`tokens.dfy`, `punct_table.dfy`, `token_parse.dfy`, `lexemes.dfy`).
  These model, from `src/token.rs`:
  - the lexical items and their equality;
  - the table of 34 punctuation characters, with `PunctKind::try_from` and `Spacing::from`;
  - the single-, two- and three-character punctuation parsers and the joint pair `(T1, T2)`;
  - `Space2` and `Space4`;
  - `Option<T>::parse`;
  - `Ident::parse`.
- **The cursor** (`cursor.dfy`). This is a `class ParseStream` whose position
  and recorded errors its methods update. Balanced groups and the entry point
  that parses a whole stream are here too.
- **Printing** (`to_string.dfy`). This is `Display for TokenStream` from
  `src/to_string.rs`: it re-creates the source's layout from the spans and
  fails on an error entry.
- **Diagnostics** (`diagnostics.dfy`). This is `src/error/ariadne.rs`:
  - the report kind;
  - `Report::from`;
  - the conversion of an `Error` to its reports, which skips `Silent` errors.
- **The calculator** (`calc.dfy`). This is `examples/calc.rs`:
  - addition, factor, unary and primary over the `Expr` tree;
  - the proof that operators nest and associate as the grammar says.
- **Lox** (`lox_ast.dfy`, `lox_expr.dfy`, `lox_stmt.dfy`). This is
  `examples/lox.rs`:
  - the syntax tree and the expression grammar;
  - function declarations, blocks and the statement parsers, including the
    desugaring of `for`;
  - `Ast::parse`, which records a failed declaration, resynchronises and
    carries on.

Every grammar rule is a pure specification function. It takes a stream, a
position and, in Lox, the errors recorded so far, and it returns the value and
the next position, or the error. The parsers as the source writes them are
methods on `ParseStream`. They use its loops, its peeks and its rollbacks, and
their `ensures` tie the result and the cursor's new state to the specification
function. The properties are proved as lemmas about the specification
functions. They cover:

- round trips of the punctuation table;
- the display strings the composite tokens spell;
- associativity and precedence;
- the placement of recorded errors;
- that the program loop reports every failure.

## Model

| member | source | states |
|---|---|---|
| Tokens.EqualityIgnoresSpan | src/token.rs:39-122 | two identifiers, puncts or (non-NaN) literals that differ only in their span are equal |
| Tokens.IdentEq | src/token.rs:39-43 | two identifiers are equal exactly when they differ at most in their span |
| Tokens.PunctEq | src/token.rs:78-82 | two puncts are equal exactly when they differ at most in their span |
| Tokens.FloatEq | src/token.rs:136-141 | `f64 ==`: a float equals itself exactly when it is not NaN; distinct bit patterns are equal only as the two zeros |
| Tokens.LiteralValueEq | src/token.rs:136-141 | the derived equality is plain equality on integers, strings and chars, and never relates a float to a non-float |
| Tokens.PunctEqSeesSpacing | src/token.rs:78-82 | puncts of the same kind but different spacing are not equal |
| Tokens.NaNLiteralDiffersFromItself | src/token.rs:118-122 | a NaN float literal is not equal to itself (f64 equality) |
| Tokens.SignedZerosAreEqual | src/token.rs:118-122 | float literals `0.0` and `-0.0` are equal |
| PunctTable.PunctKindFromChar | src/token.rs:203-212 | a character outside the table is handed back unchanged as the error |
| PunctTable.TryFromSucceedsExactlyOnTable | src/token.rs:203-212 | `try_from` succeeds exactly on the table's characters |
| PunctTable.LowCharsArePunct | src/token.rs:203-212 | `try_from` accepts every table character up to `;` |
| PunctTable.HighCharsArePunct | src/token.rs:203-212 | `try_from` accepts every table character from `<` on |
| PunctTable.TableHasThirtyFourChars | src/token.rs:325-360 | the single-character table has 34 distinct characters |
| PunctTable.DistinctCharsCount | src/token.rs:325-360 | a strictly increasing sequence has as many distinct characters as entries, the first being the least |
| PunctTable.KindCharRoundTrip | src/token.rs:203-212 | `try_from(char::from(k)) == Ok(k)` for every kind |
| PunctTable.LowKindsRoundTrip | src/token.rs:203-212 | the round trip for the kinds whose character is at most `;` |
| PunctTable.HighKindsRoundTrip | src/token.rs:203-212 | the round trip for the kinds whose character is above `;` |
| PunctTable.TryFromRoundTrip | src/token.rs:203-212 | a character `try_from` accepts converts back to itself |
| PunctTable.KindCharInjective | src/token.rs:327-360 | no two kinds share a character |
| PunctTable.KindCharInTable | src/token.rs:327-360 | every kind's character is in the table |
| PunctTable.LowKindsInTable | src/token.rs:327-360 | a kind whose character is at most `;` is in the table's lower half |
| PunctTable.HighKindsInTable | src/token.rs:327-360 | a kind whose character is above `;` is in the table's upper half |
| PunctTable.SpacingIsJointIffPunct | src/token.rs:102-110 | a punct is `Joint` exactly when the next character is a punctuation character |
| PunctTable.SeparatorsAreJoint | src/token.rs:102-110 | a space, newline or `_` after a punct makes it `Joint`; a letter or a tab makes it `Alone` |
| PunctTable.NamesSpellComponents | src/token.rs:363-387 | each two- and three-character token's name is the characters of its components in order |
| PunctTable.NamesAreDistinct | src/token.rs:363-387 | no two composite tokens of the same length share a name |
| Cursor.CurrentAt | src/token.rs:224-225 | `current()` yields the entry at the cursor and fails only past the end |
| Cursor.GetAt | src/token.rs:393-399 | `get(offset)` succeeds exactly when the offset stays inside the stream |
| Cursor.ParseStream.AddError | examples/lox.rs:123 | `add_error` appends to the recorded errors |
| Cursor.GroupAt | examples/lox.rs:308-310 | a parsed group starts at its opening punct, ends at the matching close and is strictly shorter than the stream |
| Cursor.RemoveWhitespace | examples/lox.rs:266 | keeps exactly the non-whitespace entries, each as often as it occurs |
| Cursor.RemoveWhitespaceAppend | examples/lox.rs:266 | removal keeps the order of the kept entries: the interior of `a + b` is that of `a` then that of `b` |
| Cursor.ParseGroup | examples/lox.rs:265 | parsing a group follows `GroupAt` and leaves the cursor in place on failure |
| TokenParse.SingleAt | src/token.rs:167-179 | succeeds exactly on a punct of the kind, consuming one entry; otherwise `UnexpectedToken` naming the character at that entry, or end of file |
| TokenParse.DoubleAt | src/token.rs:224-246 | succeeds exactly on a `Joint` first component followed by the second; span from first start to second end; failure names the token at the first entry |
| TokenParse.TripleAt | src/token.rs:276-303 | the same for three components; only the first entry's spacing is checked |
| TokenParse.TokenAt | src/token.rs:167-303 | a successful token parse consumes entries and yields a value of the token's shape |
| TokenParse.PairRawAt | src/token.rs:393-405 | `parse_joint_impl` yields a pair of the two tokens' shapes |
| TokenParse.PairRawDoneIff | src/token.rs:393-405 | `parse_joint_impl` succeeds exactly when `T1` parses, the last entry it consumed is `Joint`, and `T2` parses after it |
| TokenParse.PairRawDoneAfter | src/token.rs:395-403 | once `T1` has parsed, `parse_joint_impl` succeeds exactly when its last entry is `Joint` and `T2` parses next |
| TokenParse.PairAt | src/token.rs:407-420 | `(T1, T2)` succeeds exactly when `T1` parses, the last entry it consumed is `Joint`, and `T2` parses next; failure names `T1::display() + T2::display()` |
| TokenParse.Space2At | src/token.rs:436-445 | `Space2` succeeds and fails exactly as the joint pair of two spaces |
| TokenParse.Space4At | src/token.rs:463-472 | `Space4` succeeds and fails exactly as the joint pair of two `Space2` |
| TokenParse.OptionAt | src/token.rs:17-24 | never fails; `Some` exactly when the token parses (consuming it), `None` leaving the position unchanged |
| TokenParse.SingleIsOneEntry | src/token.rs:167-179 | a single punct and its `Option` consume exactly the one matching entry |
| TokenParse.SpellsConcat | src/token.rs:426-430 | spelling two displays one after the other spells their concatenation |
| TokenParse.ConsumedEntriesSpellDisplay | src/token.rs:191-195 | a parsed token consumes one entry per character of its display, and those entries spell it |
| TokenParse.SingleSpellsDisplay | src/token.rs:167-179 | a single punct consumes the one entry that spells its character |
| TokenParse.Space2SpellsDisplay | src/token.rs:436-445 | `Space2` consumes two entries that spell two spaces |
| TokenParse.Space4SpellsDisplay | src/token.rs:463-472 | `Space4` consumes four entries that spell four spaces |
| TokenParse.DoubleSpellsDisplay | src/token.rs:259-262 | the entries a two-character token consumes spell its name |
| TokenParse.TripleSpellsDisplay | src/token.rs:316-319 | the entries a three-character token consumes spell its name |
| TokenParse.PairSpellsDisplay | src/token.rs:426-430 | the entries a pair consumes spell `T1::display() + T2::display()` |
| TokenParse.PairParts | src/token.rs:393-405 | a parsed pair is `T1` parsed at the start and `T2` parsed where `T1` ended, and it ends where `T2` ends |
| TokenParse.SpellsJoin | src/token.rs:426-430 | two spellings that meet end to end spell the concatenated display and cover its length |
| TokenParse.FailureNamesDisplay | src/token.rs:237-246 | every failing token parse inside the stream reports `UnexpectedToken` with the token's display, at the first entry |
| TokenParse.TripleIgnoresSecondSpacing | src/token.rs:276-291 | changing the spacing of a three-character token's second entry does not change the result |
| TokenParse.DoubleRejectsAloneFirst | src/token.rs:224-230 | an `Alone` first punct makes every two-character parse fail at that entry |
| TokenParse.SpacesAreJointPairs | src/token.rs:436-482 | `Space2`/`Space4` parse and display as their pairs |
| TokenParse.ParseToken | src/token.rs:167-303 | `input.parse()` of a token follows `TokenAt` and restores the cursor on failure |
| TokenParse.RawParse | src/token.rs:167-303 | dispatch to the token's own parser follows `TokenAt` |
| TokenParse.ParseSingle | src/token.rs:167-179 | follows `SingleAt` |
| TokenParse.DoubleFromTokens | src/token.rs:224-234 | `from_tokens_impl` follows its specification |
| TokenParse.ParseDouble | src/token.rs:237-246 | follows `DoubleAt` |
| TokenParse.TripleFromTokens | src/token.rs:276-291 | `from_tokens_impl` follows its specification |
| TokenParse.ParseTriple | src/token.rs:294-303 | follows `TripleAt` |
| TokenParse.PairJoint | src/token.rs:393-405 | `parse_joint_impl` follows `PairRawAt` |
| TokenParse.ParsePair | src/token.rs:407-420 | follows `PairAt` |
| TokenParse.ParseSpace2 | src/token.rs:436-445 | follows `Space2At` |
| TokenParse.ParseSpace4 | src/token.rs:463-472 | follows `Space4At` |
| TokenParse.ParseOption | src/token.rs:17-24 | follows `OptionAt` |
| TokenParse.Peek | examples/lox.rs:109 | `peek` reports whether the token parses here and leaves the cursor unchanged |
| Lexemes.IdentAt | src/token.rs:57-65 | on an identifier yields it and advances by one; past the end fails with end of file |
| Lexemes.ExpectIdentAt | src/token.rs:57-65 | succeeds exactly on an identifier and agrees with `IdentAt` there |
| Lexemes.NonIdentReachesTodo | src/token.rs:62 | a non-identifier entry lies outside `Ident::parse`'s defined inputs; the corrected parser reports it as an unexpected identifier |
| Lexemes.KeywordAt | examples/lox.rs:20-27 | a keyword parses exactly on an identifier with its text; otherwise `UnexpectedToken` naming it |
| Lexemes.LookaheadError | examples/lox.rs:312 | `lookahead.error()` is one `UnexpectedToken` listing the probed displays at the cursor's entry |
| Lexemes.ParseIdent | src/token.rs:57-65 | follows `IdentAt` |
| Lexemes.ExpectIdent | examples/lox.rs:253 | follows `ExpectIdentAt` and restores the cursor on failure |
| Lexemes.ParseKeyword | examples/lox.rs:301 | follows `KeywordAt` |
| Lexemes.PeekKeyword | examples/lox.rs:132 | `peek(keyword)` is exactly `IsKeywordAt` |
| ToString.Fmt | src/to_string.rs:6-36 | the loop's output and success are those of `Render` |
| ToString.WriteGap | src/to_string.rs:27-29 | writes one space per position of `last_token_end..start`, none when that range is empty |
| ToString.RenderStops | src/to_string.rs:12-25 | the output stops at an error entry, failing, and at `End`, succeeding |
| ToString.RenderStep | src/to_string.rs:11-31 | each entry writes the gap in spaces since the previous end, then its text |
| ToString.FailsIffErrorBeforeEnd | src/to_string.rs:12 | formatting fails exactly when an error entry comes before the first `End` |
| ToString.EntriesAfterEndIgnored | src/to_string.rs:25 | entries after `End` do not change the output |
| ToString.NoLeadingSpaces | src/to_string.rs:8 | the first entry is written without leading spaces (`usize::MAX` start) |
| ToString.OutputSpansSourceRange | src/to_string.rs:27-31 | for contiguous, well-laid entries the output's length is the source range they cover |
| ToString.AdjacentEntriesConcatenate | src/to_string.rs:27-31 | any run of written entries, each starting where the previous ended, is written as the gap before the first and then all their texts, and formatting succeeds |
| Diagnostics.ReportKindOf | src/error/ariadne.rs:33-47 | every error kind is reported as an error |
| Diagnostics.ReportOf | src/error/ariadne.rs:109-155 | a report carries the error's source; one label at the error's span unless end of file; expected-token note exactly for `UnexpectedToken`; message: the custom text, "Unrecognised character", "Expect \"'\" after character literal", "Character literals must be exactly one character long", "Expect '\"' at end of string literal", "Unexpected token", "Unexpected end of file while parsing", or the unmatched group's opener |
| Diagnostics.ReportFrom | src/error/ariadne.rs:109-155 | builds `ReportOf` |
| Diagnostics.ReportsOf | src/error/ariadne.rs:157-167 | no more reports than errors |
| Diagnostics.ReportsOfOne | src/error/ariadne.rs:161-163 | one failure gives at most one report |
| Diagnostics.Reportable | src/error/ariadne.rs:161 | keeps exactly the non-`Silent` errors |
| Diagnostics.ReportsOfWith | src/error/ariadne.rs:157-167 | the reports of combined errors are the reports of each, in order |
| Diagnostics.ReportsFollowReportable | src/error/ariadne.rs:157-167 | the i-th report is the report of the i-th non-silent error |
| Diagnostics.ReportsFollowCons | src/error/ariadne.rs:157-165 | a reportable failure put in front, with its report in front of the reports, keeps the i-th report that of the i-th failure |
| Diagnostics.SilentErrorsReportNothing | src/error/ariadne.rs:161 | an error made only of `Silent` errors produces no report |
| Diagnostics.ReportsFrom | src/error/ariadne.rs:157-167 | the loop builds `ReportsOf` |
| Calc.AdditionAt | examples/calc.rs:44-56 | a parsed sum consumes at least one entry |
| Calc.AdditionLoop | examples/calc.rs:46-54 | the loop stops only where neither `+` nor `-` follows |
| Calc.FactorAt | examples/calc.rs:58-72 | a parsed product consumes at least one entry |
| Calc.FactorLoop | examples/calc.rs:60-70 | the loop stops only where none of `*`, `/`, `%` follows |
| Calc.UnaryAt | examples/calc.rs:74-80 | a parsed unary consumes at least one entry |
| Calc.PrimaryAt | examples/calc.rs:82-94 | a float or integer literal is a number; anything other than those and `(` is the lookahead error |
| Calc.ParseExpr | examples/calc.rs:38-42 | `parse` of a whole stream succeeds exactly when addition parses and uses the whole stream, with its value; an empty stream fails |
| Calc.LeadingMinusesNest | examples/calc.rs:74-80 | k leading minuses give k nested negations of the primary |
| Calc.AdditionGroupsLeft | examples/calc.rs:44-56 | for any operands and any two of `+`, `-`: `x0 op1 x1 op2 x2` parses as `(x0 op1 x1) op2 x2` |
| Calc.FactorGroupsLeft | examples/calc.rs:58-72 | for any operands and any two of `*`, `/`, `%`: `x0 op1 x1 op2 x2` parses as `(x0 op1 x1) op2 x2` |
| Calc.ProductBindsTighter | examples/calc.rs:44-72 | for any operands, `op1` among `+`, `-` and `op2` among `*`, `/`, `%`: `x0 op1 x1 op2 x2` parses as `x0 op1 (x1 op2 x2)` |
| Calc.ParenthesesNest | examples/calc.rs:88-90 | a parenthesised group parses exactly when its whole interior is one sum, which it yields |
| Calc.FactorLoopStep | examples/calc.rs:61-66 | one operator step of the factor loop applies the operator to the next unary |
| Calc.FactorLoopStops | examples/calc.rs:67-69 | the factor loop ends, yielding the accumulated product, where none of `*`, `/`, `%` follows |
| Calc.AdditionLoopStep | examples/calc.rs:47-50 | one operator step of the addition loop applies `+` or `-` to the next factor, or fails with its error |
| Calc.AdditionLoopStops | examples/calc.rs:51-53 | the addition loop ends, yielding the accumulated sum, where neither `+` nor `-` follows |
| Calc.ParseStreamExpr | examples/calc.rs:38-42 | `parse` on a stream follows `ParseExpr` |
| Calc.Addition | examples/calc.rs:44-56 | follows `AdditionAt` |
| Calc.AdditionTail | examples/calc.rs:46-55 | the loop after the first factor follows `AdditionLoop` |
| Calc.AdditionOperator | examples/calc.rs:47-49 | yields `+` or `-` exactly when that punct is at the cursor, consuming it, and nothing otherwise |
| Calc.FactorOperator | examples/calc.rs:61-66 | recognises `*`, `/`, `%` exactly and consumes the one it finds |
| Calc.Factor | examples/calc.rs:58-72 | follows `FactorAt` |
| Calc.FactorTail | examples/calc.rs:60-71 | the loop after the first unary follows `FactorLoop` |
| Calc.Unary | examples/calc.rs:74-80 | follows `UnaryAt` |
| Calc.Primary | examples/calc.rs:82-94 | follows `PrimaryAt` |
| LoxAst.ForLoop | examples/lox.rs:506-517 | `for` becomes an optional initialiser followed by a `while` on the condition whose body is the body then the increment |
| LoxAst.EmptyForIsWhileTrue | examples/lox.rs:506-517 | `for (;;) body` is `while (true) body` |
| LoxAst.IncrementFollowsBody | examples/lox.rs:506-517 | on every pass the increment runs right after the body |
| LoxExpr.Finish | examples/lox.rs:310 | a nested parse succeeds exactly when it used the whole stream and recorded no error; recorded errors are kept in the failure |
| LoxExpr.ExprOf | examples/lox.rs:310 | `parse` of a stream as an expression succeeds exactly when the assignment uses the whole stream and records nothing, with its value |
| LoxExpr.KwIdentAt | examples/lox.rs:307 | `kw::ident` accepts exactly an identifier that is not a reserved word |
| LoxExpr.ProbeAt | examples/lox.rs:157-227 | a matching operator probe consumes at least one entry |
| LoxExpr.FirstMatch | examples/lox.rs:157-227 | the operator chosen is the first in the level's order whose probe matches; none exactly when no probe matches |
| LoxExpr.FirstMatchStep | examples/lox.rs:160-176 | the search from operator `i` stops at `i` when its probe matches and goes on from `i + 1` otherwise |
| LoxExpr.FirstMatchTail | examples/lox.rs:160-176 | skipping an absent first operator leaves the first match, or its absence, unchanged |
| LoxExpr.AssignmentAt | examples/lox.rs:106-127 | a parsed assignment advances and only appends recorded errors |
| LoxExpr.LevelAt | examples/lox.rs:129-227 | a parsed binary level advances and only appends recorded errors |
| LoxExpr.OperandAt | examples/lox.rs:129-227 | the operand of a level advances and only appends recorded errors |
| LoxExpr.LevelLoop | examples/lox.rs:160-176 | the loop stops only where no operator of the level matches |
| LoxExpr.UnaryAt | examples/lox.rs:229-243 | a parsed unary advances and only appends recorded errors |
| LoxExpr.CallAt | examples/lox.rs:245-262 | a parsed call chain advances and only appends recorded errors |
| LoxExpr.CallLoop | examples/lox.rs:248-261 | the loop stops only where neither `(` nor `.` follows |
| LoxExpr.CallOfGroup | examples/lox.rs:264-283 | the call built from a parsed group keeps the callee and ends after the group; the argument limit is recorded at the parentheses |
| LoxExpr.FinishCallAt | examples/lox.rs:264-283 | yields a call on the given callee; records "Can't have more than 254 arguments" at the parentheses exactly when there are 255 or more |
| LoxExpr.ArgumentsAt | examples/lox.rs:268-269 | an empty argument list consumes nothing |
| LoxExpr.ArgumentsLoop | examples/lox.rs:268-269 | arguments only accumulate |
| LoxExpr.SuperAt | examples/lox.rs:299-303 | `super . name` yields the method name after the dot, consuming three entries |
| LoxExpr.SuperAsWrittenAt | examples/lox.rs:299-303 | as written, the method name is read from the entry right after `super` |
| LoxExpr.SuperNameAt | examples/lox.rs:299-303 | `super` as the grammar runs it agrees with the as-written parse wherever that is defined, and succeeds exactly when an identifier follows the keyword |
| LoxExpr.GroupingAt | examples/lox.rs:308-310 | a parenthesised expression starts at `(` and ends where its group ends; it fails with the group's error, or succeeds exactly when its interior parses as an expression, with that value |
| LoxExpr.PrimaryAt | examples/lox.rs:285-314 | `false`/`true`/`nil`/`this`, a non-reserved identifier each consume one entry; a float, integer or string literal is that literal, consuming one entry; `(` parses exactly when its group parses as an expression, with that value; `super` parses exactly when an identifier follows it at once, as the source reads it; anything that cannot begin a primary is the lookahead error; recorded errors are unchanged |
| LoxExpr.AssignmentGroupsRight | examples/lox.rs:106-127 | `a = b = c` parses as `a = (b = c)` |
| LoxExpr.LevelGroupsLeft | examples/lox.rs:129-227 | at every binary level `x op y op z` groups as `(x op y) op z` |
| LoxExpr.InvalidTargetIsRecorded | examples/lox.rs:109-124 | after `target = value`: a variable target gives an assignment of the value to that name, a property target gives a property set on its object; anything else keeps the left side and records "Invalid assignment target" at the `=`; a valid target records nothing |
| LoxExpr.AssignmentWithoutEqual | examples/lox.rs:106-127 | without `=` after the operand, an assignment is exactly the level-6 (logical or) expression, and its failure; a value after `=` that stops stops the assignment |
| LoxExpr.GreaterEqualSplitAsWritten | examples/lox.rs:183-190 | as written, `>=` is matched as `>` followed by a stray `=`, so the comparison stops |
| LoxExpr.GreaterEqualWhole | examples/lox.rs:185-190 | corrected half: with `>=` probed first it is matched as one operator |
| LoxExpr.ComparisonOfGreaterEqual | examples/lox.rs:179-199 | corrected half: with `>=` probed first, `x >= y` parses as a `GreaterEqual` binary |
| LoxExpr.ComparisonOfGreaterEqualAsWritten | examples/lox.rs:179-199 | as written, a comparison whose left operand is followed by `>=` never parses |
| LoxExpr.ComparisonAt | examples/lox.rs:179-199 | corrected half: the comparison level with `>=` and `<=` probed first advances and stops where no comparison operator follows |
| LoxExpr.LevelLoopOnce | examples/lox.rs:160-176 | one round of a level's loop with nothing after it combines the accumulated operand with the next |
| LoxExpr.ComparisonLoopOfGreaterEqual | examples/lox.rs:179-199 | corrected half: after `x`, the comparison loop takes a whole `>=` and `y` and stops |
| LoxExpr.NothingStartsAt | examples/lox.rs:129-243 | no binary level parses from an entry that cannot begin an expression |
| LoxExpr.NoExpressionStartsAt | examples/lox.rs:106-127 | no expression parses from such an entry |
| LoxExpr.NoUnaryStartsAt | examples/lox.rs:229-314 | no unary expression parses from an entry that cannot begin an expression |
| LoxExpr.SuperDotReachesTodo | examples/lox.rs:299-303 | with `super .`, the as-written parse is undefined, and the corrected one succeeds exactly when a name follows the dot |
| LoxExpr.SuperDotStops | examples/lox.rs:299-303 | as written, `super . name` never parses as a primary |
| LoxExpr.TrailingCommaAbsorbed | examples/lox.rs:268-269 | a trailing comma in arguments is accepted |
| LoxExpr.Conclude | examples/lox.rs:310 | finishing a nested parse yields `Finish` |
| LoxExpr.KwIdent | examples/lox.rs:307 | follows `KwIdentAt` |
| LoxExpr.ParseExprStream | examples/lox.rs:317-321 | `Expr::parse` on a stream follows `ExprOf` |
| LoxExpr.Assignment | examples/lox.rs:106-127 | follows `AssignmentAt`, recorded errors included |
| LoxExpr.MatchOperator | examples/lox.rs:160-176 | finds `FirstMatch`, leaving the cursor after the operator or unchanged |
| LoxExpr.MatchProbe | examples/lox.rs:160-176 | consumes the operator exactly when its probe matches, leaving the cursor in place otherwise |
| LoxExpr.Level | examples/lox.rs:129-227 | follows `LevelAt` |
| LoxExpr.UnaryExpr | examples/lox.rs:229-243 | follows `UnaryAt` |
| LoxExpr.CallExpr | examples/lox.rs:245-262 | follows `CallAt` |
| LoxExpr.CallTail | examples/lox.rs:248-261 | the loop after the primary follows `CallLoop` |
| LoxExpr.FinishCall | examples/lox.rs:264-283 | follows `FinishCallAt` |
| LoxExpr.CallWithGroup | examples/lox.rs:266-283 | the arguments of a parsed group and the argument limit follow `CallOfGroup` |
| LoxExpr.ParseArgumentsStream | examples/lox.rs:268-269 | parsing an argument list on its own stream follows `ArgumentsOf` |
| LoxExpr.Arguments | examples/lox.rs:268-269 | follows `ArgumentsAt` |
| LoxExpr.ArgumentsTail | examples/lox.rs:268-269 | the arguments after the first follow `ArgumentsLoop` |
| LoxExpr.Primary | examples/lox.rs:285-314 | follows `PrimaryAt` |
| LoxExpr.ParseSuper | examples/lox.rs:299-303 | `super` and the name right after it, on the cursor, follows `SuperNameAt` |
| LoxExpr.Grouping | examples/lox.rs:308-310 | a parenthesised expression on the cursor follows `GroupingAt` |
| LoxStmt.ExpressionStmtAt | examples/lox.rs:568-572 | an expression statement ends with `;` |
| LoxStmt.Terminated | examples/lox.rs:570 | a value is finished exactly when a `;` follows, which is consumed |
| LoxStmt.PrintAt | examples/lox.rs:541-546 | a print statement starts with `print` |
| LoxStmt.ReturnAt | examples/lox.rs:548-557 | starts with `return`; a bare `return;` returns `nil` |
| LoxStmt.VarDeclAt | examples/lox.rs:431-445 | binds the non-reserved name after `var`; without an initialiser the value is `nil` |
| LoxStmt.VarInitAt | examples/lox.rs:436-443 | after the name, keeps the name; a `;` right away gives the initialiser `nil` |
| LoxStmt.WhileAt | examples/lox.rs:559-566 | yields a while statement |
| LoxStmt.IfAt | examples/lox.rs:522-539 | yields an `if` statement; as written, with its branches parsed by `BranchesAsWrittenAt` |
| LoxStmt.BranchesAt | examples/lox.rs:527-538 | corrected half: the if statement carries the parsed condition |
| LoxStmt.BranchesAsWrittenAt | examples/lox.rs:527-538 | the branches as written advance, only append recorded errors and yield an `if` on the condition |
| LoxStmt.ElseAsWrittenAt | examples/lox.rs:528-538 | after the then branch, `else` only peeked: the statement is an `if` on the condition and only appends recorded errors |
| LoxStmt.ElseAt | examples/lox.rs:528-538 | corrected half: after the then branch, `else` is consumed; the statement is an `if` on the condition and only appends recorded errors |
| LoxStmt.ForAt | examples/lox.rs:467-520 | a parsed `for` advances and only appends recorded errors; once its keyword and clauses are read, it parses exactly when its body does, and is the `while` loop desugared from those clauses and that body |
| LoxStmt.ForHeaderAt | examples/lox.rs:500-502 | the parenthesised clauses are consumed whole |
| LoxStmt.InitialiserAt | examples/lox.rs:472-479 | there is no initialiser exactly when the clauses start with `;` |
| LoxStmt.ForClausesAt | examples/lox.rs:471-495 | no initialiser exactly when the clauses start with `;`; no increment only when the clauses end after the second `;`; the condition is `true` when a `;` follows the initialiser at once |
| LoxStmt.ForClausesOf | examples/lox.rs:502 | the clauses parse exactly when they use the whole parentheses and record nothing |
| LoxStmt.StatementAt | examples/lox.rs:447-465 | a parsed statement advances and only appends recorded errors |
| LoxStmt.BlockLoop | examples/lox.rs:385-393 | a block's declarations use up its whole braces and only accumulate |
| LoxStmt.BlockStopsAtFailure | examples/lox.rs:385-393 | a declaration that fails ends the block with its error |
| LoxStmt.BlockOf | examples/lox.rs:461 | a braced block of nothing is empty; otherwise it parses exactly when its declarations use it up and record nothing |
| LoxStmt.DeclarationAt | examples/lox.rs:396-407 | a parsed declaration advances and only appends recorded errors |
| LoxStmt.ClassDeclAt | examples/lox.rs:409-429 | yields a class; it has a superclass exactly when `<` follows the name |
| LoxStmt.BracedMethodsAt | examples/lox.rs:420-422 | the braces holding the methods are consumed whole |
| LoxStmt.SuperclassAt | examples/lox.rs:413-418 | the superclass is the identifier after `<`, consuming both |
| LoxStmt.MethodsLoop | examples/lox.rs:420-422 | the methods use up the whole braces and only accumulate |
| LoxStmt.MethodsOf | examples/lox.rs:422 | a class body of nothing has no methods; otherwise it parses exactly when its methods use it up and record nothing |
| LoxStmt.FunctionAt | examples/lox.rs:331-352 | the function's name is the identifier at the start and its parameters those in the parentheses; "Can't have more than 254 parameters" is recorded at the parentheses exactly when there are 255 or more |
| LoxStmt.FunctionBodyAt | examples/lox.rs:340-350 | keeps the name and parameters and records "Can't have more than 254 parameters" at the parentheses exactly when there are 255 or more |
| LoxStmt.ParameterListAt | examples/lox.rs:334-339 | a parameter list consumes its parentheses |
| LoxStmt.BracedBlockAt | examples/lox.rs:347-349 | a function body consumes its braces |
| LoxStmt.ParametersAt | examples/lox.rs:337-339 | parameters record no error |
| LoxStmt.ParametersOf | examples/lox.rs:338 | an empty parameter list parses to no parameters; otherwise it parses exactly when the parameters use the whole list |
| LoxStmt.ParametersLoop | examples/lox.rs:337-339 | parameters only accumulate and stop where no comma follows |
| LoxStmt.SyncAt | examples/lox.rs:584-600 | resynchronising always moves forward, stops right after the first sync point or end it meets, and skips no sync point |
| LoxStmt.ProgramAt | examples/lox.rs:603-624 | the program parses only when no declaration failed, and then up to the end of the stream |
| LoxStmt.AstOf | examples/lox.rs:603-624 | an empty program has no statements; otherwise it parses exactly when the program loop parses with nothing recorded |
| LoxStmt.FailuresAreKept | examples/lox.rs:603-624 | once a declaration failed the program fails, and the combined failures are reported in order |
| LoxStmt.Combined | examples/lox.rs:618 | the combined error begins with the first failure and ends with the last |
| LoxStmt.OneFailureReported | examples/lox.rs:603-624 | a program whose second declaration fails, with parsing resumed after resynchronising, reports exactly that failure |
| LoxStmt.OneFailureStops | examples/lox.rs:603-624 | the program loop of that program stops with exactly that failure |
| LoxStmt.ProgramRecovers | examples/lox.rs:609-613 | a failed declaration is dropped, the cursor resynchronised and its error recorded |
| LoxStmt.SingleFailureAtEnd | examples/lox.rs:618-622 | at the end of the stream a single recorded failure is the program's error |
| LoxStmt.NoStatementAtElse | examples/lox.rs:447-465 | no statement starts with `else` |
| LoxStmt.IfElseStopsAsWritten | examples/lox.rs:528-529 | as written, an `if` with an `else` branch never parses |
| LoxStmt.IfNeverHasElse | examples/lox.rs:522-539 | as written, no parsed `if` statement ever has an else branch |
| LoxStmt.BranchesNeverHaveElse | examples/lox.rs:527-538 | as written, the parsed branches never include an else branch |
| LoxStmt.IfElseParses | examples/lox.rs:528-529 | corrected half: with `else` consumed, `if (c) s else t` yields both branches |
| LoxStmt.ElseTaken | examples/lox.rs:528-529 | corrected half: with `else` consumed, the else branch is the statement after it |
| LoxStmt.EmptyForClauses | examples/lox.rs:471-495 | `(;;)` has no initialiser, condition `true` and no increment |
| LoxStmt.ParametersRejectTrailingComma | examples/lox.rs:337-339 | a trailing comma in a parameter list is an error |
| LoxStmt.ExpressionStatement | examples/lox.rs:568-572 | follows `ExpressionStmtAt` |
| LoxStmt.PrintStatement | examples/lox.rs:541-546 | follows `PrintAt` |
| LoxStmt.ReturnStatement | examples/lox.rs:548-557 | follows `ReturnAt` |
| LoxStmt.VarDeclaration | examples/lox.rs:431-445 | follows `VarDeclAt` |
| LoxStmt.VarInit | examples/lox.rs:436-443 | follows `VarInitAt` |
| LoxStmt.WhileStatement | examples/lox.rs:559-566 | follows `WhileAt` |
| LoxStmt.IfStatement | examples/lox.rs:522-539 | follows `IfAt` |
| LoxStmt.Branches | examples/lox.rs:527-538 | follows `BranchesAsWrittenAt` |
| LoxStmt.ElseBranch | examples/lox.rs:528-538 | peeks `else` without consuming it and follows `ElseAsWrittenAt` |
| LoxStmt.ForStatement | examples/lox.rs:467-520 | follows `ForAt` |
| LoxStmt.ForHeader | examples/lox.rs:500-502 | follows `ForHeaderAt` |
| LoxStmt.ParseForClausesStream | examples/lox.rs:500-502 | the clauses parsed on their own stream follow `ForClausesOf` |
| LoxStmt.ForInitialiser | examples/lox.rs:472-479 | follows `InitialiserAt` |
| LoxStmt.ForClausesParse | examples/lox.rs:471-495 | follows `ForClausesAt` |
| LoxStmt.Statement | examples/lox.rs:447-465 | follows `StatementAt` |
| LoxStmt.BracedBlock | examples/lox.rs:347-349 | follows `BracedBlockAt` |
| LoxStmt.ParseBlockStream | examples/lox.rs:385-393 | a block on its own stream follows `BlockOf` |
| LoxStmt.BlockBody | examples/lox.rs:385-393 | follows `BlockLoop` |
| LoxStmt.Declaration | examples/lox.rs:396-407 | follows `DeclarationAt` |
| LoxStmt.ClassDeclaration | examples/lox.rs:409-429 | follows `ClassDeclAt` |
| LoxStmt.BracedMethods | examples/lox.rs:420-422 | follows `BracedMethodsAt` |
| LoxStmt.Superclass | examples/lox.rs:413-418 | follows `SuperclassAt` |
| LoxStmt.ParseMethodsStream | examples/lox.rs:420-422 | the methods on their own stream follow `MethodsOf` |
| LoxStmt.MethodsBody | examples/lox.rs:420-422 | follows `MethodsLoop` |
| LoxStmt.FunctionDecl | examples/lox.rs:331-352 | follows `FunctionAt` |
| LoxStmt.FunctionBody | examples/lox.rs:340-350 | follows `FunctionBodyAt` |
| LoxStmt.ParameterList | examples/lox.rs:334-339 | follows `ParameterListAt` |
| LoxStmt.ParseParametersStream | examples/lox.rs:337-339 | the parameters on their own stream follow `ParametersOf` |
| LoxStmt.Parameters | examples/lox.rs:337-339 | follows `ParametersAt` |
| LoxStmt.ParametersTail | examples/lox.rs:337-339 | the names after the first follow `ParametersLoop` |
| LoxStmt.AtSyncPoint | examples/lox.rs:585-598 | reports whether the cursor is at a sync point, without moving it |
| LoxStmt.Synchronise | examples/lox.rs:584-600 | moves the cursor to `SyncAt` |
| LoxStmt.Program | examples/lox.rs:603-624 | follows `ProgramAt` |
| LoxStmt.ParseAstStream | examples/lox.rs:603-624 | `Ast::parse` on a stream follows `AstOf` |

## Left out

- `src/to_string.rs` matches exactly `Error`, `Ident`, `Punct`, `WhiteSpace`
  and `End`, so the printer's `Entry` has those five cases. The cursor's
  `TokenTree` has what `src/token.rs` converts from.
- The parse-stream type, `parse`/`try_parse`, `Group`, `Punctuated`,
  `parse_repeated`, `peek2_any`, `kw::ident`, the keyword macro and the
  literal token types are not part of this model. Their behaviour is assumed
  as follows:
  - a failed `parse` restores the cursor, and in Lox also the recorded errors;
  - `next()` and `current()` fail with end of file past the last entry;
  - the entry point removes whitespace, runs the parser and demands the whole
    stream. A leftover entry is an `UnexpectedToken` with no candidates there.
    Errors recorded inside are reported;
  - a group runs to its matching closing punct, counting nesting of the same
    delimiter;
  - separated lists of arguments accept a trailing comma; parameter lists do not;
  - `parse_repeated` repeats until the stream is empty;
  - a keyword is an identifier with the keyword's text, and `kw::ident`
    rejects the 16 reserved words;
  - `synchronise` skips entries until a `;` or a declaration keyword after the
    cursor, then skips one more.
- Lexemes.LookaheadError: the display strings of identifiers, literals and
  keywords are the model's own ("an identifier", "a float literal", …). Their
  `Token` impls are not part of this model.
- Tokenization (turning text into a stream) is not part of this model. The
  streams are given, already end-terminated. Lox and calc streams are assumed
  free of whitespace entries after `remove_whitespace`.
- Diagnostics.ReportOf: the rendering done by the `ariadne` crate is outside
  the model: colours, error codes, report start offsets, and the text of the
  expected-token note.
  The model keeps which message and which labels each error kind gets.
- `Error::eprint`, `Report::write`, `Report::print` and the examples' `main`
  functions do I/O and are left out.
- `Expr::eval` in `examples/calc.rs` is left out. It is `f64` arithmetic, and
  floats are kept only as bit patterns.
- ToString.Fmt: an error from the underlying `Formatter` is not modelled.
  Writing is assumed to succeed, so the only failure is an error entry.
- The Lox tree keeps what tokens stand for, not the tokens:
  - operator and keyword tokens are dropped;
  - the spans it keeps are those of identifiers and of a call's parentheses;
  - `Return` keeps only its value;
  - a `Literal::Float`/`Int`/`String` keeps the literal's value.
- Recursion depth is unbounded: a stack overflow on deeply nested input is
  not modelled.
- The grammar follows the code as written, including the findings below:
  the comparison level probes `>` before `>=` and `<` before `<=`, an `if`
  parses its else branch at the peeked `else`, and `super` reads the method
  name right after the keyword. The corrected counterparts (`COMPARISON`,
  `LoxExpr.ComparisonAt`, `LoxStmt.BranchesAt`, `LoxStmt.ElseAt`,
  `LoxExpr.SuperAt`) are kept only as the corrected halves of those findings.
- Lexemes.IdentAt: `Ident::parse` reaches `todo!()` (a panic) on an entry
  that is not an identifier. The grammar calls `Lexemes.ExpectIdentAt`
  instead, which agrees with it wherever it is defined and reports an
  unexpected token where the source would panic.
- LoxExpr.PrimaryAt: after `super`, an entry that is not an identifier (such
  as the `.` of `super.m`) makes the source panic; the model reports it as an
  unexpected token, so the parse fails instead.
- LoxExpr.Primary: the same for the method on the cursor.
- LoxExpr.LevelAt: `Punct!["=="]` is taken to be the joint pair of two `=`
  puncts, `(Punct!["="], Punct!["="])`. The macro that defines it is not part
  of this model.
- Calc.PrimaryAt: an integer literal is kept as its `i64` value (`IntNum`)
  rather than converted with `as f64`. The conversion, like all `f64`
  arithmetic, is not modelled, so an integer literal and a float literal of
  the same value are different trees here.
- Calc.Primary: the same for the method on the cursor.
- Calc.AdditionAt, Calc.FactorAt, Calc.UnaryAt, LoxExpr.AssignmentAt,
  LoxExpr.LevelAt, LoxStmt.StatementAt, LoxStmt.DeclarationAt: their own
  `ensures` state only progress and error accumulation. What they compute
  is stated by the lemmas about them and by the methods that follow them.

## Findings

| source | as written | input that shows it | evidently intended | confidence | as-written member | corrected member |
|---|---|---|---|---|---|---|
| examples/lox.rs:183-194 | `comparison` probes `>` before `>=` and `<` before `<=` | `a >= b`: `>` matches and `term` then meets `=` | `>=` and `<=` are their own operators | high, not executed | LoxExpr.ComparisonOfGreaterEqualAsWritten | LoxExpr.ComparisonOfGreaterEqual |
| examples/lox.rs:528-529 | `if` peeks `else` but never consumes it before parsing the else branch | `if (c) x; else y;`: the else branch starts at `else` | consume `else`, then parse the branch | high, not executed | LoxStmt.IfElseStopsAsWritten | LoxStmt.IfElseParses |
| src/token.rs:57-65 | `Ident::parse` calls `todo!()` on any entry that is not an identifier | the stream `1` parsed as an `Ident` | report an unexpected token | high, not executed | Lexemes.NonIdentReachesTodo | Lexemes.ExpectIdentAt |
| examples/lox.rs:299-303 | `super` reads the method name right after the keyword, with no `.` | `super.m`: the `.` reaches `Ident::parse`'s `todo!()` | parse `.`, then the name | medium, not executed | LoxExpr.SuperDotReachesTodo | LoxExpr.SuperAt |
