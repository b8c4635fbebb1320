# A verified model of the Azure IoT Device Workbench core

This project is a Dafny model of the self-contained logic inside the Azure IoT Device Workbench extension for Visual Studio Code (microsoft/vscode-iot-workbench). Each module models one part of the extension and proves what that part promises.

- **JSON text model** (`language.dfy`, `json_tokenizer.dfy`, `json_values.dfy`, `json_parse_result.dfy`, `json_parser.dfy`):
  - character spans;
  - the tolerant JSON tokenizer and its line-length bookkeeping;
  - the recursive-descent parser;
  - the queries between character indexes, positions, tokens and values.
- **Cursor queries of the meta-model JSON parsers** (`meta_model_json_parser.dfy`).
- **Model validators:**
  - the first generation (`diagnostic_checks.dfy`, `object_diagnostics.dfy`);
  - the IntelliSense diagnostics (`intellisense.dfy`, `twin_diagnostics.dfy`), checked against the IntelliSense graph (`twin_graph.dfy`).
- **Meta-model graph queries and their caches** (`meta_model_graph.dfy`).
- **String parsers and builders:**
  - connection strings (`connection_string.dfy`, `connection_string_builder.dfy`, `model_repository_connection.dfy`);
  - model URIs (`pnp_uri.dfy`);
  - names and file names (`common_utility.dfy`, `device_model_manager.dfy`);
  - output messages (`colorized_channel.dfy`);
  - quoting and escaping (`utilities.dfy`);
  - shell commands (`docker_manager.dfy`);
  - the CMake file list (`cmake_file_list.dfy`).
- **Small algorithms:**
  - dependency-ordered Azure component listing (`azure_components.dfy`);
  - version comparison and code-generator release selection (`code_gen.dfy`);
  - the `OperatingResult` stack (`operating_result.dfy`);
  - the repository web views' filters and toggles (`repository_views.dfy`);
  - the example gallery's query parsing, example list and message callbacks (`example_view.dfy`);
  - the demo binary search tree (`binary_search_tree.dfy`);
  - board matching (`board_provider.dfy`);
  - the workbench folder settings (`iot_settings.dfy`);
  - the C device template's `sleep_ms` and `main` (`device_main.dfy`).

`strings.dfy` and `wrappers.dfy` stand in for the JavaScript string and array built-ins and for the `Option`/`Result` values the model uses in place of `null`, `undefined` and thrown errors.

The form of each module follows its source:
- Pure code becomes functions and lemmas.
- Code that changes state becomes classes with fields, methods with `modifies` clauses, and loops with invariants. Examples are the tokenizer, the graph builders and caches, the diagnostics list, the connection-string builder, `OperatingResult`, the tree and the web views.
- Each method is proved against a function that states what it computes.

Code that appears twice is modelled once, and the rows below cite both copies:
- the Digital Twin and Plug and Play ("PnP") variants of the meta-model parser, diagnostics and graph;
- the two connection-string builders;
- the two repository views.

Where the variants differ, a parameter says which one is meant.

## Model

| member | source | states |
|---|---|---|
| JsonTokenizer.TextOf | src/pnp/JSON.ts:86-92 | the text of a token is its basic tokens' texts run together, as long as their lengths added up |
| JsonTokenizer.RunEnd | src/pnp/JSON.ts:217-241 | a run of accepted basic tokens ends within the input, after the start |
| JsonTokenizer.RunEndAccepts | src/pnp/JSON.ts:217-241 | every basic token of a run is accepted and the run stops at the first that is not (or at the end) |
| JsonTokenizer.QuotedEnd | src/pnp/JSON.ts:182-211 | the scan of a quoted string ends within the input |
| JsonTokenizer.QuotedEndCloses | src/pnp/JSON.ts:182-211 | a quoted string ends just after the first unescaped quote of the opening quote's kind, a backslash escaping the next basic token, or at the end of input |
| JsonTokenizer.Optional | src/pnp/JSON.ts:248-253 | an optional part takes one basic token exactly when it is of the expected class |
| JsonTokenizer.ExponentEnd | src/pnp/JSON.ts:281-304 | the exponent part stays within the input |
| JsonTokenizer.FractionEnd | src/pnp/JSON.ts:265-279 | the fraction part stays within the input |
| JsonTokenizer.NumberEnd | src/pnp/JSON.ts:244-307 | a number token takes at least one basic token and stays within the input |
| JsonTokenizer.NumberShape | src/pnp/JSON.ts:244-307 | the parts of a number come in the order sign, digits, fraction, exponent |
| JsonTokenizer.BlockCommentEnd | src/pnp/JSON.ts:446-473 | a block comment ends just after the first `*` followed by `/`, or at the end of input |
| JsonTokenizer.NextToken | src/pnp/JSON.ts:376-543 | every token takes at least one basic token and stays within the input |
| JsonTokenizer.TokensStep | src/pnp/JSON.ts:376-543 | the tokens from a position are the token read there followed by the tokens after it, starting where it ends |
| JsonTokenizer.TokensContiguous | src/pnp/JSON.ts:376-381 | the first token starts at the start index and each token starts where the previous one ends |
| JsonTokenizer.TokensNonEmpty | src/pnp/JSON.ts:376-543 | no token read from non-empty basic tokens is empty |
| JsonTokenizer.TokensEnd | src/pnp/JSON.ts:376-381 | the last token ends at the start index plus the length of the text read |
| JsonTokenizer.TokensEmpty | src/pnp/JSON.ts:541-542 | no token is produced exactly when no basic token is left |
| JsonTokenizer.LineLengths | src/pnp/JSON.ts:350-362 | there is always at least one line |
| JsonTokenizer.LineLengthsSum | src/pnp/JSON.ts:350-362 | the line lengths add up to the length of the text read |
| JsonTokenizer.LineLengthsCount | src/pnp/JSON.ts:355-359 | a new line starts at each line break, so there is one line more than line breaks |
| JsonTokenizer.LineLengthsNonNegative | src/pnp/JSON.ts:350-362 | no line length is negative |
| JsonTokenizer.CompletedLinesPositive | src/pnp/JSON.ts:353-359 | every line ended by a line break is at least one long |
| JsonTokenizer.ReadRun | src/pnp/JSON.ts:509-523 | the loop reads exactly the run of basic tokens of the class |
| JsonTokenizer.ReadQuotedString | src/pnp/JSON.ts:182-211 | the loop reads exactly up to the closing quote given by `QuotedEnd` |
| JsonTokenizer.ReadOptional | src/pnp/JSON.ts:248-253 | moves past one basic token exactly when it is of the class |
| JsonTokenizer.ReadNumber | src/pnp/JSON.ts:244-307 | reads exactly the number given by `NumberEnd` |
| JsonTokenizer.ReadFraction | src/pnp/JSON.ts:265-279 | reads exactly the fraction given by `FractionEnd` |
| JsonTokenizer.ReadExponent | src/pnp/JSON.ts:281-304 | reads exactly the exponent given by `ExponentEnd` |
| JsonTokenizer.ReadBlockCommentBody | src/pnp/JSON.ts:451-469 | the loop reads exactly the comment given by `BlockCommentEnd` |
| JsonTokenizer.ReadSlash | src/pnp/JSON.ts:425-481 | a slash gives a line comment, a block comment or a one-character literal, as `NextToken` says |
| JsonTokenizer.ReadLetters | src/pnp/JSON.ts:499-527 | `true`/`false`/`null` are tokens of their own and other letters read a literal of letters and underscores, as `NextToken` says |
| JsonTokenizer.ReadWhitespace | src/pnp/JSON.ts:217-241 | reads the white space token: the first basic token and the white space run after it |
| JsonTokenizer.ReadToken | src/pnp/JSON.ts:383-536 | the switch reads the token `NextToken` gives, and exactly its basic tokens |
| JsonTokenizer.Tokenizer.constructor | src/pnp/JSON.ts:318-321 | a new tokenizer has not started, has no current token and one line of length 0 |
| JsonTokenizer.Tokenizer.Finished | src/pnp/JSON.ts:376-545 | once the basic tokens are used up, every token has been produced and every line measured |
| JsonTokenizer.Tokenizer.MoveNextBasicToken | src/pnp/JSON.ts:350-362 | advancing adds the new basic token's length to the last line and opens a new line after a line break |
| JsonTokenizer.Tokenizer.AdvanceTo | src/pnp/JSON.ts:350-362 | moves the inner tokenizer on until the given basic tokens are consumed, keeping the line lengths right |
| JsonTokenizer.Tokenizer.ReadAndAdvance | src/pnp/JSON.ts:383-536 | reads the next element of `Tokens` at the current start index and moves past it |
| JsonTokenizer.Tokenizer.Record | src/pnp/JSON.ts:376-545 | the token read becomes the current one and is appended to those produced |
| JsonTokenizer.Tokenizer.ReadCurrentToken | src/pnp/JSON.ts:382-538 | a current token exists exactly when a basic token was left |
| JsonTokenizer.Tokenizer.MoveNext | src/pnp/JSON.ts:376-545 | the next token starts where the current one ends, is the next element of `Tokens`, and the result says whether there is one |
| JsonTokenizer.Significant | src/pnp/JSON.ts:1205-1213 | the tokens left for the parser are those that are neither white space nor comments, in order |
| JsonValues.WithinUnion | src/DigitalTwin/Language.ts:67-77 | widening a span by the union with another keeps what lay inside it inside |
| JsonValues.MapOfLastWins | src/pnp/JSON.ts:595-606 | a name is a key of the property map exactly when some property has it, and it maps to the value of the last property of that name |
| JsonValues.PropertyMap | src/pnp/JSON.ts:595-606 | the loop builds exactly the property map `MapOf` |
| JsonValues.HasProperty | src/pnp/JSON.ts:616-618 | true exactly when some property of the object has the name |
| JsonValues.GetPropertyValueLast | src/pnp/JSON.ts:624-626 | the lookup finds a value exactly when the object has the property, and it is the value of the last property of that name |
| JsonValues.NamesOf | src/pnp/JSON.ts:647-649 | the keys of the property map hold no name twice |
| JsonValues.NamesOfNames | src/pnp/JSON.ts:647-649 | the keys are exactly the names of the properties |
| JsonValues.PropertyNames | src/pnp/JSON.ts:647-649 | the property names hold no name twice and are no more than the properties |
| JsonValues.NamesAtMost | src/pnp/JSON.ts:647-649 | there are no more distinct names than properties |
| JsonValues.PropertyNamesAreKeys | src/pnp/JSON.ts:616-649 | a name is among the property names exactly when the object has that property |
| JsonValues.NestedPropertyValue | src/pnp/JSON.ts:624-626 | the value a lookup finds is nested in the object |
| JsonValues.PathValueOne | src/pnp/JSON.ts:633-643 | a walk along one name is one property lookup |
| JsonValues.PathRest | src/pnp/JSON.ts:633-643 | the names left on the caller's stack are a prefix of it: none once a value is found, and at least one when the walk fails on a value that is not an object |
| JsonValues.GetPropertyValueFromStack | src/pnp/JSON.ts:633-643 | the loop pops the names off the end of the caller's stack and looks each one up, giving the value `PathValue` says (an error where a value met is not an object) and leaving the stack `PathRest` says |
| JsonParseResult.TokenSpan | src/pnp/JSON.ts:61-63 | a token's span starts at the token and is as long as its text |
| JsonParseResult.ContiguousOrdered | src/pnp/JSON.ts:972-1001 | contiguous non-empty tokens are in increasing order, which the binary search relies on |
| JsonParseResult.MaxCharacterIndex | src/pnp/JSON.ts:878-884 | the loop adds up the line lengths |
| JsonParseResult.GetMaxColumnIndex | src/pnp/JSON.ts:943-952 | a line's length, less one for every line but the last |
| JsonParseResult.GetCharacterIndex | src/pnp/JSON.ts:894-922 | the column plus the lengths of the lines before, which lies inside the text when the assertions hold |
| JsonParseResult.IndexWithinText | src/pnp/JSON.ts:894-922 | a valid line and column give an index inside the text |
| JsonParseResult.PositionAsWritten | src/pnp/JSON.ts:924-941 | the loop as written steps over every line no longer than the remaining index, the last line included |
| JsonParseResult.PositionOf | src/pnp/JSON.ts:924-941 | the corrected position never lies past the last line |
| JsonParseResult.GetPositionFromCharacterIndex | src/pnp/JSON.ts:924-941 | corrected (see ## Findings: the last line is never left); the loop, stopping at the last line, computes `PositionOf` |
| JsonParseResult.PositionOfIndex | src/pnp/JSON.ts:894-941 | every valid line and column survives the trip to a character index and back |
| JsonParseResult.IndexOfPosition | src/pnp/JSON.ts:894-941 | corrected (see ## Findings: the last line is never left); every index inside the text survives the trip to a position and back |
| JsonParseResult.PositionAsWrittenOverruns | src/pnp/JSON.ts:930-938 | as written, the end of a text without a line break and the start of an empty last line land on a line that does not exist |
| JsonParseResult.PositionAsWrittenAgrees | src/pnp/JSON.ts:930-938 | before the start of the last line the loop as written and the corrected one agree |
| JsonParseResult.GetTokenAtCharacterIndex | src/pnp/JSON.ts:972-1001 | the token found is one of the tokens and covers the index; right after the last token the last token is found; none only when no token covers the index |
| JsonParseResult.LastContaining | src/pnp/JSON.ts:1023-1039 | the member chosen contains the index and no later member does; none when no member does |
| JsonParseResult.Child | src/pnp/JSON.ts:1016-1039 | the value the descent moves to contains the index |
| JsonParseResult.ValueAtStep | src/pnp/JSON.ts:1012-1045 | the descent moves to the child while there is one and stops at a value without one |
| JsonParseResult.ValueAtInnermost | src/pnp/JSON.ts:1012-1045 | the value found contains the index and none of its parts does |
| JsonParseResult.LastContainingOr | src/pnp/JSON.ts:1023-1039 | the inner loops keep the last member that contains the index, or the value itself |
| JsonParseResult.Descend | src/pnp/JSON.ts:1014-1043 | one pass of the descent moves to the child containing the index or stays |
| JsonParseResult.GetValueAtCharacterIndex | src/pnp/JSON.ts:1003-1048 | the innermost value containing the index, none when the root does not contain it, and an error when there is no value |
| Language.Span.Union | src/DigitalTwin/Language.ts:67-77 | a missing right-hand side gives the span back; otherwise the result starts no later than either span and ends no earlier than either |
| Language.Span.Translate | src/DigitalTwin/Language.ts:79-82 | the length is kept, the start moves by the movement, and a zero movement gives the same span |
| Language.ContainsNonEmpty | src/DigitalTwin/Language.ts:51-61 | a non-empty span contains exactly the indexes from its start up to its after-end index, that index included only when asked |
| Language.ContainsEmpty | src/DigitalTwin/Language.ts:51-61 | an empty span contains its start index and nothing else |
| Language.UnionCoversAfterEnd | src/DigitalTwin/Language.ts:67-77 | every index either operand contains, counting the after-end index, is contained the same way by the union |
| Language.UnionCovers | src/DigitalTwin/Language.ts:67-77 | every index a non-empty operand contains is contained by the union |
| Language.UnionOfEmptySpan | src/DigitalTwin/Language.ts:51-77 | an empty span at 5 contains 5 but its union with [0, 3) does not, so the previous property needs non-empty operands |
| Language.UnionCommutes | src/DigitalTwin/Language.ts:67-77 | the union does not depend on the order of its operands |
| Language.TranslateTwice | src/DigitalTwin/Language.ts:79-82 | two translations equal one by the sum of the movements |
| Language.NewPosition | src/DigitalTwin/Language.ts:89-97 | a position is built exactly when line and column are non-negative, and then holds them |
| Language.Issue.Translate | src/DigitalTwin/Language.ts:131-133 | the message is kept, the span is translated, and a valid issue stays valid |
| Language.NewIssue | src/DigitalTwin/Language.ts:111-121 | an issue is built exactly when the span has length at least one and the message is non-empty |
| JsonParser.LeafValue | src/pnp/JSON.ts:1075-1120 | a string, number, boolean or null token gives a value spanning exactly that token, and no other token does |
| JsonParser.Next | src/pnp/JSON.ts:1205-1213 | moving on records the next significant token, keeps the recorded tokens equal to the significant tokens read so far, and consumes input |
| JsonParser.ValueAt | src/pnp/JSON.ts:1077-1121 | the reference grammar of `parseValue` over the significant tokens: a value consumes at least its first token and no value consumes none; a brace yields an object and a bracket an array; the only failure is the null-span error |
| JsonParser.PropertyAt | src/pnp/JSON.ts:1155-1165 | a property's value after the colon consumes at least one token; a token that starts no value there is the null-span error |
| JsonParser.WithProperty | src/pnp/JSON.ts:1157-1164 | recording a property appends exactly one property, with the pending name and the parsed value, keeps the earlier ones and clears the pending name and colon |
| JsonParser.ObjectStepAt | src/pnp/JSON.ts:1132-1166 | one pass of the object loop consumes a token or lowers the phase (a name dropped for want of a colon), and fails only with the null-span error |
| JsonParser.Naming | src/pnp/JSON.ts:1138-1154 | reading a name or its colon leaves the object's span and properties alone, and a token left unconsumed lowers the phase |
| JsonParser.NamingInv | src/pnp/JSON.ts:1138-1154 | reading a name or its colon keeps the pending name and every property inside the object's span |
| JsonParser.WidenedInv | src/pnp/JSON.ts:1133 | widening the object's span to the current token keeps every property inside it and covers the token |
| JsonParser.WithPropertyInv | src/pnp/JSON.ts:1156-1164 | adding a nested property value keeps every property inside the object's span |
| JsonParser.ObjectFrom | src/pnp/JSON.ts:1132-1168 | the rest of an object, up to its right brace or the end of the input, is an object value, and fails only with the null-span error |
| JsonParser.ArrayStepAt | src/pnp/JSON.ts:1178-1200 | one pass of the array loop always consumes a token, and fails only with the null-span error |
| JsonParser.ElementAt | src/pnp/JSON.ts:1184-1193 | an expected element consumes at least one token, whether a value is added or the token is skipped |
| JsonParser.ArrayFrom | src/pnp/JSON.ts:1178-1202 | the rest of an array, up to its right bracket or the end of the input, is an array value, and fails only with the null-span error |
| JsonParser.ParseText | src/pnp/JSON.ts:1056-1070 | the value of a whole text is the reference grammar's value at its first significant token; the only failure is the null-span error |
| JsonParser.ParseValue | src/pnp/JSON.ts:1077-1121 | starts the tokenizer when needed, then yields exactly the value and the next token index the reference grammar `ValueAt` gives at the current token; a value is nested, starts at or after the current token and consumes input |
| JsonParser.ParseCurrentValue | src/pnp/JSON.ts:1084-1118 | the switch on the current token yields exactly what `ValueAt` gives there, with the tokenizer left at the token after the value |
| JsonParser.ParseOther | src/pnp/JSON.ts:1084-1118 | on a token that opens no object, the switch yields exactly what `ValueAt` gives there |
| JsonParser.ParseLeaf | src/pnp/JSON.ts:1086-1116 | on a token that opens neither an object nor an array, the single-token value `ValueAt` gives, moving on exactly when there is one |
| JsonParser.ObjectStep | src/pnp/JSON.ts:1133-1165 | one pass of the object loop yields exactly the state, the end flag and the next token index `ObjectStepAt` gives, and keeps the object's invariant |
| JsonParser.NameStep | src/pnp/JSON.ts:1135-1154 | the passes that read no value (the closing brace, a name, the colon) yield exactly what `ObjectStepAt` gives, keep the object's invariant and consume a token or lower the phase |
| JsonParser.PropertyStep | src/pnp/JSON.ts:1155-1165 | parsing the value after the colon yields exactly what `PropertyAt` gives: one property appended with the pending name, earlier properties kept, or the null-span error |
| JsonParser.ParseObject | src/pnp/JSON.ts:1123-1169 | parsing an object yields exactly the value and next token index `ObjectFrom` gives from the token after the left brace; the object is nested and starts at the brace |
| JsonParser.ArrayStep | src/pnp/JSON.ts:1179-1199 | one pass of the array loop yields exactly the span, elements, expectation, end flag and next token index `ArrayStepAt` gives, with every element inside the span |
| JsonParser.ElementStep | src/pnp/JSON.ts:1184-1193 | an expected element yields exactly what `ElementAt` gives: the value appended, or the token skipped with an element still expected |
| JsonParser.ParseArray | src/pnp/JSON.ts:1171-1203 | parsing an array yields exactly the value and next token index `ArrayFrom` gives from the token after the left bracket; the array is nested and starts at the bracket |
| JsonParser.Parse | src/pnp/JSON.ts:1056-1070 | a parse yields exactly `ParseText`'s value, with every significant token of the text and its line lengths recorded, or `ParseText`'s error; a parsed value is properly nested |
| JsonParser.SignificantOrdered | src/pnp/JSON.ts:1205-1213 | dropping white space and comments keeps the tokens in order and invents none |
| JsonParser.ParsedTokensOrdered | src/pnp/JSON.ts:972-1001 | the tokens a parse records are in order, as the binary search for the token at an index requires |
| JsonParser.ParsedLinesValid | src/pnp/JSON.ts:853-884 | the recorded line lengths are valid and add up to the length of the text |
| ObjectDiagnostics.DigitsEnd | src/DigitalTwin/DigitalTwinDiagnostic.ts:332 | the digit run found at an index ends at the first non-digit or at the end of the text |
| ObjectDiagnostics.ReadDecimal | src/DigitalTwin/DigitalTwinDiagnostic.ts:332 | a number text read as a decimal has digits only and no more fraction digits than digits |
| ObjectDiagnostics.WholeNumberIsIntegral | src/DigitalTwin/DigitalTwinDiagnostic.ts:332-333 | a signed run of digits counts as a whole number |
| ObjectDiagnostics.FractionIsWhole | src/DigitalTwin/DigitalTwinDiagnostic.ts:332-333 | for every run of digits, a point and a run of digits: the number is whole exactly when every digit after the point is 0 (`1.5` is not, `1.0` is) |
| ObjectDiagnostics.ReadFraction | src/DigitalTwin/DigitalTwinDiagnostic.ts:332 | digits, a point and digits read as the two runs put together, with the second counted as the fraction |
| ObjectDiagnostics.ReadWithExponent | src/DigitalTwin/DigitalTwinDiagnostic.ts:332 | digits, a point, digits, `e` and digits read as the digits around the point, the fraction count and the exponent's value |
| ObjectDiagnostics.ExponentMakesIntegral | src/DigitalTwin/DigitalTwinDiagnostic.ts:332-333 | for every text of digits, a point, digits, `e` and digits, an exponent at least the number of fraction digits makes the number whole (`1.5e1`) |
| ObjectDiagnostics.BareSignIsNotIntegral | src/DigitalTwin/DigitalTwinDiagnostic.ts:332-333 | a bare sign reads as NaN and is never whole |
| ObjectDiagnostics.KindOfValueType | src/DigitalTwin/DigitalTwinDiagnostic.ts:281-297 | exactly the value types string, int, long, float, double and boolean call for a value kind |
| ObjectDiagnostics.KindsOf | src/DigitalTwin/DigitalTwinDiagnostic.ts:280-298 | a kind is accepted exactly when some value type of the key calls for it |
| ObjectDiagnostics.Expected | src/DigitalTwin/DigitalTwinDiagnostic.ts:267-302 | the top level expects an object, an array property outside an array expects an array, and whatever is expected is never empty |
| ObjectDiagnostics.PnPUnknownTypeAcceptsObjectOrString | src/pnp/PnPDiagnostic.ts:258-259 | a property whose value type is unknown accepts an object or a string, named `Object, String` |
| ObjectDiagnostics.LastNamed | src/pnp/JSON.ts:595-626 | the property a name looks up is the last one with that name, and the name is absent exactly when no property has it |
| ObjectDiagnostics.PropertyIndex | src/pnp/JSON.ts:647-649 | every listed property name has a property carrying it, whose value the lookup returns |
| ObjectDiagnostics.NestedProperty | src/pnp/JSON.ts:1146-1161 | a property of a parsed object lies inside the object and its name and value inside the property |
| ObjectDiagnostics.KindMismatchReportedAlone | src/DigitalTwin/DigitalTwinDiagnostic.ts:304-314 | a value of the wrong kind draws one issue over the whole value and nothing inside it is checked |
| ObjectDiagnostics.PnPIntRejectsFraction | src/pnp/PnPDiagnostic.ts:304-316 | an int property rejects a number that is not whole with the message naming int, and accepts a whole one |
| ObjectDiagnostics.GetType | src/pnp/PnPDiagnostic.ts:59-85 | the PnP type is never a list, and an object without `@type` gets no list of types |
| ObjectDiagnostics.InvalidTypeIssues | src/DigitalTwin/DigitalTwinDiagnostic.ts:346-399 | a type check that reports something reports at least one issue, and the PnP check at most one |
| ObjectDiagnostics.InvalidTypeIssuesSpec | src/DigitalTwin/DigitalTwinDiagnostic.ts:346-399 | an issue is reported exactly when the type is a single name outside the candidates (non-empty for PnP) or a list with an unknown or repeated entry |
| ObjectDiagnostics.StringIssues | src/DigitalTwin/DigitalTwinDiagnostic.ts:111-146 | a string draws at most one issue |
| ObjectDiagnostics.ContextChecked | src/pnp/PnPDiagnostic.ts:94-117 | an `@context` equal to the context URI is accepted, and a PnP `@context` that differs is reported |
| ObjectDiagnostics.NonObjectDocument | src/DigitalTwin/DigitalTwinDiagnostic.ts:37-49 | a document whose value is not an object draws exactly the issue that an object was expected |
| ObjectDiagnostics.UntypedObjectMissingType | src/DigitalTwin/DigitalTwinDiagnostic.ts:215-223 | an object with no `@type` whose key does not stand for exactly one type draws the single issue `@type is missing` |
| ObjectDiagnostics.PropertyValueIn | src/pnp/JSON.ts:624-626 | the value a lookup finds lies inside the object |
| ObjectDiagnostics.TypeEntryIssuesAt | src/DigitalTwin/DigitalTwinDiagnostic.ts:371-393 | every issue about an `@type` entry lies over one of the entries |
| ObjectDiagnostics.InvalidTypeIssuesIn | src/DigitalTwin/DigitalTwinDiagnostic.ts:346-399 | the type issues lie inside the object |
| ObjectDiagnostics.MissingRequiredIssuesIn | src/DigitalTwin/DigitalTwinDiagnostic.ts:400-439 | the issues about one type's required properties lie inside the object |
| ObjectDiagnostics.RequiredIssuesIn | src/DigitalTwin/DigitalTwinDiagnostic.ts:401-441 | the missing-property and empty-list issues lie inside the object |
| ObjectDiagnostics.UnexpectedIssuesIn | src/DigitalTwin/DigitalTwinDiagnostic.ts:443-477 | the unexpected-property issues lie inside the object |
| ObjectDiagnostics.NameIssuesIn | src/DigitalTwin/DigitalTwinDiagnostic.ts:178-203 | the repeated-name issues lie inside the array |
| ObjectDiagnostics.ValueIssues | src/DigitalTwin/DigitalTwinDiagnostic.ts:51-72 | every issue of the walk lies inside the value walked (an object is checked as an object, an array element by element and then for repeated element names, a string against its allowed values, anything else draws nothing) |
| ObjectDiagnostics.StringIssuesIn | src/DigitalTwin/DigitalTwinDiagnostic.ts:111-164 | a string's issue lies over the string |
| ObjectDiagnostics.ObjectIssues | src/DigitalTwin/DigitalTwinDiagnostic.ts:205-258 | every issue of an object lies inside the object (an invalid type is reported alone, a missing type alone, otherwise the missing, unexpected and nested issues, read in the context the type switches to) |
| ObjectDiagnostics.PropertyIssues | src/DigitalTwin/DigitalTwinDiagnostic.ts:250-255 | the issues of the values of the first n property names, each walked under its own name, all lie inside the object |
| ObjectDiagnostics.TypeIssues | src/DigitalTwin/DigitalTwinDiagnostic.ts:260-344 | every value-kind issue lies inside the value checked (a value of a kind not expected draws one issue over itself; otherwise elements, properties and whole numbers are checked) |
| ObjectDiagnostics.ElementTypeIssues | src/DigitalTwin/DigitalTwinDiagnostic.ts:317-321 | the value-kind issues of the first n elements, each checked as an array element, lie inside the array |
| ObjectDiagnostics.PropertyTypeIssues | src/DigitalTwin/DigitalTwinDiagnostic.ts:322-327 | the value-kind issues of the first n property values, each checked under its name, lie inside the object |
| ObjectDiagnostics.GetIssues | src/DigitalTwin/DigitalTwinDiagnostic.ts:37-49 | a text that parsed to no value draws no issue; otherwise every issue of the document, the walk's and the value-kind ones, lies inside the document's value |
| ObjectDiagnostics.ElementIssues | src/DigitalTwin/DigitalTwinDiagnostic.ts:166-176 | the issues of the first n elements, each walked under the array's key, lie inside the array |
| ObjectDiagnostics.CandidateTypes | src/DigitalTwin/DigitalTwinDiagnostic.ts:346-362 | at the top the one candidate is the document type, `Interface` exactly for an `.interface.json` path; below it the types of the id the key resolves to, none when it resolves to nothing (a Digital Twin key that is no term of the context resolves to nothing) |
| ObjectDiagnostics.ContextOf | src/DigitalTwin/DigitalTwinDiagnostic.ts:225-230 | a Digital Twin object of one type is read in the context the meta-model parser switches to for that type; a list of types or none keeps the context; the result is always one of the three contexts |
| DiagnosticChecks.IsValidStringValue | src/DigitalTwin/DigitalTwinDiagnostic.ts:20-30 | the scan over the allowed values answers whether the value equals one of them, both lower-cased when case is ignored |
| DiagnosticChecks.CaseSensitiveIsMembership | src/DigitalTwin/DigitalTwinDiagnostic.ts:20-30 | compared with case, a value is valid exactly when it is one of the allowed values |
| DiagnosticChecks.ToLowerIdempotent | src/DigitalTwin/DigitalTwinDiagnostic.ts:22-24 | lower-casing twice is lower-casing once |
| DiagnosticChecks.CaseInsensitiveWidens | src/DigitalTwin/DigitalTwinDiagnostic.ts:20-30 | ignoring case accepts everything accepted with case, and a value exactly when its lower-case form |
| DiagnosticChecks.SchemeLength | src/DigitalTwin/DigitalTwinMetaModelGraph.ts:445 | the scheme prefix is `http://` (7), `https://` (8) or absent (0) |
| DiagnosticChecks.ImplementsPatternAsWrittenMisses | src/DigitalTwin/DigitalTwinMetaModelGraph.ts:445 | the written `implements` pattern refuses `http://x.interface.json`, which the intended pattern accepts, and accepts `http://x.interface/.json` |
| DiagnosticChecks.InterfaceUrlRefused | src/DigitalTwin/DigitalTwinMetaModelGraph.ts:445 | the URL `http://x.interface.json` of an interface file fails the written pattern and passes the intended one |
| DiagnosticChecks.SlashNameAccepted | src/DigitalTwin/DigitalTwinMetaModelGraph.ts:445 | the name `http://x.interface/.json` passes the written pattern and fails the intended one |
| DiagnosticChecks.ImplementsPatternSpec | src/DigitalTwin/DigitalTwinMetaModelGraph.ts:445 | corrected (see ## Findings: the pattern ends in `\.interface\.json`); the intended pattern accepts a scheme, a non-empty one-line name and the `.interface.json` ending |
| DiagnosticChecks.StringPatternIssues | src/DigitalTwin/DigitalTwinDiagnostic.ts:148-164 | one issue exactly when the key has a pattern the string does not match, otherwise none |
| DiagnosticChecks.ElementName | src/DigitalTwin/DigitalTwinDiagnostic.ts:182-186 | an element's name, when it has one, is a string value |
| DiagnosticChecks.NamesSeenSpec | src/DigitalTwin/DigitalTwinDiagnostic.ts:178-203 | the names recorded are exactly the names some element carries, each recorded once |
| DiagnosticChecks.RepeatsSeen | src/DigitalTwin/DigitalTwinDiagnostic.ts:187-197 | an element is reported exactly when its name was seen on an earlier element |
| DiagnosticChecks.NameIssuesCount | src/DigitalTwin/DigitalTwinDiagnostic.ts:187-197 | every named element is either recorded or reported, never both and never neither |
| DiagnosticChecks.ArrayElementNameIssues | src/DigitalTwin/DigitalTwinDiagnostic.ts:178-203 | the loop reports exactly the repeated-name issues the specification lists |
| DiagnosticChecks.MissingProperties | src/DigitalTwin/DigitalTwinDiagnostic.ts:407-411 | no more properties are missing than are required |
| DiagnosticChecks.MissingPropertiesSpec | src/DigitalTwin/DigitalTwinDiagnostic.ts:407-411 | a property is missing exactly when it is required and the object has no property of that name |
| DiagnosticChecks.EmptyArrayIssuesSpec | src/DigitalTwin/DigitalTwinDiagnostic.ts:422-439 | every empty-list issue is about a required property holding an empty array, and every such property is reported |
| DiagnosticChecks.MissingMessageLists | src/DigitalTwin/DigitalTwinDiagnostic.ts:412-419 | the missing properties can be read back from the message, one per line, when no name holds a line break |
| DiagnosticChecks.CollectMissing | src/DigitalTwin/DigitalTwinDiagnostic.ts:407-411 | the loop collects exactly the missing required properties in their required order |
| DiagnosticChecks.MissingRequiredPropertiesIssues | src/DigitalTwin/DigitalTwinDiagnostic.ts:401-441 | the issues are exactly the specified missing-property issue followed by the empty-list issues |
| DiagnosticChecks.FirstNamed | src/DigitalTwin/DigitalTwinDiagnostic.ts:465-473 | the first property with the name, or the count when none has it |
| DiagnosticChecks.FirstNamedFound | src/DigitalTwin/DigitalTwinDiagnostic.ts:465-473 | when some property has the name, the first one is found at or before it |
| DiagnosticChecks.FirstNamedIn | src/DigitalTwin/DigitalTwinDiagnostic.ts:465-473 | every property name of an object is carried by a first property |
| DiagnosticChecks.UnexpectedIssuesSpec | src/DigitalTwin/DigitalTwinDiagnostic.ts:443-477 | corrected (see ## Findings: each issue is placed at the property that bears the name); each issue names a property that is not allowed, at the name of a property bearing it, and each name that is not allowed is reported at the name of the first property bearing it |
| DiagnosticChecks.NamesOfUnique | src/pnp/JSON.ts:595-649 | when no name repeats, the i-th property name is the name of the i-th property |
| DiagnosticChecks.UnexpectedAsWrittenWithoutDuplicates | src/DigitalTwin/DigitalTwinDiagnostic.ts:465-473 | without a repeated name, the written loop reports each name at its own property; this holds in the model's first-appearance order only: in the source `Object.keys` puts integer-like names first and never lists `__proto__`, so `{"b": 1, "1": 2}` with neither name allowed, or a `__proto__` property before an unexpected one, misplaces issues with no name repeated (see the `JsonValues.PropertyNames` line under "## Left out") |
| DiagnosticChecks.DuplicateKeyNames | src/pnp/JSON.ts:595-649 | the object `{"a": 1, "a": 2, "b": 3}` has the property names `a` and `b` |
| DiagnosticChecks.UnexpectedAsWrittenMisplaced | src/DigitalTwin/DigitalTwinDiagnostic.ts:465-473 | with a repeated name, the written loop reports `b` at the name of a property called `a` |
| DiagnosticChecks.UnexpectedPropertiesIssues | src/DigitalTwin/DigitalTwinDiagnostic.ts:443-477 | the loop reports exactly the specified unexpected-property issues, each at the first property with the name |
| DiagnosticChecks.AllowedOfSpec | src/DigitalTwin/DigitalTwinDiagnostic.ts:446-462 | a property is allowed exactly when one of the types has it as a typed or a required property |
| DiagnosticChecks.AllowedProperties | src/DigitalTwin/DigitalTwinDiagnostic.ts:446-462 | asked in the object's context, the gathered list is exactly the typed and required properties of each type, when every type is read in that context and the parser's caches agree with it; the parser stays valid |
| DiagnosticChecks.TypeEntriesGrow | src/DigitalTwin/DigitalTwinDiagnostic.ts:371-393 | a list of entries is valid and unrepeated exactly when the entries before the last are and the last is a valid type not seen before |
| DiagnosticChecks.TypeEntryIssuesNone | src/DigitalTwin/DigitalTwinDiagnostic.ts:371-393 | a list of type entries draws no issue exactly when every entry is a valid type and none repeats an earlier one |
| DiagnosticChecks.TypeArrayIssues | src/DigitalTwin/DigitalTwinDiagnostic.ts:371-393 | the loop reports, entry by entry in order, an invalid-type issue on each entry that is not a valid type and an added-before issue on each valid entry that occurred earlier, which is the specification `TypeEntryIssues` (no issue exactly when all entries are valid and none repeats, by `TypeEntryIssuesNone`) |
| MetaModelGraph.Lookup | src/DigitalTwin/DigitalTwinMetaModelGraph.ts:65-77 | a key is absent exactly when no term has it, and a term found is stored under the key |
| MetaModelGraph.IdFromShortName | src/DigitalTwin/DigitalTwinMetaModelGraph.ts:65-77 | a known short name gives the vocabulary followed by its term's path; an unknown one gives null (Digital Twin) or itself (PnP) |
| MetaModelGraph.IdFromType | src/DigitalTwin/DigitalTwinMetaModelGraph.ts:97-115 | the id of a type starts with the vocabulary and is the vocabulary followed by the type when the type has no term |
| MetaModelGraph.LabelFromId | src/DigitalTwin/DigitalTwinMetaModelGraph.ts:272-290 | an id under the vocabulary loses exactly that prefix (Digital Twin: unless nothing would be left); any other id is its own label |
| MetaModelGraph.LabelOfIdFromLabel | src/DigitalTwin/DigitalTwinMetaModelGraph.ts:79-95 | the label of the id of a label is that label (a non-empty one under the Digital Twin rule) |
| MetaModelGraph.LabelOfIdFromShortName | src/DigitalTwin/DigitalTwinMetaModelGraph.ts:65-77 | the label of the id found for a short name is the path of its term |
| MetaModelGraph.KeyForId | src/DigitalTwin/DigitalTwinMetaModelGraph.ts:117-134 | no key is found exactly when no term's id is the given id |
| MetaModelGraph.KeyForIdFirst | src/DigitalTwin/DigitalTwinMetaModelGraph.ts:117-134 | the key found is that of the first term whose id is the given id |
| MetaModelGraph.PropertyNameOfId | src/DigitalTwin/DigitalTwinMetaModelGraph.ts:117-134 | a short name is the property name of its own id when no earlier term has that id |
| MetaModelGraph.KeyForLabel | src/DigitalTwin/DigitalTwinMetaModelGraph.ts:292-320 | no key is found exactly when no term's path is the label; a key found is that of a term naming it |
| MetaModelGraph.KeyForLabelFirst | src/DigitalTwin/DigitalTwinMetaModelGraph.ts:292-320 | the key found for a label is that of the first term naming it |
| MetaModelGraph.ShortNameFromLabel | src/DigitalTwin/DigitalTwinMetaModelGraph.ts:292-320 | PnP always answers; the Digital Twin parser answers null exactly for an unknown label holding a '/' |
| MetaModelGraph.ShortNameFromIdSpec | src/DigitalTwin/DigitalTwinMetaModelGraph.ts:397-399 | the short name of an id holds no '/', ends the id, and follows its last '/' |
| MetaModelGraph.ShortNameDrop | src/DigitalTwin/DigitalTwinMetaModelGraph.ts:397-399 | cutting an id just after its first '/' keeps its short name |
| MetaModelGraph.RequiredPropertiesKnown | src/DigitalTwin/DigitalTwinMetaModelGraph.ts:451-495 | exactly the listed types require something |
| MetaModelGraph.RequiredPropertiesDistinct | src/DigitalTwin/DigitalTwinMetaModelGraph.ts:451-495 | no type requires the same property twice |
| MetaModelGraph.RequiredTypeProperty | src/DigitalTwin/DigitalTwinMetaModelGraph.ts:451-495 | every listed type requires `@type` except enum values, map keys, map values and schema fields |
| MetaModelGraph.CapabilityModelRequirements | src/DigitalTwin/DigitalTwinMetaModelGraph.ts:451-495 | a capability model requires what an interface requires, and `implements` |
| MetaModelGraph.ArrayPropertiesAgree | src/pnp/PnPMetaModelGraph.ts:267-270 | the PnP array properties are the Digital Twin ones without `implements` |
| MetaModelGraph.ValueTypesOf | src/DigitalTwin/DigitalTwinMetaModelGraph.ts:401-438 | the mapping keeps at most one name per datatype, each a value type name |
| MetaModelGraph.ValueTypesOfMembers | src/DigitalTwin/DigitalTwinMetaModelGraph.ts:401-438 | a value type name appears exactly when some datatype stands for it |
| MetaModelGraph.PnPValueTypeWidens | src/pnp/PnPMetaModelGraph.ts:335-357 | the PnP value type is that of a single value, with long read as int and double as float |
| MetaModelGraph.StringValuePattern | src/DigitalTwin/DigitalTwinMetaModelGraph.ts:440-449 | exactly `name` and `implements` carry a pattern |
| MetaModelGraph.PropertiesAddedMembers | src/DigitalTwin/DigitalTwinMetaModelGraph.ts:187-199 | one edge adds exactly the names it gives: its own domain name or a superclass's properties |
| MetaModelGraph.PropertiesAccumulate | src/DigitalTwin/DigitalTwinMetaModelGraph.ts:187-199 | the scan appends, edge by edge in order, what each edge adds |
| MetaModelGraph.PropertiesGatheredMembers | src/DigitalTwin/DigitalTwinMetaModelGraph.ts:187-199 | the names gathered from all edges are exactly those the edges give |
| MetaModelGraph.PropertiesFromIdSpec | src/DigitalTwin/DigitalTwinMetaModelGraph.ts:181-205 | the properties of a class are sorted, free of duplicates, and exactly its domain names and its superclasses' properties |
| MetaModelGraph.InheritsProperties | src/DigitalTwin/DigitalTwinMetaModelGraph.ts:181-205 | a class has every property of each of its superclasses |
| MetaModelGraph.TypeFallback | src/DigitalTwin/DigitalTwinMetaModelGraph.ts:259-265 | the fallback is at most one type, and for PnP exactly one |
| MetaModelGraph.TypesAddedMembers | src/DigitalTwin/DigitalTwinMetaModelGraph.ts:245-258 | one edge adds exactly the types it gives |
| MetaModelGraph.TypesAccumulate | src/DigitalTwin/DigitalTwinMetaModelGraph.ts:245-258 | the scan appends, edge by edge in order, what each edge adds |
| MetaModelGraph.TypesGatheredSource | src/DigitalTwin/DigitalTwinMetaModelGraph.ts:245-258 | every type gathered comes from one of the edges |
| MetaModelGraph.TypesGatheredHas | src/DigitalTwin/DigitalTwinMetaModelGraph.ts:245-258 | every type an edge gives is gathered |
| MetaModelGraph.TypesFromIdSpec | src/DigitalTwin/DigitalTwinMetaModelGraph.ts:239-270 | the types are sorted and unique; they are exactly what the edges give, or the fallback when no edge gives one |
| MetaModelGraph.DomainEdgeBeforeSpec | src/DigitalTwin/DigitalTwinMetaModelGraph.ts:359-363 | a domain edge is noted exactly when one of the scanned edges has the id as target |
| MetaModelGraph.StringValuesNoSlash | src/DigitalTwin/DigitalTwinMetaModelGraph.ts:353-395 | every string value is a short name and holds no '/' |
| MetaModelGraph.Labels | src/DigitalTwin/DigitalTwinMetaModelGraph.ts:136-161 | the names of the entries, one per entry in order |
| MetaModelGraph.TypedPropertyOfSpec | src/DigitalTwin/DigitalTwinMetaModelGraph.ts:145-156 | an entry exists exactly when the key resolves, names the key, is required as the class says, and is typed array or by a value type |
| MetaModelGraph.TypedPropertiesOfStep | src/DigitalTwin/DigitalTwinMetaModelGraph.ts:144-157 | the last key adds its entry when it resolves and nothing else |
| MetaModelGraph.TypedPropertiesOfEntries | src/DigitalTwin/DigitalTwinMetaModelGraph.ts:144-157 | each entry is the one its key gives, and the entries name exactly the keys that resolve |
| MetaModelGraph.TypedPropertiesOfSorted | src/DigitalTwin/DigitalTwinMetaModelGraph.ts:144-157 | the entries keep the order of the keys |
| MetaModelGraph.TypedPropertiesFromIdSpec | src/DigitalTwin/DigitalTwinMetaModelGraph.ts:136-161 | the entries of a class are sorted, unique, and exactly those of its properties, inherited included, that resolve |
| MetaModelGraph.FirstComment | src/DigitalTwin/DigitalTwinMetaModelGraph.ts:50-63 | the first comment edge of the id, or -1 exactly when there is none |
| MetaModelGraph.MetaModelParser.constructor | src/DigitalTwin/DigitalTwinMetaModelGraph.ts:32-48 | a parser over the given edges and its interface and capability-model contexts, with empty caches, which agree with every context |
| MetaModelGraph.MetaModelParser.GetPropertyNameFromId | src/DigitalTwin/DigitalTwinMetaModelGraph.ts:117-134 | a cached non-empty name is answered unchanged whatever the context of the call; otherwise the property name of the id in the context given; fresh, and the caches still agree, when they agreed with that context |
| MetaModelGraph.MetaModelParser.GetShortNameFromLabel | src/DigitalTwin/DigitalTwinMetaModelGraph.ts:292-320 | a label the Digital Twin cache holds is answered from it whatever the context; otherwise the short name of the label in the context given |
| MetaModelGraph.MetaModelParser.FindComment | src/DigitalTwin/DigitalTwinMetaModelGraph.ts:50-63 | answers the value of the first comment edge of the id |
| MetaModelGraph.MetaModelParser.GetCommentFromId | src/DigitalTwin/DigitalTwinMetaModelGraph.ts:50-63 | answers the first comment, except that a Digital Twin repeat answers the cached value, "" for a missing comment |
| MetaModelGraph.MetaModelParser.GetPropertiesFromId | src/DigitalTwin/DigitalTwinMetaModelGraph.ts:181-205 | a cached id is answered from the cache whatever the context; when the caches agree with the context given, answers the properties of the class in it and keeps them agreeing |
| MetaModelGraph.MetaModelParser.PropertiesOfEdge | src/DigitalTwin/DigitalTwinMetaModelGraph.ts:187-199 | when the caches agree with the context given, answers what one edge adds to the property scan |
| MetaModelGraph.MetaModelParser.GetTypesFromId | src/DigitalTwin/DigitalTwinMetaModelGraph.ts:239-270 | a cached id is answered from the cache whatever the context; when the caches agree with the context given, answers the types of the id in it |
| MetaModelGraph.MetaModelParser.GatherTypes | src/DigitalTwin/DigitalTwinMetaModelGraph.ts:245-258 | when the caches agree with the context given, the loop gathers the types all edges give |
| MetaModelGraph.MetaModelParser.TypesOfEdge | src/DigitalTwin/DigitalTwinMetaModelGraph.ts:246-257 | when the caches agree with the context given, answers what one edge adds to the type scan |
| MetaModelGraph.MetaModelParser.GetStringValuesFromId | src/DigitalTwin/DigitalTwinMetaModelGraph.ts:353-395 | answers the string values of the id, the Digital Twin cache answering for an id it holds |
| MetaModelGraph.MetaModelParser.GatherStringValues | src/DigitalTwin/DigitalTwinMetaModelGraph.ts:359-380 | the loop gathers the values of all edges and notes whether a domain edge names the id |
| MetaModelGraph.MetaModelParser.ValuesOfEdge | src/DigitalTwin/DigitalTwinMetaModelGraph.ts:360-379 | answers what one edge adds to the string-value scan |
| MetaModelGraph.MetaModelParser.GetValueTypesFromId | src/DigitalTwin/DigitalTwinMetaModelGraph.ts:401-438 | answers the value types of the id, the cache answering for an id it holds |
| MetaModelGraph.MetaModelParser.GetValueTypeFromId | src/pnp/PnPMetaModelGraph.ts:335-357 | answers the single PnP value type of the id |
| MetaModelGraph.MetaModelParser.GetTypedPropertiesFromId | src/DigitalTwin/DigitalTwinMetaModelGraph.ts:136-161 | a cached id is answered from the Digital Twin cache whatever the context; when the caches agree with the context given, answers the typed entries of the class in it |
| MetaModelGraph.MetaModelParser.TypedPropertiesFor | src/DigitalTwin/DigitalTwinMetaModelGraph.ts:144-157 | answers the entries of the keys in order, in the context given, leaving the context-dependent caches alone |
| MetaModelGraph.MetaModelParser.TypedPropertyFor | src/DigitalTwin/DigitalTwinMetaModelGraph.ts:145-156 | answers the entry of one key in the context given |
| MetaModelGraph.MetaModelParser.GetTypedPropertiesFromType | src/DigitalTwin/DigitalTwinMetaModelGraph.ts:163-179 | `Interface` is read in the interface context and `CapabilityModel` in the capability-model context, any other type in the context given; a cached class is answered from the cache; when the caches agree with the context read in, answers the entries of the class the type names, none when its id is empty |
| MetaModelGraph.MetaModelParser.GetPropertiesFromType | src/DigitalTwin/DigitalTwinMetaModelGraph.ts:207-216 | none when the type has no id; when the caches agree with the context given, the properties of the class the type names |
| MetaModelGraph.MetaModelParser.GetTypesFromShortName | src/DigitalTwin/DigitalTwinMetaModelGraph.ts:228-237 | when the caches agree with the context given, the types of the id a short name resolves to, none when it resolves to nothing |
| MetaModelGraph.MetaModelParser.GetTypesFromLabel | src/DigitalTwin/DigitalTwinMetaModelGraph.ts:218-226 | when the caches agree with the context given, the types of the id a label names, none when that id is empty |
| MetaModelGraph.MetaModelParser.GetStringValuesFromShortName | src/DigitalTwin/DigitalTwinMetaModelGraph.ts:339-351 | answers the string values of the id a short name resolves to; Digital Twin gives `implements` none |
| MetaModelGraph.MetaModelParser.GetStringValuesFromLabel | src/DigitalTwin/DigitalTwinMetaModelGraph.ts:328-337 | answers the string values of the id a label names, none when that id is empty |
| MetaModelJsonParser.LastNamed | src/pnp/JSON.ts:595-626 | the last property with the name, or -1 exactly when no property has it |
| MetaModelJsonParser.LastNamedLookup | src/pnp/JSON.ts:616-626 | a name lookup answers the value of the last property with that name, and finds nothing when none has it |
| MetaModelJsonParser.NamesHaveLast | src/pnp/JSON.ts:647-649 | every listed property name has a last property |
| MetaModelJsonParser.PropertyValues | src/DigitalTwin/DigitalTwinMetaModelJsonParser.ts:158-160 | one value per property name, in the order of the names |
| MetaModelJsonParser.PropertyValuesLookup | src/DigitalTwin/DigitalTwinMetaModelJsonParser.ts:158-160 | each listed value is what the lookup of the name at the same place gives |
| MetaModelJsonParser.ValueFromStack | src/DigitalTwin/DigitalTwinMetaModelJsonParser.ts:10-30 | a value a path leads to is properly nested |
| MetaModelJsonParser.GetJsonValueFromStack | src/DigitalTwin/DigitalTwinMetaModelJsonParser.ts:10-30 | the loop reaches the value the path specifies, or null at the first step that fails (the Plug and Play copy, src/pnp/PnPMetaModelJsonParser.ts lines 7-27, is the same) |
| MetaModelJsonParser.ValueFromStackAppend | src/DigitalTwin/DigitalTwinMetaModelJsonParser.ts:10-30 | following two paths in turn is following their concatenation |
| MetaModelJsonParser.FirstTouching | src/DigitalTwin/DigitalTwinMetaModelJsonParser.ts:142-148 | the first value from an index on whose span reaches the offset, or -1 exactly when none does |
| MetaModelJsonParser.ContextFromOffset | src/DigitalTwin/DigitalTwinMetaModelJsonParser.ts:136-181 | the path is empty exactly when no child reaches the offset; it starts with an index exactly for an array (where it leads is `ContextLeadsBack`) |
| MetaModelJsonParser.TouchedChild | src/DigitalTwin/DigitalTwinMetaModelJsonParser.ts:136-181 | the child descended into is nested and reaches the offset |
| MetaModelJsonParser.ContextLeadsBack | src/DigitalTwin/DigitalTwinMetaModelJsonParser.ts:136-181 | the path found for an offset leads back to a value that reaches it and has no child that does (the Plug and Play copy, src/pnp/PnPMetaModelJsonParser.ts lines 133-176, is the same) |
| MetaModelJsonParser.ContextTypeDeclaredOnPath | src/DigitalTwin/DigitalTwinMetaModelJsonParser.ts:295-335 | the model type at an offset is the one given or an interface or capability-model type declared by an object on the path (the Plug and Play copy, src/pnp/PnPMetaModelJsonParser.ts lines 290-327, is the same) |
| MetaModelJsonParser.ArrayDeclaredOnPath | src/DigitalTwin/DigitalTwinMetaModelJsonParser.ts:298-310 | in an array the type comes from the element the offset is in, or is the one given |
| MetaModelJsonParser.ObjectDeclaredOnPath | src/DigitalTwin/DigitalTwinMetaModelJsonParser.ts:311-330 | in an object the type is the object's own declaration or comes from the property value the offset is in |
| MetaModelJsonParser.OwnDeclared | src/DigitalTwin/DigitalTwinMetaModelJsonParser.ts:313-319 | an object's own interface or capability-model `@type` replaces the type given |
| MetaModelJsonParser.TouchedProperty | src/DigitalTwin/DigitalTwinMetaModelJsonParser.ts:156-167 | the descent into an object either stops with an empty path or steps into the first property whose value reaches the offset |
| MetaModelJsonParser.ExtendDeclared | src/DigitalTwin/DigitalTwinMetaModelJsonParser.ts:295-335 | a type declared on the path below a step is declared on the longer path |
| MetaModelJsonParser.FirstTouchingToken | src/DigitalTwin/DigitalTwinMetaModelJsonParser.ts:53-101 | the first token from an index on that reaches the offset, or -1 exactly when none does |
| MetaModelJsonParser.AcrossQuotes | src/DigitalTwin/DigitalTwinMetaModelJsonParser.ts:61-64 | the range across the quotes fails exactly when no token follows |
| MetaModelJsonParser.GetTokenRange | src/DigitalTwin/DigitalTwinMetaModelJsonParser.ts:32-107 | the empty range at the offset when no token reaches it, otherwise the range the first such token calls for (the Plug and Play copy, src/pnp/PnPMetaModelJsonParser.ts lines 29-104, is the same) |
| MetaModelJsonParser.RangeCoversToken | src/DigitalTwin/DigitalTwinMetaModelJsonParser.ts:53-101 | over ordered tokens, the range found holds the token and the offset |
| MetaModelJsonParser.IsValueString | src/DigitalTwin/DigitalTwinMetaModelJsonParser.ts:109-134 | the scan answers whether the token at the offset is a quoted value after a colon or sits after a '[' with no '{' between (the Plug and Play copy, src/pnp/PnPMetaModelJsonParser.ts lines 106-131, is the same) |
| TwinGraph.ResolveContainerType | src/DigitalTwin/pnp/src/intelliSense/digitalTwinGraph.ts:147-161 | `@list` and `@set` give an array container and only they do; `@language` gives a language map and only it does |
| TwinGraph.ParseInt | src/DigitalTwin/pnp/src/intelliSense/digitalTwinGraph.ts:295 | `parseInt` without a radix gives a number exactly when a digit follows the leading white space and the optional sign, a hexadecimal digit when that digit is the 0 of a "0x" or "0X" prefix; a negative number only after a minus sign, a positive one only without it |
| TwinGraph.ParseIntDigits | src/DigitalTwin/pnp/src/intelliSense/digitalTwinGraph.ts:295 | for every sign, run of digits and tail that does not start with a digit (and is not the x of a "0x" prefix), `parseInt` gives the decimal value of the run, negated after a minus sign |
| TwinGraph.ParseIntHex | src/DigitalTwin/pnp/src/intelliSense/digitalTwinGraph.ts:295 | for every sign, "0x" or "0X", run of hexadecimal digits and tail that does not start with one, `parseInt` gives the base-16 value of the run, negated after a minus sign |
| TwinGraph.VersionKeys | src/DigitalTwin/pnp/src/intelliSense/digitalTwinGraph.ts:293-295 | for every number n, the key `v` followed by n's digits gives version n |
| TwinGraph.NewClassNode | src/DigitalTwin/pnp/src/intelliSense/digitalTwinGraph.ts:471-486 | a created class node has the id, no children, properties or enums, is not abstract, and takes its label from the context node |
| TwinGraph.NewPropertyNode | src/DigitalTwin/pnp/src/intelliSense/digitalTwinGraph.ts:492-514 | a created property node has the id and no comment, is an array exactly for a list or set container, and has a range exactly for a language map |
| TwinGraph.SetClassValid | src/DigitalTwin/pnp/src/intelliSense/digitalTwinGraph.ts:471-486 | storing a class whose references resolve keeps every reference of the graph resolving |
| TwinGraph.SetPropertyValid | src/DigitalTwin/pnp/src/intelliSense/digitalTwinGraph.ts:492-514 | storing a property whose range resolves keeps every reference of the graph resolving |
| TwinGraph.AddChildRanked | src/DigitalTwin/pnp/src/intelliSense/digitalTwinGraph.ts:441-450 | adding a lower-ranked child keeps the subclass links ranked, so they describe no cycle |
| TwinGraph.DigitalTwinGraph.constructor | src/DigitalTwin/pnp/src/intelliSense/digitalTwinGraph.ts:183-191 | an empty graph with no nodes and no vocabulary, not initialized |
| TwinGraph.DigitalTwinGraph.ResolveName | src/DigitalTwin/pnp/src/intelliSense/digitalTwinGraph.ts:204-216 | a name stands for its reversed-index entry when that is set and non-empty, else for the fallback |
| TwinGraph.DigitalTwinGraph.GetPropertyNode | src/DigitalTwin/pnp/src/intelliSense/digitalTwinGraph.ts:204-207 | the property node under the name's id, the name itself serving as id when it has none; none exactly when no node is there |
| TwinGraph.DigitalTwinGraph.GetClassNode | src/DigitalTwin/pnp/src/intelliSense/digitalTwinGraph.ts:213-216 | the class node under the name's id, the name under the vocabulary serving as id when it has none; none exactly when no node is there |
| TwinGraph.DigitalTwinGraph.GetVersion | src/DigitalTwin/pnp/src/intelliSense/digitalTwinGraph.ts:222-224 | the recorded version of a context value, 0 when it has none |
| TwinGraph.DigitalTwinGraph.BuildContext | src/DigitalTwin/pnp/src/intelliSense/digitalTwinGraph.ts:261-280 | the vocabulary is read, the graph is initialized exactly when it is non-empty, and the context nodes and reversed index are those the terms give |
| TwinGraph.DigitalTwinGraph.BuildConstraint | src/DigitalTwin/pnp/src/intelliSense/digitalTwinGraph.ts:287-299 | the constraint table and version table are those the entries give, and no node changes |
| TwinGraph.DigitalTwinGraph.EnsureClassNode | src/DigitalTwin/pnp/src/intelliSense/digitalTwinGraph.ts:471-486 | the class node of the id exists afterwards and is returned; an existing node is left as it is |
| TwinGraph.DigitalTwinGraph.EnsurePropertyNode | src/DigitalTwin/pnp/src/intelliSense/digitalTwinGraph.ts:492-514 | the property node of the id exists afterwards and is returned; an existing node is left as it is |
| TwinGraph.DigitalTwinGraph.HandleEdgeOfType | src/DigitalTwin/pnp/src/intelliSense/digitalTwinGraph.ts:353-374 | a class or property type creates that node; any other type makes the target an enum class holding the source's short name |
| TwinGraph.DigitalTwinGraph.HandleEdgeOfLabel | src/DigitalTwin/pnp/src/intelliSense/digitalTwinGraph.ts:383-399 | a property keeps its label; a class without a label takes it and the label's constraint |
| TwinGraph.DigitalTwinGraph.HandleEdgeOfDomain | src/DigitalTwin/pnp/src/intelliSense/digitalTwinGraph.ts:407-416 | the property is appended to the properties of its domain class |
| TwinGraph.DigitalTwinGraph.HandleEdgeOfRange | src/DigitalTwin/pnp/src/intelliSense/digitalTwinGraph.ts:424-433 | the class is appended to the range of the property, created when unset |
| TwinGraph.DigitalTwinGraph.HandleEdgeOfSubClassOf | src/DigitalTwin/pnp/src/intelliSense/digitalTwinGraph.ts:441-450 | the class is appended to its base class's children and the links stay ranked |
| TwinGraph.DigitalTwinGraph.HandleEdgeOfComment | src/DigitalTwin/pnp/src/intelliSense/digitalTwinGraph.ts:458-465 | an existing property takes the comment and nothing else changes |
| TwinGraph.DigitalTwinGraph.HandleEdge | src/DigitalTwin/pnp/src/intelliSense/digitalTwinGraph.ts:322-344 | each label goes to its handler, and an edge with another label changes nothing |
| TwinGraph.DigitalTwinGraph.BuildReservedProperty | src/DigitalTwin/pnp/src/intelliSense/digitalTwinGraph.ts:537-544 | the id gets a fresh property ranging over the one class, with the id's constraint |
| TwinGraph.DigitalTwinGraph.MarkAbstractClass | src/DigitalTwin/pnp/src/intelliSense/digitalTwinGraph.ts:550-555 | the class of the name, if any, becomes abstract and nothing else changes |
| TwinGraph.DigitalTwinGraph.HandleInterfaceSchema | src/DigitalTwin/pnp/src/intelliSense/digitalTwinGraph.ts:560-571 | the interface schema property is labelled `schema` and, when it has a range, gains the class and the `@id` constraint |
| TwinGraph.DigitalTwinGraph.AdjustNode | src/DigitalTwin/pnp/src/intelliSense/digitalTwinGraph.ts:519-530 | the string class exists and `@id` is a property ranging over it |
| TwinGraph.DigitalTwinGraph.ExpandProperties | src/DigitalTwin/pnp/src/intelliSense/digitalTwinGraph.ts:576-600 | only class properties change and only by growing; without the base class nothing changes |
| TwinGraph.DigitalTwinGraph.Init | src/DigitalTwin/pnp/src/intelliSense/digitalTwinGraph.ts:230-246 | the context, the constraints and the graph are built in order from the three definitions |
| TwinGraph.DigitalTwinGraph.BuildEntryNode | src/DigitalTwin/pnp/src/intelliSense/digitalTwinGraph.ts:605-617 | when both the interface and capability-model classes exist, the entry property ranges over the two |
| TwinGraph.DigitalTwinGraph.BuildGraph | src/DigitalTwin/pnp/src/intelliSense/digitalTwinGraph.ts:306-315 | after every edge is handled the string class and `@id` exist and the base class is walked |
| TwinGraph.NonEnum | src/DigitalTwin/pnp/src/intelliSense/digitalTwinGraph.ts:584-588 | a child is kept exactly when it is in the list and not an enum |
| TwinGraph.WalkSubclasses | src/DigitalTwin/pnp/src/intelliSense/digitalTwinGraph.ts:580-599 | the breadth-first walk reaches the base class, changes only properties, only by growing |
| TwinGraph.PassProperties | src/DigitalTwin/pnp/src/intelliSense/digitalTwinGraph.ts:583-597 | each non-enum child of the class gains its properties, and those children are queued in order |
| TwinGraph.PassKeepsWalk | src/DigitalTwin/pnp/src/intelliSense/digitalTwinGraph.ts:580-599 | a walk step marks the class walked, queues its non-enum children, and leaves the others untouched |
| TwinGraph.WalkStep | src/DigitalTwin/pnp/src/intelliSense/digitalTwinGraph.ts:580-599 | serving a class keeps the walk's invariant and lowers its weight |
| TwinGraph.WalkShift | src/DigitalTwin/pnp/src/intelliSense/digitalTwinGraph.ts:598 | taking the next class from the queue keeps the invariant and the weight |
| TwinGraph.ExpandStep | src/DigitalTwin/pnp/src/intelliSense/digitalTwinGraph.ts:580-599 | one step removes the class from the work and adds its children's, lowering the weight by one |
| TwinGraph.InheritsAlongPath | src/DigitalTwin/pnp/src/intelliSense/digitalTwinGraph.ts:576-600 | after the walk, a class reached from a walked class by non-enum subclass links has every property of the start class |
| TwinGraph.ReversedIndexKeys | src/DigitalTwin/pnp/src/intelliSense/digitalTwinGraph.ts:261-280 | the reversed index holds the keys it had and the context keys that are not reserved |
| TwinGraph.LastTermWins | src/DigitalTwin/pnp/src/intelliSense/digitalTwinGraph.ts:261-280 | a non-reserved key names the id of its term, and the context node under that id carries the key unless a later key has the same id |
| TwinGraph.ConstraintsKeepVersions | src/DigitalTwin/pnp/src/intelliSense/digitalTwinGraph.ts:287-299 | entries that are constraints leave the version table alone |
| IntelliSense.ParseProperty | src/DigitalTwin/pnp/src/intelliSense/intelliSenseUtility.ts:115-124 | a property node with exactly two children gives its name and value, and nothing else gives anything |
| IntelliSense.GetEnums | src/DigitalTwin/pnp/src/intelliSense/intelliSenseUtility.ts:145-162 | the loop collects the enums the range specifies |
| IntelliSense.EnumsMembership | src/DigitalTwin/pnp/src/intelliSense/intelliSenseUtility.ts:145-162 | a value is listed exactly when a class of the range has it as an enum, or an abstract class of the range without enums has a child that does |
| IntelliSense.GetObjectClasses | src/DigitalTwin/pnp/src/intelliSense/intelliSenseUtility.ts:168-185 | the loop collects the object classes the range specifies |
| IntelliSense.ObjectClassesMembership | src/DigitalTwin/pnp/src/intelliSense/intelliSenseUtility.ts:168-185 | a class is listed exactly when it is an object class of the range, or a child without enums of an abstract class of the range that is not an object class |
| IntelliSense.GetOuterPropertyPair | src/DigitalTwin/pnp/src/intelliSense/intelliSenseUtility.ts:217-228 | for an object, the property holding it, looking through one enclosing array; nothing for any other node or at the top |
| IntelliSense.ResolvePropertyName | src/DigitalTwin/pnp/src/intelliSense/intelliSenseUtility.ts:191-211 | a name other than `schema` is itself; `schema` becomes `interfaceSchema` exactly inside an object held by `implements` |
| IntelliSense.SchemaUnderImplements | src/DigitalTwin/pnp/src/intelliSense/intelliSenseUtility.ts:191-211 | `schema` in an element of an `implements` array resolves to `interfaceSchema` |
| TwinDiagnostics.MakeProblem | src/DigitalTwin/pnp/src/intelliSense/digitalTwinDiagnosticProvider.ts:123-131 | a problem at the node's offset with the message, of length 0 for a container and the node's length otherwise |
| TwinDiagnostics.FindClass | src/DigitalTwin/pnp/src/intelliSense/digitalTwinDiagnosticProvider.ts:42-52 | a class is found exactly when some candidate has the type, and the one found is a candidate of that type |
| TwinDiagnostics.StringProblems | src/DigitalTwin/pnp/src/intelliSense/digitalTwinDiagnosticProvider.ts:532-587 | at most one problem; without the string class the enum check applies; otherwise a problem exactly when a string check fails, an empty string being reported as such |
| TwinDiagnostics.EnumProblems | src/DigitalTwin/pnp/src/intelliSense/digitalTwinDiagnosticProvider.ts:595-613 | at most one problem: an invalid type without enums, otherwise a problem exactly when the value is not one of the enums |
| TwinDiagnostics.NumberProblems | src/DigitalTwin/pnp/src/intelliSense/digitalTwinDiagnosticProvider.ts:621-641 | no problem exactly when the property allows integers and the number is whole |
| TwinDiagnostics.BooleanProblems | src/DigitalTwin/pnp/src/intelliSense/digitalTwinDiagnosticProvider.ts:649-668 | no problem exactly when the property allows booleans |
| TwinDiagnostics.FindValueAt | src/DigitalTwin/pnp/src/intelliSense/digitalTwinDiagnosticProvider.ts:216-219 | the `@type` lookup finds a value exactly when the node is an object with a property of that key, and gives that property's value |
| TwinDiagnostics.FindValueIn | src/DigitalTwin/pnp/src/intelliSense/digitalTwinDiagnosticProvider.ts:216-219 | a value is found among the children exactly when one is a property of that key, and it is that property's value |
| TwinDiagnostics.Ids | src/DigitalTwin/pnp/src/intelliSense/digitalTwinDiagnosticProvider.ts:303-306 | the placeholder property ranges over the ids of the candidate classes, in order |
| TwinDiagnostics.ValidObjectType | src/DigitalTwin/pnp/src/intelliSense/digitalTwinDiagnosticProvider.ts:296-351 | a class is returned exactly when no problem is added; it is one of the candidates; at most one problem is added |
| TwinDiagnostics.ScanFindsCandidates | src/DigitalTwin/pnp/src/intelliSense/digitalTwinDiagnosticProvider.ts:317-341 | the one class the semantic type scan finds is a candidate |
| TwinDiagnostics.MissingRequired | src/DigitalTwin/pnp/src/intelliSense/digitalTwinDiagnosticProvider.ts:264-273 | a property is listed exactly when it is required, absent, and not `@context` under a `schema` property |
| TwinDiagnostics.RequiredProblems | src/DigitalTwin/pnp/src/intelliSense/digitalTwinDiagnosticProvider.ts:274-285 | the missing required properties make at most one problem |
| TwinDiagnostics.NamePair | src/DigitalTwin/pnp/src/intelliSense/digitalTwinDiagnosticProvider.ts:58-79 | the pair found is a property named `name` |
| TwinDiagnostics.DuplicateProblems | src/DigitalTwin/pnp/src/intelliSense/digitalTwinDiagnosticProvider.ts:504-517 | an element draws a duplicate problem exactly when it has a name that was met before |
| TwinDiagnostics.ItemCountProblems | src/DigitalTwin/pnp/src/intelliSense/digitalTwinDiagnosticProvider.ts:471-498 | one problem for too few items and one for too many, each present exactly when its non-zero bound is broken, and naming that bound |
| TwinDiagnostics.ArrayProblems | src/DigitalTwin/pnp/src/intelliSense/digitalTwinDiagnosticProvider.ts:449-469 | a non-array property gives the invalid type problem alone, and an empty array the empty-array problem alone |
| TwinDiagnostics.StringChecksInOrder | src/DigitalTwin/pnp/src/intelliSense/digitalTwinDiagnosticProvider.ts:532-587 | the string checks run empty, minimum, maximum, pattern, and only the first that fails is reported |
| TwinDiagnostics.NamesOfMembership | src/DigitalTwin/pnp/src/intelliSense/digitalTwinDiagnosticProvider.ts:500-523 | a name is among those met exactly when some element carries it |
| TwinDiagnostics.DuplicateExactlyWhenRepeated | src/DigitalTwin/pnp/src/intelliSense/digitalTwinDiagnosticProvider.ts:500-523 | an element is reported as a duplicate exactly when an earlier element has the same name |
| TwinDiagnostics.PresentNamesMembership | src/DigitalTwin/pnp/src/intelliSense/digitalTwinDiagnosticProvider.ts:380-387 | a property name is recorded as present exactly when some child is a property of that name |
| TwinDiagnostics.RequiredListsMissing | src/DigitalTwin/pnp/src/intelliSense/digitalTwinDiagnosticProvider.ts:264-286 | the required properties problem lists exactly the required properties that are absent, `@context` under `schema` excepted, and spans none of the object |
| TwinDiagnostics.MissingTypeWhenAmbiguous | src/DigitalTwin/pnp/src/intelliSense/digitalTwinDiagnosticProvider.ts:222-230 | an object without `@type` whose property allows several classes draws only the missing-type problem |
| TwinDiagnostics.ExpectedPropertiesLastWins | src/DigitalTwin/pnp/src/intelliSense/digitalTwinDiagnosticProvider.ts:369-376 | a label is expected exactly when a property of the class carries it, and the last such property is the one used |
| TwinDiagnostics.ProblemList.constructor | src/DigitalTwin/pnp/src/intelliSense/digitalTwinDiagnosticProvider.ts:758 | an empty problem list |
| TwinDiagnostics.ProblemList.Push | src/DigitalTwin/pnp/src/intelliSense/digitalTwinDiagnosticProvider.ts:130 | the problem is appended |
| TwinDiagnostics.AddProblem | src/DigitalTwin/pnp/src/intelliSense/digitalTwinDiagnosticProvider.ts:123-131 | the problem for the node is appended |
| TwinDiagnostics.AddProblemOfInvalidType | src/DigitalTwin/pnp/src/intelliSense/digitalTwinDiagnosticProvider.ts:87-99 | the invalid type problem for the node is appended |
| TwinDiagnostics.AddProblemOfUnexpectedProperty | src/DigitalTwin/pnp/src/intelliSense/digitalTwinDiagnosticProvider.ts:106-114 | the unexpected property problem for the name is appended |
| TwinDiagnostics.FindClassNode | src/DigitalTwin/pnp/src/intelliSense/digitalTwinDiagnosticProvider.ts:42-52 | the search answers the first candidate of the type |
| TwinDiagnostics.GetNamePropertyPair | src/DigitalTwin/pnp/src/intelliSense/digitalTwinDiagnosticProvider.ts:58-79 | the search answers the first property named `name` of an object |
| TwinDiagnostics.ValidateNode | src/DigitalTwin/pnp/src/intelliSense/digitalTwinDiagnosticProvider.ts:139-183 | appends exactly the problems the specification of the node gives |
| TwinDiagnostics.ValidateObjectNode | src/DigitalTwin/pnp/src/intelliSense/digitalTwinDiagnosticProvider.ts:191-287 | appends exactly the problems the specification of the object gives |
| TwinDiagnostics.ValidateTypedObject | src/DigitalTwin/pnp/src/intelliSense/digitalTwinDiagnosticProvider.ts:233-287 | appends exactly the problems of the object from the `@type` check on |
| TwinDiagnostics.ValidateClassObject | src/DigitalTwin/pnp/src/intelliSense/digitalTwinDiagnosticProvider.ts:243-287 | appends exactly the problems of the object once its class is known |
| TwinDiagnostics.FilterRequired | src/DigitalTwin/pnp/src/intelliSense/digitalTwinDiagnosticProvider.ts:265-273 | the filter keeps exactly the missing required properties |
| TwinDiagnostics.GetValidObjectType | src/DigitalTwin/pnp/src/intelliSense/digitalTwinDiagnosticProvider.ts:296-351 | returns the class and appends the problems the specification gives |
| TwinDiagnostics.ScanTypeArray | src/DigitalTwin/pnp/src/intelliSense/digitalTwinDiagnosticProvider.ts:317-341 | over a semantic type array: reports a conflict exactly when two strings name classes, appending the conflict problem then; otherwise the class named |
| TwinDiagnostics.ExpectedPropertiesOf | src/DigitalTwin/pnp/src/intelliSense/digitalTwinDiagnosticProvider.ts:369-376 | builds the map of expected properties, the last property of a label winning |
| TwinDiagnostics.ValidateProperties | src/DigitalTwin/pnp/src/intelliSense/digitalTwinDiagnosticProvider.ts:360-441 | appends exactly the problems of the properties and records exactly the names present |
| TwinDiagnostics.ValidateProperty | src/DigitalTwin/pnp/src/intelliSense/digitalTwinDiagnosticProvider.ts:381-439 | one pass appends exactly the problems of that child |
| TwinDiagnostics.ValidateArrayNode | src/DigitalTwin/pnp/src/intelliSense/digitalTwinDiagnosticProvider.ts:449-524 | appends exactly the problems the specification of the array gives |
| TwinDiagnostics.ValidateElements | src/DigitalTwin/pnp/src/intelliSense/digitalTwinDiagnosticProvider.ts:503-523 | the loop appends exactly the problems of the elements in order |
| TwinDiagnostics.AddItemCountProblems | src/DigitalTwin/pnp/src/intelliSense/digitalTwinDiagnosticProvider.ts:472-498 | appends exactly the item count problems |
| TwinDiagnostics.ValidateElement | src/DigitalTwin/pnp/src/intelliSense/digitalTwinDiagnosticProvider.ts:504-522 | one pass appends the element's duplicate problem and then its own problems, and records its name |
| TwinDiagnostics.ValidateStringNode | src/DigitalTwin/pnp/src/intelliSense/digitalTwinDiagnosticProvider.ts:532-587 | appends exactly the string problems |
| TwinDiagnostics.ValidateEnumNode | src/DigitalTwin/pnp/src/intelliSense/digitalTwinDiagnosticProvider.ts:595-613 | appends exactly the enum problems |
| TwinDiagnostics.ValidateNumberNode | src/DigitalTwin/pnp/src/intelliSense/digitalTwinDiagnosticProvider.ts:621-641 | appends exactly the number problems |
| TwinDiagnostics.ValidateBooleanNode | src/DigitalTwin/pnp/src/intelliSense/digitalTwinDiagnosticProvider.ts:649-668 | appends exactly the boolean problems |
| TwinDiagnostics.ValidateLanguageNode | src/DigitalTwin/pnp/src/intelliSense/digitalTwinDiagnosticProvider.ts:676-711 | appends exactly the problems of the language map's entries |
| TwinDiagnostics.ValidateLanguageEntry | src/DigitalTwin/pnp/src/intelliSense/digitalTwinDiagnosticProvider.ts:686-710 | one entry: an unknown language code is unexpected, a non-string value is reported, a string is checked as a string |
| TwinDiagnostics.ProvideDiagnostics | src/DigitalTwin/pnp/src/intelliSense/digitalTwinDiagnosticProvider.ts:747-776 | no problem without an entry node; otherwise exactly the problems of the model checked against the entry node |
| CodeGen.JsNumber | src/DigitalTwin/CodeGeneratorCore.ts:725-726 | a version part reads as a number exactly when it exists and is a run of decimal digits (the empty part reading 0) |
| CodeGen.VersionOrder | src/DigitalTwin/CodeGeneratorCore.ts:717-733 | the comparison answers 1, -1 or 0 |
| CodeGen.CompareVersion | src/DigitalTwin/CodeGeneratorCore.ts:717-733 | the three-part loop answers the order the specification gives |
| CodeGen.IsNewerVersion | src/pnp/CodeGenerateCore.ts:340-355 | the Plug and Play loop answers whether the first version is strictly newer |
| CodeGen.VersionOrderReflexive | src/DigitalTwin/CodeGeneratorCore.ts:717-733 | every version compares equal to itself |
| CodeGen.VersionOrderAntisymmetric | src/DigitalTwin/CodeGeneratorCore.ts:717-733 | swapping the versions negates the result |
| CodeGen.ReleaseOrder | src/DigitalTwin/CodeGeneratorCore.ts:717-733 | on release versions the comparison is the lexicographic order of the number triples |
| CodeGen.ReleaseOrderTransitive | src/DigitalTwin/CodeGeneratorCore.ts:517-524 | on release versions the order is transitive, so the sort of the release list is meaningful |
| CodeGen.SelectConfigItem | src/DigitalTwin/CodeGeneratorCore.ts:526-538 | a pre-release takes the first item; a release takes the first item whose minimal workbench version it meets, and none when no item qualifies |
| CodeGen.FirstSupportedIsNewest | src/DigitalTwin/CodeGeneratorCore.ts:517-538 | on a newest-first list the item selected is the newest of those supported |
| CodeGen.CliOperation | src/DigitalTwin/CodeGeneratorCore.ts:665-677 | install exactly when no generator is present; upgrade exactly when the target is newer than the local one |
| CodeGen.CliOperationForward | src/DigitalTwin/CodeGeneratorCore.ts:665-677 | the installed version is never upgraded to, and an upgrade never goes to an older version |
| CodeGen.HashCheck | src/DigitalTwin/CodeGeneratorCore.ts:610-630 | a matching hash goes on; a corrupted package aborts a first install and keeps the old generator on an upgrade |
| CodeGen.NeedUpgrade | src/DigitalTwin/CodeGenerateCore.ts:615-632 | an upgrade is needed exactly when the tool folder is missing, no version is recorded, or the configured version is newer |
| CodeGen.NeedUpgradeForward | src/DigitalTwin/CodeGenerateCore.ts:615-632 | with the tool in place a version is never replaced by itself or an older one |
| CodeGen.FileCoreName | src/pnp/CodeGenerateCore.ts:86-91 | the name found is non-empty, on one line, and followed by `.capabilitymodel.json` makes the file label |
| CodeGen.FileCoreNameRoundTrip | src/pnp/CodeGenerateCore.ts:86-91 | every non-empty one-line name comes back from its file name |
| CodeGen.CandidateSetSize | src/DigitalTwin/CodeGenerateCore.ts:354-367 | the first n candidate names are n different names, so the search must reach a free one |
| CodeGen.ChooseProjectName | src/DigitalTwin/CodeGenerateCore.ts:354-367 | the name chosen is not an existing folder and is the first free one of iot_application, iot_application_1, ... |
| CodeGen.WithoutPath | src/DigitalTwin/CodeGeneratorCore.ts:481-485 | the filter keeps exactly the items for other capability models, never more |
| CodeGen.SaveExecution | src/DigitalTwin/CodeGeneratorCore.ts:467-499 | the new execution is last, preceded by exactly the saved ones for other capability models |
| CodeGen.WithoutPathTwice | src/DigitalTwin/CodeGeneratorCore.ts:481-485 | filtering twice by a path is filtering once |
| CodeGen.WithoutPathAppend | src/DigitalTwin/CodeGeneratorCore.ts:481-486 | the filter drops an appended item with that path |
| CodeGen.SaveExecutionIdempotent | src/DigitalTwin/CodeGeneratorCore.ts:467-499 | saving the same generation again leaves one entry per capability model, as before |
| AzureComponents.IndexOfValue | src/Models/Azure.ts:70 | the first position holding a strictly equal value, or -1 exactly when none does |
| AzureComponents.IdValues | src/Models/Azure.ts:57-58 | the sorted ids kept as strings, one per id in order |
| AzureComponents.ReadyById | src/Models/AzureComponentConfig.ts:85-91 | looked up by id, a component is ready exactly when every dependency's id is already sorted |
| AzureComponents.ReadyByObject | src/Models/Azure.ts:68-74 | looked up as an object among string ids, a dependency is never found, so only a component without dependencies is ready |
| AzureComponents.Hold | src/Models/AzureComponentConfig.ts:85-91 | the inner loop holds a component exactly when it is not ready |
| AzureComponents.AppendOrdered | src/Models/AzureComponentConfig.ts:97-98 | appending a ready component with a new id keeps the listing dependency-ordered and free of repeats |
| AzureComponents.SortPass | src/Models/AzureComponentConfig.ts:80-99 | one pass extends the listing, keeps it ordered, and a pass that adds nothing leaves no ready config unlisted |
| AzureComponents.SortComponents | src/Models/AzureComponentConfig.ts:69-106 | the result lists each component at most once, after its dependencies, and leaves out only configs that can never become ready |
| AzureComponents.AllListed | src/Models/AzureComponentConfig.ts:100-101 | a listing as long as the configs lists every config |
| AzureComponents.DistinctCard | src/Models/AzureComponentConfig.ts:79-84 | a sequence without repeats has as many distinct elements as entries |
| AzureComponents.ListedBeforeDependents | src/Models/AzureComponentConfig.ts:85-98 | corrected (see ## Findings: a dependency is looked up by its id); a listed component comes after every listed component it depends on |
| AzureComponents.NoMutualDependency | src/Models/AzureComponentConfig.ts:78-102 | two listed components never depend on each other, so a cycle is left out |
| AzureComponents.IndependentListed | src/Models/AzureComponentConfig.ts:78-102 | a component without dependencies is always listed |
| AzureComponents.AsWrittenListsOnlyIndependent | src/Models/Azure.ts:51-89 | as written, only components without dependencies are listed |
| AzureComponents.AsWrittenDropsDependent | src/Models/Azure.ts:68-74 | with `b` depending on `a`, the listing by id has `b` and the listing as written does not |
| AzureComponents.FindIndexById | src/Models/Azure.ts:91-102 | the first config with the id, or -1 exactly when no config has it |
| AzureComponents.ConfigFile.constructor | src/Models/AzureComponentConfig.ts:50-67 | a new config file holds no components |
| AzureComponents.ConfigFile.AppendComponent | src/Models/AzureComponentConfig.ts:158-169 | the component is added at the end and the new list is returned |
| AzureComponents.ConfigFile.UpdateComponent | src/Models/AzureComponentConfig.ts:171-186 | an index with no component is an error and changes nothing; otherwise only that component's info changes |
| AzureComponents.AppendThenFind | src/Models/AzureComponentConfig.ts:108-118 | after an append the new component is found at the end unless its id was already present |
| RepositoryViews.IndexOfTag | DigitalTwinRepositoryViews/main.js:272 | the first position of the tag, or -1 exactly when it is absent |
| RepositoryViews.RemoveAt | DigitalTwinRepositoryViews/main.js:281 | removing one entry shortens the tags by one |
| RepositoryViews.RemoveEachMultiset | DigitalTwinRepositoryViews/main.js:271-292 | every selected tag is found exactly when the selection fits in the tags, repeats counted, and the remaining tags are the difference |
| RepositoryViews.MatchAndExact | DigitalTwinRepositoryViews/main.js:263-292 | corrected (see ## Findings: the item's tags are not changed by filtering); 'and' matches exactly when the item's tags are the selected tags, repeats counted, in any order (the Plug and Play copy, pnpRepositoryViews/main.js lines 243-273, is the same) |
| RepositoryViews.MatchOrSome | DigitalTwinRepositoryViews/main.js:271-286 | 'or' matches exactly when some selected tag is among the item's tags (the Plug and Play copy, pnpRepositoryViews/main.js lines 251-266, is the same) |
| RepositoryViews.TagArray.constructor | DigitalTwinRepositoryViews/main.js:263 | the item's tag array holds the given tags |
| RepositoryViews.IsMatchTagsAsWritten | DigitalTwinRepositoryViews/main.js:263-292 | the loop answers the match and, in 'and' mode, leaves the item's own tag array with the matched tags spliced out (the Plug and Play copy, pnpRepositoryViews/main.js lines 243-273, is the same) |
| RepositoryViews.AnySelected | DigitalTwinRepositoryViews/main.js:271-286 | the 'or' walk answers true exactly when some selected tag is among the item's tags |
| RepositoryViews.SpliceEach | DigitalTwinRepositoryViews/main.js:271-282 | the 'and' walk leaves the item's array and the found flag exactly as `RemoveEach` describes: each selected tag's first occurrence spliced out, stopping at the first one missing |
| RepositoryViews.AsWrittenMatchesOnce | DigitalTwinRepositoryViews/main.js:263-292 | an item tagged `t` matches the 'and' selection [t] once, loses its tag, and then no longer matches |
| RepositoryViews.FilterItems | DigitalTwinRepositoryViews/main.js:226-261 | corrected (see ## Findings: the 'and' tag test is `MatchAndExact`, which leaves the item's tags alone); the list itself when the search bar is hidden; otherwise exactly the items that pass the status, tag, display-name and keyword tests, in order (the Plug and Play view, pnpRepositoryViews/main.js lines 211-241, is the case without the display-name test) |
| RepositoryViews.FilterItemsIdempotent | DigitalTwinRepositoryViews/main.js:226-261 | corrected (see ## Findings: as written, the 'and' filter splices the item's tags, so a second pass drops it, `AsWrittenMatchesOnce`); filtering again with the same settings changes nothing |
| RepositoryViews.Toggle | DigitalTwinRepositoryViews/main.js:197-213 | a present id is removed at its first position, leaving the others; an absent id is appended |
| RepositoryViews.ToggleFlips | DigitalTwinRepositoryViews/main.js:197-204 | a toggle flips the id's membership, keeps every other id and keeps the selection free of repeats |
| RepositoryViews.ToggleRemoves | DigitalTwinRepositoryViews/main.js:197-204 | toggling a present id removes it and keeps every other id |
| RepositoryViews.IndexOfTagLast | DigitalTwinRepositoryViews/main.js:197-204 | an id pushed onto a selection without it is found at the end |
| RepositoryViews.RepositoryView.constructor | DigitalTwinRepositoryViews/main.js:3-33 | the view starts with the search bar and selectors closed, no keywords, status All, no tags, 'and' mode and empty selections |
| RepositoryViews.RepositoryView.ClearFilter | DigitalTwinRepositoryViews/main.js:184-190 | no tags, status All, no keywords, both selectors closed, the rest unchanged (the Plug and Play view, pnpRepositoryViews/main.js lines 169-175, is the same) |
| RepositoryViews.RepositoryView.SelectFilterStatus | DigitalTwinRepositoryViews/main.js:192-195 | the status is set and its selector closed, the rest unchanged (the Plug and Play view, pnpRepositoryViews/main.js lines 177-180, is the same) |
| RepositoryViews.RepositoryView.ShowHideSearchBar | DigitalTwinRepositoryViews/main.js:168-172 | the search bar flips and both selectors close, the filter unchanged (the Plug and Play view, pnpRepositoryViews/main.js lines 153-157, is the same) |
| RepositoryViews.RepositoryView.AddRemoveInterface | DigitalTwinRepositoryViews/main.js:197-204 | the interface selection is toggled and nothing else changes (the Plug and Play view, pnpRepositoryViews/main.js lines 182-189, is the same) |
| RepositoryViews.RepositoryView.AddRemoveCapability | DigitalTwinRepositoryViews/main.js:206-213 | the capability-model selection is toggled and nothing else changes (the Plug and Play view, pnpRepositoryViews/main.js lines 191-198, is the same) |
| RepositoryViews.ClearedFilterKeepsAll | DigitalTwinRepositoryViews/main.js:184-190 | after clearing, an open search bar shows every item that passes the display-name test |
| ExampleView.ParseQuery | views/example.js:107-119 | no entries without a '?'; otherwise the items after the first "?" are entered in order, each key mapped to its decoded value, later items overwriting earlier ones; an item keyed `__proto__` is skipped, because the plain object's inherited prototype setter ignores a string or undefined |
| ExampleView.EntriesKeys | views/example.js:111-116 | a key is present exactly when some query item has it and it is not `__proto__`, which the plain object never stores |
| ExampleView.EntriesLast | views/example.js:111-116 | a key other than `__proto__` takes its value from the last item with that key |
| ExampleView.QueryItemsAfter | views/example.js:107-111 | the items of `base?rest` are the parts of `rest` between the "&" when neither side holds a "?" |
| ExampleView.QueryRoundTrip | views/example.js:107-119 | a query written from distinct plain keys and non-empty plain values reads back as those keys, less `__proto__`, with their decoded values and no other key |
| ExampleView.Truncate | views/example.js:48-54 | a description longer than 80 characters becomes at most 80; others, and a missing one, stay as they are |
| ExampleView.TruncateKeepsStart | views/example.js:48-54 | a shortened description is the first 77 characters followed by "..." |
| ExampleView.TruncateIdempotent | views/example.js:48-54 | shortening twice is shortening once |
| ExampleView.PrepareAll | views/example.js:43-55 | one prepared example per example, in order |
| ExampleView.FirstFeatured | views/example.js:45 | the first featured example, or -1 exactly when none is featured |
| ExampleView.ProcessTaken | views/example.js:45-48 | once an example is taken out, later featured examples are only prepared |
| ExampleView.RemainingCons | views/example.js:43-55 | an example that is not featured stays at the head of the remaining list |
| ExampleView.ProcessFirstFeatured | views/example.js:43-55 | the loop takes out the first featured example whole and prepares every other example in order |
| ExampleView.PartitionExamples | views/example.js:56-57 | official examples are exactly those without an author, community ones those with one, and together they are the list |
| ExampleView.LoadExamples | views/example.js:43-57 | the featured example is the first featured one, and the official and community lists split the prepared rest |
| ExampleView.TakeStep | views/example.js:45-47 | taking out the featured example at i keeps the loop's outcome |
| ExampleView.PrepareStep | views/example.js:44-54 | preparing the example at i keeps the loop's outcome |
| ExampleView.FirstMatch | views/example.js:329-338 | the first waiting callback for the id, or -1 exactly when none waits |
| ExampleView.PushedIsFound | views/example.js:314-317 | a callback pushed with a new id is the one the reply with that id finds |
| ExampleView.ReplyOnlyOnce | views/example.js:325-339 | after a reply removes its callback a second reply with that id finds nothing |
| ExampleView.MessageChannel.constructor | views/example.js:1 | no callback waits and nothing is posted |
| ExampleView.MessageChannel.Command | views/example.js:300-323 | an empty command does nothing; otherwise the callback waits under the new id and the command is posted with the other arguments |
| ExampleView.MessageChannel.OnMessage | views/example.js:325-339 | the first callback waiting for the id is called once and removed; a reply nobody waits for changes nothing |
| Utilities.CharacterClasses | src/DigitalTwin/Utilities.ts:39-47 | on one character isDigit and isLetter are the ASCII range tests |
| Utilities.StringClasses | src/DigitalTwin/Utilities.ts:39-47 | for every string: it is a "digit" exactly when it is non-empty and starts with 0 to 8 or is "9", and a "letter" exactly when it starts with A to Y or a to y or is "Z" or "z"; so the empty string is neither and longer strings are judged by the string order |
| Utilities.Unquote | src/DigitalTwin/Utilities.ts:49-62 | a leading quote character is dropped, then a trailing one if anything is left; otherwise the text is kept |
| Utilities.UnquoteKeepsMiddle | src/DigitalTwin/Utilities.ts:49-62 | unquoting removes at most one character from each end and keeps the text between |
| Utilities.UnquoteQuote | src/DigitalTwin/Utilities.ts:49-74 | quoting a string and unquoting the result gives the string back |
| Utilities.Quote | src/DigitalTwin/Utilities.ts:64-74 | null gives "null", undefined gives "undefined", and a string comes back between double quotes |
| Utilities.EscapeTextHasNoControls | src/DigitalTwin/Utilities.ts:76-115 | the escaped text holds none of \b \f \n \r \t \v |
| Utilities.EscapeTextLength | src/DigitalTwin/Utilities.ts:76-115 | each of the six control characters adds exactly one character |
| Utilities.EscapeTextIdentity | src/DigitalTwin/Utilities.ts:76-115 | text without control characters is left as it is |
| Utilities.EscapeNotInjective | src/DigitalTwin/Utilities.ts:76-115 | a newline and the two characters backslash, 'n' escape to the same text, so the escape cannot be undone |
| Utilities.Escape | src/DigitalTwin/Utilities.ts:76-115 | a string becomes its escaped text; null, undefined and "" are returned unchanged |
| Utilities.EscapeAndQuote | src/DigitalTwin/Utilities.ts:117-119 | the escaped string between double quotes; "null" and "undefined" for those values |
| Utilities.GetCombinedLength | src/DigitalTwin/Utilities.ts:124-132 | the sum of the lengths, never negative when no length is |
| Utilities.GetCombinedText | src/DigitalTwin/Utilities.ts:137-145 | the texts concatenated in order |
| Utilities.CombinedTextLength | src/DigitalTwin/Utilities.ts:124-145 | the combined text is as long as the combined length of the parts |
| Utilities.GenerateDigitalTwinIdentifier | src/DigitalTwin/Utilities.ts:212-214 | the name between "urn:{your name}:" and ":1", and 18 characters longer than it |
| CommonUtility.FirstMatch | src/DigitalTwin/pnp/src/common/utility.ts:42-43 | the alternation of the keys takes the first key, in table order, that matches at the start of the text; none when no key matches there |
| CommonUtility.ReplaceAllNoKey | src/DigitalTwin/pnp/src/common/utility.ts:39-47 | text in which no key occurs comes back unchanged |
| CommonUtility.ReplaceAllKeyFirst | src/DigitalTwin/pnp/src/common/utility.ts:39-47 | a key at the front becomes its value and the rest is replaced on its own |
| CommonUtility.ReplaceAllTwoKeys | src/DigitalTwin/pnp/src/common/utility.ts:39-47 | two keys separated by a character no key starts with are both replaced |
| CommonUtility.ReplaceAll | src/DigitalTwin/pnp/src/common/utility.ts:39-47 | the scan replaces each match of a key left to right and copies text where no key starts, so an empty table changes nothing |
| CommonUtility.SchemePrefix | src/DigitalTwin/pnp/src/common/utility.ts:86-87 | a match of `^[a-zA-Z]+://` is a run of letters followed by "://" |
| CommonUtility.EnforceHttps | src/DigitalTwin/pnp/src/common/utility.ts:85-89 | the result starts with "https://"; a scheme is replaced by it, and a URL without one gets it in front |
| CommonUtility.EnforceHttpsIdempotent | src/DigitalTwin/pnp/src/common/utility.ts:85-89 | enforcing https twice is enforcing it once |
| CommonUtility.ValidateNotEmpty | src/DigitalTwin/pnp/src/common/utility.ts:74-79 | a message, "<placeholder> " followed by the not-empty message, exactly when the name is empty or blank |
| CommonUtility.ValidateModelName | src/DigitalTwin/pnp/src/common/utility.ts:55-67 | the not-empty message for a blank name, the allowed-characters message for a name outside the pattern, the already-exists message when its file is in the folder, and no message exactly when the name matches and its file is not there |
| CommonUtility.ModelNameOf | src/DigitalTwin/pnp/src/common/utility.ts:103-105 | the model name is the id with every ':' turned into '_' and nothing else changed |
| CommonUtility.ColonsReplaced | src/DigitalTwin/pnp/src/common/utility.ts:103-105 | replacing by the table `:` to `_` keeps the length and changes exactly the colons |
| CommonUtility.CandidatesDistinct | src/DigitalTwin/pnp/src/common/utility.ts:106-114 | different counters give different file names |
| CommonUtility.CandidateSetSize | src/DigitalTwin/pnp/src/common/utility.ts:106-114 | the first n candidates are n different names |
| CommonUtility.CandidatesBounded | src/DigitalTwin/pnp/src/common/utility.ts:106-114 | while every candidate tried is taken there are at least as many existing files as candidates, so the loop ends |
| CommonUtility.ChooseModelFileName | src/DigitalTwin/pnp/src/common/utility.ts:98-114 | an unknown model type fails; otherwise the chosen name is not in the folder and is the first free candidate |
| OperatingResult.ResultName | src/OperatingResult.ts:1-6 | every result has a non-empty enum member name |
| OperatingResult.OperatingResult.constructor | src/OperatingResult.ts:19-23 | the operator and details are the given ones, a missing result is Null, and the stack starts empty |
| OperatingResult.OperatingResult.UpdateDetails | src/OperatingResult.ts:28-30 | only the details change |
| OperatingResult.OperatingResult.UpdateResult | src/OperatingResult.ts:28-36 | the result changes; the details change only when new non-empty details are given |
| OperatingResult.OperatingResult.PushResult | src/OperatingResult.ts:43-54 | the current triple is saved on the stack, the other result's triple becomes current, and its stack follows, including when the other result is this one |
| OperatingResult.OperatingResult.PushNamed | src/OperatingResult.ts:43-62 | the current triple is saved first; a missing or Null result is then an error that leaves the current triple, otherwise the given triple becomes current |
| OperatingResult.OperatingResult.AppendResult | src/OperatingResult.ts:69-77 | the current triple stays; the other result's triple and then its stack are added to the stack |
| OperatingResult.OperatingResult.AppendNamed | src/OperatingResult.ts:69-87 | a missing or Null result is an error that changes nothing; otherwise the given triple is added to the stack |
| OperatingResult.OperatingResult.Telemetry | src/OperatingResult.ts:100-124 | the loop builds exactly the telemetry record of the current triple and the stack |
| OperatingResult.LastDetails | src/OperatingResult.ts:106-115 | the last details kept from the stack are never empty |
| OperatingResult.StackDataKeys | src/OperatingResult.ts:108-115 | every key the stack adds is "stack/<index>/<field>" for an entry's index and one of the three fields |
| OperatingResult.StackKeyNotTopLevel | src/OperatingResult.ts:101-121 | a stack key never overwrites operator, result or details |
| OperatingResult.StackKeyInjective | src/OperatingResult.ts:108-115 | different indices or fields never share a key |
| OperatingResult.StackDataEntries | src/OperatingResult.ts:108-115 | each entry can be read back under its index, its details exactly when they are non-empty |
| OperatingResult.TelemetryFields | src/OperatingResult.ts:100-124 | the record carries the operator and the result's name, and details exactly when the current ones or some stack entry's are non-empty, preferring the current ones |
| OperatingResult.TelemetryStack | src/OperatingResult.ts:108-115 | every stack entry is in the record under its own index |
| DeviceModelManager.ConvertToModelType | src/DigitalTwin/pnp/src/deviceModel/deviceModelManager.ts:29-31 | among the enum's own names, a member exactly for "Interface" and "CapabilityModel", and it is the member of that name (inherited names: see ## Left out) |
| DeviceModelManager.ConvertModelTypeKey | src/DigitalTwin/pnp/src/deviceModel/deviceModelManager.ts:29-31 | looking up a member's own name gives the member back |
| DeviceModelManager.GenerateModelId | src/DigitalTwin/pnp/src/deviceModel/deviceModelManager.ts:37-39 | the name between "urn:{companyName}:" and ":1" |
| DeviceModelManager.RemoveWhitespace | src/DigitalTwin/pnp/src/deviceModel/deviceModelManager.ts:47 | no white space is left and nothing is added |
| DeviceModelManager.RemoveWhitespaceNone | src/DigitalTwin/pnp/src/deviceModel/deviceModelManager.ts:47 | text without white space is left as it is |
| DeviceModelManager.RemoveWhitespaceAppend | src/DigitalTwin/pnp/src/deviceModel/deviceModelManager.ts:47 | removing white space from two pieces is removing it from each |
| DeviceModelManager.FileTypeValues | src/DigitalTwin/pnp/src/deviceModel/deviceModelManager.ts:47 | the file type is "interface" for an Interface and "capabilitymodel" for a Capability Model |
| DeviceModelManager.GenerateModelFileName | src/DigitalTwin/pnp/src/deviceModel/deviceModelManager.ts:46-49 | "<name>.<file type>.json" |
| DeviceModelManager.GenerateModelFileNameInjective | src/DigitalTwin/pnp/src/deviceModel/deviceModelManager.ts:46-49 | different names or different types never share a file name |
| DeviceModelManager.GetTemplateFileName | src/DigitalTwin/pnp/src/deviceModel/deviceModelManager.ts:55-57 | the model file name of the sample file for the type |
| CMakeFileList.BaseName | src/DigitalTwin/DigitalTwinCodeGen/AnsiCCodeGeneratorImplCMake.ts:90 | the part of a path after its last separator: it holds no separator and ends the path |
| CMakeFileList.LastIndexOf | src/DigitalTwin/DigitalTwinCodeGen/AnsiCCodeGeneratorImplCMake.ts:90 | the last position of the character, or -1 when it does not occur |
| CMakeFileList.ExtName | src/DigitalTwin/DigitalTwinCodeGen/AnsiCCodeGeneratorImplCMake.ts:90 | the extension is empty or a '.' with no further '.' that ends the path |
| CMakeFileList.IncludedFiles | src/DigitalTwin/DigitalTwinCodeGen/AnsiCCodeGeneratorImplCMake.ts:87-91 | exactly the files with the extension that do not end in "main.c", in their order |
| CMakeFileList.Relative | src/DigitalTwin/DigitalTwinCodeGen/AnsiCCodeGeneratorImplCMake.ts:92 | a file below the root is the root, a separator and the relative path |
| CMakeFileList.ReplaceFirst | src/DigitalTwin/DigitalTwinCodeGen/AnsiCCodeGeneratorImplCMake.ts:93 | only the first occurrence of the separator becomes '/', and nothing else changes |
| CMakeFileList.Entry | src/DigitalTwin/DigitalTwinCodeGen/AnsiCCodeGeneratorImplCMake.ts:93 | an entry is "./" followed by the relative path with its first separator made '/' |
| CMakeFileList.Entries | src/DigitalTwin/DigitalTwinCodeGen/AnsiCCodeGeneratorImplCMake.ts:92-93 | one entry per kept file, in order |
| CMakeFileList.IncludedFileListString | src/DigitalTwin/DigitalTwinCodeGen/AnsiCCodeGeneratorImplCMake.ts:81-99 | no generated files give "" |
| CMakeFileList.IncludedFileListLines | src/DigitalTwin/DigitalTwinCodeGen/AnsiCCodeGeneratorImplCMake.ts:81-99 | splitting the list at the line break gives back one entry per kept file, the first as it is and each later one after four spaces |
| CMakeFileList.EntryWithoutChar | src/DigitalTwin/DigitalTwinCodeGen/AnsiCCodeGeneratorImplCMake.ts:93 | an entry holds no character that neither the root nor the file holds |
| ConnectionString.SplitPair | src/DigitalTwin/DigitalTwinApi/DigitalTwinConnectionStringBuilder.ts:78-89 | a segment is a pair exactly when its first '=' is neither first nor last; the name is before it and the value after it |
| ConnectionString.SplitPairFormat | src/DigitalTwin/DigitalTwinApi/DigitalTwinConnectionStringBuilder.ts:78-89 | a non-empty name without '=' and a non-empty value come back from their "name=value" segment |
| ConnectionString.Items | src/DigitalTwin/DigitalTwinApi/DigitalTwinConnectionStringBuilder.ts:74-91 | the segments fill the dictionary exactly when every segment is a pair |
| ConnectionString.ItemsLastValue | src/DigitalTwin/DigitalTwinApi/DigitalTwinConnectionStringBuilder.ts:77-91 | the dictionary holds exactly the names of the segments, each with the value of its last segment |
| ConnectionString.SegmentsLastValue | src/DigitalTwin/DigitalTwinApi/DigitalTwinConnectionStringBuilder.ts:74-91 | properties written out with distinct names read back to each name's value |
| ConnectionString.ItemsErrorStays | src/DigitalTwin/DigitalTwinApi/DigitalTwinConnectionStringBuilder.ts:77-91 | once a segment fails, the whole parse fails with that error |
| ConnectionString.ItemsFirstError | src/DigitalTwin/DigitalTwinApi/DigitalTwinConnectionStringBuilder.ts:79-89 | a failure names the first malformed segment |
| ConnectionString.CollectItems | src/DigitalTwin/DigitalTwinApi/DigitalTwinConnectionStringBuilder.ts:74-91 | the loop over the segments computes the dictionary or the first error |
| ConnectionString.HostNameAsWrittenLastChar | src/DigitalTwin/DigitalTwinApi/DigitalTwinConnectionStringBuilder.ts:15 | the host-name pattern as written only tests the last character |
| ConnectionString.HostNameAsWrittenAcceptsAnything | src/DigitalTwin/DigitalTwinApi/DigitalTwinConnectionStringBuilder.ts:15 | as written, a text with a space that ends in 'x' passes, which the anchored pattern refuses |
| ConnectionString.HostNameAnchored | src/DigitalTwin/DigitalTwinApi/DigitalTwinConnectionStringBuilder.ts:15 | every host name the anchored pattern accepts is accepted as written |
| ConnectionStringBuilder.ValidateFormat | src/DigitalTwin/DigitalTwinApi/DigitalTwinConnectionStringBuilder.ts:59-66 | an empty value is not checked; any other value passes exactly when it matches, and the error names the property (the Plug and Play copy, src/pnp/pnp-api/PnPConnectionStringBuilder.ts lines 58-65, is the same) |
| ConnectionStringBuilder.ConnectionStringBuilder.constructor | src/DigitalTwin/DigitalTwinApi/DigitalTwinConnectionStringBuilder.ts:28-33 | all four properties start empty |
| ConnectionStringBuilder.ConnectionStringBuilder.Validate | src/DigitalTwin/DigitalTwinApi/DigitalTwinConnectionStringBuilder.ts:115-124 | corrected (see ## Findings: the host name is tested with the anchored pattern, where the source tests only its last character); no error exactly when each present host name, key name and key value matches its pattern; otherwise the first failing one is named (the Plug and Play copy, src/pnp/pnp-api/PnPConnectionStringBuilder.ts lines 113-122, is the same) |
| ConnectionStringBuilder.ConnectionStringBuilder.Parse | src/DigitalTwin/DigitalTwinApi/DigitalTwinConnectionStringBuilder.ts:69-113 | corrected (see ## Findings: validation tests the host name with the anchored pattern); an empty text or a malformed segment fails with nothing changed; otherwise each known name sets its property from its last segment, a missing host name or repository id fails, and then the values are validated (the Plug and Play copy, src/pnp/pnp-api/PnPConnectionStringBuilder.ts lines 68-111, is the same) |
| ConnectionStringBuilder.LastValueNonEmpty | src/DigitalTwin/DigitalTwinApi/DigitalTwinConnectionStringBuilder.ts:86-90 | a value taken from a segment is never empty |
| ConnectionStringBuilder.LastValueOverrides | src/DigitalTwin/DigitalTwinApi/DigitalTwinConnectionStringBuilder.ts:90 | a later segment with the same name overrides an earlier one |
| ColorizedChannel.LowerFirst | src/DigitalTwin/pnp/src/common/colorizedChannel.ts:18 | the operation with only its first character lowered |
| ColorizedChannel.FormatMessage | src/DigitalTwin/pnp/src/common/colorizedChannel.ts:15-23 | "<operation> successfully" without an error; "Fail to <operation, first letter lowered>. Error: <message>" with one |
| ColorizedChannel.SuccessAndFailureDiffer | src/DigitalTwin/pnp/src/common/colorizedChannel.ts:15-23 | for every operation and error message, the failure message differs from the success message |
| ColorizedChannel.CreateTag | src/DigitalTwin/pnp/src/common/colorizedChannel.ts:29-31 | "[name]", or "" exactly for a missing or empty name |
| ColorizedChannel.TaggedLine | src/DigitalTwin/pnp/src/common/colorizedChannel.ts:43-89 | a line is the kind's prefix, the tag, a space and the text |
| ColorizedChannel.Channel.constructor | src/DigitalTwin/pnp/src/common/colorizedChannel.ts:34-36 | the channel starts with no lines |
| ColorizedChannel.Channel.Start | src/DigitalTwin/pnp/src/common/colorizedChannel.ts:43-46 | appends "[Start]<tag> <operation>" |
| ColorizedChannel.Channel.End | src/DigitalTwin/pnp/src/common/colorizedChannel.ts:53-58 | appends "[Done]<tag>" and the success message |
| ColorizedChannel.Channel.Info | src/DigitalTwin/pnp/src/common/colorizedChannel.ts:64-66 | appends the message alone |
| ColorizedChannel.Channel.Warn | src/DigitalTwin/pnp/src/common/colorizedChannel.ts:73-76 | appends "[Warn]<tag> <message>" |
| ColorizedChannel.Channel.Error | src/DigitalTwin/pnp/src/common/colorizedChannel.ts:84-90 | appends "[Error]<tag>" and the failure message, or the operation alone without an error |
| ColorizedChannel.StartLineUntagged | src/DigitalTwin/pnp/src/common/colorizedChannel.ts:43-46 | for every operation, the start line without a component is "[Start] " followed by the operation |
| PnPUri.DigitEnd | src/pnp/pnp-api/Validator/PnPUri.ts:9 | the run of digits from a position ends at the first character that is not a digit, or at the end |
| PnPUri.Parse | src/pnp/pnp-api/Validator/PnPUri.ts:43-78 | an id parses exactly when it is non-empty, `vscode.Uri.parse` accepts it, and it fits the patterns; the result is the id with a valid name and version that, after the namespace, spell it |
| PnPUri.CheckPatterns | src/pnp/pnp-api/Validator/PnPUri.ts:51-77 | the checks after the URI is read pass exactly when the id fits the id pattern, has three or more '/'-parts, and its last two are a valid version and name; the namespace is the id cut before "/name/version" |
| PnPUri.UriParsesExtended | src/pnp/pnp-api/Validator/PnPUri.ts:48-49 | text added after a '/' that does not itself begin with '/' never changes whether `vscode.Uri.parse` accepts the text |
| PnPUri.FormatUriParses | src/pnp/pnp-api/Validator/PnPUri.ts:48-49 | an id joined from a namespace, a valid name and a version is read as a URI exactly as well as the namespace with its '/' |
| PnPUri.EmptyAuthorityRefused | src/pnp/pnp-api/Validator/PnPUri.ts:48-49 | an id that fits every pattern, "x:////Name/1.0.0", is still refused, because after the empty authority its path begins with "//" |
| PnPUri.DashSchemeRefused | src/pnp/pnp-api/Validator/PnPUri.ts:48-49 | a scheme that begins with '-' is refused by the URI check, before the id pattern is tried |
| PnPUri.Assemble | src/pnp/pnp-api/Validator/PnPUri.ts:59-75 | the parts of a parsed id are its last two '/'-parts as name and version, and the namespace cut in front of them spells the id with them |
| PnPUri.NamespaceRoundTrip | src/pnp/pnp-api/Validator/PnPUri.ts:55-73 | for an id with three or more parts, the namespace followed by "/name/version" is the id, and the namespace is the join of the other parts |
| PnPUri.ParseFormat | src/pnp/pnp-api/Validator/PnPUri.ts:43-78 | a namespace of id characters that, with its '/', is read as a URI, together with a valid name and a valid version, joined with '/' within 64 characters, parses back into exactly those three |
| PnPUri.ParseEmpty | src/pnp/pnp-api/Validator/PnPUri.ts:44-46 | the empty id fails with the not-empty message |
| PnPUri.FormatIsId | src/pnp/pnp-api/Validator/PnPUri.ts:7 | the joined id holds id characters only |
| PnPUri.FormatSplit | src/pnp/pnp-api/Validator/PnPUri.ts:55 | splitting the joined id gives the namespace's parts followed by the name and the version |
| PnPUri.VersionChars | src/pnp/pnp-api/Validator/PnPUri.ts:9 | a version holds only digits and dots |
| BinarySearchTree.Insert | demo/tree.ts:34-52 | the tree after an insertion is never empty |
| BinarySearchTree.InsertElements | demo/tree.ts:34-52 | the tree after an insertion holds exactly the old values plus the new one |
| BinarySearchTree.InsertSize | demo/tree.ts:34-52 | an insertion adds exactly one node |
| BinarySearchTree.InsertOrdered | demo/tree.ts:34-52 | inserting keeps smaller values to the left and equal or greater ones to the right |
| BinarySearchTree.InsertKeepsNodes | demo/tree.ts:25-52 | the old tree sits unchanged inside the new one, which has exactly one node more |
| BinarySearchTree.Node.constructor | demo/tree.ts:7-11 | a fresh node holding the value with no children |
| BinarySearchTree.BinarySearchTree.constructor | demo/tree.ts:21-23 | the tree starts empty |
| BinarySearchTree.BinarySearchTree.Add | demo/tree.ts:25-32 | the tree's value after `add` is the old value with the new value inserted, and only new nodes are allocated |
| BinarySearchTree.BinarySearchTree.RecursiveAdd | demo/tree.ts:34-52 | the subtree under the current node becomes its old value with the new value inserted |
| ModelRepositoryConnection.Validate | src/DigitalTwin/pnp/src/modelRepository/modelRepositoryConnection.ts:101-133 | corrected (see ## Findings: the host name is tested with the anchored pattern, where the source tests only its last character); no error exactly when the host name and key name are present and match their patterns and the repository id and key are present; otherwise the first failing property, in that order, is named |
| ModelRepositoryConnection.Parse | src/DigitalTwin/pnp/src/modelRepository/modelRepositoryConnection.ts:15-45 | corrected (see ## Findings: validation tests the host name with the anchored pattern); the empty text, a count of properties other than four, and a malformed property each fail with their message; otherwise the connection holds each name's last value, and it is returned exactly when validation finds nothing |
| ModelRepositoryConnection.FormatItems | src/DigitalTwin/pnp/src/modelRepository/modelRepositoryConnection.ts:15-45 | a valid connection written out as four properties without ';' in its fields parses back to itself |
| ModelRepositoryConnection.FormatSplit | src/DigitalTwin/pnp/src/modelRepository/modelRepositoryConnection.ts:20 | splitting a written connection gives its four properties |
| ModelRepositoryConnection.PropertiesItems | src/DigitalTwin/pnp/src/modelRepository/modelRepositoryConnection.ts:24-42 | the dictionary of the four properties gives back the four fields |
| IoTSettings.JoinPath | src/IoTSettings.ts:39-43 | joining a single segment gives that segment |
| IoTSettings.DefaultWorkbenchPathShape | src/IoTSettings.ts:33-49 | Windows and macOS use home, Documents and IoTWorkbenchProjects joined with the platform separator, Linux home/IoTWorkbenchProjects, and any other platform "/IoTWorkbenchProjects" |
| IoTSettings.ConfiguredOr | src/IoTSettings.ts:23-24 | a set, non-empty setting wins; otherwise the fallback |
| IoTSettings.Settings.constructor | src/IoTSettings.ts:14-17 | no instance exists yet |
| IoTSettings.Settings.GetInstance | src/IoTSettings.ts:19-31 | the first call fixes the path to the configured one or else the platform default and writes it to the configuration; later calls change nothing |
| IoTSettings.Settings.GetWorkbenchPath | src/IoTSettings.ts:51-53 | the configured path when set and non-empty, else the instance's path |
| DockerManager.PowerShellChain | src/DockerManager.ts:59-76 | a single command is left as it is |
| DockerManager.CombineCommands | src/DockerManager.ts:49-80 | in PowerShell the chain in which each later command runs only if the one before succeeded; elsewhere the commands joined by " && "; a single command is left as it is |
| DockerManager.CopyCommandAsWrittenReadsOtherVariable | src/DockerManager.ts:35-44 | outside Windows the copy command reads `$CID`, which is not the `cid` variable the create command set |
| DockerManager.CopyCommandWindowsAgrees | src/DockerManager.ts:33-42 | on Windows the copy command reads the `$cid` the create command set |
| DockerManager.CopyReadsCreatedVariable | src/DockerManager.ts:31-46 | corrected (see ## Findings); the corrected copy command reads the container id from the variable the create command assigns |
| DockerManager.BuildConfigCommands | src/DockerManager.ts:12-19 | corrected (see ## Findings: the copy step reads `$cid`, the variable the create step sets, where the source reads `$CID` outside Windows); five steps: build the image, report, create the container, copy the application out, report |
| DockerManager.ConstructCommandForBuildConfig | src/DockerManager.ts:9-21 | corrected (see ## Findings: built from the corrected copy step); the five build steps, with the output folder joined to the root path, chained for the shell |
| DeviceMain.CDiv | resources/digitaltwin/ansic/visualstudio/connectionstring/main.c:17 | C's division truncates toward zero, and quotient times divisor plus remainder is the dividend |
| DeviceMain.CRem | resources/digitaltwin/ansic/visualstudio/connectionstring/main.c:18 | C's remainder is smaller than the divisor and has the sign of the dividend |
| DeviceMain.SleepTimespec | resources/digitaltwin/ansic/visualstudio/connectionstring/main.c:16-19 | seconds and nanoseconds together are the requested milliseconds, the nanoseconds whole milliseconds under one second, and both fields non-negative for a non-negative request |
| DeviceMain.SleepMs | resources/digitaltwin/ansic/visualstudio/connectionstring/main.c:11-23 | Windows sleeps the milliseconds, POSIX sleeps the same time as a timespec, and other systems sleep the same time in microseconds |
| DeviceMain.LoopCalls | resources/digitaltwin/ansic/visualstudio/connectionstring/main.c:39-43 | each turn of the endless loop runs the device and then sleeps 100 ms |
| DeviceMain.RunMain | resources/digitaltwin/ansic/visualstudio/connectionstring/main.c:25-45 | a wrong argument count logs only the usage line "USAGE: {PROJECT_NAME} [IoTHub device connection string]" and exits with 1; otherwise the device is initialised with the connection string, a failure logs "Failed to initialize the application." and exits with 1, and success enters the run-and-sleep loop without exiting |
| BoardProvider.BoardMatches | src/boardProvider.ts:35-61 | corrected (see ## Findings: the option's id is compared with the board's own id, where the source compares it with itself); the board matches exactly when it has every property of the option with an agreeing value, ids compared as hexadecimal numbers read as `Number("0x" + text)` reads them, trailing white space dropped |
| BoardProvider.Find | src/boardProvider.ts:33-62 | corrected (see ## Findings: built on the corrected match); the first matching board, or none exactly when no board matches |
| BoardProvider.EmptyOptionMatchesAll | src/boardProvider.ts:35-61 | an option with no properties matches every board |
| BoardProvider.KeyMatchesAsWrittenIgnoresBoard | src/boardProvider.ts:48-55 | as written, whether an id matches does not depend on the board's id at all |
| BoardProvider.KeyMatchesAsWrittenWrongBoard | src/boardProvider.ts:48-55 | as written, option vendor id "1234" matches a board with vendor id "0483", which the corrected rule rejects |
| BoardProvider.TrailingSpaceIgnored | src/boardProvider.ts:48-52 | an id text followed by white space reads as the text alone ("1A " gives 26), and white space in front of it gives NaN |
| BoardProvider.KeyMatchesNumericId | src/boardProvider.ts:48-55 | with the corrected rule a numeric option id matches a board id written as its hexadecimal digits |

## Left out

- **Editor, file system, network, processes and the clock.** The following become parameters or are left out:
  - VS Code messages, dialogs, input boxes, output channels, diagnostic collections and commands;
  - file reads and writes (the folder's existing files are a set);
  - downloads, checksums, `child_process` calls;
  - `Date` and `Math.random`.
  In the example gallery the message id is given. In `IoTSettings` the configuration store is a field.
- **Regular expressions.** The character-class patterns are written out as predicates:
  - host name, key name and key value;
  - model id, name and version;
  - model names;
  - the `name` and `implements` patterns.

  Other tests stay as parameters, because no regular-expression engine is modelled. These are the string-pattern test of the IntelliSense diagnostics and the context pattern of `digitalTwinDiagnosticProvider.ts`.
- **Helpers whose code is not part of this model** become parameters of `TwinDiagnostics`:
  - `DigitalTwinGraph.getClassType`, `getValidTypes` and `isObjectClass`;
  - `DigitalTwinConstants` patterns;
  - the `LANGUAGE_CODE` table.
- **The basic tokenizer.** The lower-level tokenizer under `src/pnp/JSON.ts` is not part of this model. Its tokens are taken as given, as (kind, text) pairs.
- **jsonc-parser.** The `findNodeAtLocation`/`getNodePath` tree walk of the IntelliSense code is modelled by its documented behaviour, over a node tree that stores no parent links (the ancestors are passed instead).
- **Object identity becomes ids.** Graph nodes refer to each other by id inside maps rather than by object reference. The context identity tests (`===`) of the diagnostics become value equality.
- **Recursion over meta-model edges.** The superclass and type recursions are modelled on graphs with a rank that falls along `subClassOf` and `range` edges. On a cyclic meta-model the source does not terminate, and the model does not cover that case.
- **Numbers.** `Number(...)` parsing of decimal strings is modelled for the integer-or-not test only. JavaScript floating-point formatting of numbers in messages is left out, because the model has no floating point. `ObjectDiagnostics.ReadDecimal` and `ObjectDiagnostics.IsIntegral` read a number text as an exact decimal, whereas JavaScript rounds it to a double first. So "1e400" (Infinity in JavaScript, which is not a whole number) counts as whole in the model, and "1.0000000000000001" (exactly 1 as a double) counts as not whole.
- **Strings.** A Dafny `char` is a Unicode scalar value, while a JavaScript string is a sequence of UTF-16 code units. A character outside the Basic Multilingual Plane counts once in the model and twice in the source, and a lone surrogate cannot be written at all. For texts that hold such characters this shifts every length and index: the 80 and 77 character limits of `ExampleView.Truncate`, the `minLength` and `maxLength` tests of `TwinDiagnostics.StringProblems`, and the spans and offsets of JSON tokens and issues. `toLowerCase` is modelled on ASCII letters only.
- **`vscode.Uri.parse`.** VS Code's `Uri` class is not part of this model. `PnPUri.Parse` models the two checks it can fail on for such a text: the scheme pattern, and a path that begins with "//" after an empty authority. The percent-decoding of the URI's parts is left out. A '%' is not an id character, so an id holding one is refused either way, and only the message can differ.
- **Duplicate property names.** `uniq` in `getUnexpectedPropertiesIssues` is left out: duplicates in the allowed list do not change which names are allowed.
- **Not modelled:**
  - `showHideStatusSelector`, `showHideTagSelector` and `searchTags` of the two repository views (display toggles with no logic beyond a flag);
  - `onScrollTable` and the paging functions.
- **Not modelled in the Azure config:** `getComponentById`, `getComponentByType` and `getComponentsByType` of `src/Models/AzureComponentConfig.ts` and `src/Models/Azure.ts`. They are single `find`/`filter` calls; the index lookup beside them is modelled.
- **GetCodeGenProjectName.** Its input box and the validation of a typed name are user interaction. Only the candidate loop is modelled.
- **Other functions in the core files:**
  - `clone`, `isValidSchemaUri`, `listAllPnPSchemaFilesSync` and `SaveCompanyRepoConnectionString` of `src/DigitalTwin/Utilities.ts`;
  - `createFileFromTemplate`, `getModelFileInfo`, `getJsonContent` and `hash` of `src/DigitalTwin/pnp/src/common/utility.ts`.

  They are file-system, crypto or cloning helpers outside the string logic.
- **Access tokens.** `ModelRepositoryConnection.generateAccessToken` and the expiry time are left out (HMAC and the clock).
- **PnP variants of the JSON parser.** `getCompletionItemsFromArray`, `getIdAtPosition` and `getJsonInfoAtPosition` of the two meta-model JSON parsers are left out. They build editor completion items.
- **IoTSettings.** `setWorkbenchPath`, `selectWorkbenchPath` and `selectFolder` of `src/IoTSettings.ts` are quick-pick and folder dialogs.
- **The `sleep_ms` and `main` system calls.** `Sleep`, `nanosleep`, `usleep`, `LogError`, `pnp_device_initialize` and `pnp_device_run` are recorded as calls rather than performed. The endless loop is run for a given number of rounds.
- **Tree printing.** `BinarySearchTree.print` and `recursivePrint` are console output.
- **The example gallery's page setup.** The Vue set-up, the HTTP fetch of the example list and `getProjectName` of `views/example.js` are left out. The list arrives as a parameter.
- CommonUtility.ChooseModelFileName: the unknown-type error carries an empty message, because `Constants.MODEL_TYPE_INVALID_MSG` is not part of this model.
- ExampleView.ParseQuery: `decodeURIComponent` is a parameter. Its failure on a malformed escape, which throws in the source, is not modelled.
- BinarySearchTree.BinarySearchTree.Add: values are unbounded integers rather than JavaScript numbers.
- JsonValues.PropertyNames: the names are listed in the order of their first appearance. `Object.keys` lists integer-like names such as "0" or "10" first, in ascending numeric order, and then the others in insertion order: `{"b": 1, "1": 2}` gives "1", "b" in the source and "b", "1" in the model. So every walk over the names, such as the property and unexpected-property issues, reports in first-appearance order in the model, where the source reports in the `Object.keys` order just described.
- JsonValues.NamesOf: the same first-appearance order. A property named `__proto__` sets the prototype of the plain object in the source and never becomes a key; the model lists it.
- JsonValues.NamesOfNames: in the source the keys are the property names without `__proto__`; the model keeps it.
- JsonValues.PropertyNamesAreKeys: the model looks up the object's own properties only. The property map is a plain object, so in the source an inherited name such as `toString`, `constructor` or `__proto__` is found on every object, although it is never among the property names.
- JsonValues.HasProperty: an inherited name such as `toString`, `constructor` or `__proto__` is true on every object in the source, because the map is a plain object; the model answers true only when a property has that name.
- JsonValues.GetPropertyValueLast: an inherited name finds the inherited member in the source, and the model finds nothing. A property named `__proto__` makes its value the prototype of the map; the lookup of `__proto__` then returns that value, as in the model, but the value's own members also become inherited names of the map.
- CommonUtility.ReplaceAll: the keys are matched as literal text. The source joins them, unescaped, into one regular expression, so a key holding a metacharacter matches differently: with the key "a+" on the text "a+" the expression matches "a", whose lookup fails, and nothing is replaced, while the model replaces "a+". The callers' keys (":" and the `{...}` placeholders of the code generator) hold no metacharacters.
- CommonUtility.ReplaceAll: an empty key is excluded by the precondition `NonEmptyKeys`. In the source an empty key matches the empty string at every position, and the scan then steps over one character at a time; no caller passes one.
- CommonUtility.FirstMatch: the alternation is taken over literal keys, with the same restriction as `CommonUtility.ReplaceAll`.
- CommonUtility.ReplaceAllKeyFirst: stated for literal keys, as `CommonUtility.ReplaceAll`.
- CommonUtility.ReplaceAllTwoKeys: stated for literal keys, as `CommonUtility.ReplaceAll`.
- CodeGen.JsNumber: only runs of decimal digits (and the empty part, as 0) are read. JavaScript's `Number` also reads surrounding white space (" 1"), a sign ("+1", "-1"), hexadecimal ("0x10"), exponents ("1e2") and "Infinity"; for a version holding such a part, `CodeGen.CompareVersion` treats the part as NaN where the source compares its value.
- IoTSettings.JoinPath: the segments are put together with the separator and not normalised. Node's `path.join` drops "." segments, resolves "..", collapses doubled separators, skips empty segments, gives "." for an empty result, and on Windows also treats '/' as a separator.
- IoTSettings.DefaultWorkbenchPathShape: holds for the model's plain join. For a home folder of "/" the source gives "/IoTWorkbenchProjects" where the lemma's shape is "//IoTWorkbenchProjects", and for an empty home folder the source gives "IoTWorkbenchProjects" rather than "/IoTWorkbenchProjects"; the same normalisation applies to a home folder ending in a separator.
- DockerManager.PathJoin: two segments joined with the separator, without the normalisation of `path.join` listed under `IoTSettings.JoinPath`.
- RepositoryViews.FilterItems: a missing display name is the empty string. In the Plug and Play view (`requireDisplayName` false), an item without a display name makes the source throw a TypeError inside the filter when keywords are set; the model treats the item as not matching.
- JsonValues.GetPropertyValueFromStack: the source pops the caller's own array in place; the model takes the stack as a value and returns the names left on it as `rest`, so aliasing of that array elsewhere is not captured.
- DeviceMain.SleepMs: outside Windows and POSIX the source computes `milliseconds * 1000` in C `int`, which overflows (undefined behaviour) above 2147483 or below -2147483 milliseconds; the model multiplies unbounded integers. The only call in the template is `sleep_ms(100)`.
- DeviceModelManager.ConvertToModelType: the source indexes the enum object with the name, so an inherited `Object.prototype` name such as `constructor`, `toString`, `valueOf`, `hasOwnProperty` or `__proto__` gives a truthy inherited member (a function or the prototype) where the model gives none. An `@type` of "constructor" in a user's file therefore passes the source's type check.
- MetaModelGraph.MetaModelParser: the caches are keyed by id or label alone and are shared by the calls made under the document, interface and capability-model contexts. A cache hit is answered from the entry whatever the context of the call, and the query methods state that. A miss computed while the caches hold entries filled under another context reuses those entries for the ids below it, and no contract describes that mixed answer. The fresh answer is promised only while every cached entry agrees with the context of the call (`CachedFor`). This applies to GetPropertyNameFromId, GetShortNameFromLabel, GetPropertiesFromId, PropertiesOfEdge, GetTypesFromId, GatherTypes, TypesOfEdge, GetTypedPropertiesFromId, GetTypedPropertiesFromType, GetPropertiesFromType, GetTypesFromShortName and GetTypesFromLabel.
- DiagnosticChecks.AllowedProperties: the gathered list is stated only when every `@type` entry is read in the object's own context and the caches agree with it. An entry `Interface` or `CapabilityModel` switches to another context inside the parser, and the list is then whatever the cached answers give.

## Findings

| source | as written | input that shows it | evidently intended | confidence | as-written member | corrected member |
|---|---|---|---|---|---|---|
| src/DigitalTwin/DigitalTwinApi/DigitalTwinConnectionStringBuilder.ts:15 | the host-name pattern `[a-zA-Z0-9_\-\.]+$` has no leading `^`, so only the last character is checked (the same pattern is at src/pnp/pnp-api/PnPConnectionStringBuilder.ts:15 and modelRepositoryConnection.ts:53) | host name "bad host!x" passes | `^[a-zA-Z0-9_\-\.]+$`: every character is a host character | high; not executed | ConnectionString.HostNameAsWrittenAcceptsAnything | ConnectionStringBuilder.ConnectionStringBuilder.Validate |
| src/DigitalTwin/DigitalTwinDiagnostic.ts:465-473 | the loop walks `propertyNames` (distinct names) but reads the span of `properties[i]` at the same index, so after a repeated name the issue lands on the wrong property; `Object.keys` reordering misaligns them too, with no name repeated (`{"b": 1, "1": 2}` with neither name allowed, or a `__proto__` property), which the model, listing names in first-appearance order, does not capture | `{"a": 1, "a": 2, "b": 3}` with only `a` allowed: the issue for `b` is placed on the second `a` | each issue at the name of the property that bears it | high; not executed | DiagnosticChecks.UnexpectedAsWrittenMisplaced | DiagnosticChecks.UnexpectedIssuesSpec |
| src/DockerManager.ts:35-44 | outside Windows the create command sets `cid` and the copy command reads `$CID`; shell variable names are case-sensitive | any build on Linux or macOS: `docker cp $CID:/work/...` reads an unset variable | the copy command reads `$cid` | high; not executed | DockerManager.CopyCommandAsWrittenReadsOtherVariable | DockerManager.CopyReadsCreatedVariable |
| src/boardProvider.ts:48-55 | the board's id is computed from the option's value, so the board's own vendor and product ids are never compared | option vendorId "1234" matches a board with vendorId "0483" | compare the option id with the board's id as hexadecimal numbers | high; not executed | BoardProvider.KeyMatchesAsWrittenWrongBoard | BoardProvider.Find |
| DigitalTwinRepositoryViews/main.js:271-292 | in 'and' mode `isMatchTags` splices matched tags out of the item's own `tags` array, so the item changes each time it is filtered | an item tagged `t` with the 'and' selection [t] matches once and then no longer matches | compare against a copy of the tags, so filtering does not change the item | high; not executed | RepositoryViews.AsWrittenMatchesOnce | RepositoryViews.MatchAndExact |
| src/pnp/JSON.ts:924-941 | `getPositionFromCharacterIndex` moves past a line whose length is at most the index even when it is the last line | line lengths [2] (text "ab"), index 2: answers line 1, column 0, a line that does not exist | line 0, column 2; the last line is never left | medium; not executed | JsonParseResult.PositionAsWrittenOverruns | JsonParseResult.IndexOfPosition |
| src/Models/Azure.ts:68-73 | `sortedComponentIds.indexOf(dependency)` looks up the dependency object among id strings, so it is never found | components `a` and `b`, where `b` depends on `a`: `b` is never listed | look up `dependency.id`, as src/Models/AzureComponentConfig.ts does | high; not executed | AzureComponents.AsWrittenDropsDependent | AzureComponents.ListedBeforeDependents |
| src/DigitalTwin/DigitalTwinMetaModelGraph.ts:445 | the `implements` pattern ends in `\.interface\/.json`, which needs a '/' after "interface" | `http://x.interface.json` is refused and `http://x.interface/.json` is accepted | `^(http\|https):\/\/.+\.interface\.json$` | high; not executed | DiagnosticChecks.ImplementsPatternAsWrittenMisses | DiagnosticChecks.ImplementsPatternSpec |
