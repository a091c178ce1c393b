# Quizlet generation — a Dafny model of the flashcard core

The quizlet-generation tool reads keywords or algorithm-problem descriptions
from a Google Sheets column. It asks a Gemini model for flashcards, in batches,
and falls back to one request per item when a batch fails. This project
models the pure core of that tool and proves what its outputs look like:

- `GeminiHandler` (services/gemini_handler.py):
  - the two batch workflows, `generate_definitions` and the two-phase
    `generate_algorithm_problems`, including `_generate_keywords_batch`;
  - their per-item fallbacks;
  - the parsing of `Keyword:` / `Definition:` replies;
  - the removal of Markdown code fences from JSON replies;
  - the quote stripping of generated keywords.
- `PromptTemplates` (config/prompts.py): the template registry with
  `get_prompt`, `add_custom_template` and `get_available_types`, and every
  prompt builder.
- `SheetsHandler` (services/sheets_handler.py): spreadsheet-ID
  extraction, column letters, sheet selection, column resolution and cell
  filtering of `read_sheet_column`.
- `InputValidator` (utils/validators.py): column names, prompt types,
  spreadsheet links and IDs, and the empty-path branch of the credentials
  check.

## How the outside world enters the model

- **Model replies.** A `Calls.Tape` (`nat -> Result<string, string>`) gives
  the reply to the n-th call, or the message of the exception that call
  raised. A run records the prompts it sent (`Calls.Run.log`), so the number
  sent so far is the index of the next call. Statements such as "one call
  per keyword" are therefore statements about the log.
- **JSON decoding.** `json.loads` of a cleaned reply is a `Calls.Decoder`.
  It yields the elements of a JSON array, each an object of string fields
  (`Calls.Record.Object`) or some other value (`NonObject`). It yields
  `None` when the text does not decode.
- **Prompt texts.** The workflows take their prompt texts as a
  `Calls.DefinitionBuilders` value (the definitions workflow) or a
  `Calls.ProblemBuilders` value (the algorithm workflow), so their lemmas
  hold for any prompt texts. `HandlerPrompts.HandlerDefinitionBuilders(registry)`
  and `HandlerPrompts.HandlerProblemBuilders()` are the handler's own
  instances: its `PromptTemplates` methods over the handler's template
  registry, plus the second-phase batch prompt the handler writes itself. `Prompts.BuiltinTypes` states which prompt types its
  single-item builder accepts.
- **Spreadsheets.** `Sheets.SheetsService` stands for the Sheets API: the
  sheet titles of a spreadsheet, and the rows of a range.
- **Link domains.** The domain a link points at (`urlparse(url).netloc`)
  is an input of the link validators.

Python's `str.strip()` is modelled as trimming ASCII whitespace
(`Text.Whitespace`). `str.upper()` is modelled on ASCII letters.

## Model

| member | source | states |
|---|---|---|
| Prompts.GetPrompt | config/prompts.py:17-33 | a prompt is built exactly when the type is registered; an unknown type fails with "Unknown prompt type: <type>. Available types: " and the registered types as a Python list |
| Text.UnescapeRepr | config/prompts.py:28-31 | the body of a string's repr reads back as the string |
| Text.QuoteEscaped | config/prompts.py:28-31 | a repr's body never holds its quote character unescaped |
| Text.PlainRepr | config/prompts.py:28-31 | a string of printable ASCII without `'` or `\` is shown between single quotes unchanged |
| Text.ApostropheInList | config/prompts.py:28-31 | a name holding `'` is shown between double quotes, as in `["Bob's"]` |
| Prompts.BuiltinTypes | config/prompts.py:11-15 | a fresh registry builds a prompt exactly for the types `get_available_types` lists |
| Prompts.AvailableTypes | config/prompts.py:186-189 | the listed types are the fresh registry's keys, in order |
| Prompts.GeneralBinding | config/prompts.py:11-15 | "general" is bound to the general definition prompt |
| Prompts.AlgorithmBinding | config/prompts.py:11-15 | "algorithm" is bound to the algorithm study-guide prompt |
| Prompts.LeetcodeBinding | config/prompts.py:11-15 | "leetcode" is bound to the problem study-guide prompt |
| Prompts.AddCustomTemplate | config/prompts.py:191-199 | registering a template keeps the registry free of duplicate keys and adds the name to the keys, appended only when it is new |
| Prompts.CustomTemplateLookup | config/prompts.py:191-199 | after registration the name builds that template's prompt, and every other type builds exactly what it built before |
| Prompts.GeneralShape | config/prompts.py:99-126 | the general prompt quotes the keyword and ends with the term line and the answer format |
| Prompts.AlgorithmShape | config/prompts.py:128-155 | the algorithm prompt quotes the keyword and ends with the concept line and the answer format |
| Prompts.LeetcodeShape | config/prompts.py:157-184 | the problem prompt quotes the keyword and ends with the problem line and the answer format |
| Prompts.WithDescriptionShape | config/prompts.py:35-76 | the described-problem prompt quotes both the keyword and the description |
| Prompts.KeywordGenerationShape | config/prompts.py:78-97 | the keyword prompt carries the quoted description after "Description: " |
| Prompts.BulletListLines | config/prompts.py:231 | the term list has one line per item, in order, each "- " followed by the item |
| Prompts.BatchDefinitionShape | config/prompts.py:201-257 | the batch prompt lists every keyword, in order, under "Terms to define:" |
| Prompts.BatchWordingDefault | config/prompts.py:212-229 | the batch prompt uses the default wording exactly for the types `get_available_types` does not list, which are those a fresh registry rejects |
| Prompts.CustomTypeDefaultWording | config/prompts.py:191-229 | a type added with `add_custom_template` to a fresh registry builds single-item prompts, yet the batch prompt gives it the default wording |
| Prompts.BatchKeywordShape | config/prompts.py:259-284 | the keyword batch prompt lists every description, in order, under "Problem Descriptions:" |
| HandlerPrompts.ProblemsBatchShape | services/gemini_handler.py:391-422 | the second-phase batch prompt carries every keyword and description block, in order |
| ResponseParsing.Classify | services/gemini_handler.py:204-209 | a stripped line is a keyword line when it starts with "Keyword:", otherwise a definition line when it starts with "Definition:" |
| ResponseParsing.ScanLinesSpec | services/gemini_handler.py:200-209 | the scan yields the last keyword line before the first definition line, and that line's text, or the whole reply when there is none |
| ResponseParsing.ParseNoMarkers | services/gemini_handler.py:188-227 | a reply with neither marker gives the fallback keyword and the whole reply |
| ResponseParsing.ParseWithoutMarkers | services/gemini_handler.py:200-221 | without "Keyword:" the keyword is the fallback; without "Definition:" the definition is the whole reply |
| ResponseParsing.ParseScannedLine | services/gemini_handler.py:204-212 | when the first definition line has text, the parse is the line scan's result, and the definition holds no line break |
| ResponseParsing.ParsePositional | services/gemini_handler.py:212-221 | when no line gives a definition and "Keyword:" comes first, the parse splits the reply at the first occurrences of the two markers |
| ResponseParsing.ParseDefinitionFirst | services/gemini_handler.py:212-221 | when "Definition:" occurs first, the positional rescue does not apply and the line scan's result stands |
| ResponseParsing.MarkersApart | services/gemini_handler.py:216-219 | comparing the positions after the markers is the same as comparing the markers' own positions |
| ResponseParsing.AnswerRoundTrip | services/gemini_handler.py:188-227 | a reply written in the requested two-line format parses back to its keyword and definition |
| ResponseParsing.UnfencedOnlyTrimmed | services/gemini_handler.py:299-308 | a reply without fences is only trimmed |
| ResponseParsing.JsonFenceRoundTrip | services/gemini_handler.py:299-308 | a payload fenced as json comes back trimmed |
| ResponseParsing.PlainFenceRoundTrip | services/gemini_handler.py:299-308 | a payload in a plain fence comes back trimmed |
| ResponseParsing.KeywordFromReply | services/gemini_handler.py:249-252 | the keyword neither starts nor ends with a quote, and is no longer than the reply |
| ResponseParsing.QuotedKeywordRoundTrip | services/gemini_handler.py:249-252 | a keyword padded with whitespace and wrapped in quotes comes back unchanged |
| Definitions.DefinitionsFallback | services/gemini_handler.py:80-89 | the fallback gives one row per keyword and appends to the calls already made one call per keyword whose prompt builds, so one call per keyword when every prompt builds |
| Definitions.FallbackRow | services/gemini_handler.py:80-89 | row `i` of a fallback is keyword `i`'s row, answered by the call after those of the buildable keywords before it |
| Definitions.FallbackRowFails | services/gemini_handler.py:80-89 | when prompts build and keyword `i`'s call fails, row `i` is that keyword's "Error generating definition: Gemini API error: " row |
| Definitions.FallbackRowAnswered | services/gemini_handler.py:80-89 | when prompts build and keyword `i`'s call answers, row `i` is the card parsed from the trimmed reply with that keyword as fallback |
| Definitions.UndecodedRowCount | services/gemini_handler.py:64-91 | when no batch reply decodes, the run gives exactly one row per keyword, whatever the individual calls answer |
| Definitions.RegistryServiceDown | services/gemini_handler.py:48-91 | with prompts from a template registry that knows the type and every call failing, the run gives one API error row per keyword after one batch call plus one call per keyword |
| Definitions.RegistryUnknownType | services/gemini_handler.py:80-89 | with prompts from a template registry that lacks the type, every fallback row carries the "Unknown prompt type: " error and no call is made |
| Definitions.HandlerServiceDown | services/gemini_handler.py:46-91 | for a fresh handler, whose registry holds the built-in templates, and a known prompt type, with every call failing each keyword gets the "Error generating definition: Gemini API error: " row, after one call per batch plus one per keyword |
| Definitions.HandlerUnknownType | services/gemini_handler.py:80-89 | for a fresh handler and a prompt type its built-in templates lack, every fallback row carries the "Unknown prompt type: " error and no call is made |
| Definitions.GenerateDefinitions | services/gemini_handler.py:61-62 | no keywords means no rows and no calls |
| Definitions.DefinitionsCallBounds | services/gemini_handler.py:64-91 | a run makes at least one call per batch and at most one more per keyword |
| Definitions.SingleFails | services/gemini_handler.py:159-186 | a failed call gives an error row for the keyword, starting "Error generating definition: Gemini API error: " |
| Definitions.SingleUnbuilt | services/gemini_handler.py:168-170 | a prompt that cannot be built gives an error row with the build error's message, and no call is made |
| Definitions.FallbackUnknownType | services/gemini_handler.py:80-89 | with an unknown prompt type, every fallback row is an "Unknown prompt type" error row and no call is made |
| Definitions.AllCallsFail | services/gemini_handler.py:48-91 | when every call fails, the run gives one error row per keyword, in order, after one batch call plus one call per keyword |
| Definitions.BatchAnswered | services/gemini_handler.py:310-314 | a batch whose reply decodes returns the decoded array verbatim, whatever its length, after one call |
| Definitions.AllBatched | services/gemini_handler.py:64-91 | when every batch decodes, the run makes exactly one call per batch, and its rows are the batches' arrays concatenated in order |
| Definitions.SingleDefinitionAnswer | services/gemini_handler.py:159-186 | a reply in the requested format gives the card with the reply's keyword and definition |
| AlgorithmProblems.KeywordsFallback | services/gemini_handler.py:367-376 | the per-description fallback maps every description of the batch, keeps the mapping free of duplicate keys, and makes one call each |
| AlgorithmProblems.FallbackValues | services/gemini_handler.py:367-376 | after the fallback a description of the batch maps to the keyword from the call of its last occurrence, and every other description keeps its value |
| AlgorithmProblems.InsertReturned | services/gemini_handler.py:361-365 | inserting the returned objects keeps the mapping free of duplicate keys, and completes exactly when every element is an object |
| AlgorithmProblems.InsertReturnedChanges | services/gemini_handler.py:361-365 | every entry the insertion adds or replaces is answered, with that keyword, by some returned object that has a non-empty description and keyword |
| AlgorithmProblems.InsertReturnedAnswered | services/gemini_handler.py:361-365 | conversely, a description answered by an object before the first non-object maps to the keyword of the last such object |
| AlgorithmProblems.InsertReturnedUnanswered | services/gemini_handler.py:361-365 | a description no object before the first non-object answers keeps its value |
| AlgorithmProblems.InsertStopsAtNonObject | services/gemini_handler.py:361-365 | insertion stops at the first non-object, keeping the entries inserted before it |
| AlgorithmProblems.InsertReturnedKeeps | services/gemini_handler.py:361-365 | insertion never removes a description |
| AlgorithmProblems.FallbackCovers | services/gemini_handler.py:367-376 | when a keyword batch fails, every description of the batch, and every description already mapped, ends up mapped |
| AlgorithmProblems.KeywordMapping | services/gemini_handler.py:319-378 | the description-to-keyword mapping never holds a description twice |
| AlgorithmProblems.KeywordMappingUndecoded | services/gemini_handler.py:319-378 | when no batch reply decodes, a description maps exactly when it was given, to the keyword from the individual call of its last occurrence |
| AlgorithmProblems.KeywordMappingAllFail | services/gemini_handler.py:319-378 | when every call fails, each distinct description maps to itself, in first-seen order, after one batch call plus one call per description |
| AlgorithmProblems.SingleKeywordQuoted | services/gemini_handler.py:229-256 | a quoted keyword reply yields the bare keyword after one call |
| AlgorithmProblems.ProblemsFallback | services/gemini_handler.py:136-155 | the second-phase fallback gives one row per pair and makes one call each |
| AlgorithmProblems.ProblemsFallbackRows | services/gemini_handler.py:136-155 | the second-phase fallback gives, in order, one row per pair, made from the outcome of that pair's own call |
| AlgorithmProblems.ProblemsFallbackRow | services/gemini_handler.py:136-155 | row `i` of the second-phase fallback comes from call `i` after those already made and carries pair `i`'s keyword, whatever the other calls return |
| AlgorithmProblems.ProblemsRowFails | services/gemini_handler.py:151-155 | a pair whose call fails gets its own keyword and "Error generating content: " followed by the call's message |
| AlgorithmProblems.ProblemsRowAnswered | services/gemini_handler.py:139-150 | a pair whose call is answered gets the keyword and definition parsed from the stripped reply, with the pair's keyword as the fallback keyword |
| AlgorithmProblems.SingleProblemAnswer | services/gemini_handler.py:136-150 | a reply in the requested format gives the card with the reply's keyword and definition |
| AlgorithmProblems.GenerateAlgorithmProblems | services/gemini_handler.py:105-106 | no descriptions means no rows and no calls |
| AlgorithmProblems.AllCallsFail | services/gemini_handler.py:93-157 | when every call fails, the run gives one "Error generating content: " row per distinct description, in first-seen order, with the exact call count of both phases |
| AlgorithmProblems.EmptyAnswers | services/gemini_handler.py:319-378 | when every keyword batch answers an empty array, no description is kept, no row is produced, and only the keyword batches are called |
| Sheets.ColumnLetter | services/sheets_handler.py:216-223 | the letters are empty exactly for negative indices, and are upper-case letters |
| Sheets.ColumnLetterLoop | services/sheets_handler.py:216-223 | the loop computes the column letters of the index |
| Sheets.LetterIndexRoundTrip | services/sheets_handler.py:216-223 | reading the letters back as a column number gives the index |
| Sheets.IndexLetterRoundTrip | services/sheets_handler.py:216-223 | every string of capital letters is the letters of exactly one column |
| Sheets.ColumnLetterInjective | services/sheets_handler.py:216-223 | distinct columns get distinct letters |
| Sheets.ExtractSpreadsheetId | services/sheets_handler.py:197-214 | a non-link is returned as is; a link fails exactly when it lacks "/spreadsheets/d/", with the source's message |
| Sheets.ExtractFromUrl | services/sheets_handler.py:202-210 | the ID starts right after the first "/spreadsheets/d/" and holds no "/"; it ends at the first later "/" when there is one, and otherwise at the first "#" or the end, holding no "#" |
| Sheets.HashBeforeSlash | services/sheets_handler.py:204-208 | a "#" before a later "/" stays in the ID: `https://x/spreadsheets/d/A#B/C` gives `A#B` |
| Sheets.UrlIdRoundTrip | services/sheets_handler.py:197-214 | an ID placed in a link after the marker is extracted unchanged |
| Sheets.SelectSheet | services/sheets_handler.py:93-105 | no sheets is an error; no name selects the first sheet; a name selects its first sheet exactly when present, else fails listing the titles |
| Sheets.ResolveColumn | services/sheets_handler.py:117-124 | a header name resolves to the letters of its first position; anything else is taken as letters and upper-cased |
| Sheets.CellsClean | services/sheets_handler.py:136-142 | every value kept is non-empty, trimmed, and the first cell of some row |
| Sheets.ColumnValues | services/sheets_handler.py:136-142 | the loop collects the trimmed non-empty first cells, skipping the header row when asked |
| Sheets.ReadSheetColumn | services/sheets_handler.py:84-149 | every error is reported under "Unexpected error reading sheet: "; a read succeeds exactly when the ID extracts and the sheet is found |
| Sheets.ReadValuesClean | services/sheets_handler.py:136-142 | every value a read returns is non-empty and trimmed |
| Validators.ValidateColumnName | utils/validators.py:146-152 | a name is accepted exactly when it has a non-whitespace character, with the two messages for empty and blank names |
| Validators.BlankColumnNames | utils/validators.py:149-150 | a name of whitespace only is refused |
| Validators.ValidatePromptType | utils/validators.py:124-130 | a type is accepted exactly when it is offered, and otherwise the message names it and the offered types joined by ", " |
| Validators.PromptTypeAgreesWithRegistry | utils/validators.py:124-130 | against the built-in types, the validator accepts exactly the types the registry can build |
| Validators.ValidateSheetsLink | utils/validators.py:66-73 | a link is accepted exactly when its domain is a Sheets domain and it contains "/spreadsheets/", with the source's messages |
| Validators.ValidateSheetsUrlAsWritten | utils/validators.py:58-73 | as written, a bare ID passes when the regular expression matches, which also admits one trailing newline |
| Validators.TrailingNewlineAccepted | utils/validators.py:59-63 | "abc\n" is accepted as an ID although it is not one, and it is then used with the newline |
| Validators.ValidateSheetsUrl | utils/validators.py:58-73 | corrected: a bare ID passes exactly when it is non-empty and made of letters, digits, "_" and "-" |
| Validators.CorrectedIdCheck | utils/validators.py:59-63 | the corrected check accepts no more than the regular expression, and they differ only on texts ending in a newline |
| Validators.AcceptedIdUnchanged | utils/validators.py:59-63 | an accepted ID is used unchanged and holds no "/" or "#" |
| Validators.AcceptedLinkId | utils/validators.py:66-73 | an accepted link with "/spreadsheets/d/" yields an ID without "/" |
| Validators.ValidateCredentialsFile | utils/validators.py:168-169 | no path, or an empty path, is accepted without any file check |

## Left out

- Network calls, authentication, the API key and environment, printing and
  progress messages, `test_api_connection`, and the output-token and
  temperature settings. Calls are the `Tape`; nothing else affects a result.
- The handler constructor and the batch size default. The batch size is a
  parameter, required to be at least 1. `batch_size or ...` on
  services/gemini_handler.py:43 turns an argument of 0 into the default, so a
  size of 0 comes only from `GEMINI_BATCH_SIZE`; a negative size can come
  from either, since a negative argument is kept. With a size of 0 and a
  non-empty input, the floor division that counts batches raises
  `ZeroDivisionError` (services/gemini_handler.py:65, :122, :330). With a
  negative size, `range` is empty, so each orchestrator returns an empty
  result and makes no call. The model covers neither case.
- The exception text of a JSON decode failure and of a failed keyword
  call. Both are caught and replaced by the fallback, so neither reaches a
  result.
- A JSON reply whose top level is not an array is decoded as `None`. That
  sends the batch to its fallback, which is what the source does only for
  the top-level values it cannot take:
  - A number, `true`, `false` or `null` raises in `len` on
    services/gemini_handler.py:311 and :445, or when the loop on :361 iterates it. It falls
    back, as modelled.
  - A JSON string does not fall back in the definition workflows. `len`
    works on strings (:311, :445), and `extend` (:76, :132) appends each of
    its characters as a row. In the keyword phase, a non-empty string fails
    at `.get` (:362) and falls back. An empty string adds nothing and does
    not fall back.
  - A JSON object is iterated by its keys. `extend` appends the key strings
    as rows, and the keyword loop fails on the first key. An empty object
    gives the same result as an empty array: no rows and no fallback.
- Field values that are not strings. `Calls.Field` models `get(key, '')` on
  string fields only, and `str(row[0])` on sheet cells is taken as already a
  string.
- Unicode whitespace for `strip`, and non-ASCII letters for `upper`.
- Prompts.GetPrompt: the list of types in the error message follows Python's
  `repr` for ASCII text only. `Text.StrRepr` writes a non-ASCII character as
  itself, whereas Python escapes the non-printable ones (`\x80`, `\u2028`).
- Sheets.SelectSheet: the list of titles in the error message uses the same
  `Text.QuotedList`, so a title with a non-printable non-ASCII character is
  shown unescaped.
- `HttpError` is reported by the source with its own prefix; the model has
  no HTTP errors, so every read error carries the general prefix.
- `get_sheet_info`, `authenticate` and the Sheets API requests themselves.
  Their answers come from the `SheetsService` parameter.
- `validate_csv_file`, `validate_output_path` and the file-system branch of
  `validate_credentials_file`. They only ask the file system.
- Validators.ValidateCredentialsFile: for a non-empty path the file checks
  are a parameter, so the model states only that their verdict decides.
- Validators.ValidateSheetsLink: the domain is an input rather than parsed
  from the link.
- Prompts.GetAvailableTypes: a constant list. Its contract is stated
  through `Prompts.AvailableTypes` and `Prompts.BuiltinTypes`.

## Findings

| source | as written | input that shows it | evidently intended | confidence | as-written member | corrected member |
|---|---|---|---|---|---|---|
| utils/validators.py:61 | `re.match(r'^[a-zA-Z0-9_-]+$', url)`; Python's `$` also matches before a final newline | `"abc\n"` is accepted as a spreadsheet ID and then used with the newline | the whole text is letters, digits, `_` and `-` (the comment on line 60) | medium, not executed | Validators.TrailingNewlineAccepted | Validators.ValidateSheetsUrl |
