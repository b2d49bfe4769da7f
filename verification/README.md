# professor-ia exam pipeline, in Dafny

professor-ia asks a hosted language model for a multiple-choice exam
and writes it out as a Word document. This project models the part of
that pipeline between the model's reply and the finished document:

- **Reply cleanup** (`LLMService._validar_json`) turns the model's raw
  text into the text handed to `json.loads`. It strips whitespace, drops
  a code-fence line at either end and cuts after the last `}`.
  See `cleanup.dfy`. Three consequences of the code are stated there:
  - Cleanup can fail. A reply that opens with a fence but has no newline
    makes `split('\n', 1)[1]` raise IndexError (the failure clause of
    `Cleanup.Clean`).
  - Prose before the object is kept, because the cut at the last `}` runs
    only on text that already opens with `{` (`Cleanup.LeadingProseIsKept`).
    `json.loads` then rejects such a reply.
  - An object that is never closed cleans to the empty string
    (`Cleanup.UnclosedObjectCleansToEmpty`).
- **Exam validation** (`LLMService.gerar_prova`) checks the six required
  exam fields. It then checks each question's four fields, its options
  `a`–`d` and its answer letter, and reports the first violation.
  `Validate` in `validation.dfy` is the check as a function. It takes
  the reading of the options check of line 87 as a parameter:
  `AsWritten` is Python's `in` as the code runs it, and `AsIntended` is
  the dict-only check the renderer needs (see "## Findings").
  `CheckExam` and `CheckQuestion` are the source's loops, proved equal
  to `Validate` as written.
- **Outcome of `gerar_prova`** (`llm_service.dfy`): `None` for a
  provider other than groq, the failure raised at each stage, and the
  error text `Erro ao gerar prova: …`.
- **File name** (`criar_nome_arquivo` in app.py): `file_names.dfy`.
- **Document layout** (`WordGenerator`): `word_layout.dfy`. `Document`
  and `WordGenerator` are classes whose methods append to a paragraph
  list. `GenerateProva` is proved to append exactly `Layout(prova)`.
  The lemmas give the layout's size, its single page break, the position
  of each question and each answer-key line, and the facts that tie it to
  validation.

`json.dfy` holds the JSON values `json.loads` returns. It also models the
Python operations the exam code applies to them: `in` on a dict, a list
or a string, iteration, and dict lookup. `wrappers.dfy` holds `Option`
and `Result`.

## Model

| member | source | states |
|---|---|---|
| Json.PyIn | llm_service.py:76 | Python `k in v`: `None` (a TypeError) exactly when `v` is not a dict, list or string; key membership on a dict; element equality on a list; a substring test on a string |
| Json.Iter | llm_service.py:80 | What `for x in v` visits: a list's items, a dict's keys in order, a string's characters; `None` when `v` is not iterable |
| Json.Get | llm_service.py:87 | `v[k]` on a dict holding `k` returns a value stored under `k` |
| Cleanup.Strip | llm_service.py:22 | `str.strip()`: the result is the slice starting after the leading whitespace; what it drops at the end is whitespace; it has no whitespace at either end |
| Cleanup.StripUnchanged | llm_service.py:31 | Stripping a text that has no whitespace at either end gives it back unchanged |
| Cleanup.Find | llm_service.py:26 | The first newline, where `split('\n', 1)` cuts: `None` exactly when the character is absent; otherwise the first position holding it |
| Cleanup.RFind | llm_service.py:28 | `rfind`: `None` (-1) exactly when the character is absent; otherwise the last position holding it |
| Cleanup.DropLeadingFence | llm_service.py:25-26 | Fails (IndexError) exactly when the text opens with a fence and has no newline. A text without a fence is kept. Otherwise the result is the text after the first newline |
| Cleanup.DropTrailingFence | llm_service.py:27-28 | The result is a prefix. The text is kept when it does not end with a fence or has no newline; otherwise it is cut at its last newline |
| Cleanup.TrimToObject | llm_service.py:32-33 | The result is a prefix. A text not opening with `{` is kept. With no `}` the result is empty. Otherwise it ends at the last `}` |
| Cleanup.Clean | llm_service.py:19-35 | Fails exactly when the stripped reply opens with a fence and has no newline. Otherwise the result is a contiguous part of the reply, no longer than it, with no whitespace at either end |
| Cleanup.CleanIsSlice | llm_service.py:19-35 | The four cleanup steps together leave a contiguous part of the reply |
| Cleanup.CleanFixedPoint | llm_service.py:19-35 | A cleaned text that opens with `{` cleans to itself again |
| Cleanup.DropOpeningFenceLine | llm_service.py:25-26 | An opening fence line is dropped whole, language tag and newline included |
| Cleanup.DropClosingFenceLine | llm_service.py:27-28 | A closing fence on its own line is dropped together with the newline before it |
| Cleanup.FencedBlockIsTransparent | llm_service.py:19-35 | A reply wrapped in a fenced block, with or without a language tag (one without a newline), cleans to what the bare text cleans to, provided the stripped bare text neither opens nor closes with a fence itself |
| Cleanup.LeadingProseIsKept | llm_service.py:30-33 | Prose before the object is not removed: a stripped reply with no fence that does not open with `{` comes back as is |
| Cleanup.UnclosedObjectCleansToEmpty | llm_service.py:32-33 | A reply opening with `{` and holding no `}` cleans to the empty string |
| Cleanup.CutDropsTail | llm_service.py:33 | An object followed by text holding no `}` is cut back to the object |
| Cleanup.FencedReplyWithRemarks | llm_service.py:19-35 | A fenced reply with a language tag and remarks after the closing fence still cleans to the object. The tag holds no newline; the object opens with `{` and ends with `}`; the remarks are non-empty, hold no `}`, and end in a character that is neither whitespace nor a backtick |
| Validation.TopFieldFailure | llm_service.py:76-77 | One required field: no failure exactly when `campo in prova` holds |
| Validation.TopFailure | llm_service.py:74-77 | No failure exactly when every remaining required field is `in` the exam |
| Validation.MissingTopFieldReported | llm_service.py:75-77 | The first missing required field, in list order, is the one reported |
| Validation.NumeroOrUnknown | llm_service.py:84 | `questao.get('numero', '?')`: the number when present, the `?` case otherwise |
| Validation.FieldsFailure | llm_service.py:81-84 | No failure exactly when the question holds every remaining field; a failure names the field and carries the question's number or `?` |
| Validation.MissingQuestionFieldReported | llm_service.py:82-84 | The first missing question field is the one reported; a missing `numero` is reported with `?` |
| Validation.OptionsCheckAsWritten | llm_service.py:87 | Line 87 with Python's `in`: on a dict it holds exactly when every letter `a`–`d` is a key, on a list when each is an element, on a string when each is a substring; on any other value it raises a TypeError (`None`) |
| Validation.OptionsVerdict | llm_service.py:87 | Either reading of line 87 gives, on a dict, exactly whether it holds all of `a`–`d`; the intended reading never raises |
| Validation.OptionsChecksAgreeOnDicts | llm_service.py:87 | On a dict, line 87 as written and the corrected options check agree |
| Validation.QuestionKeysPresent | llm_service.py:81-84 | The field loop passes exactly when the question is a dict with all four keys |
| Validation.QuestionFailure | llm_service.py:81-92 | One question raises nothing exactly when it is accepted under the given reading of line 87: all four keys, options that pass that reading, and an answer among `a`–`d`. A question that is not a dict always fails with a Python error |
| Validation.OptionsBeforeAnswer | llm_service.py:86-92 | With all four keys, the options are checked before the answer: options that raise in line 87 give a TypeError, missing options are reported next, an invalid answer last; both reports name the question's number |
| Validation.NonIterableOptionsRaise | llm_service.py:87 | Options that are a number, a boolean or `null` make line 87 raise a TypeError as written, where the intended check reports missing options |
| Validation.QuestionsFailure | llm_service.py:80-92 | No failure exactly when every remaining question is accepted under the given reading |
| Validation.FirstFailingQuestionReported | llm_service.py:80-92 | The exam's error is the first failing question's error |
| Validation.ChecksPassIffAccepted | llm_service.py:74-94 | Under either reading of line 87, the checks run in order all pass exactly when the exam meets the declarative acceptance condition for that reading |
| Validation.Validate | llm_service.py:73-94 | Success exactly when the exam is accepted under the given reading; the exam is then returned unmodified |
| Validation.EmptyQuestionListAccepted | llm_service.py:80-94 | An exam with all six fields and an empty question list is accepted |
| Validation.NonObjectRejected | llm_service.py:74-77 | A parsed value that is not a JSON object is always rejected |
| Validation.CheckExam | llm_service.py:74-94 | The loops over fields and questions return exactly what `Validate` returns with line 87 as written |
| Validation.IntendedIsStricter | llm_service.py:87 | Every exam the intended check accepts, the code as written accepts too |
| Validation.QuestionFailureAgree | llm_service.py:81-92 | For a question whose options are a dict, both readings report the same failure or none |
| Validation.ReadingsAgreeOnDictOptions | llm_service.py:74-94 | When every question's options are a dict, both readings give the same result, error included |
| Validation.CheckQuestion | llm_service.py:81-92 | The loops over one question's fields and letters, with Python's `in` for each letter, return exactly the question's first failure as written |
| LlmService.Generate | llm_service.py:37-97 | `None` exactly for a provider other than groq; a returned exam passes the checks as written; a failed call is reported as such. The full outcome is in `GenerateSucceeds` and `GenerateOutcomes` |
| LlmService.GenerateSucceeds | llm_service.py:46-94 | `gerar_prova` returns an exam exactly when the provider is groq, the call answered, cleanup and parsing succeeded and the exam passes the checks as written; the returned exam is the parsed one |
| LlmService.GenerateOutcomes | llm_service.py:46-97 | Each outcome, by deciding stage: `None` for another provider; then the call's error, the IndexError of cleanup, the invalid-JSON error, and the first validation error as written, a TypeError included |
| LlmService.Message | llm_service.py:96-97 | Every re-raised message starts with `Erro ao gerar prova: ` and the original message follows. A failed call's own text is kept verbatim, and invalid JSON gives the fixed `JSON inválido` text. Option and answer errors name the question's number. A missing question field names the question's number, or `?` when `numero` is the missing field |
| LlmService.MessageNamesField | llm_service.py:76-84 | A missing-field message, top-level or in a question, holds the field's name |
| FileNames.ReplaceSpaces | app.py:12 | `replace(" ", "_")`: same length, no space left, each space now `_`, every other character in place |
| FileNames.DeleteOrdinals | app.py:12 | `replace("º", "")`: no `º` left, length reduced by the number of `º`, no character added |
| FileNames.DeleteOrdinalsKeepsOthers | app.py:12 | Every character other than `º` is kept in order: the one at position `i` lands at `i` less the number of `º` before it |
| FileNames.Normalize | app.py:12 | The two replacements in order: neither a space nor a `º` remains, and the length drops by the number of `º` |
| FileNames.NormalizeAppend | app.py:12 | Normalizing works part by part: normalizing a concatenation concatenates the normalized parts |
| FileNames.FileName | app.py:8-12 | The name starts `Prova_` and ends `.docx`. It has no space and no `º`. Its length is the base name's, less its `º`s, plus 5 |
| FileNames.FileNameSegments | app.py:10-12 | The name is `Prova_` + discipline + `_` + series + `_` + timestamp + `.docx`, each part normalized |
| FileNames.SeriesSegment | config.py:30 | Each configured series `iº ano` appears in the name as `i_ano` |
| WordLayout.Document.constructor | word_generator.py:8 | A new document has no paragraphs |
| WordLayout.Document.AddParagraph | word_generator.py:34 | `add_paragraph` appends one paragraph and changes nothing else |
| WordLayout.Document.AddPageBreak | word_generator.py:59 | `add_page_break` appends a page break and changes nothing else |
| WordLayout.WordGenerator.constructor | word_generator.py:7-9 | A generator owns a new, empty document |
| WordLayout.WordGenerator.GenerateProva | word_generator.py:17-70 | Appends exactly `Layout(prova)` to the generator's document, after what was there, and returns that same document |
| WordLayout.WordGenerator.WriteQuestions | word_generator.py:45-56 | The first loop appends every question's block, in order |
| WordLayout.WordGenerator.WriteQuestion | word_generator.py:47-56 | One question appends its statement, then one option paragraph per `.items()` entry, in order |
| WordLayout.WordGenerator.WriteAnswerKey | word_generator.py:64-68 | The second loop appends one key line per question, in order |
| WordLayout.GenerateTwice | word_generator.py:17-70 | A generator reused for a second exam returns a document holding both exams, the first one first |
| WordLayout.Questions | word_generator.py:45 | Every question both loops visit can be rendered |
| WordLayout.Layout | word_generator.py:19-68 | What one call appends: its length, and the page break after the question blocks. Its content is stated by `LayoutSize`, `SinglePageBreak`, `AnswerKeyLines` and `AnswerKeyAtEnd` |
| WordLayout.LayoutSize | word_generator.py:17-70 | One call appends 5 + questions + options + 2 + questions paragraphs |
| WordLayout.SinglePageBreak | word_generator.py:57-62 | Exactly one page break, right after the last question's options; every other entry is a paragraph |
| WordLayout.AnswerKeyLines | word_generator.py:64-68 | Key line `i` is the line for question `i` |
| WordLayout.AnswerKeyAtEnd | word_generator.py:64-68 | The document ends with the key lines, question `i`'s line at position `i` among them |
| WordLayout.OptionParagraphsLines | word_generator.py:52-56 | Option paragraph `j` shows the question's `j`-th option entry |
| WordLayout.OptionRendered | word_generator.py:52-56 | Every option entry gets a paragraph |
| WordLayout.QuestionsBodyAppend | word_generator.py:45-56 | The questions part of two lists of questions is the two parts, one after the other |
| WordLayout.QuestionPlacement | word_generator.py:45-56 | Question `k`'s block sits between the blocks of the questions before and after it |
| WordLayout.AcceptedIsRenderable | word_generator.py:17-68 | An exam that passes the intended check meets everything `generate_prova` reads: every key it indexes is there, `questoes` is iterable, the options are dicts (for `.items()`) and the answers are strings (for `.upper()`). How python-docx treats a non-string run text is not part of this |
| WordLayout.ReturnedRenderableIffDictOptions | word_generator.py:17-68 | Of the exams `gerar_prova` returns as written, exactly those whose options are all dicts can be rendered |
| WordLayout.AcceptedOptionsShown | word_generator.py:52-56 | For a question that passes the intended check, options `a`, `b`, `c` and `d` each appear in its block |
| WordLayout.AcceptedKeyLetters | word_generator.py:68 | In a returned exam that renders, every key line upper-cases one of `a`–`d` |
| WordLayout.LetterListPassesOptionsCheck | llm_service.py:87 | Line 87 as written accepts the list `["a", "b", "c", "d"]` as the options. The renderer cannot take that list, and the intended check rejects it |
| WordLayout.LetterStringPassesOptionsCheck | llm_service.py:87 | Line 87 as written also accepts the string `"abcd"`, where `in` is a substring test; the renderer cannot take it and the intended check rejects it |
| WordLayout.LetterListExamReturned | llm_service.py:74-94 | An exam whose one question lists its options as `["a", "b", "c", "d"]` is returned by the code as written, cannot be rendered, and is rejected with missing options by the intended check |

## Left out

- `LLMService.__init__` is not modelled: it checks the environment for the API key and builds the network client.
- Prompt formatting (llm_service.py:39-44) is not modelled.
- The chat-completion call (llm_service.py:48-61) is not modelled. Its reply, or the text of the exception it raised, is a parameter of `Generate`.
- `json.loads` is the parameter `parse` of `LlmService.Generate`, with `None` for a JSONDecodeError.
- The diagnostic `print`s (llm_service.py:69-70) are not modelled.
- JSON numbers are integers only. Floats are not modelled.
- Objects with duplicate keys are not modelled; lookup returns the first match.
- A `Str` piece stands for Python's `str()` of a JSON value. That text is not spelled out.
- An `Upper` piece stands for Python's `str.upper()` of the answer. Its result is not spelled out.
- LlmService.Message: not defined for `TypeFailure`, the TypeError or AttributeError Python raises on a badly shaped exam, because that wording comes from the interpreter.
- The timestamp `datetime.now().strftime(...)` (app.py:10) is a parameter of `FileName`. Its format is not checked.
- The Streamlit interface (`main` in app.py) is not modelled, including its preview of the questions.
- Fonts, sizes, indentation widths and `_configure_document` are not modelled. Only alignment, indentation on or off, and bold are kept.
- `save_document` and `doc.save` are not modelled.
- WordLayout.WordGenerator.GenerateProva: requires `Renderable(prova)`, so the raise path of `generate_prova` is not modelled. The document is never cleared, so a reused generator keeps whatever a failed call appended. The source raises at these points:
  - A missing `disciplina`, `serie`, `professor` or `data` (word_generator.py:23-26) raises inside the header paragraph, after its first run.
  - A missing `titulo` (word_generator.py:31) raises after the header, with the title paragraph appended empty.
  - A missing or non-iterable `questoes` (word_generator.py:45) raises after the five opening paragraphs.
  - A question without `numero` (word_generator.py:48), or one that is not a dict, raises after the earlier question blocks, with the question's statement paragraph appended empty. A missing `enunciado` (word_generator.py:49) raises in that paragraph, after its number run.
  - Options that are missing or have no `.items()` (word_generator.py:52) raise after the question's statement paragraph.
  - A missing or non-string `resposta_correta` (word_generator.py:68) raises after the page break, the heading and the earlier key lines, in the question's key line after its number run.
  - On an exam `gerar_prova` returns as written, only the word_generator.py:52 case can occur. `ReturnedRenderableIffDictOptions` proves that such an exam renders exactly when all its options are dicts, and `LetterListExamReturned` exhibits one that does not.
- A paragraph is appended with its final runs, not empty and then filled run by run. The source adds runs only to the paragraph it just created, so the resulting document is the same.
- What python-docx does with a title, statement or option text that is not a string is not modelled. `Renderable` asks only for what `generate_prova` itself reads.

## Findings

| source | as written | input that shows it | evidently intended | confidence | as-written member | corrected member |
|---|---|---|---|---|---|---|
| llm_service.py:87 | `all(letra in questao['alternativas'] for letra in ['a','b','c','d'])` uses Python's `in`, which also holds for a list or a string of the letters | a question whose `alternativas` is `["a", "b", "c", "d"]` or `"abcd"` passes validation; `generate_prova` then raises AttributeError at `.items()` (word_generator.py:52) | the options are a dict with the keys `a`–`d`, as both renderers read them with `.items()` | medium, not executed | Validation.OptionsCheckAsWritten, WordLayout.LetterListPassesOptionsCheck, WordLayout.LetterStringPassesOptionsCheck, WordLayout.LetterListExamReturned | Validation.HasAllOptions, the `AsIntended` reading of Validation.Validate; Validation.IntendedIsStricter, Validation.ReadingsAgreeOnDictOptions, WordLayout.AcceptedIsRenderable |
