# TriviaQA to SQuAD conversion, modelled in Dafny

`utils/convert_to_squad_format.py` turns a TriviaQA question file into a
SQuAD-style file. It works in four steps:

1. It flattens every question into one *triple* (question, answer, evidence
   page) per evidence page.
2. It shuffles the triples.
3. For each triple it reads the evidence document and keeps its leading
   portion, up to a token budget. It then emits one record
   `{'paragraphs': [{'context', 'qas': [{'question', 'answers', 'id', 'qid'}]}]}`,
   with the answer's offset when the answer locator finds it.
4. On a training set of web documents it stops right after an answered
   triple once the output holds at least `sample_size` records, answered or
   not.

This project models that core and proves what it guarantees.

- `values.dfy` (`Values`) holds the JSON values the script handles.
  - Python's exceptions become a `Failure` result: `KeyError` for a missing
    key, `TypeError` for a value of the wrong kind.
  - `Lookup` is Python's `d[key]`: the stored value, or `KeyError(key)`
    when the key is missing.
  - `Chars` lists what `for x in s` visits in a string: its characters, as
    one-character strings.
- `pystr.dfy` (`PyStr`) defines the Python string methods the script uses,
  as Python defines them: `replace`, `split`, `join` and `strip` (with
  `str.isspace`'s whitespace set).
- `filenames.dfy` (`FileNames`) covers two things:
  - the file-name sanitisation of `get_text` (line 24);
  - the nearest-name search of `correct_file_name` (lines 10-18), as a
    method with its loop.
- `truncation.dfy` (`Truncation`) models `select_relevant_portion`.
  - The method keeps the triple loop, the `done` flag and the `break`s.
  - `Truncate` specifies it over the document's token stream: each
    paragraph's words followed by a line-break marker.
  - The word bound, the prefix property and the marker overrun are proved
    about that specification.
- `triples.dfy` (`Triples`) covers `add_triple_data` and `get_qad_triples`.
  - Both are methods with their loops, proved against recursive
    specifications.
  - The proved properties are count, order and contents.
- `conversion.dfy` (`Conversion`) covers `get_text` and the record loop of
  `convert_to_squad_format`.
  - The loop appends, mutates the last record, and uses `continue` and
    `break`.
  - Its specification `RecordLoop` runs over each triple's outcome.
  - The proved properties are one record per processed triple, the answer
    list, and the early stop.

The collaborators the script calls but does not define are parameters:

- `Conversion.Tools` holds the two tokenizers, the file reader, the answer
  locator and the id builder.
- The edit distance is the `distance` parameter of
  `FileNames.NearestFileName`.
- The shuffle is the `shuffle` parameter of `Conversion.Convert` and
  `Conversion.ConvertToSquadFormat`.

Three behaviours of the code are easy to misread; the model follows the
code:

- **Unanswered training triples.** On a training set, a triple whose answer
  is not found is *kept*, with an empty answer list. The record is appended
  (line 89) before the answer lookup, and the `continue` at line 97 only
  skips the cut-off test. `Conversion.UnansweredKept` proves this for any
  position in any list of triples, from `Conversion.RecordsFollowTriples`,
  `Conversion.EarlyStop` and `Conversion.ProcessAnswers`.
- **Early stop.** The loop stops only right after a triple whose answer was
  found (lines 95-102), not as soon as `sample_size` records exist.
  `Conversion.EarlyStop` states this.
- **Word budget.** The budget limits words, not the length of `selected`.
  The line-break markers count toward the length but are never checked, so
  the length can exceed the budget. `Truncation.MarkersOverrunBudget` shows
  an instance.

## Model

| member | source | states |
|---|---|---|
| PyStr.ReplaceAppend | utils/convert_to_squad_format.py:24 | `str.replace` of one character works piecewise: replacing in `a + b` is replacing in `a`, then in `b` |
| PyStr.ReplaceAbsent | utils/convert_to_squad_format.py:24 | replacing a character that does not occur leaves the string unchanged |
| PyStr.SplitPieces | utils/convert_to_squad_format.py:33 | `text.split('\n')` gives one more piece than there are separators, and no piece contains the separator |
| PyStr.JoinSplit | utils/convert_to_squad_format.py:33 | joining the pieces of a split with the separator gives the text back |
| PyStr.StripLeadingShape | utils/convert_to_squad_format.py:50 | the left strip removes exactly the leading whitespace, and what remains does not start with whitespace |
| PyStr.StripTrailingShape | utils/convert_to_squad_format.py:50 | the right strip removes exactly the trailing whitespace, and what remains does not end with whitespace |
| PyStr.StripShape | utils/convert_to_squad_format.py:50 | `strip()` returns a middle slice of its argument, with only whitespace cut from each end |
| PyStr.StripEnds | utils/convert_to_squad_format.py:50 | the result of `strip()`, when not empty, neither starts nor ends with whitespace |
| FileNames.SanitizeIsPerCharacter | utils/convert_to_squad_format.py:24 | the chain of three `replace` calls acts on each character alone: `:` and `*` become `_`, `?` disappears, all else is kept |
| FileNames.SanitizeClean | utils/convert_to_squad_format.py:24 | the sanitised name contains no `:`, `?` or `*` |
| FileNames.SanitizeKeeps | utils/convert_to_squad_format.py:24 | every character other than `?` is kept in order (with `:` and `*` as `_`), and the length drops by exactly the number of `?` |
| FileNames.SanitizeIdempotent | utils/convert_to_squad_format.py:24 | sanitising twice equals sanitising once |
| FileNames.SanitizeNotInjective | utils/convert_to_squad_format.py:24 | two different names (`a:b`, `a*b`) sanitise to the same name |
| FileNames.NearestFileName | utils/convert_to_squad_format.py:12-18 | no result exactly when there are no candidates; otherwise a candidate whose distance is at most every candidate's, and with strict `<` the earliest such |
| Truncation.TruncateShape | utils/convert_to_squad_format.py:36-49 | the selection is a prefix of the token stream, cut right after a word that brought the length to the budget with no earlier stop, or the whole stream when the budget is never reached |
| Truncation.TruncateUnique | utils/convert_to_squad_format.py:36-49 | conversely, any prefix meeting that description is the selection |
| Truncation.TruncateWordBound | utils/convert_to_squad_format.py:38-44 | the selection holds at most `max(max_num_tokens, 1)` words |
| Truncation.MarkersOverrunBudget | utils/convert_to_squad_format.py:42-49 | the document `"\n\na"` (two empty paragraphs, then the word `a`), with a budget of one token and tokenizers that give nothing for `""` and `a` for `"a"`, selects three items, only one a word: markers overrun the budget |
| Truncation.TruncateWordsPrefix | utils/convert_to_squad_format.py:33-49 | the selected words are a prefix of all the document's words |
| Truncation.WholeDocumentEndsWithBreak | utils/convert_to_squad_format.py:36-49 | when the budget is never reached, the whole stream is selected and it ends with a line-break marker |
| Truncation.SelectRelevantPortion | utils/convert_to_squad_format.py:32-51 | the nested loops with `done` and `break` return the stripped space-join of exactly `Truncate` of the paragraphs' stream |
| Triples.TripleOfContents | utils/convert_to_squad_format.py:54-60 | a triple has exactly the page's keys plus `Source`, `QuestionId`, `Question` and `Answer`; page values win, and the rest come from the domain and the question |
| Triples.AddTripleContents | utils/convert_to_squad_format.py:54-60 | `add_triple_data` raises `KeyError` for the first missing question key, else `TypeError` for a page it cannot iterate and index; otherwise the triple has exactly the page's keys plus the four fixed ones, page values winning |
| Triples.EmptyPageTriple | utils/convert_to_squad_format.py:54-60 | an empty string or empty list as the page gives the triple with just `Source` and the question fields |
| Triples.AddTripleData | utils/convert_to_squad_format.py:54-60 | the method filling the dict key by key returns exactly `AddTriple`: a dict page adds its fields, an empty string or list adds none, any other page raises `TypeError` |
| Triples.CopyFields | utils/convert_to_squad_format.py:58-59 | the loop `qad[key] = page[key]` leaves every page key with the page's value, every other key as it was, and adds no other key |
| Triples.AppendPageTriples | utils/convert_to_squad_format.py:67-69 | the innermost loop appends the triples of one page list in order, or raises the first failure; a missing key gives no pages, a string its characters, a dict its keys (see `DictPagesAnyOrder`) |
| Triples.DictPagesAnyOrder | utils/convert_to_squad_format.py:67-69 | for a dict as the page list, every order of its keys gives the same triples or the same error |
| Triples.GetQadTriples | utils/convert_to_squad_format.py:63-70 | the nested loops return exactly `Flatten` of the data: `KeyError` for a missing `Data`; a list is iterated by items, a string by characters, an empty dict as nothing; a non-dict question or a bad page raises |
| Triples.PagesTriplesShape | utils/convert_to_squad_format.py:67-69 | one triple per page, each the triple of its page, in list order |
| Triples.DatumTriplesShape | utils/convert_to_squad_format.py:65-69 | a question gives one triple per entity page, then one per search result, each list in order; a missing list gives none |
| Triples.DataTriplesCount | utils/convert_to_squad_format.py:63-70 | the number of triples is the sum over questions of entity pages plus search results |
| Triples.PlacedAtCount | utils/convert_to_squad_format.py:63-70 | question `i`'s triples succeed and sit in the output from the count of the earlier questions' pages on |
| Triples.DataTriplesOrder | utils/convert_to_squad_format.py:63-70 | question `i`'s triples start at the count of the earlier questions' pages: entity pages in order, then search results in order |
| Triples.FlattenShape | utils/convert_to_squad_format.py:63-70 | a successful flatten means `Data` could be iterated, and gives exactly one triple per page of its questions |
| Conversion.GetText | utils/convert_to_squad_format.py:23-29 | raises when `Filename` is missing or not a string; otherwise only `Filename` changes, to its sanitised form, and the text is the file of that name in the source's directory |
| Conversion.GetTextFileName | utils/convert_to_squad_format.py:24 | the name a document is read under is clean, is a fixed point of the sanitisation, and is shorter by the number of `?` |
| Conversion.ProcessRecord | utils/convert_to_squad_format.py:82-99 | a processed triple's record has the excerpt of its document as context, the question, an id from the question id and the sanitised name, and the located answer when found |
| Conversion.ProcessAnswers | utils/convert_to_squad_format.py:88-99 | a record's answer list has at most one entry; it is empty exactly when the locator returned -1, and otherwise carries the locator's offset |
| Conversion.StopAfter | utils/convert_to_squad_format.py:95-102 | the loop continues or stops exactly per the stop condition; the `Split`/`Domain` lookups raise only when the code reaches them |
| Conversion.LoopBounds | utils/convert_to_squad_format.py:80-102 | the loop only appends, at most one record per remaining triple, and ends early only right after a triple meeting the stop condition |
| Conversion.LoopRecordAt | utils/convert_to_squad_format.py:80-102 | record `k` is the record of the triple at the same position, and that triple did not meet the stop condition unless its record is the last |
| Conversion.RecordsFollowTriples | utils/convert_to_squad_format.py:81-99 | the records are those of a prefix of the shuffled triples, in order, one per processed triple, answered or not |
| Conversion.EarlyStop | utils/convert_to_squad_format.py:95-102 | no triple before the last record meets the stop condition; stopping before the end means the last one did; not a train/Web set means every triple gives a record |
| Conversion.UnansweredKept | utils/convert_to_squad_format.py:80-102 | a triple whose answer is not found, training set or not, still gives its record, with an empty answer list, and the loop never stops right after it |
| Conversion.ConvertShape | utils/convert_to_squad_format.py:73-104 | the output has exactly keys `data` and `version`, with the input's `Version`; with a reordering shuffle, at most one record per evidence page, and exactly one per page unless the set is train/Web |
| Conversion.AppendRecord | utils/convert_to_squad_format.py:82-99 | appending the record, setting `id`/`qid` on it, and adding the found answer to it leave `data` extended by exactly the triple's record, or raise as the lookups do |
| Conversion.ConvertRecords | utils/convert_to_squad_format.py:80-102 | the loop with `continue` and `break` produces exactly `RecordLoop` over the triples' outcomes |
| Conversion.ConvertToSquadFormat | utils/convert_to_squad_format.py:73-104 | the whole conversion returns exactly `Convert`: flatten, shuffle, record loop, then pair the records with `Version` |

## Left out

- File I/O is not modelled. This covers `read_triviaqa_data`,
  `os.path.exists`, `get_file_contents`, `write_json_to_file` and the
  directory listing. The document read, including the repair of a missing
  file by `correct_file_name`, is the `read` parameter.
- The rename at line 20 and the `print` at line 19 of `correct_file_name`
  are file-system effects, so they are left out. The model keeps only the
  search.
- FileNames.NearestFileName: with no candidates, the source goes on to fail
  inside `os.path.join`. The model returns `None` there.
- The sentence tokenizer and `nltk.word_tokenize` are foreign library calls.
  They are the `sentTok` and `wordTok` parameters.
- `answer_index_in_document` and `get_question_doc_string` are not part of
  this model. They are the `locate` and `docId` parameters.
- `edit_distance` is not defined in the file. It is the `distance`
  parameter.
- `random.seed` and `random.shuffle` are the `shuffle` parameter.
  Conversion.ConvertShape assumes only that it reorders, i.e. keeps the
  multiset.
- `tqdm`, `print` and the argument parsing are progress output and
  command-line plumbing. The settings the core reads are `Args`.
- Conversion.ConvertShape counts records only. It does not relate each
  record to a particular page through the shuffle. RecordsFollowTriples does
  that over the shuffled list.
- Triples.AddTripleData: a non-empty list as the page raises `TypeError` in
  the model. Python indexes the list by its own elements, so a list of
  in-range integers such as `[0]` succeeds, with integer keys. Dictionary
  keys are strings here, so such a triple cannot be represented. A list
  holding an out-of-range integer, such as `[5]`, raises `IndexError` in
  Python.
- Triples.AddTripleContents: states the same page semantics as
  Triples.AddTripleData, so the same `[0]` gap applies to it.
- JSON floating-point numbers are not represented, since the script never
  inspects numbers.
- Python raises several kinds of exception on a wrong input shape:
  `TypeError`, `AttributeError` (e.g. `.get` on a non-dict question) and
  `IndexError` (a list page such as `[5]`). The model collapses them into
  `TypeError`, or `KeyError` for a missing key.
- Strings are sequences of characters. Whitespace is `str.isspace`'s set,
  and there is no encoding step.
- Triples are values, not shared dictionaries. `get_text` writes the
  sanitised `Filename` back into the triple in place. Conversion.GetText
  returns the updated triple, and the loop uses it. The aliasing itself
  (the shuffled list seeing the change) is not modelled.
- The record whose `qa` dict the source mutates after appending is modelled
  by value. Conversion.AppendRecord replaces the last record after each
  change, which gives the same list.
