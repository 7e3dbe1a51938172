/** `get_text` and `convert_to_squad_format`: read each triple's document,
    keep its leading portion, look the answer up in it and emit one SQuAD
    record per triple, stopping early on large training sets of web
    documents. */
module Conversion {
  import opened Values
  import opened PyStr
  import opened FileNames
  import opened Truncation
  import opened Triples

  /** The two evidence directories: `args.web_dir` and `args.wikipedia_dir`. */
  datatype Dir = WebDir | WikipediaDir

  /** The collaborators the script calls but does not define:
      - `sentTok`: the punkt sentence tokenizer,
      - `wordTok`: `nltk.word_tokenize`,
      - `read`: the contents of a file of an evidence directory (after the
        file-name repair of `correct_file_name`, when the file is missing),
      - `locate`: `answer_index_in_document(answer, text)`, which gives the
        answer string found and its offset, or -1,
      - `docId`: `get_question_doc_string(qid, filename)`. */
  datatype Tools = Tools(
    sentTok: string -> seq<string>,
    wordTok: string -> seq<string>,
    read: (Dir, string) -> string,
    locate: (Json, string) -> (string, int),
    docId: (Json, string) -> string)

  /** The command-line settings the conversion reads. */
  datatype Args = Args(maxNumTokens: int, sampleSize: int)

  /** The directory `get_text` reads a document of the given source from. */
  function DirOf(domain: Json): Dir
  {
    if domain == JStr("SearchResults") then WebDir else WikipediaDir
  }

  /** `get_text(qad, domain)`: the triple with its `Filename` sanitised in
      place, and the contents of that file in the directory of `domain`. */
  function GetText(qad: Triple, domain: Json, tools: Tools): (r: Result<(Triple, string)>)
    ensures r.Failure? <==> "Filename" !in qad.fields || !qad.fields["Filename"].JStr?
    ensures "Filename" !in qad.fields ==> r == Failure(KeyError("Filename"))
    ensures r.Success? ==>
              var (updated, text) := r.value;
              && updated.fields.Keys == qad.fields.Keys
              && (forall key :: key in qad.fields && key != "Filename" ==> updated.fields[key] == qad.fields[key])
              && updated.fields["Filename"].JStr?
              && updated.fields["Filename"].s == Sanitize(qad.fields["Filename"].s)
              && text == tools.read(DirOf(domain), updated.fields["Filename"].s)
  {
    var name :- Lookup(qad.fields, "Filename");
    if !name.JStr? then Failure(TypeError)
    else
      var clean := Sanitize(name.s);
      Success((Triple(qad.fields["Filename" := JStr(clean)]), tools.read(DirOf(domain), clean)))
  }

  /** The file name a document is read under contains none of the
      characters `get_text` rewrites, and a second pass leaves it as is. */
  lemma GetTextFileName(qad: Triple, domain: Json, tools: Tools)
    requires GetText(qad, domain, tools).Success?
    ensures var name := GetText(qad, domain, tools).value.0.fields["Filename"].s;
            && ':' !in name && '?' !in name && '*' !in name
            && Sanitize(name) == name
            && |name| == |qad.fields["Filename"].s| - Count(qad.fields["Filename"].s, '?')
  {
    var name := qad.fields["Filename"].s;
    SanitizeClean(name);
    SanitizeIdempotent(name);
    SanitizeKeeps(name);
  }

  /** The entry `{'text': text, 'answer_start': start}` of a SQuAD answer list. */
  function AnswerEntry(text: string, start: int): Json
  {
    JObj(map["text" := JStr(text), "answer_start" := JNum(start)])
  }

  /** The SQuAD record `{'paragraphs': [{'context': context, 'qas': [qa]}]}`. */
  function Entry(context: string, qa: Dict): Json
  {
    JObj(map["paragraphs" := JArr([JObj(map["context" := JStr(context), "qas" := JArr([JObj(qa)])])])])
  }

  /** The question/answer dictionary of a finished record. */
  function QaOf(question: Json, answers: seq<Json>, id: string, qid: Json): Dict
  {
    map["question" := question, "answers" := JArr(answers), "id" := JStr(id), "qid" := qid]
  }

  /** The dictionary `{'question': question, 'answers': []}` once `id` and
      `qid` are set and `answers` has received its entries. */
  lemma QaFilled(question: Json, id: string, qid: Json, answers: seq<Json>)
    ensures var qa := map["question" := question, "answers" := JArr([])]["id" := JStr(id)]["qid" := qid];
            && qa == QaOf(question, [], id, qid)
            && qa["answers" := JArr(qa["answers"].items + answers)] == QaOf(question, answers, id, qid)
  {
    var qa := map["question" := question, "answers" := JArr([])]["id" := JStr(id)]["qid" := qid];
    assert qa["answers"].items + answers == answers;
    assert qa.Keys == QaOf(question, [], id, qid).Keys;
  }

  /** The record a triple produces and the offset the locator returned. */
  datatype Processed = Processed(record: Json, index: int)

  /** What one pass of the record loop computes for a triple, up to the
      answer lookup: the lookups raise KeyError in the order the loop
      makes them (`QuestionId`, `Source`, `Filename`, `Question`,
      `Answer`). */
  function Process(qad: Triple, maxNumTokens: int, tools: Tools): Result<Processed>
  {
    var qid :- Lookup(qad.fields, "QuestionId");
    var source :- Lookup(qad.fields, "Source");
    var got :- GetText(qad, source, tools);
    var context := Excerpt(got.1, maxNumTokens, tools.sentTok, tools.wordTok);
    var question :- Lookup(got.0.fields, "Question");
    var id := tools.docId(qid, got.0.fields["Filename"].s);
    var answer :- Lookup(got.0.fields, "Answer");
    var (text, index) := tools.locate(answer, context);
    var answers := if index == -1 then [] else [AnswerEntry(text, index)];
    Success(Processed(Entry(context, QaOf(question, answers, id, qid)), index))
  }

  /** `Process` when every lookup succeeds. */
  lemma ProcessSuccess(qad: Triple, maxNumTokens: int, tools: Tools, got: (Triple, string), context: string,
                       text: string, index: int)
    requires "QuestionId" in qad.fields && "Source" in qad.fields
    requires GetText(qad, qad.fields["Source"], tools) == Success(got)
    requires context == Excerpt(got.1, maxNumTokens, tools.sentTok, tools.wordTok)
    requires "Question" in got.0.fields && "Answer" in got.0.fields
    requires tools.locate(got.0.fields["Answer"], context) == (text, index)
    ensures Process(qad, maxNumTokens, tools)
            == Success(Processed(Entry(context, QaOf(got.0.fields["Question"], if index == -1 then [] else [AnswerEntry(text, index)],
                                                     tools.docId(qad.fields["QuestionId"], got.0.fields["Filename"].s), qad.fields["QuestionId"])),
                                 index))
  {
  }

  /** The record of a triple: its context is the leading portion of the
      document read under the sanitised file name, its id is built from
      the question id and that file name, and its answer list is empty
      exactly when the locator returned -1 and otherwise holds the one
      answer the locator found. */
  lemma ProcessRecord(qad: Triple, maxNumTokens: int, tools: Tools)
    requires Process(qad, maxNumTokens, tools).Success?
    ensures "QuestionId" in qad.fields && "Source" in qad.fields && "Question" in qad.fields && "Answer" in qad.fields
    ensures "Filename" in qad.fields && qad.fields["Filename"].JStr?
    ensures var p := Process(qad, maxNumTokens, tools).value;
            var name := Sanitize(qad.fields["Filename"].s);
            var context := Excerpt(tools.read(DirOf(qad.fields["Source"]), name), maxNumTokens, tools.sentTok, tools.wordTok);
            var (text, index) := tools.locate(qad.fields["Answer"], context);
            && p.index == index
            && p.record == Entry(context, QaOf(qad.fields["Question"], if index == -1 then [] else [AnswerEntry(text, index)],
                                               tools.docId(qad.fields["QuestionId"], name), qad.fields["QuestionId"]))
  {
  }

  /** The answer list of a record has at most one entry, and has one
      exactly when the answer was found. */
  lemma ProcessAnswers(qad: Triple, maxNumTokens: int, tools: Tools)
    requires Process(qad, maxNumTokens, tools).Success?
    ensures var p := Process(qad, maxNumTokens, tools).value;
            var answers := AnswersOf(p.record);
            && |answers| <= 1
            && (answers == [] <==> p.index == -1)
            && (answers != [] ==> answers[0].fields["answer_start"] == JNum(p.index))
  {
    ProcessRecord(qad, maxNumTokens, tools);
  }

  /** The answer list of a record built by `Entry`. */
  function AnswersOf(record: Json): seq<Json>
  {
    if record.JObj? && "paragraphs" in record.fields && record.fields["paragraphs"].JArr?
       && |record.fields["paragraphs"].items| == 1
    then
      var para := record.fields["paragraphs"].items[0];
      if para.JObj? && "qas" in para.fields && para.fields["qas"].JArr? && |para.fields["qas"].items| == 1
      then
        var qa := para.fields["qas"].items[0];
        if qa.JObj? && "answers" in qa.fields && qa.fields["answers"].JArr? then qa.fields["answers"].items else []
      else []
    else []
  }

  /** The condition of the early stop: a training set of web documents,
      an answer found, and at least `sampleSize` records emitted. */
  predicate Stops(qaJson: Dict, sampleSize: int, emitted: nat, index: int)
  {
    && "Split" in qaJson && qaJson["Split"] == JStr("train")
    && index != -1 && emitted >= sampleSize
    && "Domain" in qaJson && qaJson["Domain"] == JStr("Web")
  }

  /** What follows the answer lookup: on a miss, `qa_json['Split']` is
      read and a training set moves on to the next triple; otherwise the
      cut-off test reads `Split`, and `Domain` only when the set is a
      training set with `emitted` records or more. */
  function StopAfter(qaJson: Dict, sampleSize: int, emitted: nat, index: int): (r: Result<bool>)
    ensures r.Success? ==> (r.value <==> Stops(qaJson, sampleSize, emitted, index))
    ensures r.Failure? <==>
              "Split" !in qaJson
              || (qaJson["Split"] == JStr("train") && index != -1 && emitted >= sampleSize && "Domain" !in qaJson)
  {
    var split :- Lookup(qaJson, "Split");
    if index == -1 && split == JStr("train") then Success(false)
    else if split == JStr("train") && emitted >= sampleSize then
      var domain :- Lookup(qaJson, "Domain");
      Success(domain == JStr("Web"))
    else Success(false)
  }

  /** The outcome of each triple, in order. */
  function Outcomes(ts: seq<Triple>, maxNumTokens: int, tools: Tools): seq<Result<Processed>>
  {
    seq(|ts|, k requires 0 <= k < |ts| => Process(ts[k], maxNumTokens, tools))
  }

  /** The records of the loop from triple `i` on, given the outcome of
      every triple, with `data` the records emitted so far. */
  function RecordLoop(outcomes: seq<Result<Processed>>, i: nat, data: seq<Json>, qaJson: Dict, sampleSize: int)
    : Result<seq<Json>>
    requires i <= |outcomes|
    decreases |outcomes| - i
  {
    if i == |outcomes| then Success(data)
    else
      var p :- outcomes[i];
      var emitted := data + [p.record];
      var stop :- StopAfter(qaJson, sampleSize, |emitted|, p.index);
      if stop then Success(emitted) else RecordLoop(outcomes, i + 1, emitted, qaJson, sampleSize)
  }

  /** What `convert_to_squad_format` writes, or the exception it raises. */
  function Convert(qaJson: Dict, shuffle: seq<Triple> -> seq<Triple>, args: Args, tools: Tools): Result<Json>
  {
    var triples :- Flatten(qaJson);
    var data :- RecordLoop(Outcomes(shuffle(triples), args.maxNumTokens, tools), 0, [], qaJson, args.sampleSize);
    var version :- Lookup(qaJson, "Version");
    Success(JObj(map["data" := JArr(data), "version" := version]))
  }

  /** One pass of the record loop that emits a record ... */
  lemma LoopStep(outcomes: seq<Result<Processed>>, i: nat, data: seq<Json>, qaJson: Dict, sampleSize: int,
                 p: Processed, stop: bool)
    requires i < |outcomes| && outcomes[i] == Success(p)
    requires StopAfter(qaJson, sampleSize, |data| + 1, p.index) == Success(stop)
    ensures RecordLoop(outcomes, i, data, qaJson, sampleSize)
            == if stop then Success(data + [p.record]) else RecordLoop(outcomes, i + 1, data + [p.record], qaJson, sampleSize)
  {
  }

  /** ... or raises. */
  lemma LoopStepFails(outcomes: seq<Result<Processed>>, i: nat, data: seq<Json>, qaJson: Dict, sampleSize: int, e: Error)
    requires i < |outcomes|
    requires || outcomes[i] == Failure(e)
             || (outcomes[i].Success? && StopAfter(qaJson, sampleSize, |data| + 1, outcomes[i].value.index) == Failure(e))
    ensures RecordLoop(outcomes, i, data, qaJson, sampleSize) == Failure(e)
  {
  }

  /** The loop only appends to `data`, at most one record per remaining
      triple, and ends before the last triple only right after a triple
      that meets the stop condition. */
  lemma {:induction false} LoopBounds(outcomes: seq<Result<Processed>>, i: nat, data: seq<Json>, qaJson: Dict,
                                      sampleSize: int, out: seq<Json>)
    requires i <= |outcomes| && RecordLoop(outcomes, i, data, qaJson, sampleSize) == Success(out)
    ensures |data| <= |out| <= |data| + |outcomes| - i
    ensures out[..|data|] == data
    ensures |out| < |data| + |outcomes| - i ==>
              && |data| < |out|
              && outcomes[i + |out| - 1 - |data|].Success?
              && Stops(qaJson, sampleSize, |out|, outcomes[i + |out| - 1 - |data|].value.index)
    decreases |outcomes| - i
  {
    if i < |outcomes| {
      var p := outcomes[i].value;
      var emitted := data + [p.record];
      if !StopAfter(qaJson, sampleSize, |emitted|, p.index).value {
        LoopBounds(outcomes, i + 1, emitted, qaJson, sampleSize, out);
        assert out[..|data|] == emitted[..|data|];
        assert i + |out| - 1 - |data| == (i + 1) + |out| - 1 - |emitted|;
      }
    }
  }

  /** Record `k` of the loop is that of the triple at the same position
      past `i`, and that triple did not meet the stop condition unless
      its record is the last. */
  lemma {:induction false} LoopRecordAt(outcomes: seq<Result<Processed>>, i: nat, data: seq<Json>, qaJson: Dict,
                                        sampleSize: int, out: seq<Json>, k: nat)
    requires i <= |outcomes| && RecordLoop(outcomes, i, data, qaJson, sampleSize) == Success(out)
    requires |data| <= k < |out|
    ensures i + k - |data| < |outcomes|
    ensures outcomes[i + k - |data|].Success? && out[k] == outcomes[i + k - |data|].value.record
    ensures k < |out| - 1 ==> !Stops(qaJson, sampleSize, k + 1, outcomes[i + k - |data|].value.index)
    decreases |outcomes| - i
  {
    LoopBounds(outcomes, i, data, qaJson, sampleSize, out);
    var p := outcomes[i].value;
    var emitted := data + [p.record];
    var stop := StopAfter(qaJson, sampleSize, |emitted|, p.index).value;
    if k == |data| {
      if !stop {
        LoopBounds(outcomes, i + 1, emitted, qaJson, sampleSize, out);
        assert out[k] == out[..|emitted|][k];
      }
    } else {
      LoopRecordAt(outcomes, i + 1, emitted, qaJson, sampleSize, out, k);
      assert i + k - |data| == (i + 1) + k - |emitted|;
    }
  }

  /** One record per processed triple: the records are those of the
      first triples of the shuffled list, in order, and a triple whose
      answer was not found keeps its record on every split. */
  lemma RecordsFollowTriples(outcomes: seq<Result<Processed>>, qaJson: Dict, sampleSize: int, out: seq<Json>)
    requires RecordLoop(outcomes, 0, [], qaJson, sampleSize) == Success(out)
    ensures |out| <= |outcomes|
    ensures forall k :: 0 <= k < |out| ==> outcomes[k].Success? && out[k] == outcomes[k].value.record
  {
    LoopBounds(outcomes, 0, [], qaJson, sampleSize, out);
    forall k | 0 <= k < |out|
      ensures outcomes[k].Success? && out[k] == outcomes[k].value.record
    {
      LoopRecordAt(outcomes, 0, [], qaJson, sampleSize, out, k);
    }
  }

  /** The early stop: the loop ends before the last triple only right
      after the first triple `k` (counting from 1) whose answer was found
      with `k >= sampleSize`, on a training set of web documents;
      otherwise every triple yields a record. */
  lemma EarlyStop(outcomes: seq<Result<Processed>>, qaJson: Dict, sampleSize: int, out: seq<Json>)
    requires RecordLoop(outcomes, 0, [], qaJson, sampleSize) == Success(out)
    ensures |out| <= |outcomes|
    ensures forall k :: 0 <= k < |out| - 1 ==>
              outcomes[k].Success? && !Stops(qaJson, sampleSize, k + 1, outcomes[k].value.index)
    ensures |out| < |outcomes| ==>
              out != [] && outcomes[|out| - 1].Success? && Stops(qaJson, sampleSize, |out|, outcomes[|out| - 1].value.index)
    ensures !("Split" in qaJson && qaJson["Split"] == JStr("train") && "Domain" in qaJson && qaJson["Domain"] == JStr("Web"))
            ==> |out| == |outcomes|
  {
    LoopBounds(outcomes, 0, [], qaJson, sampleSize, out);
    forall k | 0 <= k < |out| - 1
      ensures outcomes[k].Success? && !Stops(qaJson, sampleSize, k + 1, outcomes[k].value.index)
    {
      LoopRecordAt(outcomes, 0, [], qaJson, sampleSize, out, k);
    }
  }

  /** A triple whose answer is not found still yields a record, with an
      empty answer list, and the loop goes on past it: the append comes
      before the answer lookup, and the `continue` of a training set only
      skips the cut-off test. */
  lemma UnansweredKept(ts: seq<Triple>, maxNumTokens: int, tools: Tools, qaJson: Dict, sampleSize: int,
                             out: seq<Json>, k: nat)
    requires RecordLoop(Outcomes(ts, maxNumTokens, tools), 0, [], qaJson, sampleSize) == Success(out)
    requires k < |out| && k < |ts|
    requires Process(ts[k], maxNumTokens, tools).Success? && Process(ts[k], maxNumTokens, tools).value.index == -1
    ensures AnswersOf(out[k]) == []
    ensures |out| < |ts| ==> k < |out| - 1
  {
    var outcomes := Outcomes(ts, maxNumTokens, tools);
    RecordsFollowTriples(outcomes, qaJson, sampleSize, out);
    EarlyStop(outcomes, qaJson, sampleSize, out);
    ProcessAnswers(ts[k], maxNumTokens, tools);
  }

  /** The SQuAD file written: the records and the input's `Version`;
      with a shuffle that only reorders, at most one record per evidence
      page of the input, and exactly one per page unless the input is a
      training set of web documents. */
  lemma ConvertShape(qaJson: Dict, shuffle: seq<Triple> -> seq<Triple>, args: Args, tools: Tools, squad: Json)
    requires forall ts :: multiset(shuffle(ts)) == multiset(ts)
    requires Convert(qaJson, shuffle, args, tools) == Success(squad)
    ensures Questions(qaJson).Success? && "Version" in qaJson
    ensures squad.JObj? && squad.fields.Keys == {"data", "version"} && squad.fields["version"] == qaJson["Version"]
    ensures squad.fields["data"].JArr? && |squad.fields["data"].items| <= TripleCount(Questions(qaJson).value, |Questions(qaJson).value|)
    ensures !("Split" in qaJson && qaJson["Split"] == JStr("train") && "Domain" in qaJson && qaJson["Domain"] == JStr("Web"))
            ==> |squad.fields["data"].items| == TripleCount(Questions(qaJson).value, |Questions(qaJson).value|)
  {
    var triples := Flatten(qaJson).value;
    FlattenShape(qaJson, triples);
    var shuffled := shuffle(triples);
    assert |shuffled| == |multiset(shuffled)| == |multiset(triples)| == |triples|;
    var outcomes := Outcomes(shuffled, args.maxNumTokens, tools);
    EarlyStop(outcomes, qaJson, args.sampleSize, RecordLoop(outcomes, 0, [], qaJson, args.sampleSize).value);
  }

  /** Lines 82-99 of the record loop for one triple: read its document,
      keep the leading portion, append the record, fill in its id and
      `qid`, look the answer up and, when found, add it to the record
      already in `data`. Gives the new record list and the locator's
      offset, or the exception raised. */
  method AppendRecord(qad: Triple, data: seq<Json>, maxNumTokens: int, tools: Tools)
    returns (r: Result<(seq<Json>, int)>)
    ensures r == (var p :- Process(qad, maxNumTokens, tools); Success((data + [p.record], p.index)))
  {
    var triple := qad;
    var qid := Lookup(triple.fields, "QuestionId");
    if qid.Failure? {
      return Failure(qid.error);
    }
    var source := Lookup(triple.fields, "Source");
    if source.Failure? {
      return Failure(source.error);
    }
    var got := GetText(triple, source.value, tools);
    if got.Failure? {
      return Failure(got.error);
    }
    var document := got.value.1;
    triple := got.value.0;
    var selectedText := SelectRelevantPortion(document, maxNumTokens, tools.sentTok, tools.wordTok);
    var question := Lookup(triple.fields, "Question");
    if question.Failure? {
      return Failure(question.error);
    }
    var records := data;
    var qa: Dict := map["question" := question.value, "answers" := JArr([])];
    records := records + [Entry(selectedText, qa)];
    qa := qa["id" := JStr(tools.docId(qid.value, triple.fields["Filename"].s))];
    qa := qa["qid" := qid.value];
    records := records[|records| - 1 := Entry(selectedText, qa)];
    var answer := Lookup(triple.fields, "Answer");
    if answer.Failure? {
      return Failure(answer.error);
    }
    var (ansString, index) := tools.locate(answer.value, selectedText);
    if index != -1 {
      qa := qa["answers" := JArr(qa["answers"].items + [AnswerEntry(ansString, index)])];
      records := records[|records| - 1 := Entry(selectedText, qa)];
    }
    QaFilled(question.value, tools.docId(qid.value, triple.fields["Filename"].s), qid.value,
             if index == -1 then [] else [AnswerEntry(ansString, index)]);
    ProcessSuccess(qad, maxNumTokens, tools, got.value, selectedText, ansString, index);
    assert records == data + [Entry(selectedText, qa)];
    r := Success((records, index));
  }

  /** The record loop of `convert_to_squad_format` (lines 80-102) over
      the shuffled triples: one record per triple processed, and an early
      stop on a training set of web documents right after an answered
      triple once the records number at least `sampleSize`, answered or
      not. */
  method ConvertRecords(qadTriples: seq<Triple>, qaJson: Dict, args: Args, tools: Tools)
    returns (r: Result<seq<Json>>)
    ensures r == RecordLoop(Outcomes(qadTriples, args.maxNumTokens, tools), 0, [], qaJson, args.sampleSize)
  {
    ghost var outcomes := Outcomes(qadTriples, args.maxNumTokens, tools);
    var data: seq<Json> := [];
    var i := 0;
    while i < |qadTriples|
      invariant i <= |qadTriples|
      invariant RecordLoop(outcomes, i, data, qaJson, args.sampleSize) == RecordLoop(outcomes, 0, [], qaJson, args.sampleSize)
    {
      var step := AppendRecord(qadTriples[i], data, args.maxNumTokens, tools);
      if step.Failure? {
        LoopStepFails(outcomes, i, data, qaJson, args.sampleSize, step.error);
        return Failure(step.error);
      }
      ghost var before := data;
      ghost var p := outcomes[i].value;
      var index;
      data, index := step.value.0, step.value.1;
      var split := Lookup(qaJson, "Split");
      if split.Failure? {
        LoopStepFails(outcomes, i, before, qaJson, args.sampleSize, split.error);
        return Failure(split.error);
      }
      if index == -1 && split.value == JStr("train") {
        LoopStep(outcomes, i, before, qaJson, args.sampleSize, p, false);
        i := i + 1;
        continue;
      }
      if split.value == JStr("train") && |data| >= args.sampleSize {
        var domain := Lookup(qaJson, "Domain");
        if domain.Failure? {
          LoopStepFails(outcomes, i, before, qaJson, args.sampleSize, domain.error);
          return Failure(domain.error);
        }
        if domain.value == JStr("Web") {
          LoopStep(outcomes, i, before, qaJson, args.sampleSize, p, true);
          break;
        }
      }
      LoopStep(outcomes, i, before, qaJson, args.sampleSize, p, false);
      i := i + 1;
    }
    r := Success(data);
  }

  /** `convert_to_squad_format`: flatten the file into triples, shuffle
      them, run the record loop, and pair the records with the file's
      `Version`. */
  method ConvertToSquadFormat(qaJson: Dict, shuffle: seq<Triple> -> seq<Triple>, args: Args, tools: Tools)
    returns (r: Result<Json>)
    ensures r == Convert(qaJson, shuffle, args, tools)
  {
    var qadTriples := GetQadTriples(qaJson);
    if qadTriples.Failure? {
      return Failure(qadTriples.error);
    }
    var data := ConvertRecords(shuffle(qadTriples.value), qaJson, args, tools);
    if data.Failure? {
      return Failure(data.error);
    }
    var version := Lookup(qaJson, "Version");
    if version.Failure? {
      return Failure(version.error);
    }
    r := Success(JObj(map["data" := JArr(data.value), "version" := version.value]));
  }
}
