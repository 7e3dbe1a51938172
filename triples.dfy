/** `add_triple_data` and `get_qad_triples`: flatten the nested TriviaQA
    records into one (question, answer, evidence page) dictionary per
    evidence page. */
module Triples {
  import opened Values

  /** A flattened question/answer/document dictionary. */
  datatype Triple = Triple(fields: Dict)

  /** The two page lists of a question, in the order they are visited. */
  const SourceKeys: seq<string> := ["EntityPages", "SearchResults"]

  /** The question fields copied into every triple, in the order copied. */
  const QuestionKeys: seq<string> := ["QuestionId", "Question", "Answer"]

  /** The triple for one page: the question fields and `Source`, with the
      page's own fields written last. */
  function TripleOf(datum: Dict, page: Dict, domain: string): Triple
    requires forall key :: key in QuestionKeys ==> key in datum
  {
    Triple(QuestionPart(datum, domain, |QuestionKeys|) + page)
  }

  /** `Source` and the first `n` question fields. */
  function QuestionPart(datum: Dict, domain: string, n: nat): Dict
    requires n <= |QuestionKeys|
    requires forall m :: 0 <= m < n ==> QuestionKeys[m] in datum
  {
    if n == 0 then map["Source" := JStr(domain)]
    else QuestionPart(datum, domain, n - 1)[QuestionKeys[n - 1] := datum[QuestionKeys[n - 1]]]
  }

  /** The first question field missing from the datum, if any. */
  function MissingQuestionKey(datum: Dict): Option<string>
  {
    if "QuestionId" !in datum then Some("QuestionId")
    else if "Question" !in datum then Some("Question")
    else if "Answer" !in datum then Some("Answer")
    else None
  }

  /** The fields `for key in page: qad[key] = page[key]` copies: those of
      a dictionary; none for an empty list or string, which iterate
      nothing; a non-empty string raises TypeError (it is indexed by one
      of its characters), as does a value that cannot be iterated. */
  function PageFields(page: Json): Result<Dict>
  {
    match page
    case JObj(fields) => Success(fields)
    case JStr(s) => if s == [] then Success(map[]) else Failure(TypeError)
    case JArr(items) => if items == [] then Success(map[]) else Failure(TypeError)
    case _ => Failure(TypeError)
  }

  /** What `add_triple_data(datum, page, domain)` returns or raises. */
  function AddTriple(datum: Dict, page: Json, domain: string): Result<Triple>
  {
    match MissingQuestionKey(datum)
    case Some(key) => Failure(KeyError(key))
    case None =>
      var fields :- PageFields(page);
      Success(TripleOf(datum, fields, domain))
  }

  /** The contents of a triple: the page wins on a clash, the question
      fields and `Source` fill in the rest, and nothing else is added. */
  lemma TripleOfContents(datum: Dict, page: Dict, domain: string)
    requires forall key :: key in QuestionKeys ==> key in datum
    ensures var t := TripleOf(datum, page, domain).fields;
            && t.Keys == {"Source", "QuestionId", "Question", "Answer"} + page.Keys
            && (forall key :: key in page ==> t[key] == page[key])
            && (forall key :: key in QuestionKeys && key !in page ==> t[key] == datum[key])
            && ("Source" !in page ==> t["Source"] == JStr(domain))
  {
    var q0 := map["Source" := JStr(domain)];
    var q1 := q0["QuestionId" := datum["QuestionId"]];
    var q2 := q1["Question" := datum["Question"]];
    assert QuestionPart(datum, domain, 1) == q1;
    assert QuestionPart(datum, domain, 2) == q2;
    assert QuestionPart(datum, domain, 3) == q2["Answer" := datum["Answer"]];
  }

  /** What `add_triple_data` gives: KeyError for the first question field
      the datum lacks, else TypeError for a page whose fields cannot be
      copied, else the triple of `Source`, the question fields and the
      page's fields, the page winning on a clash and nothing else added. */
  lemma AddTripleContents(datum: Dict, page: Json, domain: string)
    ensures var r := AddTriple(datum, page, domain);
            && (r.Failure? <==> MissingQuestionKey(datum).Some? || PageFields(page).Failure?)
            && (MissingQuestionKey(datum).Some? ==> r == Failure(KeyError(MissingQuestionKey(datum).value)))
            && (r.Success? ==>
                  var page := PageFields(page).value;
                  && r.value.fields.Keys == {"Source", "QuestionId", "Question", "Answer"} + page.Keys
                  && (forall key :: key in page ==> r.value.fields[key] == page[key])
                  && (forall key :: key in QuestionKeys && key !in page ==> r.value.fields[key] == datum[key])
                  && ("Source" !in page ==> r.value.fields["Source"] == JStr(domain)))
  {
    if AddTriple(datum, page, domain).Success? {
      TripleOfContents(datum, PageFields(page).value, domain);
    }
  }

  /** A page that is an empty list or string contributes no field: the
      triple holds just `Source` and the question fields. */
  lemma EmptyPageTriple(datum: Dict, page: Json, domain: string)
    requires page == JStr("") || page == JArr([])
    requires MissingQuestionKey(datum).None?
    ensures AddTriple(datum, page, domain).Success?
    ensures AddTriple(datum, page, domain).value.fields
            == map["Source" := JStr(domain), "QuestionId" := datum["QuestionId"],
                   "Question" := datum["Question"], "Answer" := datum["Answer"]]
  {
    TripleOfContents(datum, map[], domain);
  }

  /** `add_triple_data` builds the dictionary key by key: `Source`, then
      the question fields (a missing one raises KeyError), then every field
      of the page. */
  method AddTripleData(datum: Dict, page: Json, domain: string) returns (r: Result<Triple>)
    ensures r == AddTriple(datum, page, domain)
  {
    var qad: Dict := map["Source" := JStr(domain)];
    for n := 0 to |QuestionKeys|
      invariant forall m :: 0 <= m < n ==> QuestionKeys[m] in datum
      invariant qad == QuestionPart(datum, domain, n)
    {
      var key := QuestionKeys[n];
      if key !in datum {
        assert n >= 1 ==> QuestionKeys[0] in datum;
        assert n >= 2 ==> QuestionKeys[1] in datum;
        assert MissingQuestionKey(datum) == Some(key);
        return Failure(KeyError(key));
      }
      qad := qad[key := datum[key]];
    }
    assert QuestionKeys[0] in datum && QuestionKeys[1] in datum && QuestionKeys[2] in datum;
    var fields: Dict;
    if page.JObj? {
      fields := page.fields;
    } else if page == JStr("") || page == JArr([]) {
      fields := map[];  // the loop over the page runs no iteration
    } else {
      return Failure(TypeError);
    }
    ghost var base := qad;
    qad := CopyFields(qad, fields);
    assert qad == base + fields;
    r := Success(Triple(qad));
  }

  /** `for key in page: qad[key] = page[key]`: every field of the page is
      written, over any the dictionary already has; nothing else changes. */
  method CopyFields(qad: Dict, page: Dict) returns (r: Dict)
    ensures r.Keys == qad.Keys + page.Keys
    ensures forall key :: key in page ==> r[key] == page[key]
    ensures forall key :: key in qad && key !in page ==> r[key] == qad[key]
  {
    r := qad;
    var pending := page.Keys;
    while pending != {}
      invariant pending <= page.Keys
      invariant r.Keys == qad.Keys + (page.Keys - pending)
      invariant forall key :: key in r ==> r[key] == if key in page && key !in pending then page[key] else qad[key]
      decreases pending
    {
      var key :| key in pending;
      r := r[key := page[key]];
      pending := pending - {key};
    }
  }

  /** The pages `for page in datum.get(key, [])` visits: none when the key
      is missing; the items of a list; the characters of a string; for a
      dictionary, the outcome of `DictPages`. */
  function PagesOf(datum: Dict, key: string): Result<seq<Json>>
  {
    if key !in datum then Success([])
    else match datum[key]
      case JArr(items) => Success(items)
      case JStr(s) => Success(Chars(s))
      case JObj(m) => DictPages(datum, m)
      case _ => Failure(TypeError)
  }

  /** Iterating a dictionary of pages visits its keys, strings, in an order
      this model does not keep. Each key is passed to `add_triple_data` as
      a page: a missing question field raises KeyError first; otherwise the
      empty key contributes no field and any other key raises TypeError (a
      string indexed by a character). So the outcome is the same in every
      order: no pages, the single page "", or the first failure. */
  function DictPages(datum: Dict, m: Dict): Result<seq<Json>>
  {
    if |m| == 0 then Success([])
    else if |m| == 1 && "" in m then Success([JStr("")])
    else Failure(if MissingQuestionKey(datum).Some? then KeyError(MissingQuestionKey(datum).value) else TypeError)
  }

  /** The triples of the first `m` pages of one list, in list order; the
      first failure wins. */
  function PagesTriples(datum: Dict, pages: seq<Json>, key: string, m: nat): Result<seq<Triple>>
    requires m <= |pages|
  {
    if m == 0 then Success([])
    else
      var init :- PagesTriples(datum, pages, key, m - 1);
      var last :- AddTriple(datum, pages[m - 1], key);
      Success(init + [last])
  }

  /** The triples of the page list under `key`. */
  function KeyTriples(datum: Dict, key: string): Result<seq<Triple>>
  {
    var pages :- PagesOf(datum, key);
    PagesTriples(datum, pages, key, |pages|)
  }

  /** The triples of the first `n` page lists of `SourceKeys`. */
  function KeysTriples(datum: Dict, n: nat): Result<seq<Triple>>
    requires n <= |SourceKeys|
  {
    if n == 0 then Success([])
    else
      var init :- KeysTriples(datum, n - 1);
      var more :- KeyTriples(datum, SourceKeys[n - 1]);
      Success(init + more)
  }

  /** The triples of one question: entity pages, then search results. */
  function DatumTriples(datum: Json): Result<seq<Triple>>
  {
    if datum.JObj? then KeysTriples(datum.fields, |SourceKeys|) else Failure(TypeError)
  }

  /** The outcome of every question, in order. */
  function DatumOutcomes(data: seq<Json>): seq<Result<seq<Triple>>>
  {
    seq(|data|, k requires 0 <= k < |data| => DatumTriples(data[k]))
  }

  /** The first `n` outcomes joined: the first failure, or the
      concatenation of their triples. */
  function Joined(parts: seq<Result<seq<Triple>>>, n: nat): Result<seq<Triple>>
    requires n <= |parts|
  {
    if n == 0 then Success([])
    else
      var init :- Joined(parts, n - 1);
      var more :- parts[n - 1];
      Success(init + more)
  }

  /** The triples of the first `n` questions, question after question. */
  function DataTriples(data: seq<Json>, n: nat): Result<seq<Triple>>
    requires n <= |data|
  {
    Joined(DatumOutcomes(data), n)
  }

  /** The questions `for datum in data['Data']` visits: the items of a
      list; the characters of a string. A non-empty dictionary is iterated
      by its keys, strings, and whichever comes first fails `datum.get`
      (AttributeError, TypeError here), so no order needs keeping. */
  function Questions(data: Dict): Result<seq<Json>>
  {
    if "Data" !in data then Failure(KeyError("Data"))
    else match data["Data"]
      case JArr(items) => Success(items)
      case JStr(s) => Success(Chars(s))
      case JObj(m) => if m == map[] then Success([]) else Failure(TypeError)
      case _ => Failure(TypeError)
  }

  /** What `get_qad_triples(data)` returns or raises. */
  function Flatten(data: Dict): Result<seq<Triple>>
  {
    var ds :- Questions(data);
    DataTriples(ds, |ds|)
  }

  /** `get_qad_triples`: every question, then its entity pages before its
      search results, appending one triple per page. */
  method GetQadTriples(data: Dict) returns (r: Result<seq<Triple>>)
    ensures r == Flatten(data)
  {
    var questions := Questions(data);
    if questions.Failure? {
      return Failure(questions.error);
    }
    var ds := questions.value;
    var qadTriples: seq<Triple> := [];
    for i := 0 to |ds|
      invariant DataTriples(ds, i) == Success(qadTriples)
    {
      var datum := ds[i];
      if !datum.JObj? {
        DataStepFails(ds, i, qadTriples, TypeError);
        return Failure(TypeError);
      }
      ghost var before := qadTriples;
      for n := 0 to |SourceKeys|
        invariant KeysTriples(datum.fields, n).Success?
        invariant qadTriples == before + KeysTriples(datum.fields, n).value
      {
        ghost var ofDatum := KeysTriples(datum.fields, n).value;
        var extended := AppendPageTriples(datum.fields, SourceKeys[n], qadTriples);
        if extended.Failure? {
          KeysStepFails(datum.fields, n, ofDatum, extended.error);
          DataStepFails(ds, i, before, extended.error);
          return Failure(extended.error);
        }
        KeysStep(datum.fields, n, ofDatum, KeyTriples(datum.fields, SourceKeys[n]).value);
        qadTriples := extended.value;
      }
      DataStep(ds, i, before, KeysTriples(datum.fields, |SourceKeys|).value);
    }
    r := Success(qadTriples);
  }

  /** The innermost loop of `get_qad_triples`: one triple per page listed
      under `key`, appended in list order to the triples gathered so far. */
  method AppendPageTriples(datum: Dict, key: string, acc: seq<Triple>) returns (r: Result<seq<Triple>>)
    ensures r == (var more :- KeyTriples(datum, key); Success(acc + more))
  {
    var pages := PagesOf(datum, key);
    if pages.Failure? {
      return Failure(pages.error);
    }
    var qadTriples := acc;
    ghost var ofPages: seq<Triple> := [];
    for m := 0 to |pages.value|
      invariant PagesTriples(datum, pages.value, key, m) == Success(ofPages)
      invariant qadTriples == acc + ofPages
    {
      var qad := AddTripleData(datum, pages.value[m], key);
      if qad.Failure? {
        PagesTriplesFails(datum, pages.value, key, m + 1, |pages.value|);
        return Failure(qad.error);
      }
      qadTriples := qadTriples + [qad.value];
      ofPages := ofPages + [qad.value];
    }
    r := Success(qadTriples);
  }

  /** One pass of the middle loop: the page list `SourceKeys[n]` adds
      its triples ... */
  lemma KeysStep(datum: Dict, n: nat, acc: seq<Triple>, more: seq<Triple>)
    requires n < |SourceKeys| && KeysTriples(datum, n) == Success(acc)
    requires KeyTriples(datum, SourceKeys[n]) == Success(more)
    ensures KeysTriples(datum, n + 1) == Success(acc + more)
  {
  }

  /** ... or fails, failing the whole question. */
  lemma KeysStepFails(datum: Dict, n: nat, acc: seq<Triple>, e: Error)
    requires n < |SourceKeys| && KeysTriples(datum, n) == Success(acc)
    requires KeyTriples(datum, SourceKeys[n]) == Failure(e)
    ensures KeysTriples(datum, |SourceKeys|) == Failure(e)
  {
    if n + 1 < |SourceKeys| {
      assert KeysTriples(datum, n + 2) == KeysTriples(datum, n + 1);
    }
  }

  /** One pass of the outer loop: question `i` adds its triples ... */
  lemma DataStep(data: seq<Json>, i: nat, acc: seq<Triple>, more: seq<Triple>)
    requires i < |data| && DataTriples(data, i) == Success(acc)
    requires DatumTriples(data[i]) == Success(more)
    ensures DataTriples(data, i + 1) == Success(acc + more)
  {
  }

  /** ... or fails, failing the whole conversion. */
  lemma DataStepFails(data: seq<Json>, i: nat, acc: seq<Triple>, e: Error)
    requires i < |data| && DataTriples(data, i) == Success(acc)
    requires DatumTriples(data[i]) == Failure(e)
    ensures DataTriples(data, |data|) == Failure(e)
  {
    var parts := DatumOutcomes(data);
    assert Joined(parts, i + 1) == Failure(e);
    JoinedFails(parts, i + 1, |data|);
  }

  /** A failure among the first pages is the failure of the whole list. */
  lemma {:induction false} PagesTriplesFails(datum: Dict, pages: seq<Json>, key: string, m: nat, n: nat)
    requires m <= n <= |pages|
    requires PagesTriples(datum, pages, key, m).Failure?
    ensures PagesTriples(datum, pages, key, n) == PagesTriples(datum, pages, key, m)
    decreases n
  {
    if m < n {
      PagesTriplesFails(datum, pages, key, m, n - 1);
    }
  }

  lemma {:induction false} JoinedFails(parts: seq<Result<seq<Triple>>>, m: nat, n: nat)
    requires m <= n <= |parts|
    requires Joined(parts, m).Failure?
    ensures Joined(parts, n) == Joined(parts, m)
    decreases n
  {
    if m < n {
      JoinedFails(parts, m, n - 1);
    }
  }

  /** The pages listed under `key` in a question (none when the key is
      missing or the question is not a dictionary). */
  function PagesList(datum: Json, key: string): seq<Json>
  {
    if datum.JObj? && PagesOf(datum.fields, key).Success? then PagesOf(datum.fields, key).value else []
  }

  /** Number of pages of the question. */
  function DatumCount(datum: Json): nat
  {
    |PagesList(datum, "EntityPages")| + |PagesList(datum, "SearchResults")|
  }

  /** Σ over the first `n` questions of (number of entity pages + number
      of search results). */
  function TripleCount(data: seq<Json>, n: nat): nat
    requires n <= |data|
  {
    if n == 0 then 0 else TripleCount(data, n - 1) + DatumCount(data[n - 1])
  }

  /** One triple per page, each the triple of its page. */
  lemma {:induction false} PagesTriplesShape(datum: Dict, pages: seq<Json>, key: string, m: nat, ts: seq<Triple>)
    requires m <= |pages| && PagesTriples(datum, pages, key, m) == Success(ts)
    ensures |ts| == m
    ensures forall j :: 0 <= j < m ==> AddTriple(datum, pages[j], key) == Success(ts[j])
    decreases m
  {
    if m > 0 {
      var initTs := PagesTriples(datum, pages, key, m - 1).value;
      PagesTriplesShape(datum, pages, key, m - 1, initTs);
      assert ts == initTs + [AddTriple(datum, pages[m - 1], key).value];
    }
  }

  /** One more page list in `KeysTriples`: both parts succeeded. */
  lemma KeysTriplesLast(datum: Dict, n: nat, ts: seq<Triple>)
    requires 0 < n <= |SourceKeys| && KeysTriples(datum, n) == Success(ts)
    ensures KeysTriples(datum, n - 1).Success? && KeyTriples(datum, SourceKeys[n - 1]).Success?
    ensures ts == KeysTriples(datum, n - 1).value + KeyTriples(datum, SourceKeys[n - 1]).value
  {
  }

  /** The triples of the pages of one list sit in `ts` from offset `lo`
      on, one per page, in list order. */
  predicate PagesAt(datum: Dict, pages: seq<Json>, key: string, ts: seq<Triple>, lo: nat)
  {
    lo + |pages| <= |ts|
    && forall j :: 0 <= j < |pages| ==> AddTriple(datum, pages[j], key) == Success(ts[lo + j])
  }

  /** The triples of one question sit in `ts` from offset `lo` on: one per
      entity page, in order, then one per search result, in order. */
  predicate DatumAt(datum: Json, ts: seq<Triple>, lo: nat)
  {
    && datum.JObj?
    && PagesAt(datum.fields, PagesList(datum, "EntityPages"), "EntityPages", ts, lo)
    && PagesAt(datum.fields, PagesList(datum, "SearchResults"), "SearchResults", ts, lo + |PagesList(datum, "EntityPages")|)
  }

  /** Appending triples keeps those already placed where they are ... */
  lemma PagesAtLeft(datum: Dict, pages: seq<Json>, key: string, a: seq<Triple>, b: seq<Triple>, lo: nat)
    requires PagesAt(datum, pages, key, a, lo)
    ensures PagesAt(datum, pages, key, a + b, lo)
  {
    forall j | 0 <= j < |pages|
      ensures AddTriple(datum, pages[j], key) == Success((a + b)[lo + j])
    {
      assert (a + b)[lo + j] == a[lo + j];
    }
  }

  /** ... and prepending shifts them by the length of the prefix. */
  lemma PagesAtRight(datum: Dict, pages: seq<Json>, key: string, a: seq<Triple>, b: seq<Triple>, lo: nat)
    requires PagesAt(datum, pages, key, b, lo)
    ensures PagesAt(datum, pages, key, a + b, |a| + lo)
  {
    forall j | 0 <= j < |pages|
      ensures AddTriple(datum, pages[j], key) == Success((a + b)[|a| + lo + j])
    {
      assert (a + b)[|a| + lo + j] == b[lo + j];
    }
  }

  /** The triples of one question: one per entity page, in order, then
      one per search result, in order, and nothing else. */
  lemma DatumTriplesShape(datum: Json, ts: seq<Triple>)
    requires DatumTriples(datum) == Success(ts)
    ensures |ts| == DatumCount(datum)
    ensures DatumAt(datum, ts, 0)
  {
    var f := datum.fields;
    var ep, sr := PagesList(datum, "EntityPages"), PagesList(datum, "SearchResults");
    KeysTriplesLast(f, 2, ts);
    var k1 := KeysTriples(f, 1).value;
    KeysTriplesLast(f, 1, k1);
    var r1, r2 := KeyTriples(f, "EntityPages").value, KeyTriples(f, "SearchResults").value;
    assert ts == r1 + r2;
    KeyTriplesShape(f, "EntityPages", r1);
    KeyTriplesShape(f, "SearchResults", r2);
    PagesAtLeft(f, ep, "EntityPages", r1, r2, 0);
    PagesAtRight(f, sr, "SearchResults", r1, r2, 0);
  }

  /** The triples of one page list: one per page, in order. */
  lemma KeyTriplesShape(datum: Dict, key: string, ts: seq<Triple>)
    requires KeyTriples(datum, key) == Success(ts)
    ensures PagesOf(datum, key).Success?
    ensures var pages := PagesOf(datum, key).value;
            |ts| == |pages| && PagesAt(datum, pages, key, ts, 0)
  {
    var pages := PagesOf(datum, key).value;
    PagesTriplesShape(datum, pages, key, |pages|, ts);
  }

  /** Number of triples of the first `n` outcomes that succeeded. */
  function Offset(parts: seq<Result<seq<Triple>>>, n: nat): nat
    requires n <= |parts|
  {
    if n == 0 then 0 else Offset(parts, n - 1) + (if parts[n - 1].Success? then |parts[n - 1].value| else 0)
  }

  /** A successful join holds every part's triples ... */
  lemma {:induction false} JoinedCount(parts: seq<Result<seq<Triple>>>, n: nat, ts: seq<Triple>)
    requires n <= |parts| && Joined(parts, n) == Success(ts)
    ensures |ts| == Offset(parts, n)
    ensures forall k :: 0 <= k < n ==> parts[k].Success?
    decreases n
  {
    if n > 0 {
      JoinedCount(parts, n - 1, Joined(parts, n - 1).value);
    }
  }

  /** ... part `i` starting right after those of the parts before it. */
  lemma {:induction false} JoinedPlaced(parts: seq<Result<seq<Triple>>>, n: nat, ts: seq<Triple>, i: nat)
    requires n <= |parts| && Joined(parts, n) == Success(ts) && i < n
    ensures parts[i].Success? && Offset(parts, i) + |parts[i].value| <= |ts|
    ensures forall j :: 0 <= j < |parts[i].value| ==> ts[Offset(parts, i) + j] == parts[i].value[j]
    decreases n
  {
    var init := Joined(parts, n - 1).value;
    JoinedCount(parts, n - 1, init);
    if i < n - 1 {
      JoinedPlaced(parts, n - 1, init, i);
    }
  }

  /** Each question that succeeded gives one triple per page. */
  lemma OutcomeCounts(data: seq<Json>, n: nat)
    requires n <= |data|
    requires forall k :: 0 <= k < n ==> DatumOutcomes(data)[k].Success?
    ensures forall k :: 0 <= k < n ==> |DatumOutcomes(data)[k].value| == DatumCount(data[k])
  {
    forall k | 0 <= k < n
      ensures |DatumOutcomes(data)[k].value| == DatumCount(data[k])
    {
      DatumTriplesShape(data[k], DatumOutcomes(data)[k].value);
    }
  }

  /** Counted by outcome or by page, the first `n` questions hold as many
      triples. */
  lemma {:induction false} OffsetCount(data: seq<Json>, parts: seq<Result<seq<Triple>>>, n: nat)
    requires n <= |data| == |parts|
    requires forall k :: 0 <= k < n ==> parts[k].Success? && |parts[k].value| == DatumCount(data[k])
    ensures Offset(parts, n) == TripleCount(data, n)
    decreases n
  {
    if n > 0 {
      OffsetCount(data, parts, n - 1);
    }
  }

  /** One triple per page of every question. */
  lemma DataTriplesCount(data: seq<Json>, n: nat, ts: seq<Triple>)
    requires n <= |data| && DataTriples(data, n) == Success(ts)
    ensures |ts| == TripleCount(data, n)
  {
    var parts := DatumOutcomes(data);
    JoinedCount(parts, n, ts);
    OutcomeCounts(data, n);
    OffsetCount(data, parts, n);
  }

  /** The triples of a question placed at offset `lo` of a longer list. */
  lemma PagesAtShift(datum: Dict, pages: seq<Json>, key: string, v: seq<Triple>, ts: seq<Triple>, a: nat, lo: nat)
    requires PagesAt(datum, pages, key, v, a)
    requires lo + |v| <= |ts| && forall j :: 0 <= j < |v| ==> ts[lo + j] == v[j]
    ensures PagesAt(datum, pages, key, ts, lo + a)
  {
    forall j | 0 <= j < |pages|
      ensures AddTriple(datum, pages[j], key) == Success(ts[lo + a + j])
    {
      assert ts[lo + (a + j)] == v[a + j];
    }
  }

  lemma DatumAtShift(datum: Json, v: seq<Triple>, ts: seq<Triple>, lo: nat)
    requires DatumAt(datum, v, 0)
    requires lo + |v| <= |ts| && forall j :: 0 <= j < |v| ==> ts[lo + j] == v[j]
    ensures DatumAt(datum, ts, lo)
  {
    var ep, sr := PagesList(datum, "EntityPages"), PagesList(datum, "SearchResults");
    PagesAtShift(datum.fields, ep, "EntityPages", v, ts, 0, lo);
    PagesAtShift(datum.fields, sr, "SearchResults", v, ts, |ep|, lo);
  }

  /** Question `i` of a converted dataset owns the triples that start
      at the count of the pages of the questions before it: one per entity
      page in list order, then one per search result in list order (see
      `DatumAt`). */
  lemma DataTriplesOrder(ds: seq<Json>, ts: seq<Triple>, i: nat)
    requires DataTriples(ds, |ds|) == Success(ts) && i < |ds|
    ensures DatumAt(ds[i], ts, TripleCount(ds, i))
  {
    PlacedAtCount(ds, ts, i);
    PlacedDatumAt(ds[i], ts, TripleCount(ds, i));
  }

  /** The triples of one question succeed and sit in `ts` from offset
      `lo` on. */
  predicate Placed(datum: Json, ts: seq<Triple>, lo: nat)
  {
    && DatumTriples(datum).Success?
    && var v := DatumTriples(datum).value;
       lo + |v| <= |ts| && forall j :: 0 <= j < |v| ==> ts[lo + j] == v[j]
  }

  /** The triples of question `i` start at the count of the pages of the
      questions before it. */
  lemma PlacedAtCount(ds: seq<Json>, ts: seq<Triple>, i: nat)
    requires DataTriples(ds, |ds|) == Success(ts) && i < |ds|
    ensures Placed(ds[i], ts, TripleCount(ds, i))
  {
    OutcomePlaced(ds, ts, i);
    DataOffsetIsCount(ds, ts, i);
  }

  /** The triples of question `i` follow those of the questions before it. */
  lemma OutcomePlaced(ds: seq<Json>, ts: seq<Triple>, i: nat)
    requires DataTriples(ds, |ds|) == Success(ts) && i < |ds|
    ensures Placed(ds[i], ts, Offset(DatumOutcomes(ds), i))
  {
    var parts := DatumOutcomes(ds);
    JoinedPlaced(parts, |ds|, ts, i);
    assert parts[i] == DatumTriples(ds[i]);
  }

  /** The triples of one question, found at offset `lo` of a longer list,
      are in the order `DatumAt` describes. */
  lemma PlacedDatumAt(datum: Json, ts: seq<Triple>, lo: nat)
    requires Placed(datum, ts, lo)
    ensures DatumAt(datum, ts, lo)
  {
    var v := DatumTriples(datum).value;
    DatumTriplesShape(datum, v);
    DatumAtShift(datum, v, ts, lo);
  }

  lemma DataOffsetIsCount(ds: seq<Json>, ts: seq<Triple>, i: nat)
    requires DataTriples(ds, |ds|) == Success(ts) && i < |ds|
    ensures Offset(DatumOutcomes(ds), i) == TripleCount(ds, i)
  {
    var parts := DatumOutcomes(ds);
    JoinedCount(parts, |ds|, ts);
    OutcomeCounts(ds, |ds|);
    OffsetCount(ds, parts, i);
  }

  /** Triple count: `get_qad_triples` on a dataset returns one triple per
      page, question after question (a missing page list contributes
      none), each question's as `DataTriplesOrder` says. */
  lemma FlattenShape(data: Dict, ts: seq<Triple>)
    requires Flatten(data) == Success(ts)
    ensures Questions(data).Success?
    ensures var ds := Questions(data).value;
            |ts| == TripleCount(ds, |ds|) && DataTriples(ds, |ds|) == Success(ts)
  {
    var ds := Questions(data).value;
    DataTriplesCount(ds, |ds|, ts);
  }

  /** The pages a dictionary of pages yields when its keys come in the
      order `order`: each key as a string page. */
  function KeyPages(order: seq<string>): (pages: seq<Json>)
    ensures |pages| == |order|
  {
    if order == [] then [] else [JStr(order[0])] + KeyPages(order[1..])
  }

  /** Page `j` of `KeyPages(order)` is key `j` of `order`. */
  lemma {:induction false} KeyPagesAt(order: seq<string>, j: nat)
    requires j < |order|
    ensures KeyPages(order)[j] == JStr(order[j])
    decreases j
  {
    if j > 0 {
      KeyPagesAt(order[1..], j - 1);
    }
  }

  /** Pages that all succeed give a successful list. */
  lemma {:induction false} PagesSucceed(datum: Dict, pages: seq<Json>, key: string, m: nat)
    requires m <= |pages|
    requires forall j :: 0 <= j < m ==> AddTriple(datum, pages[j], key).Success?
    ensures PagesTriples(datum, pages, key, m).Success?
    decreases m
  {
    if m > 0 {
      PagesSucceed(datum, pages, key, m - 1);
    }
  }

  /** The first page that fails decides the failure of the whole list. */
  lemma FirstPageFails(datum: Dict, pages: seq<Json>, key: string, f: nat, e: Error)
    requires f < |pages|
    requires forall j :: 0 <= j < f ==> AddTriple(datum, pages[j], key).Success?
    requires AddTriple(datum, pages[f], key) == Failure(e)
    ensures PagesTriples(datum, pages, key, |pages|) == Failure(e)
  {
    PagesSucceed(datum, pages, key, f);
    assert PagesTriples(datum, pages, key, f + 1) == Failure(e);
    PagesTriplesFails(datum, pages, key, f + 1, |pages|);
  }

  /** Pages that can only fail with `e` fail the list with `e`, if at
      all. */
  lemma {:induction false} PagesFailAlike(datum: Dict, pages: seq<Json>, key: string, m: nat, e: Error)
    requires m <= |pages|
    requires forall j :: 0 <= j < m ==> AddTriple(datum, pages[j], key).Success? || AddTriple(datum, pages[j], key) == Failure(e)
    ensures PagesTriples(datum, pages, key, m).Failure? ==> PagesTriples(datum, pages, key, m) == Failure(e)
    decreases m
  {
    if m > 0 {
      PagesFailAlike(datum, pages, key, m - 1, e);
    }
  }

  /** Beside the empty string, a set of keys holding it has one key
      fewer. */
  lemma OtherKeys(keys: set<string>)
    requires "" in keys
    ensures |keys - {""}| == |keys| - 1
  {
    var rest := keys - {""};
    assert keys == rest + {""};
    assert rest * {""} == {};
  }

  /** Whatever order Python visits the keys of a dictionary of pages in
      (each key once), the triples or the error are those `DictPages`
      gives. */
  lemma DictPagesAnyOrder(datum: Dict, m: Dict, order: seq<string>, key: string)
    requires |order| == |m| && forall k :: k in m <==> k in order
    ensures PagesTriples(datum, KeyPages(order), key, |order|)
            == (var pages :- DictPages(datum, m); PagesTriples(datum, pages, key, |pages|))
  {
    if |order| == 0 {
    } else if MissingQuestionKey(datum).Some? {
      AnyOrderMissingKey(datum, m, order, key);
    } else if |m| == 1 && "" in m {
      AnyOrderEmptyKey(datum, m, order, key);
    } else {
      AnyOrderFails(datum, m, order, key);
    }
  }

  /** A question lacking a field fails on the first key, whichever it is. */
  lemma AnyOrderMissingKey(datum: Dict, m: Dict, order: seq<string>, key: string)
    requires |order| > 0 && |m| > 0 && MissingQuestionKey(datum).Some?
    ensures PagesTriples(datum, KeyPages(order), key, |order|) == Failure(KeyError(MissingQuestionKey(datum).value))
    ensures DictPages(datum, m) == Failure(KeyError(MissingQuestionKey(datum).value))
            || (DictPages(datum, m) == Success([JStr("")])
                && PagesTriples(datum, [JStr("")], key, 1) == Failure(KeyError(MissingQuestionKey(datum).value)))
  {
    var e := KeyError(MissingQuestionKey(datum).value);
    FirstPageFails(datum, KeyPages(order), key, 0, e);
    if DictPages(datum, m).Success? {
      FirstPageFails(datum, [JStr("")], key, 0, e);
    }
  }

  /** The dictionary `{"": …}` yields one page, the empty string. */
  lemma AnyOrderEmptyKey(datum: Dict, m: Dict, order: seq<string>, key: string)
    requires |order| == |m| && forall k :: k in m <==> k in order
    requires |m| == 1 && "" in m
    ensures KeyPages(order) == [JStr("")]
  {
    OtherKeys(m.Keys);
    assert order[0] in m && order[0] !in m.Keys - {""};
    KeyPagesAt(order, 0);
  }

  /** Any other non-empty dictionary fails with TypeError on its first
      non-empty key. */
  lemma AnyOrderFails(datum: Dict, m: Dict, order: seq<string>, key: string)
    requires |order| == |m| && forall k :: k in m <==> k in order
    requires |order| > 0 && MissingQuestionKey(datum).None? && !(|m| == 1 && "" in m)
    ensures DictPages(datum, m) == Failure(TypeError)
    ensures PagesTriples(datum, KeyPages(order), key, |order|) == Failure(TypeError)
  {
    var pages := KeyPages(order);
    var idx := 0;
    if order[0] == "" {
      OtherKeys(m.Keys);
      var k :| k in m.Keys - {""};
      assert k in order;
      idx :| 0 <= idx < |order| && order[idx] == k;
    }
    KeyPagesAt(order, idx);
    assert AddTriple(datum, pages[idx], key) == Failure(TypeError);
    forall j | 0 <= j < |order|
      ensures AddTriple(datum, pages[j], key).Success? || AddTriple(datum, pages[j], key) == Failure(TypeError)
    {
      KeyPagesAt(order, j);
    }
    PagesFailAlike(datum, pages, key, |order|, TypeError);
    if PagesTriples(datum, pages, key, |order|).Success? {
      PagesTriplesShape(datum, pages, key, |order|, PagesTriples(datum, pages, key, |order|).value);
    }
  }
}
