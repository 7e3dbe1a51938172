/** `select_relevant_portion`: cut a document down to a token budget.
    The text is split into paragraphs on line breaks, each paragraph into
    sentences and each sentence into words (the two tokenizers are
    parameters). Words are appended to `selected` one at a time and the
    budget is checked after each word; after each paragraph that was
    consumed in full a line-break marker is appended unchecked. */
module Truncation {
  import opened PyStr

  /** One entry of the full token stream of a document: a word, or the
      line-break marker appended after a paragraph. */
  datatype Item = Word(w: string) | Break

  /** The string `selected` holds for an item. */
  function ItemText(x: Item): string
  {
    match x
    case Word(w) => w
    case Break => "\n"
  }

  function Texts(items: seq<Item>): seq<string>
  {
    if items == [] then [] else Texts(items[..|items| - 1]) + [ItemText(items[|items| - 1])]
  }

  function Words(ws: seq<string>): (r: seq<Item>)
    ensures |r| == |ws|
  {
    seq(|ws|, k requires 0 <= k < |ws| => Word(ws[k]))
  }

  /** The words of a paragraph's sentences, sentence after sentence. */
  function SentenceItems(sents: seq<string>, wordTok: string -> seq<string>): seq<Item>
  {
    if sents == [] then []
    else SentenceItems(sents[..|sents| - 1], wordTok) + Words(wordTok(sents[|sents| - 1]))
  }

  /** The full token stream of a document: each paragraph's words
      followed by a marker. */
  function DocItems(paras: seq<string>, sentTok: string -> seq<string>, wordTok: string -> seq<string>): seq<Item>
  {
    if paras == [] then []
    else DocItems(paras[..|paras| - 1], sentTok, wordTok)
         + SentenceItems(sentTok(paras[|paras| - 1]), wordTok) + [Break]
  }

  /** Position `q` of the stream ends the selection: it is a word and,
      once appended, `len(selected) >= max_num_tokens`. */
  predicate StopsAt(items: seq<Item>, maxNumTokens: int, q: nat)
    requires q < |items|
  {
    items[q].Word? && q + 1 >= maxNumTokens
  }

  predicate NoStop(items: seq<Item>, maxNumTokens: int)
  {
    forall q :: 0 <= q < |items| ==> !(items[q].Word? && q + 1 >= maxNumTokens)
  }

  /** Length of the selected prefix: just past the first stopping
      position at or after `q`, or the whole stream. */
  function CutFrom(items: seq<Item>, maxNumTokens: int, q: nat): (n: nat)
    requires q <= |items|
    ensures q <= n <= |items|
    decreases |items| - q
  {
    if q == |items| then |items|
    else if StopsAt(items, maxNumTokens, q) then q + 1
    else CutFrom(items, maxNumTokens, q + 1)
  }

  /** The items `select_relevant_portion` collects in `selected`. */
  function Truncate(items: seq<Item>, maxNumTokens: int): seq<Item>
  {
    items[..CutFrom(items, maxNumTokens, 0)]
  }

  /** The number of words (not markers) among the items. */
  function WordCount(items: seq<Item>): nat
  {
    if items == [] then 0
    else WordCount(items[..|items| - 1]) + (if items[|items| - 1].Word? then 1 else 0)
  }

  /** The words among the items, markers dropped. */
  function WordsOf(items: seq<Item>): seq<string>
  {
    if items == [] then []
    else WordsOf(items[..|items| - 1]) + (if items[|items| - 1].Word? then [items[|items| - 1].w] else [])
  }

  function Max(a: int, b: int): int { if a < b then b else a }

  lemma {:induction false} CutFromShape(items: seq<Item>, maxNumTokens: int, q: nat)
    requires q <= |items|
    requires NoStop(items[..q], maxNumTokens)
    ensures q <= CutFrom(items, maxNumTokens, q) <= |items|
    ensures var n := CutFrom(items, maxNumTokens, q);
            if n < |items| || (n > 0 && StopsAt(items, maxNumTokens, n - 1))
            then n > 0 && StopsAt(items, maxNumTokens, n - 1) && NoStop(items[..n - 1], maxNumTokens)
            else n == |items| && NoStop(items, maxNumTokens)
    decreases |items| - q
  {
    if q == |items| {
      assert items[..q] == items;
    } else if !StopsAt(items, maxNumTokens, q) {
      assert items[..q + 1] == items[..q] + [items[q]];
      CutFromShape(items, maxNumTokens, q + 1);
    }
  }

  /** The selection is a prefix of the stream; it is cut short only just
      after a word that brought the length to the budget, and then no
      earlier word did; otherwise the budget was never reached and the
      whole stream is selected. */
  lemma TruncateShape(items: seq<Item>, maxNumTokens: int)
    ensures Truncate(items, maxNumTokens) <= items
    ensures var t := Truncate(items, maxNumTokens);
            if NoStop(items, maxNumTokens) then t == items
            else t != [] && t[|t| - 1].Word? && |t| >= maxNumTokens && NoStop(t[..|t| - 1], maxNumTokens)
  {
    assert items[..0] == [];
    CutFromShape(items, maxNumTokens, 0);
    var n := CutFrom(items, maxNumTokens, 0);
    if NoStop(items, maxNumTokens) && n > 0 {
      assert !StopsAt(items, maxNumTokens, n - 1);
    }
  }

  /** Conversely, a prefix that ends at its first stopping position, or
      the whole stream when there is none, is the selection. */
  lemma TruncateUnique(items: seq<Item>, maxNumTokens: int, t: seq<Item>)
    requires t <= items
    requires (t != [] && t[|t| - 1].Word? && |t| >= maxNumTokens && NoStop(t[..|t| - 1], maxNumTokens))
             || (t == items && NoStop(items, maxNumTokens))
    ensures Truncate(items, maxNumTokens) == t
  {
    TruncateShape(items, maxNumTokens);
  }

  lemma {:induction false} WordCountBelow(items: seq<Item>, maxNumTokens: int)
    requires NoStop(items, maxNumTokens)
    ensures WordCount(items) <= |items|
    ensures WordCount(items) <= Max(maxNumTokens - 1, 0)
  {
    if items != [] {
      var init := items[..|items| - 1];
      assert NoStop(init, maxNumTokens) by {
        forall q | 0 <= q < |init| ensures !(init[q].Word? && q + 1 >= maxNumTokens) {
          assert init[q] == items[q];
        }
      }
      WordCountBelow(init, maxNumTokens);
    }
  }

  /** Word bound: `selected` holds at most `max(max_num_tokens, 1)` words.
      Markers are never checked, so its length may be larger. */
  lemma TruncateWordBound(items: seq<Item>, maxNumTokens: int)
    ensures WordCount(Truncate(items, maxNumTokens)) <= Max(maxNumTokens, 1)
  {
    TruncateShape(items, maxNumTokens);
    var t := Truncate(items, maxNumTokens);
    if NoStop(items, maxNumTokens) {
      WordCountBelow(items, maxNumTokens);
    } else {
      WordCountBelow(t[..|t| - 1], maxNumTokens);
    }
  }

  /** Markers count toward the length but are never checked: with a
      budget of one token, the document "\n\na" (two empty paragraphs,
      then the word `a`) selects three items, one of them a word. */
  lemma MarkersOverrunBudget(sentTok: string -> seq<string>, wordTok: string -> seq<string>)
    requires sentTok("") == [] && sentTok("a") == ["a"] && wordTok("a") == ["a"]
    ensures var t := Truncate(DocItems(Split("\n\na", '\n'), sentTok, wordTok), 1);
            |t| == 3 && WordCount(t) == 1
  {
    var paras := Split("\n\na", '\n');
    assert "\n\na"[1..] == "\na" && "\na"[1..] == "a" && "a"[1..] == "";
    assert Split("", '\n') == [""];
    assert ['a'] + "" == "a";
    assert Split("a", '\n') == ["a"];
    assert Split("\na", '\n') == ["", "a"];
    assert paras == ["", "", "a"];
    assert SentenceItems(["a"], wordTok) == [Word("a")];
    assert DocItems(paras[..1], sentTok, wordTok) == [Break];
    assert DocItems(paras[..2], sentTok, wordTok) == [Break, Break];
    var items := DocItems(paras, sentTok, wordTok);
    assert items == [Break, Break, Word("a"), Break];
    assert !StopsAt(items, 1, 0) && !StopsAt(items, 1, 1) && StopsAt(items, 1, 2);
    assert CutFrom(items, 1, 0) == CutFrom(items, 1, 1) == CutFrom(items, 1, 2) == 3;
    var t := items[..3];
    assert Truncate(items, 1) == t == [Break, Break, Word("a")];
    assert t[..2] == [Break, Break] && t[..2][..1] == [Break] && t[..2][..1][..0] == [];
    assert WordCount([]) == 0;
    assert WordCount([Break]) == 0;
    assert WordCount([Break, Break]) == 0;
  }

  lemma {:induction false} WordsOfPrefix(a: seq<Item>, b: seq<Item>)
    requires a <= b
    ensures WordsOf(a) <= WordsOf(b)
    decreases |b|
  {
    if |a| < |b| {
      var init := b[..|b| - 1];
      assert a <= init;
      WordsOfPrefix(a, init);
    } else {
      assert a == b;
    }
  }

  /** Prefix property, markers ignored: the selected words are a prefix
      of all the document's words. */
  lemma TruncateWordsPrefix(items: seq<Item>, maxNumTokens: int)
    ensures WordsOf(Truncate(items, maxNumTokens)) <= WordsOf(items)
  {
    TruncateShape(items, maxNumTokens);
    WordsOfPrefix(Truncate(items, maxNumTokens), items);
  }

  /** The stream of a document ends with a marker; so when the budget is
      never reached, `selected` ends with a trailing line break. */
  lemma WholeDocumentEndsWithBreak(paras: seq<string>, sentTok: string -> seq<string>,
                                   wordTok: string -> seq<string>, maxNumTokens: int)
    requires paras != []
    requires NoStop(DocItems(paras, sentTok, wordTok), maxNumTokens)
    ensures var t := Truncate(DocItems(paras, sentTok, wordTok), maxNumTokens);
            t == DocItems(paras, sentTok, wordTok) && t != [] && t[|t| - 1] == Break
  {
    TruncateShape(DocItems(paras, sentTok, wordTok), maxNumTokens);
  }

  lemma {:induction false} SentenceItemsPrefix(sents: seq<string>, wordTok: string -> seq<string>, j: nat)
    requires j <= |sents|
    ensures SentenceItems(sents[..j], wordTok) <= SentenceItems(sents, wordTok)
    decreases |sents|
  {
    if j < |sents| {
      var init := sents[..|sents| - 1];
      assert sents[..j] == init[..j];
      SentenceItemsPrefix(init, wordTok, j);
    } else {
      assert sents[..j] == sents;
    }
  }

  lemma {:induction false} DocItemsPrefix(paras: seq<string>, sentTok: string -> seq<string>,
                                          wordTok: string -> seq<string>, i: nat)
    requires i <= |paras|
    ensures DocItems(paras[..i], sentTok, wordTok) <= DocItems(paras, sentTok, wordTok)
    decreases |paras|
  {
    if i < |paras| {
      var init := paras[..|paras| - 1];
      assert paras[..i] == init[..i];
      DocItemsPrefix(init, sentTok, wordTok, i);
    } else {
      assert paras[..i] == paras;
    }
  }

  lemma NoStopSnoc(items: seq<Item>, x: Item, maxNumTokens: int)
    requires NoStop(items, maxNumTokens)
    requires !(x.Word? && |items| + 1 >= maxNumTokens)
    ensures NoStop(items + [x], maxNumTokens)
  {
    var s := items + [x];
    forall q | 0 <= q < |s| ensures !(s[q].Word? && q + 1 >= maxNumTokens) {
      if q < |items| { assert s[q] == items[q]; }
    }
  }

  /** Where the loops stand when word `k` of sentence `j` of paragraph
      `i` has just been appended: a prefix of the document's stream. */
  lemma StreamPrefixAt(paras: seq<string>, sentTok: string -> seq<string>, wordTok: string -> seq<string>,
                       i: nat, j: nat, k: nat)
    requires i < |paras| && j < |sentTok(paras[i])| && k < |wordTok(sentTok(paras[i])[j])|
    ensures var sents := sentTok(paras[i]);
            DocItems(paras[..i], sentTok, wordTok) + SentenceItems(sents[..j], wordTok)
              + Words(wordTok(sents[j])[..k + 1])
            <= DocItems(paras, sentTok, wordTok)
  {
    var sents := sentTok(paras[i]);
    var words := wordTok(sents[j]);
    var head := DocItems(paras[..i], sentTok, wordTok);
    assert Words(words[..k + 1]) <= Words(words);
    assert sents[..j + 1][..j] == sents[..j];
    assert SentenceItems(sents[..j + 1], wordTok) == SentenceItems(sents[..j], wordTok) + Words(words);
    SentenceItemsPrefix(sents, wordTok, j + 1);
    assert paras[..i + 1][..i] == paras[..i];
    assert DocItems(paras[..i + 1], sentTok, wordTok) == head + SentenceItems(sents, wordTok) + [Break];
    DocItemsPrefix(paras, sentTok, wordTok, i + 1);
  }

  /** One pass of the innermost loop: word `k` of sentence `j` of
      paragraph `i` is appended. If that brings the length to the budget
      the selection is complete, otherwise no stop has occurred yet. */
  lemma WordStep(paras: seq<string>, sentTok: string -> seq<string>, wordTok: string -> seq<string>,
                 maxNumTokens: int, i: nat, j: nat, k: nat, selected: seq<Item>)
    requires i < |paras| && j < |sentTok(paras[i])| && k < |wordTok(sentTok(paras[i])[j])|
    requires selected == DocItems(paras[..i], sentTok, wordTok) + SentenceItems(sentTok(paras[i])[..j], wordTok)
                         + Words(wordTok(sentTok(paras[i])[j])[..k])
    requires NoStop(selected, maxNumTokens)
    ensures var words := wordTok(sentTok(paras[i])[j]);
            var next := selected + [Word(words[k])];
            && next == DocItems(paras[..i], sentTok, wordTok) + SentenceItems(sentTok(paras[i])[..j], wordTok)
                       + Words(words[..k + 1])
            && (|next| >= maxNumTokens ==> Truncate(DocItems(paras, sentTok, wordTok), maxNumTokens) == next)
            && (|next| < maxNumTokens ==> NoStop(next, maxNumTokens))
  {
    var words := wordTok(sentTok(paras[i])[j]);
    var next := selected + [Word(words[k])];
    assert Words(words[..k + 1]) == Words(words[..k]) + [Word(words[k])];
    if |next| >= maxNumTokens {
      StreamPrefixAt(paras, sentTok, wordTok, i, j, k);
      TruncateUnique(DocItems(paras, sentTok, wordTok), maxNumTokens, next);
    } else {
      NoStopSnoc(selected, Word(words[k]), maxNumTokens);
    }
  }

  /** The innermost loop ran to the end of sentence `j`. */
  lemma SentenceStep(paras: seq<string>, sentTok: string -> seq<string>, wordTok: string -> seq<string>,
                     i: nat, j: nat, selected: seq<Item>)
    requires i < |paras| && j < |sentTok(paras[i])|
    requires var words := wordTok(sentTok(paras[i])[j]);
             selected == DocItems(paras[..i], sentTok, wordTok) + SentenceItems(sentTok(paras[i])[..j], wordTok)
                         + Words(words[..|words|])
    ensures selected == DocItems(paras[..i], sentTok, wordTok) + SentenceItems(sentTok(paras[i])[..j + 1], wordTok)
  {
    var sents := sentTok(paras[i]);
    var words := wordTok(sents[j]);
    assert words[..|words|] == words;
    assert sents[..j + 1][..j] == sents[..j];
  }

  /** The middle loop ran to the end of paragraph `i`; the marker follows. */
  lemma ParagraphStep(paras: seq<string>, sentTok: string -> seq<string>, wordTok: string -> seq<string>,
                      maxNumTokens: int, i: nat, selected: seq<Item>)
    requires i < |paras|
    requires var sents := sentTok(paras[i]);
             selected == DocItems(paras[..i], sentTok, wordTok) + SentenceItems(sents[..|sents|], wordTok)
    requires NoStop(selected, maxNumTokens)
    ensures selected + [Break] == DocItems(paras[..i + 1], sentTok, wordTok)
    ensures NoStop(selected + [Break], maxNumTokens)
  {
    var sents := sentTok(paras[i]);
    assert sents[..|sents|] == sents;
    assert paras[..i + 1][..i] == paras[..i];
    NoStopSnoc(selected, Break, maxNumTokens);
  }

  /** The excerpt `select_relevant_portion` returns: the selected tokens
      joined with single spaces, stripped. */
  function Excerpt(text: string, maxNumTokens: int,
                   sentTok: string -> seq<string>, wordTok: string -> seq<string>): string
  {
    Strip(Join(" ", Texts(Truncate(DocItems(Split(text, '\n'), sentTok, wordTok), maxNumTokens))))
  }

  /** The triple loop of `select_relevant_portion`, with its `done` flag
      and `break`s, collects exactly `Truncate` of the document's stream. */
  method SelectRelevantPortion(text: string, maxNumTokens: int,
                               sentTok: string -> seq<string>, wordTok: string -> seq<string>)
    returns (st: string)
    ensures st == Excerpt(text, maxNumTokens, sentTok, wordTok)
  {
    var paras := Split(text, '\n');
    var selected: seq<Item> := [];
    var done := false;
    var i := 0;
    while i < |paras|
      invariant 0 <= i <= |paras| && !done
      invariant selected == DocItems(paras[..i], sentTok, wordTok)
      invariant NoStop(selected, maxNumTokens)
    {
      var sents := sentTok(paras[i]);
      var j := 0;
      assert sents[..0] == [];
      while j < |sents|
        invariant 0 <= j <= |sents| && !done
        invariant selected == DocItems(paras[..i], sentTok, wordTok) + SentenceItems(sents[..j], wordTok)
        invariant NoStop(selected, maxNumTokens)
      {
        var words := wordTok(sents[j]);
        var k := 0;
        assert Words(words[..0]) == [];
        while k < |words|
          invariant 0 <= k <= |words| && !done
          invariant selected == DocItems(paras[..i], sentTok, wordTok) + SentenceItems(sents[..j], wordTok)
                                + Words(words[..k])
          invariant NoStop(selected, maxNumTokens)
        {
          WordStep(paras, sentTok, wordTok, maxNumTokens, i, j, k, selected);
          selected := selected + [Word(words[k])];
          if |selected| >= maxNumTokens {
            done := true;
            break;
          }
          k := k + 1;
        }
        if done {
          break;
        }
        SentenceStep(paras, sentTok, wordTok, i, j, selected);
        j := j + 1;
      }
      if done {
        break;
      }
      ParagraphStep(paras, sentTok, wordTok, maxNumTokens, i, selected);
      selected := selected + [Break];
      i := i + 1;
    }
    if !done {
      assert paras[..i] == paras;
      TruncateUnique(DocItems(paras, sentTok, wordTok), maxNumTokens, selected);
    }
    st := Strip(Join(" ", Texts(selected)));
  }
}
