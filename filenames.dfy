/** Evidence file names: the sanitisation `get_text` applies before it
    opens a document, and the nearest-name search `correct_file_name`
    uses to repair a missing file. */
module FileNames {
  import opened Values
  import opened PyStr

  /** `name.replace(':', '_').replace('?', '').replace('*', '_')`. */
  function Sanitize(name: string): string
  {
    Replace(Replace(Replace(name, ':', "_"), '?', ""), '*', "_")
  }

  /** Reference definition, one character at a time: what a single
      character of the name turns into. */
  function CharImage(c: char): string
  {
    if c == ':' || c == '*' then "_" else if c == '?' then "" else [c]
  }

  function SanitizeRef(name: string): string
  {
    if name == [] then [] else CharImage(name[0]) + SanitizeRef(name[1..])
  }

  /** The name with every `?` deleted. */
  function WithoutQuestionMarks(name: string): (w: string)
  {
    if name == [] then []
    else (if name[0] == '?' then [] else [name[0]]) + WithoutQuestionMarks(name[1..])
  }

  /** What a kept character becomes: `:` and `*` become `_`. */
  function Fix(c: char): char
  {
    if c == ':' || c == '*' then '_' else c
  }

  /** The chain of three `replace` calls agrees with the per-character
      reference definition. */
  lemma {:induction false} SanitizeIsPerCharacter(name: string)
    ensures Sanitize(name) == SanitizeRef(name)
  {
    if name != [] {
      var c, rest := name[0], name[1..];
      SanitizeIsPerCharacter(rest);
      var r1 := Replace(rest, ':', "_");
      var r2 := Replace(r1, '?', "");
      var h1 := if c == ':' then "_" else [c];
      assert Replace(name, ':', "_") == h1 + r1;
      ReplaceAppend(h1, r1, '?', "");
      var h2 := Replace(h1, '?', "");
      assert h2 == if c == '?' then "" else h1;
      ReplaceAppend(h2, r2, '*', "_");
      assert Replace(h2, '*', "_") == CharImage(c);
    }
  }

  /** The sanitised name contains none of `:`, `?` and `*`. */
  lemma {:induction false} SanitizeRefClean(name: string)
    ensures ':' !in SanitizeRef(name) && '?' !in SanitizeRef(name) && '*' !in SanitizeRef(name)
  {
    if name != [] {
      SanitizeRefClean(name[1..]);
    }
  }

  lemma SanitizeClean(name: string)
    ensures ':' !in Sanitize(name) && '?' !in Sanitize(name) && '*' !in Sanitize(name)
  {
    SanitizeIsPerCharacter(name);
    SanitizeRefClean(name);
  }

  /** Every character other than `?` is kept, in order, with `:` and `*`
      turned into `_`; the length drops by the number of `?`. */
  lemma {:induction false} SanitizeRefKeeps(name: string)
    ensures |WithoutQuestionMarks(name)| == |name| - Count(name, '?')
    ensures |SanitizeRef(name)| == |WithoutQuestionMarks(name)|
    ensures forall k :: 0 <= k < |SanitizeRef(name)| ==>
              SanitizeRef(name)[k] == Fix(WithoutQuestionMarks(name)[k])
  {
    if name != [] {
      SanitizeRefKeeps(name[1..]);
      var w, r := WithoutQuestionMarks(name[1..]), SanitizeRef(name[1..]);
      if name[0] != '?' {
        assert WithoutQuestionMarks(name) == [name[0]] + w;
        assert SanitizeRef(name) == [Fix(name[0])] + r;
      }
    }
  }

  lemma SanitizeKeeps(name: string)
    ensures |Sanitize(name)| == |name| - Count(name, '?')
    ensures |Sanitize(name)| == |WithoutQuestionMarks(name)|
    ensures forall k :: 0 <= k < |Sanitize(name)| ==>
              Sanitize(name)[k] == Fix(WithoutQuestionMarks(name)[k])
  {
    SanitizeIsPerCharacter(name);
    SanitizeRefKeeps(name);
  }

  /** Sanitising twice is the same as sanitising once: this is why a
      second run finds the file under the name the first run used. */
  lemma SanitizeIdempotent(name: string)
    ensures Sanitize(Sanitize(name)) == Sanitize(name)
  {
    var s := Sanitize(name);
    SanitizeClean(name);
    ReplaceAbsent(s, ':', "_");
    ReplaceAbsent(s, '?', "");
    ReplaceAbsent(s, '*', "_");
  }

  /** Distinct names can share a sanitised form, so a document id built
      from the question id and the sanitised name need not be unique. */
  lemma SanitizeNotInjective()
    ensures "a:b" != "a*b" && Sanitize("a:b") == Sanitize("a*b")
  {
    SanitizeIsPerCharacter("a:b");
    SanitizeIsPerCharacter("a*b");
    assert SanitizeRef("a:b") == "a_b";
    assert SanitizeRef("a*b") == "a_b";
  }

  /** The search of `correct_file_name`: scan the directory listing and
      keep the candidate with the smallest distance to the target, taking
      a candidate only when its distance is strictly below the best so far
      (the first distance always is, the initial bound being infinity). */
  method NearestFileName(target: string, candidates: seq<string>, distance: (string, string) -> int)
    returns (bestMatch: Option<string>)
    ensures bestMatch.None? <==> candidates == []
    ensures bestMatch.Some? ==>
              exists k :: 0 <= k < |candidates| && bestMatch.value == candidates[k]
                && (forall j :: 0 <= j < |candidates| ==> distance(target, candidates[k]) <= distance(target, candidates[j]))
                && (forall j :: 0 <= j < k ==> distance(target, candidates[j]) > distance(target, candidates[k]))
  {
    bestMatch := None;
    var minDistance: int := 0;  // meaningful only once bestMatch is Some
    ghost var bestIndex := 0;
    for i := 0 to |candidates|
      invariant bestMatch.None? <==> i == 0
      invariant bestMatch.Some? ==>
                  bestIndex < i && bestMatch.value == candidates[bestIndex]
                  && minDistance == distance(target, candidates[bestIndex])
                  && (forall j :: 0 <= j < i ==> minDistance <= distance(target, candidates[j]))
                  && (forall j :: 0 <= j < bestIndex ==> distance(target, candidates[j]) > minDistance)
    {
      var d := distance(target, candidates[i]);
      if bestMatch.None? || d < minDistance {
        minDistance := d;
        bestMatch := Some(candidates[i]);
        bestIndex := i;
      }
    }
  }
}
