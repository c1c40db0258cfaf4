/** The writing-sample list both pages keep: the word count of a sample's content
    (`content.trim().split(/\s+/).length`) and removal by id (`filter(s => s.id !== id)`). */
module Samples {
  import opened Text
  import opened Types

  /** Index of the first whitespace character, or `|s|`. */
  function FirstSpace(s: string): (i: nat)
    ensures i <= |s|
    ensures i < |s| ==> IsSpace(s[i])
    ensures forall k :: 0 <= k < i ==> !IsSpace(s[k])
  {
    if |s| == 0 || IsSpace(s[0]) then 0 else 1 + FirstSpace(s[1..])
  }

  /** End of the whitespace run that starts at `i`: the greedy `\s+` match. */
  function SpaceRunEnd(s: string, i: nat): (j: nat)
    requires i <= |s|
    ensures i <= j <= |s|
    ensures forall k :: i <= k < j ==> IsSpace(s[k])
    ensures j < |s| ==> !IsSpace(s[j])
    decreases |s| - i
  {
    if i < |s| && IsSpace(s[i]) then SpaceRunEnd(s, i + 1) else i
  }

  /** `s.split(/\s+/)`: the pieces between maximal whitespace runs, with an empty first
      piece when `s` starts with whitespace, an empty last piece when it ends with it,
      and `[""]` for the empty string. */
  function SplitOnSpace(s: string): (r: seq<string>)
    ensures |r| >= 1
    ensures forall k :: 0 <= k < |r| ==> NoSpace(r[k])
    decreases |s|
  {
    var i := FirstSpace(s);
    if i == |s| then [s]
    else
      var j := SpaceRunEnd(s, i + 1);
      [s[..i]] + SplitOnSpace(s[j..])
  }

  /** The `wordCount` stored with a sample. */
  function WordCount(content: string): nat
  {
    |SplitOnSpace(Trim(content))|
  }

  /** The number of positions in `s` that start a word — a non-whitespace character
      after whitespace, or at the start when `afterSpace` holds. */
  function WordStarts(s: string, afterSpace: bool): nat
  {
    if |s| == 0 then 0
    else (if afterSpace && !IsSpace(s[0]) then 1 else 0) + WordStarts(s[1..], IsSpace(s[0]))
  }

  /** The number of maximal non-whitespace runs of `s`. */
  function Words(s: string): nat
  {
    WordStarts(s, true)
  }

  lemma {:induction false} WordStartsAppend(a: string, b: string, afterSpace: bool)
    ensures WordStarts(a + b, afterSpace) ==
              WordStarts(a, afterSpace) + WordStarts(b, if |a| == 0 then afterSpace else IsSpace(a[|a| - 1]))
  {
    if |a| > 0 {
      assert (a + b)[1..] == a[1..] + b;
      WordStartsAppend(a[1..], b, IsSpace(a[0]));
    } else {
      assert a + b == b;
    }
  }

  lemma {:induction false} WordStartsAllSpace(s: string, afterSpace: bool)
    requires AllSpace(s)
    ensures WordStarts(s, afterSpace) == 0
  {
    if |s| > 0 {
      WordStartsAllSpace(s[1..], true);
    }
  }

  /** A single word contributes one start, if it follows whitespace. */
  lemma {:induction false} WordStartsOneWord(s: string, afterSpace: bool)
    requires |s| > 0 && NoSpace(s)
    ensures WordStarts(s, afterSpace) == if afterSpace then 1 else 0
  {
    if |s| > 1 {
      WordStartsOneWord(s[1..], false);
    }
  }

  /** Leading whitespace adds no word. */
  lemma DropLeadingSpace(lead: string, t: string)
    requires AllSpace(lead)
    ensures Words(lead + t) == Words(t)
  {
    WordStartsAppend(lead, t, true);
    WordStartsAllSpace(lead, true);
  }

  /** Trailing whitespace adds no word. */
  lemma DropTrailingSpace(u: string, trail: string, afterSpace: bool)
    requires AllSpace(trail)
    ensures WordStarts(u + trail, afterSpace) == WordStarts(u, afterSpace)
  {
    WordStartsAppend(u, trail, afterSpace);
    WordStartsAllSpace(trail, if |u| == 0 then afterSpace else IsSpace(u[|u| - 1]));
  }

  /** Leading whitespace adds no word. */
  lemma TrimStartKeepsWords(s: string)
    ensures Words(TrimStart(s)) == Words(s)
  {
    var t := TrimStart(s);
    assert s == s[..|s| - |t|] + t;
    DropLeadingSpace(s[..|s| - |t|], t);
  }

  /** Trailing whitespace adds no word. */
  lemma TrimEndKeepsWords(t: string)
    ensures Words(TrimEnd(t)) == Words(t)
  {
    var u := TrimEnd(t);
    assert t == u + t[|u|..];
    DropTrailingSpace(u, t[|u|..], true);
  }

  /** Whitespace around a string changes neither its words nor where they start. */
  lemma TrimKeepsWords(s: string)
    ensures Words(Trim(s)) == Words(s)
  {
    TrimStartKeepsWords(s);
    TrimEndKeepsWords(TrimStart(s));
  }

  /** The words of a word, a whitespace run and the rest are the word and the rest's. */
  lemma WordThenSpace(w: string, run: string, rest: string)
    requires |w| > 0 && NoSpace(w) && |run| > 0 && AllSpace(run)
    ensures Words(w + (run + rest)) == 1 + Words(rest)
  {
    WordStartsAppend(w, run + rest, true);
    WordStartsOneWord(w, true);
    WordStartsAppend(run, rest, false);
    WordStartsAllSpace(run, false);
  }

  /** The same, for a string cut at `i` and `j`. */
  lemma WordThenSpaceAt(t: string, i: nat, j: nat)
    requires 0 < i < j <= |t| && NoSpace(t[..i]) && AllSpace(t[i..j])
    ensures Words(t) == 1 + Words(t[j..])
  {
    assert t == t[..i] + (t[i..j] + t[j..]) by {
      assert t[i..j] + t[j..] == t[i..];
    }
    WordThenSpace(t[..i], t[i..j], t[j..]);
  }

  /** On a string without edge whitespace that has a whitespace run, the run ends before
      the last character: what follows it is again a string without edge whitespace. */
  lemma RunEndsInside(t: string)
    requires |t| > 0 && !IsSpace(t[0]) && !IsSpace(t[|t| - 1]) && FirstSpace(t) < |t|
    ensures 0 < FirstSpace(t) < SpaceRunEnd(t, FirstSpace(t) + 1) < |t|
  {
  }

  /** One step of `split`: the first piece, then the pieces after the whitespace run. */
  lemma SplitStep(t: string)
    requires FirstSpace(t) < |t|
    ensures |SplitOnSpace(t)| == 1 + |SplitOnSpace(t[SpaceRunEnd(t, FirstSpace(t) + 1)..])|
  {
  }

  /** The first piece has no whitespace and the run after it is all whitespace. */
  lemma RunPieces(t: string)
    requires FirstSpace(t) < |t|
    ensures NoSpace(t[..FirstSpace(t)])
    ensures AllSpace(t[FirstSpace(t)..SpaceRunEnd(t, FirstSpace(t) + 1)])
  {
    var i := FirstSpace(t);
    var j := SpaceRunEnd(t, i + 1);
    assert IsSpace(t[i]);
    assert forall k :: i + 1 <= k < j ==> IsSpace(t[k]);
    forall k | 0 <= k < j - i
      ensures IsSpace(t[i..j][k])
    {
      assert t[i..j][k] == t[i + k];
    }
  }

  /** One step of the word count: the first word, then the words after the whitespace run. */
  lemma WordsStep(t: string)
    requires |t| > 0 && !IsSpace(t[0]) && !IsSpace(t[|t| - 1]) && FirstSpace(t) < |t|
    ensures Words(t) == 1 + Words(t[SpaceRunEnd(t, FirstSpace(t) + 1)..])
  {
    RunEndsInside(t);
    RunPieces(t);
    WordThenSpaceAt(t, FirstSpace(t), SpaceRunEnd(t, FirstSpace(t) + 1));
  }

  /** On a string without edge whitespace, `split(/\s+/)` yields exactly its words. */
  lemma {:induction false} SplitCountsWords(t: string)
    requires |t| > 0 && !IsSpace(t[0]) && !IsSpace(t[|t| - 1])
    ensures |SplitOnSpace(t)| == Words(t)
    decreases |t|
  {
    if FirstSpace(t) == |t| {
      WordStartsOneWord(t, true);
    } else {
      RunEndsInside(t);
      SplitStep(t);
      WordsStep(t);
      SplitCountsWords(t[SpaceRunEnd(t, FirstSpace(t) + 1)..]);
    }
  }

  /** `wordCount` is the number of maximal non-whitespace runs for content with any
      non-whitespace character, and 1 for blank content. */
  lemma WordCountCountsWords(content: string)
    ensures !IsBlank(content) ==> WordCount(content) == Words(content)
    ensures IsBlank(content) ==> WordCount(content) == 1
  {
    var t := Trim(content);
    if t != "" {
      SplitCountsWords(t);
      TrimKeepsWords(content);
    }
  }

  /** `samples.filter(s => s.id !== id)`. */
  function Without(samples: seq<WritingSample>, id: string): (r: seq<WritingSample>)
    ensures |r| <= |samples|
    ensures forall k :: 0 <= k < |r| ==> r[k].id != id
  {
    if |samples| == 0 then []
    else (if samples[0].id == id then [] else [samples[0]]) + Without(samples[1..], id)
  }

  /** Removal drops exactly the samples carrying `id`, and every one of them. */
  lemma {:induction false} WithoutMembers(samples: seq<WritingSample>, id: string, x: WritingSample)
    ensures x in Without(samples, id) <==> x in samples && x.id != id
  {
    if |samples| > 0 {
      WithoutMembers(samples[1..], id, x);
      assert samples == [samples[0]] + samples[1..];
    }
  }

  /** Removal works piecewise, so the samples it keeps stay in their original order. */
  lemma {:induction false} WithoutAppend(a: seq<WritingSample>, b: seq<WritingSample>, id: string)
    ensures Without(a + b, id) == Without(a, id) + Without(b, id)
  {
    if |a| > 0 {
      var head := if a[0].id == id then [] else [a[0]];
      assert (a + b)[0] == a[0] && (a + b)[1..] == a[1..] + b;
      assert Without(a + b, id) == head + Without(a[1..] + b, id);
      WithoutAppend(a[1..], b, id);
      assert Without(a, id) == head + Without(a[1..], id);
    } else {
      assert a + b == b;
    }
  }

  /** Removing an id no sample carries changes nothing. */
  lemma {:induction false} WithoutAbsentId(samples: seq<WritingSample>, id: string)
    requires forall k :: 0 <= k < |samples| ==> samples[k].id != id
    ensures Without(samples, id) == samples
  {
    if |samples| > 0 {
      WithoutAbsentId(samples[1..], id);
    }
  }

  /** Adding a sample under a fresh id and then removing that id restores the list. */
  lemma AddThenRemove(samples: seq<WritingSample>, x: WritingSample)
    requires forall k :: 0 <= k < |samples| ==> samples[k].id != x.id
    ensures Without(samples + [x], x.id) == samples
  {
    WithoutAppend(samples, [x], x.id);
    WithoutAbsentId(samples, x.id);
    assert Without([x], x.id) == [];
  }

  /** Removing the same id twice is the same as removing it once. */
  lemma WithoutIdempotent(samples: seq<WritingSample>, id: string)
    ensures Without(Without(samples, id), id) == Without(samples, id)
  {
    WithoutAbsentId(Without(samples, id), id);
  }
}
