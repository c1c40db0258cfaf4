/** `slugify` from the publisher: the company name becomes the directory and branch
    component. The chain is lower-case, strip, collapse whitespace runs, collapse hyphen
    runs, `trim`. The final `trim` removes whitespace only, and none is left by then, so
    hyphens at either end survive. */
module Slug {
  import opened Text

  /** `.replace(/[^\w\s-]/g, '')` keeps exactly these characters. */
  predicate Kept(c: char) {
    IsWordChar(c) || IsSpace(c) || c == '-'
  }

  function StripDisallowed(s: string): (r: string)
    ensures forall c :: c in r ==> c in s && Kept(c)
  {
    if |s| == 0 then ""
    else if Kept(s[0]) then [s[0]] + StripDisallowed(s[1..])
    else StripDisallowed(s[1..])
  }

  /** The characters of `s` that are neither whitespace nor `-`, in order: what the two
      collapsing stages must carry through unchanged. */
  function Letters(s: string): string
  {
    if |s| == 0 then ""
    else if IsSpace(s[0]) || s[0] == '-' then Letters(s[1..])
    else [s[0]] + Letters(s[1..])
  }

  /** `.replace(/\s+/g, '-')`: each maximal whitespace run becomes one `-`
      (the run's last character is the one replaced, the others are dropped). */
  function SpaceRunsToHyphen(s: string): (r: string)
    ensures NoSpace(r)
    ensures forall c :: c in r ==> (c in s && !IsSpace(c)) || c == '-'
  {
    if |s| == 0 then ""
    else if IsSpace(s[0]) then
      if |s| > 1 && IsSpace(s[1]) then SpaceRunsToHyphen(s[1..]) else "-" + SpaceRunsToHyphen(s[1..])
    else [s[0]] + SpaceRunsToHyphen(s[1..])
  }

  predicate NoDoubleHyphen(s: string) {
    forall i :: 0 <= i < |s| - 1 ==> !(s[i] == '-' && s[i + 1] == '-')
  }

  /** `.replace(/-+/g, '-')`: each maximal hyphen run becomes one `-`. */
  function SqueezeHyphens(s: string): (r: string)
    ensures |s| == 0 <==> |r| == 0
    ensures |s| > 0 ==> r[0] == s[0]
    ensures forall c :: c in r <==> c in s
    ensures NoDoubleHyphen(r)
  {
    if |s| == 0 then ""
    else if s[0] == '-' && |s| > 1 && s[1] == '-' then SqueezeHyphens(s[1..])
    else [s[0]] + SqueezeHyphens(s[1..])
  }

  /** The characters a slug is made of: `\w` after lower-casing, and `-`. */
  predicate IsSlugChar(c: char) {
    IsAsciiLower(c) || IsDigit(c) || c == '_' || c == '-'
  }

  predicate IsSlug(s: string) {
    (forall i :: 0 <= i < |s| ==> IsSlugChar(s[i])) && NoDoubleHyphen(s)
  }

  function Slugify(text: string): (r: string)
    ensures IsSlug(r)
    ensures NoSpace(r)
  {
    var squeezed := SqueezeHyphens(SpaceRunsToHyphen(StripDisallowed(LowerAscii(text))));
    SqueezedIsSlug(text);
    Trim(squeezed)
  }

  /** Every character that survives the first four stages is a slug character. */
  lemma SqueezedIsSlug(text: string)
    ensures IsSlug(SqueezeHyphens(SpaceRunsToHyphen(StripDisallowed(LowerAscii(text)))))
    ensures NoSpace(SqueezeHyphens(SpaceRunsToHyphen(StripDisallowed(LowerAscii(text)))))
  {
    var lowered := LowerAscii(text);
    var stripped := StripDisallowed(lowered);
    var hyphened := SpaceRunsToHyphen(stripped);
    var squeezed := SqueezeHyphens(hyphened);
    forall i | 0 <= i < |squeezed| ensures IsSlugChar(squeezed[i]) && !IsSpace(squeezed[i]) {
      var c := squeezed[i];
      assert c in hyphened;
      if c != '-' {
        assert c in stripped && !IsSpace(c);
        assert Kept(c) && c in lowered;
      }
    }
  }

  // Every stage leaves a slug unchanged.

  lemma {:induction false} LowerKeepsSlug(s: string)
    requires IsSlug(s)
    ensures LowerAscii(s) == s
  {
  }

  lemma SlugCharIsKept(c: char)
    requires IsSlugChar(c)
    ensures Kept(c)
  {
  }

  lemma {:induction false} StripKeepsSlug(s: string)
    requires IsSlug(s)
    ensures StripDisallowed(s) == s
  {
    if |s| > 0 {
      SlugCharIsKept(s[0]);
      assert IsSlug(s[1..]);
      StripKeepsSlug(s[1..]);
      assert s == [s[0]] + s[1..];
    }
  }

  lemma SlugCharIsNotSpace(c: char)
    requires IsSlugChar(c)
    ensures !IsSpace(c)
  {
  }

  lemma {:induction false} SpaceRunsKeepSlug(s: string)
    requires IsSlug(s)
    ensures SpaceRunsToHyphen(s) == s
  {
    if |s| > 0 {
      SlugCharIsNotSpace(s[0]);
      SpaceRunsHead(s);
      assert IsSlug(s[1..]);
      SpaceRunsKeepSlug(s[1..]);
      assert s == [s[0]] + s[1..];
    }
  }

  lemma {:induction false} SqueezeKeepsSlug(s: string)
    requires IsSlug(s)
    ensures SqueezeHyphens(s) == s
  {
    if |s| > 0 {
      assert IsSlug(s[1..]);
      SqueezeKeepsSlug(s[1..]);
    }
  }

  /** A slug is a fixed point of `slugify`. */
  lemma SlugifyFixesSlugs(s: string)
    requires IsSlug(s)
    ensures Slugify(s) == s
  {
    LowerKeepsSlug(s);
    StripKeepsSlug(s);
    SpaceRunsKeepSlug(s);
    SqueezeKeepsSlug(s);
  }

  /** `slugify(slugify(x)) == slugify(x)`. */
  lemma SlugifyIdempotent(text: string)
    ensures Slugify(Slugify(text)) == Slugify(text)
  {
    SlugifyFixesSlugs(Slugify(text));
  }

  /** The final `.trim()` never changes anything: no whitespace is left by then. */
  lemma SlugifyTrimIsNoOp(text: string)
    ensures Slugify(text) == SqueezeHyphens(SpaceRunsToHyphen(StripDisallowed(LowerAscii(text))))
  {
  }

  lemma {:induction false} StripAppend(a: string, b: string)
    ensures StripDisallowed(a + b) == StripDisallowed(a) + StripDisallowed(b)
  {
    if |a| > 0 {
      assert (a + b)[1..] == a[1..] + b;
      StripAppend(a[1..], b);
    } else {
      assert a + b == b;
    }
  }

  lemma {:induction false} StripAllKept(s: string)
    requires forall i :: 0 <= i < |s| ==> Kept(s[i])
    ensures StripDisallowed(s) == s
  {
    if |s| > 0 {
      StripAllKept(s[1..]);
    }
  }

  /** Collapsing whitespace runs keeps every other character, in order. */
  lemma {:induction false} SpaceRunsKeepLetters(s: string)
    ensures Letters(SpaceRunsToHyphen(s)) == Letters(s)
  {
    if |s| > 0 {
      var rest := SpaceRunsToHyphen(s[1..]);
      SpaceRunsKeepLetters(s[1..]);
      if IsSpace(s[0]) && !(|s| > 1 && IsSpace(s[1])) {
        assert ("-" + rest)[1..] == rest;
      } else if !IsSpace(s[0]) {
        assert ([s[0]] + rest)[1..] == rest;
      }
    }
  }

  /** Whitespace anywhere in the input leaves a `-` in the result. */
  lemma {:induction false} SpaceRunsMarkSpace(s: string, i: nat)
    requires i < |s| && IsSpace(s[i])
    ensures '-' in SpaceRunsToHyphen(s)
  {
    var rest := SpaceRunsToHyphen(s[1..]);
    if i == 0 {
      if |s| > 1 && IsSpace(s[1]) {
        SpaceRunsMarkSpace(s[1..], 0);
      } else {
        assert ("-" + rest)[0] == '-';
      }
    } else {
      SpaceRunsMarkSpace(s[1..], i - 1);
      if !IsSpace(s[0]) {
        assert SpaceRunsToHyphen(s) == [s[0]] + rest;
      } else if !(|s| > 1 && IsSpace(s[1])) {
        assert SpaceRunsToHyphen(s) == "-" + rest;
      }
    }
  }

  /** Collapsing hyphen runs keeps every other character, in order. */
  lemma {:induction false} SqueezeKeepsLetters(s: string)
    ensures Letters(SqueezeHyphens(s)) == Letters(s)
  {
    if |s| > 0 {
      SqueezeKeepsLetters(s[1..]);
      if !(s[0] == '-' && |s| > 1 && s[1] == '-') {
        assert ([s[0]] + SqueezeHyphens(s[1..]))[1..] == SqueezeHyphens(s[1..]);
      }
    }
  }

  /** A non-whitespace first character is copied and the stage continues after it. */
  lemma SpaceRunsHead(s: string)
    requires |s| > 0 && !IsSpace(s[0])
    ensures SpaceRunsToHyphen(s) == [s[0]] + SpaceRunsToHyphen(s[1..])
  {
  }

  lemma HeadThenTail(w: string, x: string)
    requires |w| > 0
    ensures [w[0]] + (w[1..] + x) == w + x
  {
    assert w == [w[0]] + w[1..];
  }

  lemma {:induction false} SpaceRunsAfterWord(w: string, rest: string)
    requires NoSpace(w)
    ensures SpaceRunsToHyphen(w + rest) == w + SpaceRunsToHyphen(rest)
  {
    if |w| > 0 {
      var s := w + rest;
      assert s[0] == w[0] && !IsSpace(s[0]);
      assert s[1..] == w[1..] + rest;
      SpaceRunsHead(s);
      SpaceRunsAfterWord(w[1..], rest);
      HeadThenTail(w, SpaceRunsToHyphen(rest));
    } else {
      assert w + rest == rest;
    }
  }

  lemma {:induction false} SpaceRunsLeading(s: string)
    requires |s| > 0 && IsSpace(s[0])
    ensures |SpaceRunsToHyphen(s)| > 0 && SpaceRunsToHyphen(s)[0] == '-'
  {
    if |s| > 1 && IsSpace(s[1]) {
      SpaceRunsLeading(s[1..]);
    }
  }

  lemma {:induction false} SpaceRunsTrailing(s: string)
    requires |s| > 0 && IsSpace(s[|s| - 1])
    ensures |SpaceRunsToHyphen(s)| > 0 && SpaceRunsToHyphen(s)[|SpaceRunsToHyphen(s)| - 1] == '-'
  {
    if |s| > 1 {
      var t := s[1..];
      assert t[|t| - 1] == s[|s| - 1];
      SpaceRunsTrailing(t);
      var rt := SpaceRunsToHyphen(t);
      if !IsSpace(s[0]) {
        assert SpaceRunsToHyphen(s) == [s[0]] + rt;
      } else if IsSpace(s[1]) {
        assert SpaceRunsToHyphen(s) == rt;
      } else {
        assert SpaceRunsToHyphen(s) == "-" + rt;
      }
    }
  }

  /** A whitespace run followed by a non-whitespace character (or nothing) becomes exactly
      one `-`: with `SpaceRunsAfterWord` this determines the stage on every input. */
  lemma {:induction false} SpaceRunCollapses(run: string, rest: string)
    requires |run| > 0 && AllSpace(run)
    requires |rest| == 0 || !IsSpace(rest[0])
    ensures SpaceRunsToHyphen(run + rest) == "-" + SpaceRunsToHyphen(rest)
  {
    var s := run + rest;
    assert s[0] == run[0] && s[1..] == run[1..] + rest;
    if |run| > 1 {
      assert s[1] == run[1];
      SpaceRunCollapses(run[1..], rest);
    } else {
      assert s[1..] == rest;
    }
  }

  /** A run of hyphens followed by another character (or nothing) becomes one `-`. */
  lemma {:induction false} HyphenRunCollapses(run: string, rest: string)
    requires |run| > 0 && forall i :: 0 <= i < |run| ==> run[i] == '-'
    requires |rest| == 0 || rest[0] != '-'
    ensures SqueezeHyphens(run + rest) == "-" + SqueezeHyphens(rest)
  {
    var s := run + rest;
    assert s[0] == run[0] && s[1..] == run[1..] + rest;
    if |run| > 1 {
      assert s[1] == run[1];
      HyphenRunCollapses(run[1..], rest);
    } else {
      assert s[1..] == rest;
    }
  }

  /** Any other character is kept as it is. */
  lemma SqueezeKeepsOther(c: char, rest: string)
    requires c != '-'
    ensures SqueezeHyphens([c] + rest) == [c] + SqueezeHyphens(rest)
  {
    assert ([c] + rest)[1..] == rest;
  }

  lemma {:induction false} SqueezeKeepsLast(s: string)
    requires |s| > 0
    ensures SqueezeHyphens(s)[|SqueezeHyphens(s)| - 1] == s[|s| - 1]
  {
    if |s| > 1 {
      SqueezeKeepsLast(s[1..]);
    }
  }

  /** Whitespace at the start of the name becomes a leading `-` of the slug. */
  lemma SlugifyLeadingSpace(text: string)
    requires |text| > 0 && IsSpace(text[0])
    ensures |Slugify(text)| > 0 && Slugify(text)[0] == '-'
  {
    var lowered := LowerAscii(text);
    assert lowered == lowered[..1] + lowered[1..];
    StripAppend(lowered[..1], lowered[1..]);
    assert StripDisallowed(lowered[..1]) == lowered[..1];
    SpaceRunsLeading(StripDisallowed(lowered));
  }

  lemma StrippedEndsInSpace(text: string)
    requires |text| > 0 && IsSpace(text[|text| - 1])
    ensures |StripDisallowed(LowerAscii(text))| > 0
    ensures IsSpace(StripDisallowed(LowerAscii(text))[|StripDisallowed(LowerAscii(text))| - 1])
  {
    var lowered := LowerAscii(text);
    var n := |lowered|;
    var last := lowered[n - 1..];
    assert IsSpace(lowered[n - 1]) && last == [lowered[n - 1]];
    assert lowered == lowered[..n - 1] + last;
    StripAppend(lowered[..n - 1], last);
    assert StripDisallowed(last) == last;
  }

  /** Whitespace at the end of the name becomes a trailing `-` of the slug. */
  lemma SlugifyTrailingSpace(text: string)
    requires |text| > 0 && IsSpace(text[|text| - 1])
    ensures |Slugify(text)| > 0 && Slugify(text)[|Slugify(text)| - 1] == '-'
  {
    StrippedEndsInSpace(text);
    var stripped := StripDisallowed(LowerAscii(text));
    SpaceRunsTrailing(stripped);
    var hyphened := SpaceRunsToHyphen(stripped);
    SqueezeKeepsLast(hyphened);
    SqueezedIsSlug(text);
  }

  lemma SpaceRunsOfWord(w: string)
    requires NoSpace(w)
    ensures SpaceRunsToHyphen(w) == w
  {
    SpaceRunsAfterWord(w, "");
    assert w + "" == w;
  }

  /** Chains the stages: once the stripped and hyphenated forms are known and the latter
      is already a slug, it is the result. */
  lemma SlugifyVia(text: string, stripped: string, hyphened: string)
    requires StripDisallowed(LowerAscii(text)) == stripped
    requires SpaceRunsToHyphen(stripped) == hyphened
    requires IsSlug(hyphened)
    ensures Slugify(text) == hyphened
  {
    SlugifyTrimIsNoOp(text);
    SqueezeKeepsSlug(hyphened);
  }

  // The examples below take their literals as parameters and establish one fact per
  // helper: stated about literals directly, the recursive stages are unrolled
  // character by character and the solver runs out of resources.

  lemma TechCorpStripped(name: string, lowered: string, dot: string)
    requires name == "TechCorp Inc." && lowered == "techcorp inc" && dot == "."
    ensures StripDisallowed(LowerAscii(name)) == lowered
  {
    assert LowerAscii(name) == lowered + dot;
    StripAppend(lowered, dot);
    TechCorpKept(lowered);
    DotDropped(dot);
  }

  lemma TechCorpKept(lowered: string)
    requires lowered == "techcorp inc"
    ensures StripDisallowed(lowered) == lowered
  {
    assert forall i :: 0 <= i < |lowered| ==> lowered[i] == ' ' || 'a' <= lowered[i] <= 'z';
    StripAllKept(lowered);
  }

  lemma DotDropped(dot: string)
    requires dot == "."
    ensures StripDisallowed(dot) == ""
  {
  }

  lemma TechCorpHyphened(lowered: string, word: string, rest: string, tail: string)
    requires lowered == "techcorp inc" && word == "techcorp" && rest == " inc" && tail == "inc"
    ensures SpaceRunsToHyphen(lowered) == word + "-" + tail
  {
    assert lowered == word + rest;
    WordsHaveNoSpace(word, tail);
    SpaceRunsAfterWord(word, rest);
    LeadingSpaceOfInc(rest, tail);
    SpaceRunsOfWord(tail);
  }

  lemma TechCorpJoined(word: string, tail: string, slug: string)
    requires word == "techcorp" && tail == "inc" && slug == "techcorp-inc"
    ensures word + "-" + tail == slug
  {
  }

  lemma LeadingSpaceOfInc(rest: string, tail: string)
    requires rest == " inc" && tail == "inc"
    ensures SpaceRunsToHyphen(rest) == "-" + SpaceRunsToHyphen(tail)
  {
  }

  lemma WordsHaveNoSpace(a: string, b: string)
    requires a == "techcorp" && b == "inc"
    ensures NoSpace(a) && NoSpace(b)
  {
  }

  /** Punctuation is dropped and the inner space becomes a hyphen. */
  lemma SlugifyDropsPunctuation(name: string, slug: string)
    requires name == "TechCorp Inc." && slug == "techcorp-inc"
    ensures Slugify(name) == slug
  {
    var lowered, word, rest, tail, dot := "techcorp inc", "techcorp", " inc", "inc", ".";
    TechCorpStripped(name, lowered, dot);
    TechCorpHyphened(lowered, word, rest, tail);
    TechCorpJoined(word, tail, slug);
    SlugLiteral(slug);
    SlugifyVia(name, lowered, slug);
  }

  lemma SlugLiteral(slug: string)
    requires slug == "techcorp-inc" || slug == "-acme-"
    ensures IsSlug(slug)
  {
  }

  lemma AcmeStripped(name: string, lowered: string)
    requires name == " Acme " && lowered == " acme "
    ensures StripDisallowed(LowerAscii(name)) == lowered
  {
    assert LowerAscii(name) == lowered;
    StripAllKept(lowered);
  }

  lemma AcmeHyphened(lowered: string, word: string, hyphened: string)
    requires lowered == " acme " && word == "acme" && hyphened == "-acme-"
    ensures SpaceRunsToHyphen(lowered) == hyphened
  {
    LeadingSpaceOfAcme(lowered);
    assert lowered[1..] == word + " ";
    AcmeHasNoSpace(word);
    SpaceRunsAfterWord(word, " ");
    assert "-" + word + "-" == hyphened;
  }

  lemma LeadingSpaceOfAcme(lowered: string)
    requires lowered == " acme "
    ensures SpaceRunsToHyphen(lowered) == "-" + SpaceRunsToHyphen(lowered[1..])
  {
  }

  lemma AcmeHasNoSpace(word: string)
    requires word == "acme"
    ensures NoSpace(word)
  {
  }

  /** The surrounding spaces of a padded name become hyphens at the edges
      instead of being trimmed away. */
  lemma SlugifyKeepsEdgeHyphens(name: string, slug: string)
    requires name == " Acme " && slug == "-acme-"
    ensures Slugify(name) == slug
  {
    var lowered, word := " acme ", "acme";
    AcmeStripped(name, lowered);
    AcmeHyphened(lowered, word, slug);
    SlugLiteral(slug);
    SlugifyVia(name, lowered, slug);
  }
}
