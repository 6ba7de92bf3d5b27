/** `generateSlug` (AnticcaReale-main/src/hooks/useFirestore.ts): the URL slug of a blog
    post title, built by a chain of lower-casing and regular-expression replacements. */
module Slug {
  import opened Seqs
  import opened Text

  /** The six `.replace(/ğ/g, 'g')` … `.replace(/ç/g, 'c')` calls, one character at a time. */
  function FoldTurkish(c: char): char
  {
    if c == 'ğ' then 'g'
    else if c == 'ü' then 'u'
    else if c == 'ş' then 's'
    else if c == 'ı' then 'i'
    else if c == 'ö' then 'o'
    else if c == 'ç' then 'c'
    else c
  }

  /** The six letters the replacements remove. */
  predicate IsTurkishLower(c: char)
  {
    c == 'ğ' || c == 'ü' || c == 'ş' || c == 'ı' || c == 'ö' || c == 'ç'
  }

  /** The six replacements in a row: none of the six letters is left, each becomes an ASCII
      lower-case letter, and every other character is kept. */
  function FoldAll(s: string): (r: string)
    ensures |r| == |s|
    ensures forall i :: 0 <= i < |r| ==> !IsTurkishLower(r[i])
    ensures forall i :: 0 <= i < |s| && !IsTurkishLower(s[i]) ==> r[i] == s[i]
    ensures forall i :: 0 <= i < |s| && IsTurkishLower(s[i]) ==> 'a' <= r[i] <= 'z'
  {
    seq(|s|, i requires 0 <= i < |s| => FoldTurkish(s[i]))
  }

  /** Folding twice is folding once. */
  lemma FoldIdempotent(s: string)
    ensures FoldAll(FoldAll(s)) == FoldAll(s)
  {
  }

  /** The characters `[a-z0-9\s-]` that `.replace(/[^a-z0-9\s-]/g, '')` keeps. */
  predicate Kept(c: char)
  {
    'a' <= c <= 'z' || '0' <= c <= '9' || IsSpace(c) || c == '-'
  }

  predicate IsDash(c: char) { c == '-' }

  /** `.replace(/x+/g, rep)` read one character at a time, where `inRun` is the class `x`:
      a character of the class becomes `rep` when it starts a run and vanishes when it
      continues one, and every other character is copied. `afterRun` says whether the
      character before `s` belonged to the class. */
  function CollapseScan(s: string, inRun: char -> bool, rep: char, afterRun: bool): string
    decreases |s|
  {
    if s == [] then []
    else if inRun(s[0]) then (if afterRun then [] else [rep]) + CollapseScan(s[1..], inRun, rep, true)
    else [s[0]] + CollapseScan(s[1..], inRun, rep, false)
  }

  /** `.replace(/x+/g, rep)` where `inRun` is the class `x`: every maximal run of
      characters of the class becomes the single character `rep`, and every other
      character is kept in order, as the scan above says. */
  function CollapseRuns(s: string, inRun: char -> bool, rep: char): (r: string)
    ensures r == CollapseScan(s, inRun, rep, false)
    ensures s == [] <==> r == []
    ensures s != [] && !inRun(s[0]) ==> r[0] == s[0]
    ensures s != [] && inRun(s[0]) ==> r[0] == rep
    decreases |s|
  {
    if s == [] then []
    else if inRun(s[0]) then
      SkipRun(s[1..], inRun, rep);
      [rep] + CollapseRuns(DropWhile(s, inRun), inRun, rep)
    else [s[0]] + CollapseRuns(s[1..], inRun, rep)
  }

  /** Inside a run, the scan skips to the run's end and starts afresh there. */
  lemma {:induction false} SkipRun(s: string, inRun: char -> bool, rep: char)
    ensures CollapseScan(s, inRun, rep, true) == CollapseScan(DropWhile(s, inRun), inRun, rep, false)
    decreases |s|
  {
    if s != [] && inRun(s[0]) {
      SkipRun(s[1..], inRun, rep);
    }
  }

  /** Collapsing keeps, in order, every character of a class `p` that lies outside the
      run class and does not contain `rep`. */
  lemma {:induction false} CollapseKeepsOthers(s: string, inRun: char -> bool, rep: char, afterRun: bool, p: char -> bool)
    requires !p(rep)
    requires forall i :: 0 <= i < |s| ==> p(s[i]) ==> !inRun(s[i])
    ensures Filter(CollapseScan(s, inRun, rep, afterRun), p) == Filter(s, p)
    decreases |s|
  {
    if s != [] {
      var next := inRun(s[0]);
      CollapseKeepsOthers(s[1..], inRun, rep, next, p);
      var head := if next then (if afterRun then [] else [rep]) else [s[0]];
      assert CollapseScan(s, inRun, rep, afterRun) == head + CollapseScan(s[1..], inRun, rep, next);
      FilterAppend(head, CollapseScan(s[1..], inRun, rep, next), p);
    }
  }

  /** The chain before its final `.trim()`. */
  function Untrimmed(title: string): string
  {
    var kept := Filter(FoldAll(Lower(title)), Kept);
    CollapseRuns(CollapseRuns(kept, IsSpace, '-'), IsDash, '-')
  }

  /** `generateSlug(title)`, as written. */
  function GenerateSlug(title: string): string
  {
    Trim(Untrimmed(title))
  }

  /** The characters a slug may hold. */
  predicate SlugChar(c: char)
  {
    'a' <= c <= 'z' || '0' <= c <= '9' || c == '-'
  }

  /** Only slug characters, and never two hyphens in a row. */
  predicate SlugShaped(s: string)
  {
    && (forall i :: 0 <= i < |s| ==> SlugChar(s[i]))
    && (forall i :: 0 <= i < |s| - 1 ==> !(s[i] == '-' && s[i + 1] == '-'))
  }

  /** When `rep` belongs to the class, no two characters of the class are adjacent in the
      result. */
  lemma {:induction false} CollapseSeparates(s: string, inRun: char -> bool, rep: char)
    requires inRun(rep)
    ensures forall i :: 0 <= i < |CollapseRuns(s, inRun, rep)| - 1 ==>
      !(inRun(CollapseRuns(s, inRun, rep)[i]) && inRun(CollapseRuns(s, inRun, rep)[i + 1]))
    decreases |s|
  {
    if s != [] {
      var r := CollapseRuns(s, inRun, rep);
      var t: string;
      if inRun(s[0]) {
        t := DropWhile(s, inRun);
      } else {
        t := s[1..];
      }
      var rest := CollapseRuns(t, inRun, rep);
      CollapseSeparates(t, inRun, rep);
      assert r == [r[0]] + rest;
      forall i | 0 <= i < |r| - 1 ensures !(inRun(r[i]) && inRun(r[i + 1])) {
        if i == 0 {
          assert r[1] == rest[0];
        } else {
          assert r[i] == rest[i - 1] && r[i + 1] == rest[i];
        }
      }
    }
  }

  /** Characters of a class `ok` that contains `rep` stay in it: the result holds only
      `rep` and characters of the input outside the run class. */
  lemma {:induction false} CollapseKeeps(s: string, inRun: char -> bool, rep: char, ok: char -> bool)
    requires ok(rep)
    requires forall i :: 0 <= i < |s| ==> inRun(s[i]) || ok(s[i])
    ensures forall i :: 0 <= i < |CollapseRuns(s, inRun, rep)| ==>
      ok(CollapseRuns(s, inRun, rep)[i])
      && (CollapseRuns(s, inRun, rep)[i] == rep || !inRun(CollapseRuns(s, inRun, rep)[i]))
    decreases |s|
  {
    if s != [] {
      var r := CollapseRuns(s, inRun, rep);
      var t: string;
      if inRun(s[0]) {
        t := DropWhile(s, inRun);
        forall i | 0 <= i < |t| ensures inRun(t[i]) || ok(t[i]) {
          assert t[i] == s[i + |s| - |t|];
        }
      } else {
        t := s[1..];
      }
      var rest := CollapseRuns(t, inRun, rep);
      CollapseKeeps(t, inRun, rep, ok);
      assert r == [r[0]] + rest;
      forall i | 1 <= i < |r| ensures ok(r[i]) && (r[i] == rep || !inRun(r[i])) {
        assert r[i] == rest[i - 1];
      }
    }
  }

  /** A string with no character of the class is left alone. */
  lemma {:induction false} CollapseNone(s: string, inRun: char -> bool, rep: char)
    requires forall i :: 0 <= i < |s| ==> !inRun(s[i])
    ensures CollapseRuns(s, inRun, rep) == s
    decreases |s|
  {
    if s != [] {
      CollapseNone(s[1..], inRun, rep);
    }
  }

  /** A string whose class characters are all `rep` and never adjacent is left alone. */
  lemma {:induction false} CollapseSingles(s: string, inRun: char -> bool, rep: char)
    requires forall i :: 0 <= i < |s| ==> inRun(s[i]) ==> s[i] == rep
    requires forall i :: 0 <= i < |s| - 1 ==> !(inRun(s[i]) && inRun(s[i + 1]))
    ensures CollapseRuns(s, inRun, rep) == s
    decreases |s|
  {
    if s != [] {
      CollapseSingles(s[1..], inRun, rep);
      if inRun(s[0]) {
        assert DropWhile(s[1..], inRun) == s[1..];
      }
    }
  }

  /** The untrimmed chain already yields a slug-shaped string. */
  lemma UntrimmedIsSlugShaped(title: string)
    ensures SlugShaped(Untrimmed(title))
  {
    var folded := FoldAll(Lower(title));
    var kept := Filter(folded, Kept);
    FilterSound(folded, Kept);
    CollapseKeeps(kept, IsSpace, '-', SlugChar);
    var spaced := CollapseRuns(kept, IsSpace, '-');
    CollapseKeeps(spaced, IsDash, '-', SlugChar);
    CollapseSeparates(spaced, IsDash, '-');
    assert Untrimmed(title) == CollapseRuns(spaced, IsDash, '-');
  }

  /** `trim` leaves a slug-shaped string alone: it has no whitespace. */
  lemma TrimSlugShaped(u: string)
    requires SlugShaped(u)
    ensures Trim(u) == u
  {
  }

  /** The final `.trim()` never changes anything: every whitespace run has become a
      hyphen by then. */
  lemma TrimNeverApplies(title: string)
    ensures GenerateSlug(title) == Untrimmed(title)
  {
    UntrimmedIsSlugShaped(title);
    TrimSlugShaped(Untrimmed(title));
  }

  /** The slug has only `[a-z0-9-]` and never `--`. */
  lemma SlugAlphabet(title: string)
    ensures SlugShaped(GenerateSlug(title))
  {
    TrimNeverApplies(title);
    UntrimmedIsSlugShaped(title);
  }

  /** A slug-shaped string is its own slug. */
  lemma {:induction false} SlugShapedIsFixed(s: string)
    requires SlugShaped(s)
    ensures GenerateSlug(s) == s
  {
    assert Lower(s) == s;
    assert FoldAll(s) == s;
    FilterAll(s, Kept);
    CollapseNone(s, IsSpace, '-');
    CollapseSingles(s, IsDash, '-');
  }

  /** Slugging a slug changes nothing. */
  lemma SlugIdempotent(title: string)
    ensures GenerateSlug(GenerateSlug(title)) == GenerateSlug(title)
  {
    SlugAlphabet(title);
    SlugShapedIsFixed(GenerateSlug(title));
  }

  /** The letters and digits a slug keeps. */
  predicate Alnum(c: char)
  {
    'a' <= c <= 'z' || '0' <= c <= '9'
  }

  /** The slug keeps every lower-case letter and digit of the lower-cased, folded title, in
      order: only white space, hyphens and the characters the filter drops are changed. */
  lemma SlugKeepsLettersAndDigits(title: string)
    ensures Filter(GenerateSlug(title), Alnum) == Filter(FoldAll(Lower(title)), Alnum)
  {
    TrimNeverApplies(title);
    var folded := FoldAll(Lower(title));
    var kept := Filter(folded, Kept);
    FilterTwice(folded, Kept, Alnum, Alnum);
    CollapseKeepsOthers(kept, IsSpace, '-', false, Alnum);
    var spaced := CollapseRuns(kept, IsSpace, '-');
    CollapseKeepsOthers(spaced, IsDash, '-', false, Alnum);
  }

  /** A title that starts with whitespace gets a slug that starts with a hyphen, since the
      whitespace became a hyphen before the trim ran: " Osmanlı Saati" gives "-osmanli-saati". */
  lemma LeadingSpaceLeavesLeadingDash(title: string)
    requires title != [] && IsSpace(title[0])
    ensures GenerateSlug(title) != [] && GenerateSlug(title)[0] == '-'
  {
    TrimNeverApplies(title);
    var folded := FoldAll(Lower(title));
    LeadingSpaceSurvivesFolding(title);
    var kept := Filter(folded, Kept);
    LeadingSpaceIsKept(folded);
    assert CollapseRuns(kept, IsSpace, '-')[0] == '-';
  }

  lemma LeadingSpaceSurvivesFolding(title: string)
    requires title != [] && IsSpace(title[0])
    ensures FoldAll(Lower(title)) != [] && IsSpace(FoldAll(Lower(title))[0])
  {
    assert Lower(title)[0] == title[0];
  }

  lemma LeadingSpaceIsKept(s: string)
    requires s != [] && IsSpace(s[0])
    ensures Filter(s, Kept) != [] && IsSpace(Filter(s, Kept)[0])
  {
  }

  /** Neither the first nor the last character is a hyphen. */
  predicate NoEdgeDash(s: string)
  {
    s != [] ==> s[0] != '-' && s[|s| - 1] != '-'
  }

  /** The slug the code evidently means: also without a leading or trailing hyphen. */
  function TrimmedSlug(title: string): string
  {
    DropWhileEnd(DropWhile(GenerateSlug(title), IsDash), IsDash)
  }

  /** The corrected slug keeps the alphabet and the single hyphens, starts and ends with a
      letter or digit, and slugging it again changes nothing. */
  lemma TrimmedSlugIsClean(title: string)
    ensures SlugShaped(TrimmedSlug(title))
    ensures NoEdgeDash(TrimmedSlug(title))
    ensures TrimmedSlug(TrimmedSlug(title)) == TrimmedSlug(title)
  {
    SlugAlphabet(title);
    StripDashes(GenerateSlug(title));
    var r := TrimmedSlug(title);
    SlugShapedIsFixed(r);
    StripDashesOfClean(r);
  }

  /** Stripping hyphens at both ends keeps a string slug-shaped and leaves no hyphen at
      either end. */
  lemma StripDashes(s: string)
    requires SlugShaped(s)
    ensures SlugShaped(DropWhileEnd(DropWhile(s, IsDash), IsDash))
    ensures NoEdgeDash(DropWhileEnd(DropWhile(s, IsDash), IsDash))
  {
    var a := DropWhile(s, IsDash);
    SliceIsSlugShaped(s, |s| - |a|, |s|);
    var r := DropWhileEnd(a, IsDash);
    SliceIsSlugShaped(a, 0, |r|);
    assert r == a[0..|r|];
  }

  /** A string that neither starts nor ends with a hyphen has nothing to strip. */
  lemma StripDashesOfClean(r: string)
    requires NoEdgeDash(r)
    ensures DropWhileEnd(DropWhile(r, IsDash), IsDash) == r
  {
  }

  lemma SliceIsSlugShaped(s: string, i: nat, j: nat)
    requires i <= j <= |s| && SlugShaped(s)
    ensures SlugShaped(s[i..j])
  {
  }
}
