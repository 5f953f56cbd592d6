/**
 * Slug derivation of the post editor (client/src/pages/admin/PostEditor.tsx,
 * `handleTitleChange`):
 *
 *   title.toLowerCase().replace(/[^a-z0-9]+/g, "-").replace(/^-|-$/g, "")
 */
module Slug {
  import opened JsText
  import opened Seqs
  import Schema

  predicate IsAlnum(c: char) {
    ('a' <= c <= 'z') || ('0' <= c <= '9')
  }

  /** No two consecutive hyphens. */
  predicate NoDoubleHyphen(s: string) {
    forall i :: 0 <= i < |s| - 1 ==> !(s[i] == '-' && s[i + 1] == '-')
  }

  predicate AllSlugChars(s: string) {
    forall i :: 0 <= i < |s| ==> Schema.IsSlugChar(s[i])
  }

  /** The letters and digits of `s`, in order. */
  function AlnumOf(s: string): string
    decreases |s|
  {
    if s == [] then [] else (if IsAlnum(s[0]) then [s[0]] else []) + AlnumOf(s[1..])
  }

  /**
   * `.replace(/[^a-z0-9]+/g, "-")`: every maximal run of characters outside
   * `[a-z0-9]` becomes one hyphen. A character of a run that is followed by
   * another one of the run is dropped; the last one of the run becomes `-`.
   */
  function CollapseRuns(s: string): (r: string)
    ensures r == [] <==> s == []
    ensures s != [] ==> (r[0] == '-' <==> !IsAlnum(s[0]))
    ensures s != [] ==> (r[|r| - 1] == '-' <==> !IsAlnum(s[|s| - 1]))
    decreases |s|
  {
    if s == [] then []
    else if IsAlnum(s[0]) then [s[0]] + CollapseRuns(s[1..])
    else if |s| > 1 && !IsAlnum(s[1]) then CollapseRuns(s[1..])
    else "-" + CollapseRuns(s[1..])
  }

  /** The collapsed string holds only slug characters. */
  lemma {:induction false} CollapseSlugChars(s: string)
    ensures AllSlugChars(CollapseRuns(s))
    decreases |s|
  {
    if s != [] {
      CollapseSlugChars(s[1..]);
      var r, r' := CollapseRuns(s), CollapseRuns(s[1..]);
      if IsAlnum(s[0]) {
        assert r == [s[0]] + r';
      } else if !(|s| > 1 && !IsAlnum(s[1])) {
        assert r == "-" + r';
      }
    }
  }

  /** The collapsed string never holds two hyphens in a row. */
  lemma {:induction false} CollapseNoDoubleHyphen(s: string)
    ensures NoDoubleHyphen(CollapseRuns(s))
    decreases |s|
  {
    if s != [] {
      CollapseNoDoubleHyphen(s[1..]);
      var r, r' := CollapseRuns(s), CollapseRuns(s[1..]);
      if IsAlnum(s[0]) {
        assert r == [s[0]] + r';
      } else if !(|s| > 1 && !IsAlnum(s[1])) {
        assert r == "-" + r';
        assert r' != [] ==> r'[0] != '-';
      }
    }
  }

  /** The collapsed string holds exactly the letters and digits of its input. */
  lemma {:induction false} CollapseKeepsAlnum(s: string)
    ensures AlnumOf(CollapseRuns(s)) == AlnumOf(s)
    decreases |s|
  {
    if s != [] {
      CollapseKeepsAlnum(s[1..]);
      var r, r' := CollapseRuns(s), CollapseRuns(s[1..]);
      if IsAlnum(s[0]) {
        assert r == [s[0]] + r';
        assert r[1..] == r';
      } else if |s| > 1 && !IsAlnum(s[1]) {
        assert r == r';
      } else {
        assert r == "-" + r';
        assert r[1..] == r';
      }
    }
  }

  /** The `^-` alternative: one leading hyphen. */
  function DropLeadingHyphen(s: string): string {
    if s != [] && s[0] == '-' then s[1..] else s
  }

  /** The `-$` alternative: one trailing hyphen. */
  function DropTrailingHyphen(s: string): string {
    if s != [] && s[|s| - 1] == '-' then s[..|s| - 1] else s
  }

  /** `.replace(/^-|-$/g, "")`: drop one leading and one trailing hyphen (a
      lone "-" is matched once, by `^-`). */
  function StripHyphens(s: string): string {
    DropTrailingHyphen(DropLeadingHyphen(s))
  }

  /** The slug the editor derives from a title. */
  function Slugify(title: string): string {
    StripHyphens(CollapseRuns(ToLower(title)))
  }

  lemma DropLeadingShape(c: string)
    requires AllSlugChars(c) && NoDoubleHyphen(c)
    ensures var t := DropLeadingHyphen(c);
      && AllSlugChars(t) && NoDoubleHyphen(t)
      && (t != [] ==> t[0] != '-')
      && AlnumOf(t) == AlnumOf(c)
  {
    if c != [] && c[0] == '-' {
      var t := c[1..];
      assert t != [] ==> t[0] == c[1];
      assert AlnumOf(c) == AlnumOf(t);
    }
  }

  lemma DropTrailingShape(t: string)
    requires AllSlugChars(t) && NoDoubleHyphen(t)
    requires t != [] ==> t[0] != '-'
    ensures var r := DropTrailingHyphen(t);
      && AllSlugChars(r) && NoDoubleHyphen(r)
      && (r != [] ==> r[0] != '-' && r[|r| - 1] != '-')
      && AlnumOf(r) == AlnumOf(t)
  {
    if t != [] && t[|t| - 1] == '-' {
      var r := t[..|t| - 1];
      AlnumOfAppend(r, "-");
      assert t == r + "-";
      assert r != [] ==> r[|r| - 1] == t[|t| - 2] && r[0] == t[0];
    }
  }

  /** Stripping the end hyphens of a collapsed string keeps it collapsed,
      leaves no hyphen at either end, and keeps every letter and digit. */
  lemma StripShape(c: string)
    requires AllSlugChars(c) && NoDoubleHyphen(c)
    ensures var r := StripHyphens(c);
      && AllSlugChars(r)
      && NoDoubleHyphen(r)
      && (r != [] ==> r[0] != '-' && r[|r| - 1] != '-')
      && AlnumOf(r) == AlnumOf(c)
  {
    DropLeadingShape(c);
    DropTrailingShape(DropLeadingHyphen(c));
  }

  /** What a derived slug looks like: only `[a-z0-9-]`, no `--`, no hyphen at
      either end, and exactly the (lower-cased) letters and digits of the
      title, in order. */
  lemma SlugShape(title: string)
    ensures var r := Slugify(title);
      && AllSlugChars(r)
      && NoDoubleHyphen(r)
      && (r != [] ==> r[0] != '-' && r[|r| - 1] != '-')
      && AlnumOf(r) == AlnumOf(ToLower(title))
  {
    CollapseSlugChars(ToLower(title));
    CollapseNoDoubleHyphen(ToLower(title));
    CollapseKeepsAlnum(ToLower(title));
    StripShape(CollapseRuns(ToLower(title)));
  }

  lemma {:induction false} AlnumOfAppend(a: string, b: string)
    ensures AlnumOf(a + b) == AlnumOf(a) + AlnumOf(b)
    decreases |a|
  {
    if a == [] {
      assert a + b == b;
    } else {
      var h := if IsAlnum(a[0]) then [a[0]] else [];
      assert (a + b)[0] == a[0] && (a + b)[1..] == a[1..] + b;
      assert AlnumOf(a + b) == h + AlnumOf(a[1..] + b);
      AlnumOfAppend(a[1..], b);
      AppendAssoc(h, AlnumOf(a[1..]), AlnumOf(b));
    }
  }

  /** A slug is empty exactly when the title has no ASCII letter or digit. */
  lemma SlugEmptyIffNoAlnum(title: string)
    ensures Slugify(title) == [] <==> AlnumOf(ToLower(title)) == []
  {
    SlugShape(title);
    var r := Slugify(title);
    if r != [] {
      assert IsAlnum(r[0]);
      assert AlnumOf(r) != [];
    }
  }

  /** The derived slug passes the schema's character-class pattern exactly when
      it is non-empty (the 3-character minimum is a separate rule). */
  lemma SlugMatchesPatternIffNonEmpty(title: string)
    ensures Schema.MatchesSlugPattern(Slugify(title)) <==> Slugify(title) != []
  {
    SlugShape(title);
  }

  // ---------------------------------------------------------------------------
  // The slug as the title's words joined by hyphens

  predicate IsSeparator(c: char) {
    !IsAlnum(c)
  }

  /** The non-empty strings of `ws`, in order. */
  function NonEmpty(ws: seq<string>): seq<string>
    decreases |ws|
  {
    if ws == [] then [] else (if ws[0] == [] then [] else [ws[0]]) + NonEmpty(ws[1..])
  }

  /** `ws.join(sep)` */
  function JoinWith(ws: seq<string>, sep: string): string
    decreases |ws|
  {
    if ws == [] then [] else if |ws| == 1 then ws[0] else ws[0] + sep + JoinWith(ws[1..], sep)
  }

  /** The maximal runs of letters and digits of `s`, in order. */
  function Words(s: string): seq<string> {
    NonEmpty(SplitWhere(s, IsSeparator))
  }

  function Lead(s: string): string {
    if s != [] && !IsAlnum(s[0]) then "-" else ""
  }

  function Trail(s: string): string {
    if s != [] && !IsAlnum(s[|s| - 1]) then "-" else ""
  }

  lemma JoinExtendHead(c: char, w: string, ws: seq<string>)
    ensures JoinWith([[c] + w] + ws, "-") == [c] + JoinWith([w] + ws, "-")
  {
    assert ([[c] + w] + ws)[1..] == ws == ([w] + ws)[1..];
  }

  lemma JoinPrepend(w: string, ws: seq<string>)
    requires ws != []
    ensures JoinWith([w] + ws, "-") == w + "-" + JoinWith(ws, "-")
  {
    assert ([w] + ws)[1..] == ws;
  }

  /** Collapsing the runs of `s` gives its words joined by hyphens, with one
      more hyphen for a run at either end (a single one when `s` has no word). */
  ghost predicate CollapsesToJoin(s: string) {
    CollapseRuns(s) ==
      if Words(s) == [] then (if s == [] then "" else "-")
      else Lead(s) + JoinWith(Words(s), "-") + Trail(s)
  }

  /** How the first piece of the split of `s'` decides its words. */
  lemma WordsUnfold(s': string)
    ensures var p' := SplitWhere(s', IsSeparator);
      Words(s') == (if p'[0] == [] then [] else [p'[0]]) + NonEmpty(p'[1..])
    ensures s' != [] && IsAlnum(s'[0]) ==> SplitWhere(s', IsSeparator)[0] != []
    ensures s' != [] && !IsAlnum(s'[0]) ==> SplitWhere(s', IsSeparator)[0] == []
  {
    if s' != [] && IsAlnum(s'[0]) {
      assert SplitWhere(s', IsSeparator)[0] == [s'[0]] + SplitWhere(s'[1..], IsSeparator)[0];
    }
  }

  /** The inductive step when the string starts with a letter or digit that ends it. */
  lemma CollapseStepAlnumLast(c: char)
    requires IsAlnum(c)
    ensures CollapsesToJoin([c])
  {
    var s := [c];
    assert s[1..] == [];
    var rest := SplitWhere(s[1..], IsSeparator);
    assert rest == [[]];
    assert !IsSeparator(s[0]);
    assert [s[0]] + rest[0] == [c] && rest[1..] == [];
    assert SplitWhere(s, IsSeparator) == [[c]];
    var e: seq<string> := [];
    assert NonEmpty([[c]]) == [[c]] by { assert [[c]][1..] == e; }
  }

  /** The words of a string whose first two characters are letters or digits:
      the first word grows by the first character. */
  lemma WordsAlnumAlnum(s: string)
    requires |s| >= 2 && IsAlnum(s[0]) && IsAlnum(s[1])
    ensures Words(s[1..]) != []
    ensures Words(s) == [[s[0]] + Words(s[1..])[0]] + Words(s[1..])[1..]
  {
    var p' := SplitWhere(s[1..], IsSeparator);
    WordsUnfold(s[1..]);
    assert SplitWhere(s, IsSeparator) == [[s[0]] + p'[0]] + p'[1..];
  }

  /** The words of a string whose first character ends a word: that word, then the rest's. */
  lemma WordsAlnumSep(s: string)
    requires |s| >= 2 && IsAlnum(s[0]) && !IsAlnum(s[1])
    ensures Words(s) == [[s[0]]] + Words(s[1..])
  {
    var p' := SplitWhere(s[1..], IsSeparator);
    WordsUnfold(s[1..]);
    assert SplitWhere(s, IsSeparator) == [[s[0]] + p'[0]] + p'[1..];
    assert [s[0]] + p'[0] == [s[0]];
  }

  /** A leading separator adds no word. */
  lemma WordsSep(s: string)
    requires s != [] && !IsAlnum(s[0])
    ensures Words(s) == Words(s[1..])
  {
    assert SplitWhere(s, IsSeparator) == [[]] + SplitWhere(s[1..], IsSeparator);
  }

  /** The inductive step when a letter or digit is followed by another. */
  lemma CollapseStepAlnumAlnum(s: string)
    requires |s| >= 2 && IsAlnum(s[0]) && IsAlnum(s[1])
    requires CollapsesToJoin(s[1..])
    ensures CollapsesToJoin(s)
  {
    var c, s' := s[0], s[1..];
    WordsAlnumAlnum(s);
    var w' := Words(s');
    assert w' == [w'[0]] + w'[1..];
    JoinExtendHead(c, w'[0], w'[1..]);
    assert Trail(s) == Trail(s');
    assert Lead(s') == "" && Lead(s) == "";
    assert CollapseRuns(s) == [c] + CollapseRuns(s');
  }

  /** The inductive step when a letter or digit is followed by a separator. */
  lemma CollapseStepAlnumSep(s: string)
    requires |s| >= 2 && IsAlnum(s[0]) && !IsAlnum(s[1])
    requires CollapsesToJoin(s[1..])
    ensures CollapsesToJoin(s)
  {
    var c, s' := s[0], s[1..];
    var w' := Words(s');
    WordsAlnumSep(s);
    assert Trail(s) == Trail(s');
    assert Lead(s') == "-" && Lead(s) == "";
    assert CollapseRuns(s) == [c] + CollapseRuns(s');
    if w' != [] {
      JoinPrepend([c], w');
      var j, t := JoinWith(w', "-"), Trail(s');
      AppendAssoc([c], "-" + j, t);
      AppendAssoc([c], "-", j);
    } else {
      assert JoinWith(Words(s), "-") == [c];
      assert Trail(s') == "-";
    }
  }

  /** The inductive step when a separator is the whole string. */
  lemma CollapseStepSepLast(c: char)
    requires !IsAlnum(c)
    ensures CollapsesToJoin([c])
  {
    var s := [c];
    assert s[1..] == [];
    assert SplitWhere(s[1..], IsSeparator) == [[]];
    assert SplitWhere(s, IsSeparator) == [[], []];
    var e: seq<string> := [[]];
    assert NonEmpty(e) == [] by { assert e[1..] == []; }
    assert NonEmpty([[], []]) == NonEmpty(e) by { assert [[], []][1..] == e; }
  }

  /** The inductive step when a separator is followed by a letter or digit. */
  lemma CollapseStepSepAlnum(s: string)
    requires |s| >= 2 && !IsAlnum(s[0]) && IsAlnum(s[1])
    requires CollapsesToJoin(s[1..])
    ensures CollapsesToJoin(s)
  {
    var s' := s[1..];
    WordsSep(s);
    WordsUnfold(s');
    assert Words(s') != [] && Lead(s') == "";
    var j, t := JoinWith(Words(s'), "-"), Trail(s');
    assert CollapseRuns(s) == "-" + CollapseRuns(s');
    assert CollapseRuns(s') == j + t by { assert "" + j == j; }
    assert Trail(s) == t && Lead(s) == "-";
    AppendAssoc("-", j, t);
  }

  /** The inductive step when a separator is followed by another. */
  lemma CollapseStepSepSep(s: string)
    requires |s| >= 2 && !IsAlnum(s[0]) && !IsAlnum(s[1])
    requires CollapsesToJoin(s[1..])
    ensures CollapsesToJoin(s)
  {
    var s' := s[1..];
    WordsSep(s);
    assert CollapseRuns(s) == CollapseRuns(s');
    assert Trail(s) == Trail(s');
    assert Lead(s') == "-" && Lead(s) == "-";
  }

  lemma {:induction false} CollapseAsJoin(s: string)
    ensures CollapsesToJoin(s)
    decreases |s|
  {
    if s == [] {
      assert SplitWhere(s, IsSeparator) == [[]];
      var e: seq<string> := [[]];
      assert NonEmpty(e) == [] by { assert e[1..] == []; }
    } else {
      CollapseAsJoin(s[1..]);
      if !IsAlnum(s[0]) {
        if |s| == 1 {
          assert s == [s[0]];
          CollapseStepSepLast(s[0]);
        } else if IsAlnum(s[1]) {
          CollapseStepSepAlnum(s);
        } else {
          CollapseStepSepSep(s);
        }
      } else if |s| == 1 {
        assert s == [s[0]];
        CollapseStepAlnumLast(s[0]);
      } else if IsAlnum(s[1]) {
        CollapseStepAlnumAlnum(s);
      } else {
        CollapseStepAlnumSep(s);
      }
    }
  }

  /** A join of non-empty words of letters and digits neither starts nor ends with a hyphen. */
  lemma {:induction false} JoinEnds(ws: seq<string>)
    requires ws != []
    requires forall k :: 0 <= k < |ws| ==> ws[k] != [] && !IsSeparator(ws[k][0]) && !IsSeparator(ws[k][|ws[k]| - 1])
    ensures var j := JoinWith(ws, "-"); j != [] && IsAlnum(j[0]) && IsAlnum(j[|j| - 1])
    decreases |ws|
  {
    if |ws| > 1 {
      JoinEnds(ws[1..]);
    }
  }

  lemma {:induction false} NonEmptyWords(ps: seq<string>)
    requires forall k, i :: 0 <= k < |ps| && 0 <= i < |ps[k]| ==> !IsSeparator(ps[k][i])
    ensures forall k :: 0 <= k < |NonEmpty(ps)| ==>
      NonEmpty(ps)[k] != [] && !IsSeparator(NonEmpty(ps)[k][0]) && !IsSeparator(NonEmpty(ps)[k][|NonEmpty(ps)[k]| - 1])
    decreases |ps|
  {
    if ps != [] {
      NonEmptyWords(ps[1..]);
      assert forall k, i :: 0 <= k < |ps[1..]| && 0 <= i < |ps[1..][k]| ==> ps[1..][k][i] == ps[k + 1][i];
    }
  }

  /** Stripping the hyphens around a string that neither starts nor ends with one gives it back. */
  lemma StripAround(lead: string, j: string, trail: string)
    requires lead in {"", "-"} && trail in {"", "-"}
    requires j != [] && j[0] != '-' && j[|j| - 1] != '-'
    ensures StripHyphens(lead + j + trail) == j
  {
    assert DropLeadingHyphen(lead + j + trail) == j + trail by {
      if lead == "-" {
        assert (lead + j + trail)[1..] == j + trail;
      } else {
        assert lead + j + trail == j + trail;
      }
    }
    if trail == "-" {
      assert (j + trail)[..|j + trail| - 1] == j;
    } else {
      assert j + trail == j;
    }
  }

  /** Reference definition: the slug is the title's lower-cased words (maximal
      runs of `[a-z0-9]`) joined by single hyphens. */
  lemma SlugIsJoinedWords(title: string)
    ensures Slugify(title) == JoinWith(Words(ToLower(title)), "-")
  {
    var s := ToLower(title);
    CollapseAsJoin(s);
    var ws := Words(s);
    if ws != [] {
      SplitPieces(s, IsSeparator);
      NonEmptyWords(SplitWhere(s, IsSeparator));
      JoinEnds(ws);
      StripAround(Lead(s), JoinWith(ws, "-"), Trail(s));
    }
  }

  /** Collapsing changes nothing in a string that is already collapsed. */
  lemma {:induction false} CollapseFixed(s: string)
    requires AllSlugChars(s) && NoDoubleHyphen(s)
    requires s != [] ==> s[|s| - 1] != '-'
    ensures CollapseRuns(s) == s
    decreases |s|
  {
    if s != [] {
      CollapseFixed(s[1..]);
      if !IsAlnum(s[0]) {
        assert s[0] == '-' && |s| > 1 && s[1] != '-';
      }
    }
  }

  /** Deriving a slug from a slug gives it back. */
  lemma SlugIdempotent(title: string)
    ensures Slugify(Slugify(title)) == Slugify(title)
  {
    SlugShape(title);
    var r := Slugify(title);
    assert ToLower(r) == r;
    CollapseFixed(r);
  }
}
