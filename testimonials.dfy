/**
 * The testimonial section's avatar initials and the client-logo strip
 * (client/src/components/Testimonials.tsx).
 *
 * The fetched list is `None` until the query has data.
 */
module Testimonials {
  import opened Wrappers
  import opened JsText
  import opened Seqs
  import Schema

  // ---------------------------------------------------------------------------
  // Avatar initials: `name.split(' ').map(n => n[0]).join('').toUpperCase().slice(0, 2)`

  predicate IsSpace(c: char) {
    c == ' '
  }

  /** `.map(n => n[0]).join('')`: an empty word gives `undefined`, which joins as "". */
  function FirstChars(words: seq<string>): (r: string)
    ensures |r| <= |words|
    decreases |words|
  {
    if words == [] then [] else (if words[0] == [] then [] else [words[0][0]]) + FirstChars(words[1..])
  }

  /** `.slice(0, n)` */
  function Take(s: string, n: nat): (r: string)
    ensures |r| <= n && |r| <= |s|
    ensures r == s[..|r|]
    ensures |s| >= n ==> |r| == n
  {
    if |s| <= n then s else s[..n]
  }

  /** The fallback shown in a testimonial's avatar. */
  function Initials(name: string): (r: string)
    ensures |r| <= 2
  {
    Take(ToUpper(FirstChars(SplitWhere(name, IsSpace))), 2)
  }

  /**
   * Reference definition: the characters of `s` that begin a word, that is the
   * non-space characters that come first or right after a space. `atStart`
   * says whether the character before `s` was a space (or there was none).
   */
  function WordStartsFrom(s: string, atStart: bool): (r: string)
    ensures forall i :: 0 <= i < |r| ==> r[i] != ' '
    decreases |s|
  {
    if s == [] then []
    else if s[0] == ' ' then WordStartsFrom(s[1..], true)
    else (if atStart then [s[0]] else []) + WordStartsFrom(s[1..], false)
  }

  function WordStarts(s: string): string {
    WordStartsFrom(s, true)
  }

  /** Whether the character after `s` starts a word (given that of the one before it). */
  function AtStartAfter(s: string, atStart: bool): bool {
    if s == [] then atStart else s[|s| - 1] == ' '
  }

  /** The first characters of the pieces of `split(' ')` are the word starts;
      without the first piece, they are the starts after the first character. */
  lemma {:induction false} FirstCharsOfSplit(s: string)
    ensures FirstChars(SplitWhere(s, IsSpace)) == WordStartsFrom(s, true)
    ensures FirstChars(SplitWhere(s, IsSpace)[1..]) == WordStartsFrom(s, false)
    decreases |s|
  {
    var p := SplitWhere(s, IsSpace);
    if s == [] {
      assert p == [[]];
      assert p[1..] == [];
    } else {
      var rest := SplitWhere(s[1..], IsSpace);
      FirstCharsOfSplit(s[1..]);
      if s[0] == ' ' {
        assert p == [[]] + rest;
        assert p[1..] == rest;
      } else {
        assert p == [[s[0]] + rest[0]] + rest[1..];
        assert p[1..] == rest[1..];
      }
    }
  }

  /** The initials are the first two word starts of the name, upper-cased. */
  lemma InitialsAreWordStarts(name: string)
    ensures Initials(name) == Take(ToUpper(WordStarts(name)), 2)
    ensures forall i :: 0 <= i < |Initials(name)| ==> Initials(name)[i] == UpperChar(WordStarts(name)[i])
  {
    FirstCharsOfSplit(name);
  }

  /** Word starts of a concatenation. */
  lemma {:induction false} WordStartsAppend(a: string, b: string, atStart: bool)
    ensures WordStartsFrom(a + b, atStart) == WordStartsFrom(a, atStart) + WordStartsFrom(b, AtStartAfter(a, atStart))
    decreases |a|
  {
    if a == [] {
      assert a + b == b;
    } else {
      assert (a + b)[1..] == a[1..] + b;
      WordStartsAppend(a[1..], b, a[0] == ' ');
      if |a| > 1 {
        assert a[1..][|a[1..]| - 1] == a[|a| - 1];
      }
    }
  }

  /** A repeated space only adds empty words, and they contribute no initial. */
  lemma RepeatedSpaceIgnored(a: string, b: string)
    ensures Initials(a + "  " + b) == Initials(a + " " + b)
  {
    FirstCharsOfSplit(a + "  " + b);
    FirstCharsOfSplit(a + " " + b);
    assert a + "  " + b == a + ("  " + b);
    assert a + " " + b == a + (" " + b);
    WordStartsAppend(a, "  " + b, true);
    WordStartsAppend(a, " " + b, true);
    var f := AtStartAfter(a, true);
    assert ("  " + b)[1..] == " " + b;
    assert (" " + b)[1..] == b;
    assert WordStartsFrom("  " + b, f) == WordStartsFrom(b, true);
    assert WordStartsFrom(" " + b, f) == WordStartsFrom(b, true);
  }

  // ---------------------------------------------------------------------------
  // Client logos

  /** A `{ name, logoUrl }` entry of `clientLogos`. */
  datatype Logo = Logo(name: string, logoUrl: string)

  /** `t.companyLogoUrl` is truthy: present and non-empty. */
  predicate HasLogo(t: Schema.TestimonialRow) {
    t.companyLogoUrl.Some? && t.companyLogoUrl.value != ""
  }

  /** `.filter(t => t.companyLogoUrl).map(t => ({ name: t.company, logoUrl: t.companyLogoUrl! }))` */
  function LogosOf(ts: seq<Schema.TestimonialRow>): (r: seq<Logo>)
    ensures |r| <= |ts|
    decreases |ts|
  {
    if ts == [] then []
    else (if HasLogo(ts[0]) then [Logo(ts[0].company, ts[0].companyLogoUrl.value)] else []) + LogosOf(ts[1..])
  }

  /** `clientLogos`: no logos before data arrives. */
  function ClientLogos(data: Option<seq<Schema.TestimonialRow>>): (r: seq<Logo>)
    ensures data.None? ==> r == []
    ensures data.Some? ==> r == LogosOf(data.value)
  {
    if data.None? then [] else LogosOf(data.value)
  }

  /** The logo strip is filtered and mapped element by element: it distributes over concatenation. */
  lemma {:induction false} LogosAppend(a: seq<Schema.TestimonialRow>, b: seq<Schema.TestimonialRow>)
    ensures LogosOf(a + b) == LogosOf(a) + LogosOf(b)
    decreases |a|
  {
    if a == [] {
      assert a + b == b;
    } else {
      assert (a + b)[0] == a[0] && (a + b)[1..] == a[1..] + b;
      LogosAppend(a[1..], b);
      var h := if HasLogo(a[0]) then [Logo(a[0].company, a[0].companyLogoUrl.value)] else [];
      assert LogosOf(a + b) == h + (LogosOf(a[1..]) + LogosOf(b));
      AppendAssoc(h, LogosOf(a[1..]), LogosOf(b));
    }
  }

  /** Exactly the testimonials with a logo URL give an entry, with their company and URL. */
  lemma {:induction false} LogosMembership(ts: seq<Schema.TestimonialRow>, l: Logo)
    ensures l in LogosOf(ts) <==> exists k :: 0 <= k < |ts| && HasLogo(ts[k]) && l == Logo(ts[k].company, ts[k].companyLogoUrl.value)
    decreases |ts|
  {
    if ts != [] {
      LogosMembership(ts[1..], l);
      if exists k :: 1 <= k < |ts| && HasLogo(ts[k]) && l == Logo(ts[k].company, ts[k].companyLogoUrl.value) {
        var k :| 1 <= k < |ts| && HasLogo(ts[k]) && l == Logo(ts[k].company, ts[k].companyLogoUrl.value);
        assert ts[1..][k - 1] == ts[k];
      }
      if exists k :: 0 <= k < |ts| - 1 && HasLogo(ts[1..][k]) && l == Logo(ts[1..][k].company, ts[1..][k].companyLogoUrl.value) {
        var k :| 0 <= k < |ts| - 1 && HasLogo(ts[1..][k]) && l == Logo(ts[1..][k].company, ts[1..][k].companyLogoUrl.value);
        assert ts[k + 1] == ts[1..][k];
      }
    }
  }

  /** The strip is empty exactly when no testimonial has a logo URL. */
  lemma {:induction false} LogosEmptyIff(ts: seq<Schema.TestimonialRow>)
    ensures LogosOf(ts) == [] <==> forall k :: 0 <= k < |ts| ==> !HasLogo(ts[k])
    decreases |ts|
  {
    if ts != [] {
      LogosEmptyIff(ts[1..]);
      assert forall k :: 1 <= k < |ts| ==> ts[k] == ts[1..][k - 1];
    }
  }

  /** `Testimonials` renders its section only for a non-empty list. */
  predicate TestimonialsRendered(data: Option<seq<Schema.TestimonialRow>>) {
    data.Some? && |data.value| > 0
  }

  /** `ClientLogos` renders its strip only when some entry remains. */
  predicate ClientLogosRendered(data: Option<seq<Schema.TestimonialRow>>) {
    ClientLogos(data) != []
  }

  /** The strip never shows without the testimonials it comes from. */
  lemma LogosOnlyWithTestimonials(data: Option<seq<Schema.TestimonialRow>>)
    ensures ClientLogosRendered(data) ==> TestimonialsRendered(data)
    ensures data.Some? && (exists k :: 0 <= k < |data.value| && HasLogo(data.value[k])) ==> ClientLogosRendered(data)
  {
    if data.Some? {
      LogosEmptyIff(data.value);
    }
  }
}
