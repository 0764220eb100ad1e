/** `slugify` (lib/slug.ts): trim, turn whitespace runs into one hyphen, drop every
    character outside [A-Za-z0-9-], collapse hyphen runs, strip hyphens at both ends.
    Letters keep their case. */
module Slug {
  import opened Text

  predicate IsAlnum(c: char) {
    'a' <= c <= 'z' || 'A' <= c <= 'Z' || '0' <= c <= '9'
  }

  predicate IsSlugChar(c: char) {
    IsAlnum(c) || c == '-'
  }

  predicate AllSlugChars(s: string) {
    forall i :: 0 <= i < |s| ==> IsSlugChar(s[i])
  }

  predicate NoDoubleDash(s: string) {
    forall i :: 0 <= i < |s| - 1 ==> !(s[i] == '-' && s[i + 1] == '-')
  }

  /** The normal form `slugify` produces. */
  predicate IsSlug(s: string) {
    && AllSlugChars(s)
    && NoDoubleDash(s)
    && (|s| > 0 ==> s[0] != '-' && s[|s| - 1] != '-')
  }

  /** `.replace(/\s+/g, "-")`: each maximal whitespace run becomes one hyphen. */
  function DashSpaces(s: string): (r: string)
    ensures |r| <= |s|
    decreases |s|
  {
    if s == [] then []
    else if IsSpace(s[0]) then "-" + DashSpaces(TrimStart(s))
    else [s[0]] + DashSpaces(s[1..])
  }

  /** `.replace(/[^a-zA-Z0-9-]/g, "")`. */
  function KeepSlugChars(s: string): (r: string)
    ensures |r| <= |s|
    ensures AllSlugChars(r)
  {
    if s == [] then []
    else if IsSlugChar(s[0]) then [s[0]] + KeepSlugChars(s[1..])
    else KeepSlugChars(s[1..])
  }

  /** Drops leading hyphens. */
  function DropLeadingDashes(s: string): (r: string)
    ensures |r| <= |s|
    ensures |r| > 0 ==> r[0] != '-'
    ensures forall i :: 0 <= i < |s| - |r| ==> s[i] == '-'
  {
    if |s| > 0 && s[0] == '-' then DropLeadingDashes(s[1..]) else s
  }

  /** What `DropLeadingDashes` keeps is a suffix of its input. */
  lemma {:induction false} DropLeadingIsSuffix(s: string)
    ensures DropLeadingDashes(s) == s[|s| - |DropLeadingDashes(s)|..]
  {
    if |s| > 0 && s[0] == '-' {
      DropLeadingIsSuffix(s[1..]);
    }
  }

  /** Drops trailing hyphens. */
  function DropTrailingDashes(s: string): (r: string)
    ensures |r| <= |s|
    ensures |r| > 0 ==> r[|r| - 1] != '-'
    ensures forall i :: |r| <= i < |s| ==> s[i] == '-'
  {
    if |s| > 0 && s[|s| - 1] == '-' then DropTrailingDashes(s[..|s| - 1]) else s
  }

  /** What `DropTrailingDashes` keeps is a prefix of its input. */
  lemma {:induction false} DropTrailingIsPrefix(s: string)
    ensures DropTrailingDashes(s) == s[..|DropTrailingDashes(s)|]
  {
    if |s| > 0 && s[|s| - 1] == '-' {
      DropTrailingIsPrefix(s[..|s| - 1]);
    }
  }

  /** `.replace(/-+/g, "-")`: each maximal hyphen run becomes one hyphen. */
  function CollapseDashes(s: string): (r: string)
    ensures |r| <= |s|
    ensures |r| > 0 <==> |s| > 0
    ensures |s| > 0 ==> r[0] == s[0]
    ensures NoDoubleDash(r)
    decreases |s|
  {
    if s == [] then []
    else if s[0] == '-' then "-" + CollapseDashes(DropLeadingDashes(s))
    else [s[0]] + CollapseDashes(s[1..])
  }

  /** Collapsing hyphen runs introduces no new character. */
  lemma {:induction false} CollapseDashesSlugChars(s: string)
    requires AllSlugChars(s)
    ensures AllSlugChars(CollapseDashes(s))
    decreases |s|
  {
    if s != [] {
      if s[0] == '-' {
        DropLeadingIsSuffix(s);
        InfixKeepsShape(s, |s| - |DropLeadingDashes(s)|, |s|);
        CollapseDashesSlugChars(DropLeadingDashes(s));
      } else {
        InfixKeepsShape(s, 1, |s|);
        CollapseDashesSlugChars(s[1..]);
      }
    }
  }

  lemma {:induction false} InfixKeepsShape(s: string, lo: nat, hi: nat)
    requires lo <= hi <= |s|
    ensures AllSlugChars(s) ==> AllSlugChars(s[lo..hi])
    ensures NoDoubleDash(s) ==> NoDoubleDash(s[lo..hi])
  {
    var t := s[lo..hi];
    assert forall i :: 0 <= i < |t| ==> t[i] == s[lo + i];
  }

  /** `.replace(/^-+|-+$/g, "")`. */
  function StripDashes(s: string): (r: string)
    ensures |r| <= |s|
    ensures |r| > 0 ==> r[0] != '-' && r[|r| - 1] != '-'
  {
    DropTrailingIsPrefix(DropLeadingDashes(s));
    DropTrailingDashes(DropLeadingDashes(s))
  }

  /** Stripping the ends keeps a slug's character set and its single hyphens. */
  lemma StripDashesKeepsShape(s: string)
    ensures AllSlugChars(s) ==> AllSlugChars(StripDashes(s))
    ensures NoDoubleDash(s) ==> NoDoubleDash(StripDashes(s))
  {
    var t := DropLeadingDashes(s);
    DropLeadingIsSuffix(s);
    var r := DropTrailingDashes(t);
    DropTrailingIsPrefix(t);
    InfixKeepsShape(s, |s| - |t|, |s|);
    InfixKeepsShape(t, 0, |r|);
  }

  /** `slugify(input)`. */
  function Slugify(s: string): (r: string)
    ensures IsSlug(r)
    ensures |r| <= |s|
  {
    var kept := KeepSlugChars(DashSpaces(Trim(s)));
    CollapseDashesSlugChars(kept);
    StripDashesKeepsShape(CollapseDashes(kept));
    StripDashes(CollapseDashes(kept))
  }

  // ---------------------------------------------------------------------------
  // Each stage leaves a slug unchanged, hence idempotence.

  lemma {:induction false} DashSpacesNoSpace(s: string)
    requires NoSpace(s)
    ensures DashSpaces(s) == s
  {
    if s != [] {
      DashSpacesNoSpace(s[1..]);
    }
  }

  lemma {:induction false} KeepSlugCharsFixed(s: string)
    requires AllSlugChars(s)
    ensures KeepSlugChars(s) == s
  {
    if s != [] {
      KeepSlugCharsFixed(s[1..]);
    }
  }

  lemma {:induction false} CollapseDashesFixed(s: string)
    requires NoDoubleDash(s)
    ensures CollapseDashes(s) == s
  {
    if s != [] {
      InfixKeepsShape(s, 1, |s|);
      CollapseDashesFixed(s[1..]);
      if s[0] == '-' {
        assert |s| > 1 ==> s[1] != '-';
        assert DropLeadingDashes(s[1..]) == s[1..];
      }
    }
  }

  lemma StripDashesFixed(s: string)
    requires |s| > 0 ==> s[0] != '-' && s[|s| - 1] != '-'
    ensures StripDashes(s) == s
  {
    assert DropLeadingDashes(s) == s;
  }

  lemma SlugIsFixedPoint(s: string)
    requires IsSlug(s)
    ensures Slugify(s) == s
  {
    assert NoSpace(s);
    TrimNoSpace(s);
    DashSpacesNoSpace(s);
    KeepSlugCharsFixed(s);
    CollapseDashesFixed(s);
    StripDashesFixed(s);
  }

  /** A word of ASCII letters and digits is its own slug and its own letters and digits. */
  lemma {:induction false} AlnumWord(w: string)
    requires forall i :: 0 <= i < |w| ==> IsAlnum(w[i])
    ensures Slugify(w) == w && Alnums(w) == w
  {
    SlugIsFixedPoint(w);
    if w != [] {
      AlnumWord(w[1..]);
    }
  }

  /** Normalising twice gives the same as normalising once. */
  lemma SlugifyIdempotent(s: string)
    ensures Slugify(Slugify(s)) == Slugify(s)
  {
    SlugIsFixedPoint(Slugify(s));
  }

  // ---------------------------------------------------------------------------
  // The ASCII letters and digits survive, in order and with their case.

  /** The ASCII letters and digits of `s`, in order. */
  function Alnums(s: string): (r: string)
    ensures |r| <= |s|
  {
    if s == [] then []
    else if IsAlnum(s[0]) then [s[0]] + Alnums(s[1..])
    else Alnums(s[1..])
  }

  /** `s` with every hyphen removed. */
  function RemoveDashes(s: string): (r: string)
    ensures |r| <= |s|
  {
    if s == [] then []
    else if s[0] == '-' then RemoveDashes(s[1..])
    else [s[0]] + RemoveDashes(s[1..])
  }

  lemma {:induction false} AlnumsConcat(a: string, b: string)
    ensures Alnums(a + b) == Alnums(a) + Alnums(b)
  {
    if a != [] {
      var ab := a + b;
      assert ab[0] == a[0] && ab[1..] == a[1..] + b;
      AlnumsConcat(a[1..], b);
      if IsAlnum(a[0]) {
        assert Alnums(ab) == [a[0]] + Alnums(a[1..] + b);
      } else {
        assert Alnums(ab) == Alnums(a[1..] + b);
      }
    } else {
      assert a + b == b;
    }
  }

  lemma {:induction false} AlnumsTrimStart(s: string)
    ensures Alnums(TrimStart(s)) == Alnums(s)
  {
    if |s| > 0 && IsSpace(s[0]) {
      AlnumsTrimStart(s[1..]);
    }
  }

  lemma {:induction false} AlnumsTrimEnd(s: string)
    ensures Alnums(TrimEnd(s)) == Alnums(s)
  {
    if |s| > 0 && IsSpace(s[|s| - 1]) {
      var init := s[..|s| - 1];
      AlnumsTrimEnd(init);
      assert s == init + [s[|s| - 1]];
      AlnumsConcat(init, [s[|s| - 1]]);
    }
  }

  lemma {:induction false} AlnumsDashSpaces(s: string)
    ensures Alnums(DashSpaces(s)) == Alnums(s)
    decreases |s|
  {
    if s == [] {
    } else if IsSpace(s[0]) {
      AlnumsDashSpaces(TrimStart(s));
      AlnumsTrimStart(s);
    } else {
      AlnumsDashSpaces(s[1..]);
    }
  }

  lemma {:induction false} AlnumsKeepSlugChars(s: string)
    ensures Alnums(KeepSlugChars(s)) == Alnums(s)
  {
    if s != [] {
      AlnumsKeepSlugChars(s[1..]);
    }
  }

  lemma {:induction false} AlnumsDropLeadingDashes(s: string)
    ensures Alnums(DropLeadingDashes(s)) == Alnums(s)
  {
    if |s| > 0 && s[0] == '-' {
      AlnumsDropLeadingDashes(s[1..]);
    }
  }

  lemma {:induction false} AlnumsDropTrailingDashes(s: string)
    ensures Alnums(DropTrailingDashes(s)) == Alnums(s)
  {
    if |s| > 0 && s[|s| - 1] == '-' {
      var init := s[..|s| - 1];
      AlnumsDropTrailingDashes(init);
      assert s == init + [s[|s| - 1]];
      AlnumsConcat(init, [s[|s| - 1]]);
    }
  }

  lemma {:induction false} AlnumsCollapseDashes(s: string)
    ensures Alnums(CollapseDashes(s)) == Alnums(s)
    decreases |s|
  {
    if s == [] {
    } else if s[0] == '-' {
      AlnumsCollapseDashes(DropLeadingDashes(s));
      AlnumsDropLeadingDashes(s);
    } else {
      AlnumsCollapseDashes(s[1..]);
    }
  }

  lemma {:induction false} RemoveDashesOfSlugChars(s: string)
    requires AllSlugChars(s)
    ensures RemoveDashes(s) == Alnums(s)
  {
    if s != [] {
      RemoveDashesOfSlugChars(s[1..]);
    }
  }

  /** Removing the hyphens from `slugify(s)` leaves exactly the ASCII letters and digits
      of `s`, in their order and case: nothing is lower-cased, reordered or invented. */
  lemma SlugifyKeepsAlnums(s: string)
    ensures RemoveDashes(Slugify(s)) == Alnums(s)
    ensures Alnums(Slugify(s)) == Alnums(s)
  {
    var t := Trim(s);
    AlnumsTrimEnd(s);
    AlnumsTrimStart(TrimEnd(s));
    var d := DashSpaces(t);
    AlnumsDashSpaces(t);
    var k := KeepSlugChars(d);
    AlnumsKeepSlugChars(d);
    var c := CollapseDashes(k);
    AlnumsCollapseDashes(k);
    AlnumsDropLeadingDashes(c);
    AlnumsDropTrailingDashes(DropLeadingDashes(c));
    RemoveDashesOfSlugChars(Slugify(s));
  }

  lemma {:induction false} NoAlnumsAllDashes(s: string)
    requires Alnums(s) == []
    ensures forall i :: 0 <= i < |s| ==> !IsAlnum(s[i])
  {
    if s != [] {
      NoAlnumsAllDashes(s[1..]);
    }
  }

  /** `slugify(s)` is empty exactly when `s` has no ASCII letter or digit. */
  lemma SlugifyEmptyIff(s: string)
    ensures Slugify(s) == [] <==> Alnums(s) == []
  {
    var r := Slugify(s);
    SlugifyKeepsAlnums(s);
    if Alnums(s) == [] && r != [] {
      NoAlnumsAllDashes(r);
    }
  }

  // ---------------------------------------------------------------------------
  // A whitespace run between two words becomes exactly one hyphen.

  lemma {:induction false} DashSpacesPrefix(a: string, t: string)
    requires NoSpace(a)
    ensures DashSpaces(a + t) == a + DashSpaces(t)
  {
    if a != [] {
      var at := a + t;
      assert at[0] == a[0] && at[1..] == a[1..] + t;
      assert !IsSpace(a[0]);
      DashSpacesPrefix(a[1..], t);
      assert DashSpaces(at) == [a[0]] + DashSpaces(a[1..] + t);
    } else {
      assert a + t == t;
    }
  }

  lemma {:induction false} TrimStartSpaces(w: string, b: string)
    requires forall i :: 0 <= i < |w| ==> IsSpace(w[i])
    requires b != [] && !IsSpace(b[0])
    ensures TrimStart(w + b) == b
  {
    if w != [] {
      assert (w + b)[1..] == w[1..] + b;
      TrimStartSpaces(w[1..], b);
    }
  }

  /** Two non-empty slugs joined by one hyphen form a slug. */
  lemma JoinedSlug(a: string, b: string)
    requires IsSlug(a) && a != []
    requires IsSlug(b) && b != []
    ensures IsSlug(a + "-" + b)
  {
    var y := a + "-" + b;
    forall i | 0 <= i < |y| - 1 ensures !(y[i] == '-' && y[i + 1] == '-') {
      if i < |a| - 1 {
        assert y[i] == a[i] && y[i + 1] == a[i + 1];
      } else if i == |a| - 1 {
        assert y[i] == a[|a| - 1];
      } else if i == |a| {
        assert y[i + 1] == b[0];
      } else {
        assert y[i] == b[i - |a| - 1] && y[i + 1] == b[i - |a|];
      }
    }
    forall i | 0 <= i < |y| ensures IsSlugChar(y[i]) {
      if i < |a| {
        assert y[i] == a[i];
      } else if i > |a| {
        assert y[i] == b[i - |a| - 1];
      }
    }
  }

  /** `slugify(a + w + b) == a + "-" + b` for non-empty slugs `a`, `b` and a non-empty
      whitespace run `w` ("Spring Sale" becomes "Spring-Sale"). */
  lemma SpaceRunBecomesOneDash(a: string, w: string, b: string)
    requires IsSlug(a) && a != []
    requires IsSlug(b) && b != []
    requires w != [] && forall i :: 0 <= i < |w| ==> IsSpace(w[i])
    ensures Slugify(a + w + b) == a + "-" + b
  {
    var x := a + w + b;
    var y := a + "-" + b;
    TrimFixed(x);
    SpaceRunDashed(a, w, b);
    JoinedSlug(a, b);
    KeepSlugCharsFixed(y);
    CollapseDashesFixed(y);
    StripDashesFixed(y);
  }

  lemma TrimFixed(x: string)
    requires |x| > 0 && !IsSpace(x[0]) && !IsSpace(x[|x| - 1])
    ensures Trim(x) == x
  {
    assert TrimEnd(x) == x;
  }

  lemma SpaceRunDashed(a: string, w: string, b: string)
    requires NoSpace(a) && NoSpace(b) && b != []
    requires forall i :: 0 <= i < |w| ==> IsSpace(w[i])
    requires w != []
    ensures DashSpaces(a + w + b) == a + "-" + b
  {
    assert a + w + b == a + (w + b);
    DashSpacesPrefix(a, w + b);
    TrimStartSpaces(w, b);
    DashSpacesNoSpace(b);
    assert DashSpaces(w + b) == "-" + DashSpaces(b);
  }
}
