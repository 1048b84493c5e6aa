/** The string operations the portfolio queries use: ASCII lowercasing,
    deleting every occurrence of one character, the category-label
    normalisation built from them, and substring containment (Python's
    `needle in hay`). */
module Text {
  import opened Seqs

  predicate IsUpper(c: char) {
    'A' <= c <= 'Z'
  }

  /** Lowercase one character; only the ASCII letters A-Z change. */
  function LowerChar(c: char): (d: char)
    ensures !IsUpper(d)
    ensures !IsUpper(c) ==> d == c
    ensures IsUpper(c) ==> 'a' <= d <= 'z' && d as int - c as int == 'a' as int - 'A' as int
  {
    if IsUpper(c) then (c as int - 'A' as int + 'a' as int) as char else c
  }

  /** `s.lower()`, restricted to ASCII. */
  function Lower(s: string): (r: string)
    ensures |r| == |s|
    ensures forall i :: 0 <= i < |s| ==> r[i] == LowerChar(s[i])
  {
    seq(|s|, i requires 0 <= i < |s| => LowerChar(s[i]))
  }

  predicate NoUpper(s: string) {
    forall c :: c in s ==> !IsUpper(c)
  }

  /** A lowercased string has no uppercase letter, and lowercasing leaves a
      string without uppercase letters unchanged; hence lowercasing is
      idempotent. */
  lemma LowerProperties(s: string)
    ensures NoUpper(Lower(s))
    ensures NoUpper(s) ==> Lower(s) == s
    ensures Lower(Lower(s)) == Lower(s)
  {
    forall c | c in Lower(s)
      ensures !IsUpper(c)
    {
      var i :| 0 <= i < |s| && Lower(s)[i] == c;
    }
    if NoUpper(s) {
      forall i | 0 <= i < |s|
        ensures Lower(s)[i] == s[i]
      {
        assert s[i] in s;
      }
    }
    var t := Lower(s);
    forall i | 0 <= i < |t|
      ensures Lower(t)[i] == t[i]
    {
      assert t[i] in t;
    }
  }

  /** `s.replace(c, "")` for a one-character pattern: every occurrence of
      `c` deleted, everything else kept in order. */
  function Without(s: string, c: char): (r: string)
    ensures c !in r
    ensures forall x :: x in r <==> x in s && x != c
    ensures IsSubseq(r, s)
    ensures |r| == Count(s, x => x != c)
    ensures c !in s ==> r == s
  {
    var r := Filter(s, x => x != c);
    if c !in s then FilterKeepsAll(s, x => x != c); r else r
  }

  /** A label in normal form: no space, no ampersand, no uppercase letter. */
  predicate IsNormal(s: string) {
    ' ' !in s && '&' !in s && NoUpper(s)
  }

  /** The category-label normalisation: lowercase, then delete every space
      and every ampersand (app.py:295). */
  function Normalize(s: string): (r: string)
    ensures IsNormal(r)
    ensures forall x :: x in r <==> x != ' ' && x != '&' && x in Lower(s)
    ensures IsSubseq(r, Lower(s))
    ensures |r| == Count(Lower(s), x => x != ' ' && x != '&')
  {
    LowerProperties(s);
    var noSpace := Without(Lower(s), ' ');
    var r := Without(noSpace, '&');
    SubseqTrans(r, noSpace, Lower(s));
    var notSpace := (x: char) => x != ' ';
    assert noSpace == Filter(Lower(s), notSpace);
    CountOfFilter(Lower(s), notSpace, x => x != '&', x => x != ' ' && x != '&');
    r
  }

  /** Normalising is one pass over the lowercased label that keeps every
      character other than a space or an ampersand. */
  lemma NormalizeIsFilter(s: string)
    ensures Normalize(s) == Filter(Lower(s), x => x != ' ' && x != '&')
  {
    var keep := (x: char) => x != ' ' && x != '&';
    var r := Normalize(s);
    assert forall x :: x in r ==> keep(x);
    FilterUnique(r, Lower(s), keep);
  }

  /** The normal forms are exactly the fixed points of `Normalize`. */
  lemma NormalizeFixpoints(s: string)
    ensures Normalize(s) == s <==> IsNormal(s)
  {
    if IsNormal(s) {
      LowerProperties(s);
      assert Lower(s) == s;
      assert Without(s, ' ') == s;
      assert Without(s, '&') == s;
    }
  }

  /** Normalising twice is normalising once. */
  lemma NormalizeIdempotent(s: string)
    ensures Normalize(Normalize(s)) == Normalize(s)
  {
    NormalizeFixpoints(Normalize(s));
  }

  /** Normalisation ignores letter case. */
  lemma NormalizeIgnoresCase(s: string)
    ensures Normalize(Lower(s)) == Normalize(s)
  {
    LowerProperties(s);
  }

  /** `needle` occurs in `hay` starting at position `i`. */
  predicate OccursAt(hay: string, needle: string, i: int) {
    0 <= i && i + |needle| <= |hay| && hay[i..i + |needle|] == needle
  }

  /** Python's `needle in hay`: some window of `hay` equals `needle`. */
  function Contains(hay: string, needle: string): (b: bool)
    ensures b <==> exists i :: OccursAt(hay, needle, i)
    decreases |hay|
  {
    if |needle| > |hay| then
      false
    else if hay[..|needle|] == needle then
      assert OccursAt(hay, needle, 0);
      true
    else
      OccursInTail(hay, needle);
      Contains(hay[1..], needle)
  }

  /** An occurrence past the first position is an occurrence in the tail. */
  lemma OccursInTail(hay: string, needle: string)
    requires |needle| <= |hay|
    requires hay[..|needle|] != needle
    ensures |hay| > 0
    ensures (exists i :: OccursAt(hay, needle, i)) <==> (exists j :: OccursAt(hay[1..], needle, j))
  {
    if exists i :: OccursAt(hay, needle, i) {
      var i :| OccursAt(hay, needle, i);
      assert i != 0;
      assert hay[1..][i - 1..i - 1 + |needle|] == hay[i..i + |needle|];
      assert OccursAt(hay[1..], needle, i - 1);
    }
    if exists j :: OccursAt(hay[1..], needle, j) {
      var j :| OccursAt(hay[1..], needle, j);
      assert hay[1..][j..j + |needle|] == hay[j + 1..j + 1 + |needle|];
      assert OccursAt(hay, needle, j + 1);
    }
  }

  /** The empty string occurs in every string. */
  lemma ContainsEmpty(hay: string)
    ensures Contains(hay, "")
  {
    assert OccursAt(hay, "", 0);
  }
}
