/** Python's `str.title()` restricted to ASCII, as `Brand.save` and `Product.save`
    apply it to a record's name before it is persisted.

    A letter is upper-cased when it starts a word (it is the first character, or
    the character before it is not a letter) and lower-cased otherwise; every
    other character is left as it is and ends the current word. The module
    characterises the result independently of the scan that computes it: the
    title-cased form of `s` is the ONE string that equals `s` up to case and is
    itself in title form. Idempotence and case-insensitivity follow from that. */
module TitleCase {

  predicate IsUpper(c: char) { 'A' <= c <= 'Z' }

  predicate IsLower(c: char) { 'a' <= c <= 'z' }

  predicate IsLetter(c: char) { IsUpper(c) || IsLower(c) }

  /** ASCII lower-casing; any character other than 'A'..'Z' is returned as it is. */
  function Lower(c: char): (l: char)
    ensures IsLetter(c) ==> IsLower(l)
    ensures !IsUpper(c) ==> l == c
  {
    if IsUpper(c) then (c as int - 'A' as int + 'a' as int) as char else c
  }

  /** ASCII upper-casing; any character other than 'a'..'z' is returned as it is. */
  function Upper(c: char): (u: char)
    ensures IsLetter(c) ==> IsUpper(u)
    ensures !IsLower(c) ==> u == c
    ensures Lower(u) == Lower(c)
  {
    if IsLower(c) then (c as int - 'a' as int + 'A' as int) as char else c
  }

  /** Two strings are equal when case is ignored. */
  predicate SameUpToCase(s: string, t: string)
  {
    |s| == |t| && forall i :: 0 <= i < |s| ==> Lower(s[i]) == Lower(t[i])
  }

  /** The character at position i is inside a word, not at its start. */
  predicate FollowsLetter(s: string, i: int)
    requires 0 <= i < |s|
  {
    i > 0 && IsLetter(s[i - 1])
  }

  /** Every letter of t is upper-case exactly when it starts a word. */
  predicate IsTitled(t: string)
  {
    forall i :: 0 <= i < |t| && IsLetter(t[i]) ==> (IsUpper(t[i]) <==> !FollowsLetter(t, i))
  }

  /** The scan `str.title()` performs, left to right, carrying whether the
      previous character was a letter ("cased"). */
  function TitleFrom(s: string, afterLetter: bool): (r: string)
    ensures |r| == |s|
    ensures forall i :: 0 <= i < |s| ==>
      r[i] == if (if i == 0 then afterLetter else IsLetter(s[i - 1])) then Lower(s[i]) else Upper(s[i])
  {
    if s == [] then []
    else [if afterLetter then Lower(s[0]) else Upper(s[0])] + TitleFrom(s[1..], IsLetter(s[0]))
  }

  /** `s.title()`: each letter is lower-cased when it follows a letter and
      upper-cased otherwise. */
  function Title(s: string): (r: string)
    ensures |r| == |s|
    ensures forall i :: 0 <= i < |s| ==> r[i] == if FollowsLetter(s, i) then Lower(s[i]) else Upper(s[i])
  {
    TitleFrom(s, false)
  }

  /** Two characters equal up to case are both letters or both the same non-letter,
      and a letter is determined by its case. */
  lemma SameLetterUpToCase(c: char, d: char)
    requires Lower(c) == Lower(d)
    ensures IsLetter(c) <==> IsLetter(d)
    ensures !IsLetter(d) ==> d == c
    ensures IsUpper(d) ==> d == Upper(c)
    ensures IsLower(d) ==> d == Lower(c)
  {
  }

  /** The title-cased form is in title form and differs from its input only in case. */
  lemma TitleIsTitled(s: string)
    ensures IsTitled(Title(s))
    ensures SameUpToCase(s, Title(s))
  {
    var r := Title(s);
    forall i | 0 <= i < |s|
      ensures Lower(s[i]) == Lower(r[i])
      ensures IsLetter(r[i]) ==> (IsUpper(r[i]) <==> !FollowsLetter(r, i))
    {
      SameLetterUpToCase(s[i], r[i]);
      if i > 0 {
        SameLetterUpToCase(s[i - 1], r[i - 1]);
      }
    }
  }

  /** Uniqueness: a string in title form that equals s up to case IS Title(s). */
  lemma TitleUnique(s: string, t: string)
    requires SameUpToCase(s, t)
    requires IsTitled(t)
    ensures t == Title(s)
  {
    var r := Title(s);
    forall i | 0 <= i < |s|
      ensures t[i] == r[i]
    {
      SameLetterUpToCase(s[i], t[i]);
      if i > 0 {
        SameLetterUpToCase(s[i - 1], t[i - 1]);
      }
    }
  }

  /** Saving a record twice normalises its name only once. */
  lemma TitleIdempotent(s: string)
    ensures Title(Title(s)) == Title(s)
  {
    TitleIsTitled(s);
    TitleUnique(Title(s), Title(s));
  }

  /** Names that differ only in case normalise to the same stored name, which is
      why "Acme" and "ACME" then collide on the unique name column. */
  lemma TitleCaseInsensitive(s: string, t: string)
    requires SameUpToCase(s, t)
    ensures Title(s) == Title(t)
  {
    TitleIsTitled(t);
    TitleUnique(s, Title(t));
  }

  /** A name as typed, and as stored after save. */
  lemma TitleExample()
    ensures Title("acme corp") == "Acme Corp"
  {
    var s := "acme corp";
    var r := Title(s);
    assert |s| == |r| == 9;
    assert !FollowsLetter(s, 0) && !FollowsLetter(s, 5) && !IsLetter(s[4]);
    assert FollowsLetter(s, 1) && FollowsLetter(s, 2) && FollowsLetter(s, 3);
    assert FollowsLetter(s, 6) && FollowsLetter(s, 7) && FollowsLetter(s, 8);
    assert r[0] == 'A' && r[1] == 'c' && r[2] == 'm' && r[3] == 'e' && r[4] == ' ';
    assert r[5] == 'C' && r[6] == 'o' && r[7] == 'r' && r[8] == 'p';
    assert r == [r[0], r[1], r[2], r[3], r[4], r[5], r[6], r[7], r[8]];
  }
}
