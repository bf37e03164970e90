/** `normalizeUUID`: regroup an id's non-dash characters into the 8-4-4-4-12 form. */
module Uuid {

  /** `id.replace(/-/g, '')`. */
  function StripDashes(s: string): (r: string)
    ensures |r| <= |s|
    ensures '-' !in r
  {
    if s == [] then [] else (if s[0] == '-' then [] else [s[0]]) + StripDashes(s[1..])
  }

  /** `[a, b].join('-')`. */
  function Join(a: string, b: string): (r: string)
    ensures |r| == |a| + 1 + |b|
  {
    a + "-" + b
  }

  /** The 8-4-4-4-12 grouping of 32 characters. */
  function Group(hex: string): (r: string)
    requires |hex| == 32
    ensures |r| == 36
  {
    Join(hex[..8], Join(hex[8..12], Join(hex[12..16], Join(hex[16..20], hex[20..]))))
  }

  /** `normalizeUUID(id)`: ids whose dash-free form is not 32 characters long come back unchanged. */
  function NormalizeUuid(id: string): string
  {
    var hex := StripDashes(id);
    if |hex| != 32 then id else Group(hex)
  }

  /** The canonical form: 36 characters, dashes at 8, 13, 18 and 23 and nowhere else. */
  predicate IsCanonical(s: string)
  {
    |s| == 36 && forall i :: 0 <= i < 36 ==> (s[i] == '-' <==> i in {8, 13, 18, 23})
  }

  /** Stripping dashes splits over concatenation. */
  lemma {:induction false} StripDashesAppend(a: string, b: string)
    ensures StripDashes(a + b) == StripDashes(a) + StripDashes(b)
  {
    if a == [] {
      assert a + b == b;
    } else {
      var h := if a[0] == '-' then [] else [a[0]];
      assert (a + b)[0] == a[0] && (a + b)[1..] == a[1..] + b;
      StripDashesAppend(a[1..], b);
      assert StripDashes(a + b) == h + StripDashes(a[1..] + b);
      assert StripDashes(a) == h + StripDashes(a[1..]);
    }
  }

  /** A string without dashes is its own dash-free form. */
  lemma {:induction false} StripDashesNoDash(s: string)
    requires '-' !in s
    ensures StripDashes(s) == s
  {
    if s != [] {
      StripDashesNoDash(s[1..]);
    }
  }

  /** Joining a dash-free head: stripping removes just the separator. */
  lemma StripJoin(a: string, b: string)
    requires '-' !in a
    ensures StripDashes(Join(a, b)) == a + StripDashes(b)
  {
    var t := "-" + b;
    assert Join(a, b) == a + t;
    StripDashesAppend(a, t);
    StripDashesNoDash(a);
    assert t[0] == '-' && t[1..] == b;
  }

  /** Five dash-free groups joined by dashes: stripping leaves the groups' characters, in order. */
  lemma StripFiveGroups(a: string, b: string, c: string, d: string, e: string)
    requires '-' !in a && '-' !in b && '-' !in c && '-' !in d && '-' !in e
    ensures StripDashes(Join(a, Join(b, Join(c, Join(d, e))))) == a + (b + (c + (d + e)))
  {
    StripJoin(d, e);
    StripJoin(c, Join(d, e));
    StripJoin(b, Join(c, Join(d, e)));
    StripJoin(a, Join(b, Join(c, Join(d, e))));
    StripDashesNoDash(e);
  }

  /** Joining a dash-free tail: stripping removes just the separator. */
  lemma StripJoinLast(a: string, b: string)
    requires '-' !in b
    ensures StripDashes(Join(a, b)) == StripDashes(a) + b
  {
    assert Join(a, b) == a + "-" + b;
    StripDashesAppend(a + "-", b);
    StripDashesAppend(a, "-");
    StripDashesNoDash(b);
  }

  /** `s` is five dash-free groups of 32 characters in all, each joined to the ones before it by a dash. */
  predicate GroupsOf(s: string, a: string, b: string, c: string, d: string, e: string)
  {
    '-' !in a && '-' !in b && '-' !in c && '-' !in d && '-' !in e &&
    |a| + |b| + |c| + |d| + |e| == 32 && s == Join(Join(Join(Join(a, b), c), d), e)
  }

  /** `s` splits at its dashes into five groups of 32 characters in all. */
  ghost predicate FiveGroups(s: string)
  {
    exists a: string, b: string, c: string, d: string, e: string :: GroupsOf(s, a, b, c, d, e)
  }

  /** An id split at its last dash four times, into dash-free pieces of 32 characters in all, is five groups. */
  lemma SplitIntoFiveGroups(s: string, p3: string, p2: string, p1: string,
                            a: string, b: string, c: string, d: string, e: string)
    requires s == Join(p3, e) && p3 == Join(p2, d) && p2 == Join(p1, c) && p1 == Join(a, b)
    requires '-' !in a && '-' !in b && '-' !in c && '-' !in d && '-' !in e
    requires |a| + |b| + |c| + |d| + |e| == 32
    ensures FiveGroups(s)
  {
    assert GroupsOf(s, a, b, c, d, e);
  }

  /** Such an id has 36 characters and 32 survive stripping. */
  lemma FiveGroupsStrip(s: string)
    requires FiveGroups(s)
    ensures |s| == 36 && |StripDashes(s)| == 32
  {
    var a: string, b: string, c: string, d: string, e: string :| GroupsOf(s, a, b, c, d, e);
    StripJoinLast(Join(Join(Join(a, b), c), d), e);
    StripJoinLast(Join(Join(a, b), c), d);
    StripJoinLast(Join(a, b), c);
    StripJoinLast(a, b);
    StripDashesNoDash(a);
  }

  /** Grouping only inserts dashes: stripping them gives back the 32 characters. */
  lemma StripGroup(hex: string)
    requires |hex| == 32 && '-' !in hex
    ensures StripDashes(Group(hex)) == hex
  {
    var a, b, c, d, e := hex[..8], hex[8..12], hex[12..16], hex[16..20], hex[20..];
    StripFiveGroups(a, b, c, d, e);
    assert hex == a + (b + (c + (d + e)));
  }

  /** Whenever the input is regrouped, the result is in canonical form. */
  lemma GroupIsCanonical(hex: string)
    requires |hex| == 32 && '-' !in hex
    ensures IsCanonical(Group(hex))
  {
    var a, b, c, d, e := hex[..8], hex[8..12], hex[12..16], hex[16..20], hex[20..];
    var g, g1, g2, g3 := Group(hex), Join(b, Join(c, Join(d, e))), Join(c, Join(d, e)), Join(d, e);
    forall i | 0 <= i < 36
      ensures g[i] == '-' <==> i in {8, 13, 18, 23}
    {
      if i < 8 { assert g[i] == hex[i]; }
      else if i == 8 { }
      else if i < 13 { assert g[i] == g1[i - 9] == hex[i - 1]; }
      else if i == 13 { assert g[i] == g1[4]; }
      else if i < 18 { assert g[i] == g1[i - 9] == g2[i - 14] == hex[i - 2]; }
      else if i == 18 { assert g[i] == g1[9] == g2[4]; }
      else if i < 23 { assert g[i] == g1[i - 9] == g2[i - 14] == g3[i - 19] == hex[i - 3]; }
      else if i == 23 { assert g[i] == g1[14] == g2[9] == g3[4]; }
      else { assert g[i] == g1[i - 9] == g2[i - 14] == g3[i - 19] == e[i - 24] == hex[i - 4]; }
    }
  }

  /** The two outcomes of `normalizeUUID`: unchanged, or the 8-4-4-4-12 regrouping. */
  lemma NormalizeCases(id: string)
    ensures |StripDashes(id)| != 32 ==> NormalizeUuid(id) == id
    ensures |StripDashes(id)| == 32 ==> IsCanonical(NormalizeUuid(id))
  {
    if |StripDashes(id)| == 32 {
      GroupIsCanonical(StripDashes(id));
    }
  }

  /** No character is added, lost or reordered: the dash-free form is kept. */
  lemma NormalizeKeepsCharacters(id: string)
    ensures StripDashes(NormalizeUuid(id)) == StripDashes(id)
  {
    if |StripDashes(id)| == 32 {
      StripGroup(StripDashes(id));
    }
  }

  /** Normalising twice is normalising once. */
  lemma NormalizeIdempotent(id: string)
    ensures NormalizeUuid(NormalizeUuid(id)) == NormalizeUuid(id)
  {
    NormalizeKeepsCharacters(id);
  }

  /** A string with a dash at `p` is the join of what lies on either side of it. */
  lemma JoinSplit(s: string, p: int)
    requires 0 <= p < |s| && s[p] == '-'
    ensures Join(s[..p], s[p + 1..]) == s
  {
    assert s == s[..p] + [s[p]] + s[p + 1..];
  }

  /** Grouping five parts of the right lengths joins them. */
  lemma GroupParts(a: string, b: string, c: string, d: string, e: string)
    requires |a| == 8 && |b| == 4 && |c| == 4 && |d| == 4 && |e| == 12
    ensures Group(a + (b + (c + (d + e)))) == Join(a, Join(b, Join(c, Join(d, e))))
  {
    var hex := a + (b + (c + (d + e)));
    assert hex[..8] == a;
    assert hex[8..12] == b;
    assert hex[12..16] == c;
    assert hex[16..20] == d;
    assert hex[20..] == e;
  }

  /** An id already in 8-4-4-4-12 form is left as it is. */
  lemma CanonicalIsFixedPoint(s: string)
    requires IsCanonical(s)
    ensures NormalizeUuid(s) == s
  {
    var t1, t2, t3 := s[9..], s[14..], s[19..];
    var a, b, c, d, e := s[..8], t1[..4], t2[..4], t3[..4], t3[5..];
    JoinSplit(s, 8);
    JoinSplit(t1, 4);
    JoinSplit(t2, 4);
    JoinSplit(t3, 4);
    assert t1[5..] == t2 && t2[5..] == t3;
    assert s == Join(a, Join(b, Join(c, Join(d, e))));
    NoDashInSlice(s, 0, 8);
    NoDashInSlice(s, 9, 13);
    NoDashInSlice(s, 14, 18);
    NoDashInSlice(s, 19, 23);
    NoDashInSlice(s, 24, 36);
    assert b == s[9..13] && c == s[14..18] && d == s[19..23] && e == s[24..36];
    StripFiveGroups(a, b, c, d, e);
    GroupParts(a, b, c, d, e);
  }

  /** A slice with no dash at any of its positions. */
  lemma NoDashInSlice(s: string, i: int, j: int)
    requires 0 <= i <= j <= |s| && forall k :: i <= k < j ==> s[k] != '-'
    ensures '-' !in s[i..j]
  {
    forall k | 0 <= k < j - i
      ensures s[i..j][k] != '-'
    {
      assert s[i..j][k] == s[i + k];
    }
  }

  /** A 36-character id with 32 characters besides its dashes but a dash at index 4 is not canonical,
    * and is regrouped into canonical form. */
  lemma MisplacedDashesRegrouped(s: string)
    requires |s| == 36 && |StripDashes(s)| == 32 && s[4] == '-'
    ensures !IsCanonical(s)
    ensures IsCanonical(NormalizeUuid(s)) && NormalizeUuid(s) != s
  {
    NormalizeCases(s);
  }

  /** Only the length is checked: any 32 characters other than '-' are regrouped, hex digits or not. */
  lemma AnyCharactersRegrouped(s: string)
    requires |s| == 32 && '-' !in s
    ensures NormalizeUuid(s) == Group(s)
  {
    StripDashesNoDash(s);
  }
}
