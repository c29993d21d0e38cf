/** ASCII text as the storefront folds, searches and orders it. */
module Text {

  function Trim(s: string): string {
    if s != "" && s[0] == ' ' then Trim(s[1..])
    else if s != "" && s[|s| - 1] == ' ' then Trim(s[..|s| - 1])
    else s
  }

  function Lower(s: string): string {
    seq(|s|, i requires 0 <= i < |s| =>
      if 'A' <= s[i] <= 'Z' then ((s[i] as int) + 32) as char else s[i])
  }

  predicate Trimmed(s: string) {
    s == "" || (s[0] != ' ' && s[|s| - 1] != ' ')
  }

  lemma {:induction false} TrimIsTrimmed(s: string)
    ensures Trimmed(Trim(s))
    ensures Trimmed(s) ==> Trim(s) == s
    ensures Trim([' '] + s) == Trim(s) == Trim(s + [' '])
  {
    assert ([' '] + s)[1..] == s;
    assert s + [' '] != "" && (s + [' '])[..|s|] == s;
    if s != "" && s[0] == ' ' { assert (s + [' '])[1..] == s[1..] + [' ']; }
    if s != "" && s[0] == ' ' { TrimIsTrimmed(s[1..]); }
    else if s != "" && s[|s| - 1] == ' ' { TrimIsTrimmed(s[..|s| - 1]); }
  }

  /** Trimming and folding gives one spelling: it has no outer blanks and no capitals,
      and a second pass changes nothing. */
  lemma FoldIsStable(s: string)
    ensures Trimmed(Lower(Trim(s)))
    ensures Lower(Trim(Lower(Trim(s)))) == Lower(Trim(s))
    ensures forall k | 0 <= k < |Lower(Trim(s))| :: !('A' <= Lower(Trim(s))[k] <= 'Z')
  {
    TrimIsTrimmed(s);
    var once := Lower(Trim(s));
    assert Trimmed(once);
    TrimIsTrimmed(once);
    assert Lower(once) == once;
  }

  const CAPITALS := "ABCDEFGHIJKLMNOPQRSTUVWXYZ"
  const SMALLS := "abcdefghijklmnopqrstuvwxyz"

  /** The same character, or the two cases of one letter. */
  ghost predicate SameLetter(a: char, b: char) {
    a == b || exists j | 0 <= j < 26 ::
      (a == CAPITALS[j] || a == SMALLS[j]) && (b == CAPITALS[j] || b == SMALLS[j])
  }

  lemma LetterAt(j: nat)
    requires j < 26
    ensures CAPITALS[j] as int == 65 + j && SMALLS[j] as int == 97 + j
  {}

  lemma LettersOf(c: char)
    ensures 'A' <= c <= 'Z' ==> 0 <= c as int - 65 < 26 && c == CAPITALS[c as int - 65]
    ensures 'a' <= c <= 'z' ==> 0 <= c as int - 97 < 26 && c == SMALLS[c as int - 97]
    ensures forall j | 0 <= j < 26 :: CAPITALS[j] as int == 65 + j && SMALLS[j] as int == 97 + j
  {
    forall j: nat | j < 26 ensures CAPITALS[j] as int == 65 + j && SMALLS[j] as int == 97 + j { LetterAt(j); }
  }

  lemma FoldedAlike(a: char, b: char)
    ensures Lower([a]) == Lower([b]) <==> SameLetter(a, b)
  {
    LettersOf(a);
    LettersOf(b);
    assert Lower([a])[0] == Lower([b])[0] <==> Lower([a]) == Lower([b]);
  }

  lemma LowerOf(c: char)
    ensures |Lower([c])| == 1 && (forall j | 0 <= j < 26 && c == CAPITALS[j] :: Lower([c])[0] == SMALLS[j])
    ensures c in CAPITALS || Lower([c])[0] == c
  {
    LettersOf(c);
  }

  /** Folding maps each capital to its own small letter and keeps every other character;
      two texts fold alike exactly when they differ in case alone. */
  lemma FoldsAlikeIff(s: string, t: string)
    ensures |Lower(s)| == |s|
    ensures forall k, j | 0 <= k < |s| && 0 <= j < 26 && s[k] == CAPITALS[j] :: Lower(s)[k] == SMALLS[j]
    ensures forall k | 0 <= k < |s| && s[k] !in CAPITALS :: Lower(s)[k] == s[k]
    ensures Lower(s) == Lower(t) <==> |s| == |t| && forall k | 0 <= k < |s| :: SameLetter(s[k], t[k])
  {
    forall k | 0 <= k < |s|
      ensures s[k] in CAPITALS || Lower(s)[k] == s[k]
      ensures forall j | 0 <= j < 26 && s[k] == CAPITALS[j] :: Lower(s)[k] == SMALLS[j]
    {
      LowerOf(s[k]);
      assert Lower(s)[k] == Lower([s[k]])[0];
    }
    AlikeIff(s, t);
  }

  lemma AlikeIff(s: string, t: string)
    ensures Lower(s) == Lower(t) <==> |s| == |t| && forall k | 0 <= k < |s| :: SameLetter(s[k], t[k])
  {
    if |s| == |t| {
      forall k | 0 <= k < |s| ensures Lower(s)[k] == Lower(t)[k] <==> SameLetter(s[k], t[k]) {
        FoldedAlike(s[k], t[k]);
        assert Lower([s[k]])[0] == Lower([t[k]])[0] <==> Lower([s[k]]) == Lower([t[k]]);
      }
      assert Lower(s) == Lower(t) <==> forall k | 0 <= k < |s| :: Lower(s)[k] == Lower(t)[k];
    }
  }

  lemma UpperOf(c: char)
    ensures |Upper([c])| == 1 && (forall j | 0 <= j < 26 && c == SMALLS[j] :: Upper([c])[0] == CAPITALS[j])
    ensures c in SMALLS || Upper([c])[0] == c
  {
    LettersOf(c);
  }

  /** Upper maps each small letter to its own capital and keeps every other character. */
  lemma UpperCapitalizes(s: string)
    ensures |Upper(s)| == |s|
    ensures forall k, j | 0 <= k < |s| && 0 <= j < 26 && s[k] == SMALLS[j] :: Upper(s)[k] == CAPITALS[j]
    ensures forall k | 0 <= k < |s| && s[k] !in SMALLS :: Upper(s)[k] == s[k]
  {
    forall k | 0 <= k < |s|
      ensures s[k] in SMALLS || Upper(s)[k] == s[k]
      ensures forall j | 0 <= j < 26 && s[k] == SMALLS[j] :: Upper(s)[k] == CAPITALS[j]
    {
      UpperOf(s[k]);
      assert Upper(s)[k] == Upper([s[k]])[0];
    }
  }

  function Upper(s: string): string {
    seq(|s|, i requires 0 <= i < |s| =>
      if 'a' <= s[i] <= 'z' then ((s[i] as int) - 32) as char else s[i])
  }

  predicate Contains(s: string, needle: string) {
    needle <= s || (s != "" && Contains(s[1..], needle))
  }

  predicate OccursAt(s: string, needle: string, k: int) {
    0 <= k <= |s| - |needle| && s[k..k + |needle|] == needle
  }

  /** The needle occurs at some offset. */
  lemma {:induction false} ContainsIff(s: string, needle: string)
    ensures Contains(s, needle) <==> exists k :: OccursAt(s, needle, k)
  {
    if needle <= s { assert OccursAt(s, needle, 0); }
    if s != "" {
      var rest := s[1..];
      ContainsIff(rest, needle);
      if k :| OccursAt(rest, needle, k) {
        assert s[k + 1..k + 1 + |needle|] == rest[k..k + |needle|];
        assert OccursAt(s, needle, k + 1);
      }
      if k :| OccursAt(s, needle, k) && k > 0 {
        assert rest[k - 1..k - 1 + |needle|] == s[k..k + |needle|];
        assert OccursAt(rest, needle, k - 1);
      }
    }
  }

  /** A prefix, or smaller at the first character that differs. */
  ghost predicate Precedes(s: string, t: string) {
    s <= t || exists k :: DiffersAt(s, t, k)
  }

  predicate DiffersAt(s: string, t: string, k: int) {
    0 <= k < |s| && k < |t| && s[..k] == t[..k] && s[k] < t[k]
  }

  lemma {:induction false} AtMostIff(s: string, t: string)
    ensures AtMost(s, t) <==> Precedes(s, t)
  {
    if s != "" && t != "" {
      AtMostIff(s[1..], t[1..]);
      if s[0] < t[0] { assert DiffersAt(s, t, 0); }
      if s[0] == t[0] {
        forall k | 0 < k < |s| && k < |t| ensures DiffersAt(s, t, k) <==> DiffersAt(s[1..], t[1..], k - 1) {
          assert s[..k] == [s[0]] + s[1..][..k - 1] && t[..k] == [t[0]] + t[1..][..k - 1];
          assert s[..k][1..] == s[1..][..k - 1] && t[..k][1..] == t[1..][..k - 1];
        }
        if exists k :: DiffersAt(s[1..], t[1..], k) {
          var k :| DiffersAt(s[1..], t[1..], k);
          assert DiffersAt(s, t, k + 1);
        }
        assert s <= t <==> s[1..] <= t[1..];
      }
    }
  }

  /** Lexicographic order by character. */
  predicate AtMost(s: string, t: string) {
    s == "" || (t != "" && (s[0] < t[0] || (s[0] == t[0] && AtMost(s[1..], t[1..]))))
  }

  lemma {:induction false} AtMostIsTotal(s: string, t: string)
    ensures AtMost(s, t) || AtMost(t, s)
  {
    if s != "" && t != "" { AtMostIsTotal(s[1..], t[1..]); }
  }

  lemma {:induction false} AtMostIsAntisymmetric(s: string, t: string)
    requires AtMost(s, t) && AtMost(t, s)
    ensures s == t
  {
    if s != "" {
      AtMostIsAntisymmetric(s[1..], t[1..]);
      assert s == [s[0]] + s[1..] && t == [t[0]] + t[1..];
    }
  }

  lemma {:induction false} AtMostIsTransitive(s: string, t: string, u: string)
    requires AtMost(s, t) && AtMost(t, u)
    ensures AtMost(s, u)
  {
    if s != "" && s[0] == t[0] == u[0] { AtMostIsTransitive(s[1..], t[1..], u[1..]); }
  }
}
