/**
 * The content script's French-text heuristic: four fixed groups of common
 * French words (determiners, subject pronouns, common verbs, prepositions),
 * each searched for with the case-insensitive pattern `\b(w1|w2|...)\b`; the text is
 * taken for French when at least two groups occur.
 *
 * The patterns carry the `i` flag but not the `u` flag, so by section 22.2.2
 * of ECMA-262 (IsWordChar) only ASCII letters, digits and `_` are word
 * characters for `\b`, and case folding maps a character to its simple upper
 * case. A JavaScript string is a sequence of UTF-16 code units while a Dafny
 * string is a sequence of code points; the two views give the same matches
 * here, because neither half of a surrogate pair is a word character or
 * matches a pattern character.
 */
module FrenchText {

  const Determiners: seq<string> := ["le", "la", "les", "un", "une", "des"]
  const Pronouns: seq<string> := ["je", "tu", "il", "elle", "nous", "vous", "ils", "elles"]
  const Verbs: seq<string> := ["être", "avoir", "faire", "aller"]
  const Prepositions: seq<string> := ["dans", "sur", "avec", "pour", "par"]

  /** The four pattern groups, in the order the source lists them. */
  const FrenchPatterns: seq<seq<string>> := [Determiners, Pronouns, Verbs, Prepositions]

  const MinPatternMatches: nat := 2

  /** A word character of `\b` without the `u` flag: [A-Za-z0-9_]. */
  predicate IsWordChar(c: char) {
    ('a' <= c <= 'z') || ('A' <= c <= 'Z') || ('0' <= c <= '9') || c == '_'
  }

  predicate IsWordCharAt(t: string, k: int) {
    0 <= k < |t| && IsWordChar(t[k])
  }

  /** `\b` holds at position k, between t[k-1] and t[k]; outside the text counts as non-word. */
  predicate AtBoundary(t: string, k: int) {
    IsWordCharAt(t, k - 1) != IsWordCharAt(t, k)
  }

  /** Case folding of the `i` flag on the Latin-1 letters, the only ones the patterns use:
      two characters match when they fold to the same character. */
  function Fold(c: char): char {
    if 'A' <= c <= 'Z' || ('\U{C0}' <= c <= '\U{DE}' && c != '\U{D7}') then (c as int + 32) as char else c
  }

  predicate MatchesAt(t: string, i: nat, w: string)
    requires i + |w| <= |t|
  {
    forall j :: 0 <= j < |w| ==> Fold(t[i + j]) == Fold(w[j])
  }

  /** The alternative w of a pattern `\b(...)\b` matches at position i. */
  predicate WordAt(t: string, w: string, i: int) {
    0 <= i && i + |w| <= |t| && AtBoundary(t, i) && MatchesAt(t, i, w) && AtBoundary(t, i + |w|)
  }

  /** The pattern built from a group matches somewhere in t: the specification of `pattern.test(t)`. */
  ghost predicate GroupMatches(t: string, group: seq<string>) {
    exists w, i :: w in group && WordAt(t, w, i)
  }

  /** The indices of the groups that match t. */
  ghost function MatchingGroups(t: string, groups: seq<seq<string>>): set<nat> {
    set g: nat | g < |groups| && GroupMatches(t, groups[g])
  }

  /** Searches for w as a whole word from position i on. */
  function FindWordFrom(t: string, w: string, i: nat): (found: bool)
    decreases |t| + 1 - i
    ensures found <==> exists k :: i <= k && WordAt(t, w, k)
  {
    if i + |w| > |t| then false
    else WordAt(t, w, i) || FindWordFrom(t, w, i + 1)
  }

  /** `pattern.test(t)` for the pattern of one group: tries each alternative. */
  function TestGroup(t: string, group: seq<string>): (found: bool)
    ensures found <==> GroupMatches(t, group)
  {
    if group == [] then false
    else
      var here := FindWordFrom(t, group[0], 0);
      var later := TestGroup(t, group[1..]);
      assert later <==> exists w, i :: w in group[1..] && WordAt(t, w, i);
      assert forall w :: w in group <==> w == group[0] || w in group[1..];
      here || later
  }

  /** `patterns.filter(p => p.test(t)).length`: the number of matching groups. */
  function CountMatching(t: string, groups: seq<seq<string>>): (n: nat)
    ensures n == |MatchingGroups(t, groups)|
    ensures n <= |groups|
  {
    if groups == [] then
      assert MatchingGroups(t, groups) == {};
      0
    else
      var last := |groups| - 1;
      var m := CountMatching(t, groups[..last]);
      var hit := TestGroup(t, groups[last]);
      MatchingGroupsOfSnoc(t, groups);
      m + (if hit then 1 else 0)
  }

  /** The groups matching a sequence are those matching all but its last group,
      plus the last one when it matches. */
  lemma MatchingGroupsOfSnoc(t: string, groups: seq<seq<string>>)
    requires groups != []
    ensures var last := |groups| - 1;
      && MatchingGroups(t, groups)
           == MatchingGroups(t, groups[..last]) + (if GroupMatches(t, groups[last]) then {last} else {})
      && last !in MatchingGroups(t, groups[..last])
  {
  }

  /** isFrenchText: at least two of the four groups occur as whole words. */
  function IsFrenchText(t: string): (french: bool)
    ensures french <==> |MatchingGroups(t, FrenchPatterns)| >= MinPatternMatches
  {
    CountMatching(t, FrenchPatterns) >= MinPatternMatches
  }

  /** Because `ê` is no word character, `\b` before "être" needs a word
      character right before it: after a space, an apostrophe or at the start
      of the text the verb never matches. */
  lemma EtreNeedsWordCharBefore(t: string, i: int)
    requires WordAt(t, "être", i)
    ensures i > 0 && IsWordChar(t[i - 1])
  {
    var w := "être";
    assert w[0] == 'ê';
    assert MatchesAt(t, i, w);
    assert Fold(t[i + 0]) == Fold(w[0]);
    assert t[i] == 'ê' || t[i] == 'Ê';
  }

  /** Conversely `\b` does not look past ASCII: "le" is found inside "île". */
  lemma LeFoundInsideIle()
    ensures WordAt("île", "le", 1)
    ensures GroupMatches("île", Determiners)
  {
    assert "le" in Determiners;
  }

  /** Two groups with a witness each are enough for the heuristic. */
  lemma {:induction false} TwoGroupsSuffice(t: string, g1: nat, w1: string, i1: int, g2: nat, w2: string, i2: int)
    requires g1 < g2 < |FrenchPatterns|
    requires w1 in FrenchPatterns[g1] && WordAt(t, w1, i1)
    requires w2 in FrenchPatterns[g2] && WordAt(t, w2, i2)
    ensures IsFrenchText(t)
  {
    var s := MatchingGroups(t, FrenchPatterns);
    assert g1 in s && g2 in s;
    assert {g1, g2} <= s;
    assert |{g1, g2}| == 2;
    SubsetCardinality({g1, g2}, s);
  }

  lemma {:induction false} SubsetCardinality(a: set<nat>, b: set<nat>)
    requires a <= b
    ensures |a| <= |b|
  {
    assert b == a + (b - a);
  }
}
