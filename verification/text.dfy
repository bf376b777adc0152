/**
  The two string operations the chat route relies on: `toLowerCase`
  (ASCII letters only) and `includes`.
 */
module Text {

  predicate IsUpper(ch: char) {
    'A' <= ch <= 'Z'
  }

  function LowerChar(ch: char): (l: char)
    ensures !IsUpper(l)
    ensures IsUpper(ch) ==> l as int == ch as int + 32
    ensures !IsUpper(ch) ==> l == ch
  {
    if IsUpper(ch) then (ch as int + 32) as char else ch
  }

  /** `s.toLowerCase()`: each upper-case ASCII letter becomes its lower-case form. */
  function Lower(s: string): (r: string)
    ensures |r| == |s|
    ensures forall i :: 0 <= i < |s| ==> r[i] == LowerChar(s[i])
    ensures forall i :: 0 <= i < |r| ==> !IsUpper(r[i])
    decreases |s|
  {
    if |s| == 0 then [] else [LowerChar(s[0])] + Lower(s[1..])
  }

  /** Lower-casing twice is lower-casing once. */
  lemma LowerIdempotent(s: string)
    ensures Lower(Lower(s)) == Lower(s)
  {
    var l := Lower(s);
    assert forall i :: 0 <= i < |l| ==> Lower(l)[i] == l[i];
  }

  /** `sub` occurs in `s` starting at index `k`. */
  ghost predicate OccursAt(s: string, sub: string, k: int) {
    0 <= k && k + |sub| <= |s| && s[k..k + |sub|] == sub
  }

  /** `sub` matches `s` at offset `k` from its `j`-th character on, compared one by one. */
  function MatchesAt(s: string, sub: string, k: nat, j: nat): bool
    requires k + |sub| <= |s|
    decreases |sub| - j
  {
    j >= |sub| || (s[k + j] == sub[j] && MatchesAt(s, sub, k, j + 1))
  }

  lemma {:induction false} MatchesAtIff(s: string, sub: string, k: nat, j: nat)
    requires k + |sub| <= |s|
    ensures MatchesAt(s, sub, k, j) <==> forall i :: j <= i < |sub| ==> s[k + i] == sub[i]
    decreases |sub| - j
  {
    if j < |sub| {
      MatchesAtIff(s, sub, k, j + 1);
    }
  }

  /** Whether `sub` occurs in `s` at some offset from `k` on, trying offsets left to right. */
  function ContainsFrom(s: string, sub: string, k: nat): bool
    decreases |s| - k
  {
    if k + |sub| > |s| then false
    else if MatchesAt(s, sub, k, 0) then true
    else ContainsFrom(s, sub, k + 1)
  }

  /** `s.includes(sub)`. */
  function Contains(s: string, sub: string): bool {
    ContainsFrom(s, sub, 0)
  }

  lemma {:induction false} ContainsFromIffOccurs(s: string, sub: string, k: nat)
    ensures ContainsFrom(s, sub, k) <==> exists p :: k <= p && OccursAt(s, sub, p)
    decreases |s| - k
  {
    if k + |sub| > |s| {
    } else {
      MatchesAtIff(s, sub, k, 0);
      if MatchesAt(s, sub, k, 0) {
        assert s[k..k + |sub|] == sub;
        assert OccursAt(s, sub, k);
      } else {
        ContainsFromIffOccurs(s, sub, k + 1);
        if exists p :: k <= p && OccursAt(s, sub, p) {
          var p :| k <= p && OccursAt(s, sub, p);
          assert p != k;
        }
      }
    }
  }

  /** `Contains` finds exactly the strings that occur somewhere in `s`. */
  lemma ContainsIffOccurs(s: string, sub: string)
    ensures Contains(s, sub) <==> exists k :: OccursAt(s, sub, k)
  {
    ContainsFromIffOccurs(s, sub, 0);
  }

  /** Whether `s` contains any of `subs` (`subs.some(q => s.includes(q))`). */
  function ContainsAny(s: string, subs: seq<string>): (b: bool)
    ensures b <==> exists i :: 0 <= i < |subs| && Contains(s, subs[i])
    decreases |subs|
  {
    if |subs| == 0 then false
    else Contains(s, subs[0]) || ContainsAny(s, subs[1..])
  }

  /** A string holding an upper-case letter never occurs in lower-cased text. */
  lemma UpperNeverInLower(m: string, sub: string, j: nat)
    requires j < |sub| && IsUpper(sub[j])
    ensures !Contains(Lower(m), sub)
  {
    var l := Lower(m);
    ContainsIffOccurs(l, sub);
    forall k | 0 <= k && k + |sub| <= |l|
      ensures !OccursAt(l, sub, k)
    {
      assert l[k..k + |sub|][j] == l[k + j];
    }
  }
}
