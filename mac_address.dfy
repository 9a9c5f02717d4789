/**
 * MAC addresses as the adapter compares them: two spellings denote the same
 * address when they are equal after `toLowerCase()`.
 */
module MacAddress {

  /** Lower-cases one character; only the ASCII letters A-Z change. */
  function LowerChar(c: char): (r: char)
    ensures 'A' <= c <= 'Z' ==> 'a' <= r <= 'z' && r as int == c as int + 32
    ensures !('A' <= c <= 'Z') ==> r == c
  {
    if 'A' <= c <= 'Z' then (c as int + 32) as char else c
  }

  /** `s.toLowerCase()`, character by character. */
  function Lower(s: string): (r: string)
    ensures |r| == |s|
    ensures forall i :: 0 <= i < |s| ==> r[i] == LowerChar(s[i])
  {
    if s == [] then [] else [LowerChar(s[0])] + Lower(s[1..])
  }

  /** The comparison used to match a configured MAC against an ARP entry. */
  predicate SameMac(a: string, b: string): (r: bool)
    ensures r ==> |a| == |b|
    ensures a == b ==> r
  {
    Lower(a) == Lower(b)
  }

  /** Lower-casing twice is lower-casing once, so a MAC always matches its
      lower-case spelling. */
  lemma LowerIdempotent(s: string)
    ensures Lower(Lower(s)) == Lower(s)
    ensures SameMac(s, Lower(s))
  {
  }

  /** Two spellings match exactly when they have the same length and agree
      character by character once the letters' case is ignored. */
  lemma SameMacIgnoresCase(a: string, b: string)
    ensures SameMac(a, b) <==>
              |a| == |b| && forall i :: 0 <= i < |a| ==> LowerChar(a[i]) == LowerChar(b[i])
  {
  }
}
