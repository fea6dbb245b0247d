/**
 * The string operations the page applies to a navigation path:
 * `toUpperCase`, `split('-')[0]` and `replace('-', ' ')`, over ASCII text.
 */
module AsciiText {

  predicate IsLower(c: char) { 'a' <= c <= 'z' }

  /** `toUpperCase` on one ASCII character: letters a..z map to A..Z, every other character is kept. */
  function UpperChar(c: char): char
  {
    if IsLower(c) then (c as int - 32) as char else c
  }

  /** `toUpperCase` on an ASCII string, character by character. */
  function Upper(s: string): (r: string)
    ensures |r| == |s|
    ensures forall j :: 0 <= j < |r| ==> !IsLower(r[j])
    ensures forall j :: 0 <= j < |s| && !IsLower(s[j]) ==> r[j] == s[j]
    ensures forall j :: 0 <= j < |s| && IsLower(s[j]) ==> 'A' <= r[j] <= 'Z' && r[j] as int + 32 == s[j] as int
  {
    seq(|s|, j requires 0 <= j < |s| => UpperChar(s[j]))
  }

  /**
   * The position of the first '-' in `s`, or `|s|` when there is none
   * (`indexOf('-')` with "not found" mapped to the end of the string).
   */
  function FirstDash(s: string): (k: nat)
    ensures k <= |s|
    ensures forall j :: 0 <= j < k ==> s[j] != '-'
    ensures k < |s| ==> s[k] == '-'
  {
    if s == [] || s[0] == '-' then 0 else 1 + FirstDash(s[1..])
  }

  /** `s.split('-')[0]`: the text before the first '-', or all of `s`. */
  function FirstSegment(s: string): string
  {
    s[..FirstDash(s)]
  }

  /** `s.replace('-', ' ')`: with a string pattern, only the first '-' becomes a space. */
  function ReplaceFirstDash(s: string): string
  {
    var k := FirstDash(s);
    if k == |s| then s else s[..k] + " " + s[k + 1..]
  }

  /** A '-' at `k` with none before it is the first one. */
  lemma DashAt(s: string, k: nat)
    requires k < |s| && s[k] == '-'
    requires forall j :: 0 <= j < k ==> s[j] != '-'
    ensures FirstDash(s) == k
  {
  }

  /** The first segment holds no '-', and it is all of `s` exactly when `s` holds no '-'. */
  lemma FirstSegmentSpec(s: string)
    ensures '-' !in FirstSegment(s)
    ensures FirstSegment(s) <= s
    ensures FirstSegment(s) == s <==> '-' !in s
    ensures |FirstSegment(s)| < |s| ==> s[|FirstSegment(s)|] == '-'
  {
  }

  /**
   * Replacing the first '-' keeps the length and changes at most one position:
   * the first '-' becomes ' ', every other character is kept.
   */
  lemma ReplaceFirstDashSpec(s: string)
    ensures |ReplaceFirstDash(s)| == |s|
    ensures forall j :: 0 <= j < |s| ==>
      ReplaceFirstDash(s)[j] == (if j == FirstDash(s) then ' ' else s[j])
    ensures '-' !in s ==> ReplaceFirstDash(s) == s
  {
  }
}
