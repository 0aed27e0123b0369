/**
  Python's `str.strip()` and `str.lower()` restricted to ASCII.
 */
module Text {

  /** The ASCII characters Python's `str.isspace` accepts. */
  predicate IsSpace(c: char) {
    c == ' ' || (9 <= c as int <= 13) || (28 <= c as int <= 31)
  }

  predicate AllSpace(s: string) {
    forall i | 0 <= i < |s| :: IsSpace(s[i])
  }

  /** `s` neither starts nor ends with whitespace. */
  predicate Trimmed(s: string) {
    |s| == 0 || (!IsSpace(s[0]) && !IsSpace(s[|s| - 1]))
  }

  /** The first index at or after `i` that does not hold whitespace, or `|s|`. */
  function CoreStart(s: string, i: nat): (k: nat)
    requires i <= |s|
    ensures i <= k <= |s|
    ensures forall j | i <= j < k :: IsSpace(s[j])
    ensures k < |s| ==> !IsSpace(s[k])
    decreases |s| - i
  {
    if i < |s| && IsSpace(s[i]) then CoreStart(s, i + 1) else i
  }

  /** Scanning back from `j` towards `lo`: the end of the last non-whitespace character, or `lo`. */
  function CoreEnd(s: string, lo: nat, j: nat): (k: nat)
    requires lo <= j <= |s|
    ensures lo <= k <= j
    ensures forall m | k <= m < j :: IsSpace(s[m])
    ensures k > lo ==> !IsSpace(s[k - 1])
    decreases j
  {
    if j > lo && IsSpace(s[j - 1]) then CoreEnd(s, lo, j - 1) else j
  }

  /** Python's `s.strip()`: the result has no whitespace at either end, and is empty only for all-whitespace input. */
  function Strip(s: string): (r: string)
    ensures Trimmed(r)
    ensures r == "" <==> AllSpace(s)
  {
    var lo := CoreStart(s, 0);
    s[lo..CoreEnd(s, lo, |s|)]
  }

  /** `s` splits as `pre + Strip(s) + post` with `pre` and `post` all whitespace. */
  lemma StripSplit(s: string) returns (i: nat)
    ensures i + |Strip(s)| <= |s|
    ensures s[i..i + |Strip(s)|] == Strip(s)
    ensures AllSpace(s[..i]) && AllSpace(s[i + |Strip(s)|..])
  {
    i := CoreStart(s, 0);
    var hi := CoreEnd(s, i, |s|);
    assert hi == i + |Strip(s)|;
  }

  /** Scanning forward over whitespace stops at the first non-whitespace character. */
  lemma CoreStartIs(s: string, i: nat, k: nat)
    requires i <= k <= |s|
    requires forall j | i <= j < k :: IsSpace(s[j])
    requires k < |s| ==> !IsSpace(s[k])
    ensures CoreStart(s, i) == k
    decreases k - i
  {
  }

  /** Scanning backward over whitespace stops after the last non-whitespace character. */
  lemma CoreEndIs(s: string, lo: nat, j: nat, k: nat)
    requires lo <= k <= j <= |s|
    requires forall m | k <= m < j :: IsSpace(s[m])
    requires k > lo ==> !IsSpace(s[k - 1])
    ensures CoreEnd(s, lo, j) == k
    decreases j
  {
  }

  /** Stripping a trimmed core padded with whitespace on both sides gives back the core. */
  lemma {:induction false} StripPadded(pre: string, core: string, post: string)
    requires AllSpace(pre) && AllSpace(post) && Trimmed(core)
    ensures Strip(pre + core + post) == core
  {
    var s := pre + core + post;
    var lo := |pre|;
    var hi := |pre| + |core|;
    if |core| == 0 {
      assert forall j | 0 <= j < |s| :: IsSpace(s[j]) by {
        forall j | 0 <= j < |s|
          ensures IsSpace(s[j])
        {
          if j < |pre| { assert s[j] == pre[j]; } else { assert s[j] == post[j - |pre|]; }
        }
      }
      CoreStartIs(s, 0, |s|);
      assert s[|s|..|s|] == core;
    } else {
      assert forall j | 0 <= j < lo :: IsSpace(s[j]) by {
        forall j | 0 <= j < lo
          ensures IsSpace(s[j])
        {
          assert s[j] == pre[j];
        }
      }
      assert s[lo] == core[0];
      CoreStartIs(s, 0, lo);
      assert forall m | hi <= m < |s| :: IsSpace(s[m]) by {
        forall m | hi <= m < |s|
          ensures IsSpace(s[m])
        {
          assert s[m] == post[m - hi];
        }
      }
      assert s[hi - 1] == core[|core| - 1];
      CoreEndIs(s, lo, |s|, hi);
      assert s[lo..hi] == core;
    }
  }

  function LowerChar(c: char): char {
    if 'A' <= c <= 'Z' then (c as int + 32) as char else c
  }

  /** Python's `s.lower()` on ASCII letters; every other character is kept. */
  function Lower(s: string): (r: string)
    ensures |r| == |s|
    ensures forall i | 0 <= i < |s| :: r[i] == LowerChar(s[i])
  {
    if |s| == 0 then "" else [LowerChar(s[0])] + Lower(s[1..])
  }
}
