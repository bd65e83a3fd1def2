/**
 * The last setup page's summary, where the API key is shown masked.
 */
module SetupComplete {
  /** `'*'.repeat(n)`. */
  function Stars(n: nat): (s: string)
    ensures |s| == n && forall i :: 0 <= i < n ==> s[i] == '*'
  {
    if n == 0 then "" else Stars(n - 1) + "*"
  }

  /** `maskApiKey`: a key of at most four characters shows as four stars; a longer one keeps its length and shows only its last four characters. */
  function MaskApiKey(key: string): (m: string)
    ensures |key| <= 4 ==> m == "****"
    ensures |key| > 4 ==> |m| == |key| && m[|key| - 4..] == key[|key| - 4..]
    ensures |key| > 4 ==> forall i :: 0 <= i < |key| - 4 ==> m[i] == '*'
  {
    if |key| <= 4 then "****" else Stars(|key| - 4) + key[|key| - 4..]
  }

  /** Two keys mask alike exactly when they have the same length and the same last four characters (or both are short): the mask tells nothing more. */
  lemma MaskRevealsOnlyTail(a: string, b: string)
    requires |a| > 4 && |b| > 4
    ensures MaskApiKey(a) == MaskApiKey(b) <==> |a| == |b| && a[|a| - 4..] == b[|b| - 4..]
  {
    if |a| == |b| && a[|a| - 4..] == b[|b| - 4..] {
      assert forall i :: 0 <= i < |a| ==> MaskApiKey(a)[i] == MaskApiKey(b)[i];
    }
  }

  /** Every short key masks alike, so its length is hidden too. */
  lemma ShortKeysIndistinguishable(a: string, b: string)
    requires |a| <= 4 && |b| <= 4
    ensures MaskApiKey(a) == MaskApiKey(b)
  {
  }
}
