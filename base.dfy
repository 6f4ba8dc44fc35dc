/** Small shared vocabulary: an optional value, PHP's notion of an "empty"
    string, and a first-occurrence search used by the parsers of the model. */
module Base {

  datatype Option<+T> = None | Some(value: T)

  /** PHP's `empty()` applied to a string: true for "" and for "0". */
  predicate PhpEmptyString(s: string) {
    s == "" || s == "0"
  }

  /** Index of the first occurrence of `c` in `s` at or after `from`. */
  function IndexOf(s: string, c: char, from: nat): (r: Option<nat>)
    decreases |s| - from
    ensures r.Some? ==> from <= r.value < |s| && s[r.value] == c
    ensures r.Some? ==> forall k :: from <= k < r.value ==> s[k] != c
    ensures r.None? ==> forall k :: from <= k < |s| ==> s[k] != c
  {
    if from >= |s| then None
    else if s[from] == c then Some(from)
    else IndexOf(s, c, from + 1)
  }

  /** The search finds exactly the position of the first `c` when one exists. */
  lemma IndexOfFinds(s: string, c: char, from: nat, k: nat)
    requires from <= k < |s| && s[k] == c
    requires forall j :: from <= j < k ==> s[j] != c
    ensures IndexOf(s, c, from) == Some(k)
  {
  }
}
