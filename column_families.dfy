/**
 * The column-family namespace check of `RoochDB::init_with_metrics`:
 * the names declared by the MoveOS state store and by the Rooch chain
 * store are put into one list, and that list is scanned once for a
 * name that occurs twice before the shared engine is opened.
 */
module ColumnFamilies {
  import opened Wrappers

  /** A column-family name: one logical namespace inside the shared engine. */
  type CfName = string

  /** No name occurs at two positions of `s`. */
  predicate Distinct(s: seq<CfName>)
  {
    forall i, j | 0 <= i < j < |s| :: s[i] != s[j]
  }

  /**
   * Position `k` holds the first repeat of `s`: the name there already
   * occurs earlier, and the names before it are pairwise distinct.
   * This is the position at which inserting into the set first fails.
   */
  predicate IsFirstRepeat(s: seq<CfName>, k: nat)
  {
    k < |s| && s[k] in s[..k] && Distinct(s[..k])
  }

  /**
   * The combined list handed to the engine: the MoveOS store's names
   * followed by the Rooch store's names, each in its declared order.
   */
  function Combine(moveos: seq<CfName>, rooch: seq<CfName>): (r: seq<CfName>)
    ensures |r| == |moveos| + |rooch|
    ensures forall i | 0 <= i < |moveos| :: r[i] == moveos[i]
    ensures forall j | 0 <= j < |rooch| :: r[|moveos| + j] == rooch[j]
  {
    moveos + rooch
  }

  /**
   * Reference definition of the scan's verdict: the position of the
   * first repeat, or None when every name is distinct.
   */
  function FirstRepeat(s: seq<CfName>): (r: Option<nat>)
    ensures r.None? <==> Distinct(s)
    ensures r.Some? ==> IsFirstRepeat(s, r.value)
    decreases |s|
  {
    if s == [] then None
    else
      var init := s[..|s| - 1];
      match FirstRepeat(init)
      case Some(k) =>
        assert s[..k] == init[..k];
        Some(k)
      case None =>
        if s[|s| - 1] in init then
          assert s[..|s| - 1] == init;
          Some(|s| - 1)
        else
          None
  }

  /** The first repeat is unique: FirstRepeat finds every position that is one. */
  lemma FirstRepeatUnique(s: seq<CfName>, k: nat)
    requires IsFirstRepeat(s, k)
    ensures FirstRepeat(s) == Some(k)
  {
  }

  /**
   * The combined list is free of repeats exactly when each store's own
   * list is, and no name is declared by both stores.
   */
  lemma DistinctCombine(moveos: seq<CfName>, rooch: seq<CfName>)
    ensures Distinct(Combine(moveos, rooch)) <==>
      Distinct(moveos) && Distinct(rooch) &&
      forall i, j | 0 <= i < |moveos| && 0 <= j < |rooch| :: moveos[i] != rooch[j]
  {
  }

  /**
   * The uniqueness scan: walks the list once, inserting each name into a
   * set, and stops at the first name the set already holds. Returns that
   * name, or None when the whole list was inserted.
   */
  method CheckNoDuplicates(cfs: seq<CfName>) returns (dup: Option<CfName>)
    ensures dup.None? <==> Distinct(cfs)
    ensures dup.Some? ==> FirstRepeat(cfs).Some? && dup.value == cfs[FirstRepeat(cfs).value]
  {
    var seen: set<CfName> := {};
    var i := 0;
    while i < |cfs|
      invariant 0 <= i <= |cfs|
      invariant forall x :: x in seen <==> x in cfs[..i]
      invariant |seen| == i
      invariant Distinct(cfs[..i])
    {
      if cfs[i] in seen {
        FirstRepeatUnique(cfs, i);
        return Some(cfs[i]);
      }
      assert cfs[..i + 1] == cfs[..i] + [cfs[i]];
      seen := seen + {cfs[i]};
      i := i + 1;
    }
    assert cfs[..i] == cfs;
    return None;
  }

  /**
   * Two concrete layouts: `["cf_a"]` then `["cf_a"]`
   * is rejected at its second name, and `["cf_a", "cf_b"]` then
   * `["cf_c"]` passes as `["cf_a", "cf_b", "cf_c"]`.
   */
  lemma Scenarios()
    ensures FirstRepeat(Combine(["cf_a"], ["cf_a"])) == Some(1)
    ensures Combine(["cf_a", "cf_b"], ["cf_c"]) == ["cf_a", "cf_b", "cf_c"]
    ensures FirstRepeat(Combine(["cf_a", "cf_b"], ["cf_c"])) == None
  {
  }
}
