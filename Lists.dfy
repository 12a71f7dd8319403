/** Facts about lists of strings shared by the session table and the URL editor. */
module Lists {

  /** No string occurs twice. */
  predicate Distinct(s: seq<string>) {
    forall i, j :: 0 <= i < j < |s| ==> s[i] != s[j]
  }

  /** Putting a new string in front of a duplicate-free list keeps it duplicate-free. */
  lemma DistinctCons(a: string, rest: seq<string>)
    ensures Distinct(rest) && a !in rest ==> Distinct([a] + rest)
  {
    if Distinct(rest) && a !in rest {
      var t := [a] + rest;
      forall i, j | 0 <= i < j < |t|
        ensures t[i] != t[j]
      {
        assert t[j] == rest[j - 1];
        if i > 0 {
          assert t[i] == rest[i - 1];
        }
      }
    }
  }
}
