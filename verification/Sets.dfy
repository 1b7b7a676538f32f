/** Facts about finite sets. */
module Sets {

  lemma Pick<T>(s: set<T>) returns (e: T)
    requires |s| != 0
    ensures e in s
  {
    e :| e in s;
  }

  lemma {:induction false} SubsetSize<T>(a: set<T>, b: set<T>)
    requires a <= b
    ensures |a| <= |b|
    decreases |a|
  {
    if |a| != 0 {
      var e := Pick(a);
      SubsetSize(a - {e}, b - {e});
    }
  }
}
