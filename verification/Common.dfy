/** Small vocabulary shared by all modules: process ids, options and counting facts about finite sets. */
module Common {
  /** types.ProcessID */
  type PID = int

  datatype Option<+T> = None | Some(value: T)

  /** A subset has at most as many elements as its superset. */
  lemma SubsetCard<T>(a: set<T>, b: set<T>)
    requires a <= b
    ensures |a| <= |b|
  {
    assert b == a + (b - a);
  }

  /** Two sets that together are larger than the universe plus f share an element outside any f-element set. */
  lemma QuorumsMeet<T>(a: set<T>, b: set<T>, universe: set<T>, faulty: set<T>) returns (x: T)
    requires a <= universe && b <= universe
    requires |a| + |b| > |universe| + |faulty|
    ensures x in a && x in b && x !in faulty
  {
    assert |a + b| + |a * b| == |a| + |b|;
    SubsetCard(a + b, universe);
    if a * b <= faulty {
      SubsetCard(a * b, faulty);
      assert false;
    }
    x :| x in a * b && x !in faulty;
  }

  /** A set larger than f contains an element outside any f-element set. */
  lemma OneOutside<T>(a: set<T>, faulty: set<T>) returns (x: T)
    requires |a| > |faulty|
    ensures x in a && x !in faulty
  {
    if a <= faulty {
      SubsetCard(a, faulty);
      assert false;
    }
    x :| x in a && x !in faulty;
  }

  lemma MulMono(n: int, a: int, b: int)
    ensures 0 <= n && a <= b ==> n * a <= n * b
  {
  }

  /** The next key of a map iteration: any element of what is left. */
  method PickAny<T(==)>(s: set<T>) returns (x: T)
    requires s != {}
    ensures x in s
  {
    x :| x in s;
  }
}
