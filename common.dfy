/** Failure-compatible wrappers shared by the modules of the model.
    `Result` stands for a Python call that either returns a value or raises;
    the error carries the exception's text (what `str(e)` would give). */
module Common {

  datatype Option<+T> = None | Some(value: T)

  datatype Result<+T> = Ok(value: T) | Err(error: string)

  /** An embedding vector; only passed through, never inspected. */
  type Vector = seq<real>

  /** A call that returns nothing: it either completes or raises. */
  datatype Outcome = Pass | Fail(error: string)

  function Min(a: int, b: int): int
  {
    if a <= b then a else b
  }

  /** No element occurs twice. */
  predicate NoDuplicates<T(==)>(s: seq<T>)
  {
    forall i, j :: 0 <= i < j < |s| ==> s[i] != s[j]
  }

  /** The elements of a sequence, as a set. */
  function Elements<T>(s: seq<T>): set<T>
  {
    set x | x in s
  }

  /** In a list without duplicates every listed element occurs exactly once. */
  lemma {:induction false} NoDuplicatesOccursOnce<T>(s: seq<T>, x: T)
    requires NoDuplicates(s) && x in s
    ensures multiset(s)[x] == 1
  {
    assert s == [s[0]] + s[1..];
    if s[0] == x {
      assert x !in s[1..];
    } else {
      assert NoDuplicates(s[1..]);
      NoDuplicatesOccursOnce(s[1..], x);
    }
  }

  /** A duplicate-free list has as many elements as its set. */
  lemma {:induction false} NoDuplicatesCardinality<T>(s: seq<T>)
    requires NoDuplicates(s)
    ensures |Elements(s)| == |s|
  {
    if s != [] {
      assert NoDuplicates(s[1..]);
      NoDuplicatesCardinality(s[1..]);
      assert Elements(s) == {s[0]} + Elements(s[1..]);
      assert s[0] !in Elements(s[1..]);
    }
  }

  /** A duplicate-free listing of a one-element set is that element alone. */
  lemma SingletonListing<T>(s: seq<T>, x: T)
    requires NoDuplicates(s) && Elements(s) == {x}
    ensures s == [x]
  {
    NoDuplicatesCardinality(s);
    assert s[0] in Elements(s);
  }
}
