/** Small shared vocabulary: optional values, bytes, and sequences seen as sets. */
module Base {

  datatype Option<+T> = None | Some(value: T)

  /** One byte of a stream or a file. */
  type Byte = b: int | 0 <= b < 256

  function Min(a: nat, b: nat): nat {
    if a <= b then a else b
  }

  ghost function Elems<T>(s: seq<T>): set<T> {
    set x | x in s
  }

  lemma OnlyOne<T>(x: set<T>, e: T)
    requires |x| == 1 && e in x
    ensures x == {e}
  {
    assert |x - {e}| == 0;
    assert x - {e} == {};
  }

  /** No element occurs twice. */
  ghost predicate Distinct<T>(s: seq<T>) {
    forall i, j :: 0 <= i < j < |s| ==> s[i] != s[j]
  }
}
