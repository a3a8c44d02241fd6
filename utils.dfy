/** The helpers of the `utils` package: mapping over a slice, slice containment, and the first header value. */
module Utils {
  import opened Http

  /** The value of mapping `f` over `s`: same length, element i is `f(s[i])`. */
  function MapSeq<T>(s: seq<T>, f: T -> T): (r: seq<T>)
    ensures |r| == |s|
    ensures forall i :: 0 <= i < |s| ==> r[i] == f(s[i])
  {
    if s == [] then [] else [f(s[0])] + MapSeq(s[1..], f)
  }

  /** An element of `s` maps to an element of the mapped sequence, and every element of it comes from one. */
  lemma MapSeqMember<T>(s: seq<T>, f: T -> T, y: T)
    ensures y in MapSeq(s, f) <==> exists i :: 0 <= i < |s| && f(s[i]) == y
  {
    var r := MapSeq(s, f);
    if y in r {
      var k :| 0 <= k < |r| && r[k] == y;
      assert f(s[k]) == y;
    }
  }

  /**
   * `HandleSlice`: allocates a new slice of the input's length and fills it by
   * index with `fn` of the input's element. The input is not written (it is not
   * in the frame) and the result is a fresh array, so the two never alias.
   */
  method HandleSlice<T(0)>(slice: array<T>, fn: T -> T) returns (outSlice: array<T>)
    ensures fresh(outSlice)
    ensures outSlice.Length == slice.Length
    ensures forall i :: 0 <= i < slice.Length ==> outSlice[i] == fn(slice[i])
    ensures outSlice[..] == MapSeq(slice[..], fn)
  {
    outSlice := new T[slice.Length];
    for i := 0 to slice.Length
      invariant forall k :: 0 <= k < i ==> outSlice[k] == fn(slice[k])
    {
      outSlice[i] := fn(slice[i]);
    }
  }

  /** Every element of `st` is a member of `so`. */
  predicate AllIn<T(==)>(so: seq<T>, st: seq<T>)
  {
    forall i :: 0 <= i < |st| ==> st[i] in so
  }

  /**
   * `ContainerOtherAll(so, st)`: scans `st` in order and answers false at the first
   * element missing from `so`, true when there is none (so true for an empty `st`).
   */
  method ContainerOtherAll<T(==)>(so: seq<T>, st: seq<T>) returns (ok: bool)
    ensures ok <==> AllIn(so, st)
    ensures !ok <==> exists i :: 0 <= i < |st| && st[i] !in so && AllIn(so, st[..i])
  {
    for i := 0 to |st|
      invariant AllIn(so, st[..i])
    {
      if st[i] !in so {
        return false;
      }
      assert st[..i + 1] == st[..i] + [st[i]];
    }
    assert st[..|st|] == st;
    return true;
  }

  /**
   * `GetHeaderFirst`: looks the exact key up; an absent key or an empty value list
   * gives `([], false)`, otherwise the one-element list of the first stored value and true.
   */
  function GetHeaderFirst(hdr: Header, key: string): (r: (seq<string>, bool))
    ensures !r.1 <==> key !in hdr || hdr[key] == []
    ensures !r.1 ==> r.0 == []
    ensures r.1 ==> r.0 == [hdr[key][0]]
  {
    if key !in hdr || |hdr[key]| == 0 then ([], false) else (hdr[key][..1], true)
  }

  /** GetHeaderFirst agrees with `Header.Get`: found exactly when Get is non-empty or a stored first value is "". */
  lemma GetHeaderFirstAgreesWithGet(hdr: Header, key: string)
    ensures GetHeaderFirst(hdr, key).1 ==> GetHeaderFirst(hdr, key).0 == [Get(hdr, key)]
    ensures !GetHeaderFirst(hdr, key).1 ==> Get(hdr, key) == ""
    ensures Get(hdr, key) != "" ==> GetHeaderFirst(hdr, key).1
  {
  }
}
