/** The array methods the budget store is written with (`map` with a
    conditional, `filter`, `find`), as functions over sequences with the
    properties the store relies on. */
module Lists {
  import opened Wrappers

  /** `s.map(x => pick(x) ? f(x) : x)`: the picked elements are rewritten in
      place, every other element is kept, and the length never changes. */
  function MapIf<T>(s: seq<T>, pick: T -> bool, f: T -> T): (out: seq<T>)
    ensures |out| == |s|
    ensures forall i :: 0 <= i < |s| ==> out[i] == (if pick(s[i]) then f(s[i]) else s[i])
  {
    if |s| == 0 then []
    else
      var last := s[|s| - 1];
      MapIf(s[..|s| - 1], pick, f) + [if pick(last) then f(last) else last]
  }

  /** `s.filter(x => !drop(x))`. */
  function RemoveAll<T>(s: seq<T>, drop: T -> bool): (out: seq<T>)
    ensures |out| <= |s|
    ensures forall x :: x in out ==> x in s && !drop(x)
    ensures forall j :: 0 <= j < |out| ==> !drop(out[j])
    ensures forall i :: 0 <= i < |s| && !drop(s[i]) ==> s[i] in out
  {
    if |s| == 0 then []
    else
      var last := s[|s| - 1];
      RemoveAll(s[..|s| - 1], drop) + (if drop(last) then [] else [last])
  }

  /** Filtering commutes with concatenation: the survivors of `a` stay in
      front of the survivors of `b`, so filtering never reorders. */
  lemma {:induction false} RemoveAllAppend<T>(a: seq<T>, b: seq<T>, drop: T -> bool)
    ensures RemoveAll(a + b, drop) == RemoveAll(a, drop) + RemoveAll(b, drop)
  {
    if |b| == 0 {
      assert a + b == a;
    } else {
      var n := |b| - 1;
      assert (a + b)[..|a + b| - 1] == a + b[..n];
      RemoveAllAppend(a, b[..n], drop);
    }
  }

  /** Filtering out something that is not there returns the same sequence. */
  lemma {:induction false} RemoveAllAbsent<T>(s: seq<T>, drop: T -> bool)
    requires forall i :: 0 <= i < |s| ==> !drop(s[i])
    ensures RemoveAll(s, drop) == s
  {
    if |s| > 0 {
      var init, last := s[..|s| - 1], s[|s| - 1];
      assert !drop(last);
      RemoveAllAbsent(init, drop);
      assert RemoveAll(s, drop) == RemoveAll(init, drop) + [last];
      assert init + [last] == s;
    }
  }

  /** `s.findIndex(pick)`, with `-1` as `None`: the position of the first
      picked element. */
  function FirstIndex<T>(s: seq<T>, pick: T -> bool): (k: Option<nat>)
    ensures k.None? <==> forall i :: 0 <= i < |s| ==> !pick(s[i])
    ensures k.Some? ==> k.value < |s| && pick(s[k.value])
    ensures k.Some? ==> forall j :: 0 <= j < k.value ==> !pick(s[j])
  {
    if |s| == 0 then None
    else if pick(s[0]) then Some(0)
    else
      match FirstIndex(s[1..], pick)
      case None => None
      case Some(j) => Some(j + 1)
  }
}
