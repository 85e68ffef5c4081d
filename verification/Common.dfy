/** Helpers shared by the modules: optional values, and the two `Vec` idioms the sources lean on. */
module Common {

  datatype Option<+T> = None | Some(value: T)

  /** The elements of `s` that `keep` holds of, in order: `Vec::retain`. */
  function Filter<T(!new)>(s: seq<T>, keep: T -> bool): (r: seq<T>)
    ensures forall x :: x in r <==> x in s && keep(x)
    ensures |r| <= |s|
  {
    if s == [] then [] else (if keep(s[0]) then [s[0]] else []) + Filter(s[1..], keep)
  }

  /** The first index `test` holds at: `Iterator::position`. */
  function Position<T(!new)>(s: seq<T>, test: T -> bool): (r: Option<nat>)
    ensures r.Some? ==> r.value < |s| && test(s[r.value]) && forall i :: 0 <= i < r.value ==> !test(s[i])
    ensures r.None? ==> forall x :: x in s ==> !test(x)
  {
    if s == [] then None
    else if test(s[0]) then Some(0)
    else match Position(s[1..], test)
      case None => None
      case Some(i) => Some(i + 1)
  }

  function RemoveAt<T>(s: seq<T>, at: nat): seq<T>
    requires at < |s|
  {
    s[..at] + s[at + 1..]
  }
}
