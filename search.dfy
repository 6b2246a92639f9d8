/** Name lookups: the "every required name is available" checks of the
    renderer and the first required name that is missing. */
module Search {

  /** Every element of `required` occurs in `available`: the check
      "for each required name, some available name compares equal". */
  predicate AllPresent<T(==)>(required: seq<T>, available: seq<T>) {
    forall x :: x in required ==> x in available
  }

  /** The first required name that is not available, or `|required|`. */
  function FirstMissing<T(==)>(required: seq<T>, available: seq<T>): (k: nat)
    ensures k <= |required|
    ensures k == |required| <==> AllPresent(required, available)
    ensures k < |required| ==> required[k] !in available
    ensures forall j :: 0 <= j < k ==> required[j] in available
  {
    if |required| == 0 then 0
    else if required[0] !in available then 0
    else 1 + FirstMissing(required[1..], available)
  }
}
