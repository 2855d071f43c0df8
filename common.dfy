/** `removeNullValues` (src/utils/common.ts): drop the entries of an object
    whose value is `null` or `undefined`. */
module Common {
  import opened Prelude
  import opened Js

  predicate UniqueKeys(props: seq<(string, JsValue)>)
  {
    forall i, j :: 0 <= i < j < |props| ==> props[i].0 != props[j].0
  }

  function RemoveNullValues(props: seq<(string, JsValue)>): (r: seq<(string, JsValue)>)
    ensures forall i :: 0 <= i < |r| ==> !IsNullish(r[i].1)
    ensures Subsequence(r, props)
    ensures forall e :: e in props && !IsNullish(e.1) ==> e in r
  {
    if |props| == 0 then []
    else if IsNullish(props[0].1) then RemoveNullValues(props[1..])
    else [props[0]] + RemoveNullValues(props[1..])
  }

  lemma {:induction false} SubsequenceMembers<T>(a: seq<T>, b: seq<T>)
    requires Subsequence(a, b)
    ensures forall x :: x in a ==> x in b
    decreases |b|
  {
    if |a| > 0 && |b| > 0 {
      if a[0] == b[0] {
        SubsequenceMembers(a[1..], b[1..]);
        assert forall x :: x in a ==> x == a[0] || x in a[1..];
      } else {
        SubsequenceMembers(a, b[1..]);
      }
    }
  }

  /** The kept keys are exactly the keys whose value is neither null nor
      undefined, each with its value unchanged; falsy values such as `0`, `''`
      and `false` are therefore kept. */
  lemma KeptEntries(props: seq<(string, JsValue)>, key: string)
    requires UniqueKeys(props)
    ensures HasKey(RemoveNullValues(props), key) <==> HasKey(props, key) && !IsNullish(Lookup(props, key))
    ensures HasKey(RemoveNullValues(props), key) ==> Lookup(RemoveNullValues(props), key) == Lookup(props, key)
  {
    var r := RemoveNullValues(props);
    SubsequenceMembers(r, props);
    if HasKey(props, key) {
      var i :| 0 <= i < |props| && props[i] == (key, Lookup(props, key));
      if !IsNullish(props[i].1) {
        assert props[i] in r;
      }
    }
    if HasKey(r, key) {
      var j :| 0 <= j < |r| && r[j] == (key, Lookup(r, key));
      assert r[j] in props;
      var i :| 0 <= i < |props| && props[i] == r[j];
      var i' :| 0 <= i' < |props| && props[i'] == (key, Lookup(props, key));
      assert i == i';
    }
  }

  /** Removing null values twice removes nothing more. */
  lemma {:induction false} RemoveNullValuesIdempotent(props: seq<(string, JsValue)>)
    ensures RemoveNullValues(RemoveNullValues(props)) == RemoveNullValues(props)
  {
    if |props| > 0 {
      RemoveNullValuesIdempotent(props[1..]);
      if !IsNullish(props[0].1) {
        var r := RemoveNullValues(props);
        assert r[0] == props[0] && r[1..] == RemoveNullValues(props[1..]);
      }
    }
  }
}
