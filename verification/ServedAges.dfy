/**
  Deep equality of parsed payloads up to the volatile age fields
  (dashboard/src/data/servedAges.ts). Numbers are told apart as `Object.is` tells them apart.
 */
module ServedAges {

  datatype Json =
    | Null
    | Bool(b: bool)
    | Num(n: real)
    | NegativeZero
    | Str(s: string)
    | Arr(items: seq<Json>)
    | Obj(fields: map<string, Json>)

  const VOLATILE: set<string> := {
    "staleSeconds", "snapshotStaleSeconds", "ageSeconds", "waitSeconds", "heartbeatAgeSeconds", "elapsedSeconds"
  }

  function StableKeys(fields: map<string, Json>): set<string> {
    fields.Keys - VOLATILE
  }

  /** `stableEquals` with `sameArray` and `sameRecord`, which counts keys and looks one side up in the other. */
  predicate StableEquals(a: Json, b: Json)
    decreases a
  {
    || (!a.Arr? && !a.Obj? && a == b)
    || (a.Arr? && b.Arr? && |a.items| == |b.items| &&
        forall i :: 0 <= i < |a.items| ==> StableEquals(a.items[i], b.items[i]))
    || (a.Obj? && b.Obj? && |StableKeys(a.fields)| == |StableKeys(b.fields)| &&
        forall k <- StableKeys(a.fields) :: k in b.fields && StableEquals(a.fields[k], b.fields[k]))
  }

  /** The stable form: every volatile key gone, at every depth. */
  function Strip(a: Json): Json {
    match a
    case Arr(items) => Arr(seq(|items|, i requires 0 <= i < |items| => Strip(items[i])))
    case Obj(fields) => Obj(map k | k in fields && k !in VOLATILE :: Strip(fields[k]))
    case _ => a
  }

  lemma SubsetOfEqualSize<T>(a: set<T>, b: set<T>)
    requires a <= b && |a| == |b|
    ensures a == b
  {
    assert b == a + (b - a);
  }

  lemma StrippedArray(a: Json)
    requires a.Arr?
    ensures Strip(a).Arr? && |Strip(a).items| == |a.items|
    ensures forall i :: 0 <= i < |a.items| ==> Strip(a).items[i] == Strip(a.items[i])
  {
  }

  lemma StrippedObject(a: Json)
    requires a.Obj?
    ensures Strip(a).Obj? && Strip(a).fields.Keys == StableKeys(a.fields)
    ensures forall k <- StableKeys(a.fields) :: Strip(a).fields[k] == Strip(a.fields[k])
  {
  }

  /** Objects that agree key by key: the counts make one side's keys the other's. */
  lemma AgreeingObjects(a: Json, b: Json)
    requires a.Obj? && b.Obj? && |StableKeys(a.fields)| == |StableKeys(b.fields)|
    requires forall k <- StableKeys(a.fields) :: k in b.fields && Strip(a.fields[k]) == Strip(b.fields[k])
    ensures Strip(a) == Strip(b)
  {
    assert StableKeys(a.fields) <= StableKeys(b.fields);
    SubsetOfEqualSize(StableKeys(a.fields), StableKeys(b.fields));
    StrippedObject(a);
    StrippedObject(b);
    SameEntries(Strip(a).fields, Strip(b).fields);
  }

  lemma SameEntries(a: map<string, Json>, b: map<string, Json>)
    requires a.Keys == b.Keys && forall k <- a.Keys :: a[k] == b[k]
    ensures a == b
  {
  }

  lemma EqualObjectsAgree(a: Json, b: Json)
    requires a.Obj? && b.Obj? && Strip(a) == Strip(b)
    ensures StableKeys(a.fields) == StableKeys(b.fields)
    ensures forall k <- StableKeys(a.fields) :: k in b.fields && Strip(a.fields[k]) == Strip(b.fields[k])
  {
    StrippedObject(a);
    StrippedObject(b);
  }

  lemma ArraysStripEqualExactlyWhen(a: Json, b: Json)
    requires a.Arr? && b.Arr?
    ensures Strip(a) == Strip(b) <==>
      |a.items| == |b.items| && forall i :: 0 <= i < |a.items| ==> Strip(a.items[i]) == Strip(b.items[i])
  {
    StrippedArray(a);
    StrippedArray(b);
    if |a.items| == |b.items| && forall i :: 0 <= i < |a.items| ==> Strip(a.items[i]) == Strip(b.items[i]) {
      assert Strip(a).items == Strip(b).items;
    }
  }

  /** Two payloads are stable-equal exactly when their stable forms are the same value. */
  lemma {:induction false} StableEqualsIsEqualStripped(a: Json, b: Json)
    ensures StableEquals(a, b) <==> Strip(a) == Strip(b)
    decreases a
  {
    if a.Arr? && b.Arr? {
      ArraysStripEqualExactlyWhen(a, b);
      if |a.items| == |b.items| {
        forall i | 0 <= i < |a.items| { StableEqualsIsEqualStripped(a.items[i], b.items[i]); }
      }
    } else if a.Obj? && b.Obj? {
      forall k | k in a.fields && k in b.fields { StableEqualsIsEqualStripped(a.fields[k], b.fields[k]); }
      if StableEquals(a, b) { AgreeingObjects(a, b); }
      if Strip(a) == Strip(b) { EqualObjectsAgree(a, b); }
    }
  }
}
