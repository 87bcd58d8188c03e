/**
 * A document collection of the durable store, as a sequence in natural (insertion) order,
 * with the single-document commands the service issues: `findOne`, `updateOne` and
 * `deleteOne` act on the first document the filter matches.
 */
module Collection {
  import opened Common

  /** The position of the first document the filter matches, if any. */
  function FirstMatch<T>(docs: seq<T>, filter: T -> bool): (r: Option<nat>)
    ensures r.Some? ==> r.value < |docs| && filter(docs[r.value])
    ensures r.Some? ==> forall j :: 0 <= j < r.value ==> !filter(docs[j])
    ensures r.None? <==> forall j :: 0 <= j < |docs| ==> !filter(docs[j])
    decreases |docs|
  {
    if |docs| == 0 then None
    else if filter(docs[0]) then Some(0)
    else match FirstMatch(docs[1..], filter)
      case None => None
      case Some(k) => Some(k + 1)
  }

  /** `findOne(filter)`: the first matching document, or null. */
  function FindOne<T>(docs: seq<T>, filter: T -> bool): (r: Option<T>)
    ensures r.Some? ==> r.value in docs && filter(r.value)
    ensures r.None? <==> forall j :: 0 <= j < |docs| ==> !filter(docs[j])
  {
    match FirstMatch(docs, filter)
    case None => None
    case Some(i) => Some(docs[i])
  }

  /** `updateOne(filter, update)`: the first matching document is replaced by its update; nothing else moves. */
  function UpdateOne<T>(docs: seq<T>, filter: T -> bool, update: T -> T): (r: seq<T>)
    ensures |r| == |docs|
    ensures FirstMatch(docs, filter).None? ==> r == docs
    ensures FirstMatch(docs, filter).Some? ==>
      var i := FirstMatch(docs, filter).value;
      r[i] == update(docs[i]) && forall j :: 0 <= j < |docs| && j != i ==> r[j] == docs[j]
  {
    match FirstMatch(docs, filter)
    case None => docs
    case Some(i) => docs[i := update(docs[i])]
  }

  /** `deleteOne(filter)`: the first matching document is removed, the rest keep their order. */
  function DeleteOne<T>(docs: seq<T>, filter: T -> bool): (r: seq<T>)
    ensures FirstMatch(docs, filter).None? ==> r == docs
    ensures FirstMatch(docs, filter).Some? ==>
      var i := FirstMatch(docs, filter).value;
      |r| == |docs| - 1 && r == docs[..i] + docs[i + 1..]
  {
    match FirstMatch(docs, filter)
    case None => docs
    case Some(i) => docs[..i] + docs[i + 1..]
  }

  /** Appending documents never moves an existing first match; without one, the match comes from the appended part. */
  lemma {:induction false} FirstMatchAppend<T>(docs: seq<T>, more: seq<T>, filter: T -> bool)
    ensures FirstMatch(docs, filter).Some? ==> FirstMatch(docs + more, filter) == FirstMatch(docs, filter)
    ensures FirstMatch(docs, filter).None? ==>
      FirstMatch(docs + more, filter) ==
        match FirstMatch(more, filter) case None => None case Some(k) => Some(|docs| + k)
    decreases |docs|
  {
    if |docs| > 0 {
      assert (docs + more)[1..] == docs[1..] + more;
      FirstMatchAppend(docs[1..], more, filter);
    } else {
      assert docs + more == more;
    }
  }

  /** How many documents the filter matches. */
  function Count<T>(docs: seq<T>, filter: T -> bool): nat
    decreases |docs|
  {
    if |docs| == 0 then 0
    else (if filter(docs[0]) then 1 else 0) + Count(docs[1..], filter)
  }

  /** Counting over a concatenation adds up. */
  lemma {:induction false} CountAppend<T>(a: seq<T>, b: seq<T>, filter: T -> bool)
    ensures Count(a + b, filter) == Count(a, filter) + Count(b, filter)
    decreases |a|
  {
    if |a| > 0 {
      assert (a + b)[1..] == a[1..] + b;
      CountAppend(a[1..], b, filter);
    } else {
      assert a + b == b;
    }
  }

  /** A filter matches nothing exactly when no document passes it. */
  lemma {:induction false} CountZero<T>(docs: seq<T>, filter: T -> bool)
    ensures Count(docs, filter) == 0 <==> FirstMatch(docs, filter).None?
    decreases |docs|
  {
    if |docs| > 0 {
      CountZero(docs[1..], filter);
    }
  }

  /** Replacing one document by another that the filter treats the same leaves the count unchanged. */
  lemma {:induction false} CountReplace<T>(docs: seq<T>, i: nat, x: T, filter: T -> bool)
    requires i < |docs|
    requires filter(x) == filter(docs[i])
    ensures Count(docs[i := x], filter) == Count(docs, filter)
    decreases |docs|
  {
    if i > 0 {
      assert docs[i := x][1..] == docs[1..][i - 1 := x];
      CountReplace(docs[1..], i - 1, x, filter);
    } else {
      assert docs[i := x][1..] == docs[1..];
    }
  }
}
