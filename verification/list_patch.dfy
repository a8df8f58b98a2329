/**
 * The local patches every provider applies to its list after a remote
 * call succeeds, written once over any item type with an id:
 * `list.map(x => x.id === id ? data : x)` and `list.filter(x => x.id !== id)`
 * (src/context/articles.jsx, products.jsx, sales.jsx). Appending is `+ [data]`.
 */
module ListPatch {
  import opened Inventory

  /** `items.map(x => key(x) === id ? data : x)`: length and order kept, every match replaced. */
  function ReplaceById<T>(items: seq<T>, key: T -> Id, id: Id, data: T): (r: seq<T>)
    ensures |r| == |items|
    ensures forall i :: 0 <= i < |items| ==> r[i] == if key(items[i]) == id then data else items[i]
  {
    if items == [] then []
    else [if key(items[0]) == id then data else items[0]] + ReplaceById(items[1..], key, id, data)
  }

  /** `items.filter(x => key(x) !== id)`. */
  function RemoveById<T>(items: seq<T>, key: T -> Id, id: Id): (r: seq<T>)
    ensures forall i :: 0 <= i < |r| ==> r[i] in items && key(r[i]) != id
    ensures forall i :: 0 <= i < |items| && key(items[i]) != id ==> items[i] in r
    ensures |r| <= |items|
  {
    if items == [] then []
    else (if key(items[0]) != id then [items[0]] else []) + RemoveById(items[1..], key, id)
  }

  /** An update whose id matches nothing leaves the list as it was. */
  lemma ReplaceAbsentIsNoOp<T>(items: seq<T>, key: T -> Id, id: Id, data: T)
    requires forall i :: 0 <= i < |items| ==> key(items[i]) != id
    ensures ReplaceById(items, key, id, data) == items
  {
  }

  /** Deleting an id that matches nothing leaves the list as it was. */
  lemma {:induction false} RemoveAbsentIsNoOp<T>(items: seq<T>, key: T -> Id, id: Id)
    requires forall i :: 0 <= i < |items| ==> key(items[i]) != id
    ensures RemoveById(items, key, id) == items
  {
    if items != [] {
      RemoveAbsentIsNoOp(items[1..], key, id);
      assert [items[0]] + items[1..] == items;
    }
  }

  /**
   * Deleting keeps the relative order of what remains: filtering a
   * concatenation is concatenating the filtered parts.
   */
  lemma {:induction false} RemoveByIdOfConcat<T>(a: seq<T>, b: seq<T>, key: T -> Id, id: Id)
    ensures RemoveById(a + b, key, id) == RemoveById(a, key, id) + RemoveById(b, key, id)
  {
    if a != [] {
      assert (a + b)[0] == a[0] && (a + b)[1..] == a[1..] + b;
      RemoveByIdOfConcat(a[1..], b, key, id);
    } else {
      assert a + b == b;
    }
  }

  /** Deleting twice is deleting once. */
  lemma RemoveByIdIdempotent<T>(items: seq<T>, key: T -> Id, id: Id)
    ensures RemoveById(RemoveById(items, key, id), key, id) == RemoveById(items, key, id)
  {
    RemoveAbsentIsNoOp(RemoveById(items, key, id), key, id);
  }

  /** Exactly the matching items go: the length drops by the number of matches. */
  function CountWithId<T>(items: seq<T>, key: T -> Id, id: Id): (n: nat)
  {
    if items == [] then 0
    else (if key(items[0]) == id then 1 else 0) + CountWithId(items[1..], key, id)
  }

  lemma {:induction false} RemoveByIdLength<T>(items: seq<T>, key: T -> Id, id: Id)
    ensures |RemoveById(items, key, id)| == |items| - CountWithId(items, key, id)
  {
    if items != [] {
      RemoveByIdLength(items[1..], key, id);
    }
  }

}
