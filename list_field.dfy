/** The repeatable-field hook `useListField` and the entries `ListField` renders (app/components/kits/ListField.tsx). */
module ListField {
  import opened Wrappers

  /** An item the list is seeded with; only its `id` matters to the hook. */
  datatype Item<T> = Item(id: string, value: T)

  /** The ids of the items in order. */
  function Ids<T>(items: seq<Item<T>>): (ids: seq<string>)
    ensures |ids| == |items|
    ensures forall i :: 0 <= i < |items| ==> ids[i] == items[i].id
  {
    if |items| == 0 then [] else [items[0].id] + Ids(items[1..])
  }

  /**
   * The initial list: the items' ids when there are any, otherwise one fresh key
   * (`randomKey()`, passed in as `freshKey`).
   */
  function InitialList<T>(items: Option<seq<Item<T>>>, freshKey: string): (list: seq<string>)
    ensures |list| >= 1
    ensures items.Some? && |items.value| > 0 ==> list == Ids(items.value)
    ensures !(items.Some? && |items.value| > 0) ==> list == [freshKey]
  {
    if items.Some? && |items.value| > 0 then Ids(items.value) else [freshKey]
  }

  /** `prev.filter((k) => k !== key)`. */
  function Without(list: seq<string>, key: string): (r: seq<string>)
    ensures key !in r
    ensures forall k :: k in r <==> k in list && k != key
    ensures |r| <= |list|
    ensures multiset(r) == multiset(list)[key := 0]
  {
    if |list| == 0 then []
    else
      assert list == [list[0]] + list[1..];
      if list[0] == key then Without(list[1..], key)
      else [list[0]] + Without(list[1..], key)
  }

  /** Filtering keeps the other keys in their original order: it is a subsequence. */
  predicate IsSubsequence(r: seq<string>, s: seq<string>)
    decreases |s|
  {
    |r| == 0 || (|s| > 0 && (if r[0] == s[0] then IsSubsequence(r[1..], s[1..]) else IsSubsequence(r, s[1..])))
  }

  lemma {:induction false} WithoutIsSubsequence(list: seq<string>, key: string)
    ensures IsSubsequence(Without(list, key), list)
  {
    if |list| > 0 {
      WithoutIsSubsequence(list[1..], key);
      var rest := Without(list[1..], key);
      if list[0] != key {
        assert ([list[0]] + rest)[1..] == rest;
      } else if |rest| > 0 && rest[0] == list[0] {
        assert false;
      }
    }
  }

  /** Keys that differ from `key` are all kept: removing a key that occurs once drops exactly one. */
  lemma {:induction false} WithoutCount(list: seq<string>, key: string)
    requires forall i, j :: 0 <= i < j < |list| ==> list[i] != list[j]
    ensures |Without(list, key)| == if key in list then |list| - 1 else |list|
  {
    if |list| > 0 {
      WithoutCount(list[1..], key);
      if list[0] == key {
        assert key !in list[1..];
      }
    }
  }

  /** With distinct keys, removing a key through the `remove` the hook offers leaves a key listed. */
  lemma OfferedRemoveKeepsNonEmpty<T>(s: ListFieldState<T>, key: string)
    requires s.ShowRemove()
    requires forall i, j :: 0 <= i < j < |s.list| ==> s.list[i] != s.list[j]
    ensures |Without(s.list, key)| >= 1
  {
    WithoutCount(s.list, key);
  }

  /** With a repeated key, one offered remove can empty the list. */
  lemma DuplicateKeysCanEmpty()
    ensures |["k", "k"]| > 1 && Without(["k", "k"], "k") == []
  {
  }

  /** The position of the first item whose id is `uid`, or |items| when there is none. */
  function FindIndex<T>(items: seq<Item<T>>, uid: string): (k: nat)
    ensures k <= |items|
    ensures k < |items| ==> items[k].id == uid
    ensures forall j :: 0 <= j < k ==> items[j].id != uid
  {
    if |items| == 0 then 0
    else if items[0].id == uid then 0
    else 1 + FindIndex(items[1..], uid)
  }

  /** `items?.find(({ id }) => id === uid)`: the first item with that id, if any. */
  function Find<T>(items: seq<Item<T>>, uid: string): Option<Item<T>> {
    var k := FindIndex(items, uid);
    if k < |items| then Some(items[k]) else None
  }

  /** What `ListField` hands to its child renderer for one list entry. */
  datatype Entry<T> = Entry(uid: string, order: nat, item: Option<Item<T>>)

  function Entries<T>(list: seq<string>, items: Option<seq<Item<T>>>): (es: seq<Entry<T>>)
    ensures |es| == |list|
    ensures forall i :: 0 <= i < |list| ==>
              es[i].uid == list[i] && es[i].order == i &&
              es[i].item == (if items.Some? then Find(items.value, list[i]) else None)
  {
    seq(|list|, i requires 0 <= i < |list| =>
      Entry(list[i], i, if items.Some? then Find(items.value, list[i]) else None))
  }

  /** The hook's state: the list of keys, replaced wholesale by `add` and `remove`. */
  class ListFieldState<T> {
    var list: seq<string>

    constructor (items: Option<seq<Item<T>>>, freshKey: string)
      ensures list == InitialList(items, freshKey)
    {
      list := InitialList(items, freshKey);
    }

    /** `remove` is handed out only when this holds. */
    function ShowRemove(): (r: bool)
      reads this
      ensures r <==> |list| > 1
    {
      |list| > 1
    }

    /** `add()`: appends one fresh key (`randomKey()`, passed in). */
    method Add(freshKey: string)
      modifies this
      ensures list == old(list) + [freshKey]
      ensures |list| == |old(list)| + 1 && list[..|old(list)|] == old(list)
    {
      list := list + [freshKey];
    }

    /** `remove(key)`: drops every occurrence of `key`. */
    method Remove(key: string)
      modifies this
      ensures list == Without(old(list), key)
    {
      list := Without(list, key);
    }
  }
}
