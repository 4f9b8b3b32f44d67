/** The platform's secure key-value store (expo-secure-store), shared by every
    part of the app. Its contents are a map from key to string. Which keys the
    platform fails on is an input: every read, write or delete of a key in
    `faulty` raises the store's error instead of taking effect. */
module SecureStorage {
  import opened Common

  class SecureStore {
    var items: map<string, string>
    const faulty: set<string>
    const faultMessage: string

    constructor (initial: map<string, string>, faulty: set<string>, faultMessage: string)
      ensures items == initial && this.faulty == faulty && this.faultMessage == faultMessage
    {
      items := initial;
      this.faulty := faulty;
      this.faultMessage := faultMessage;
    }

    /** The error every failing access raises. */
    function Fault(): (e: JsError)
      ensures e == PlainError(faultMessage)
    {
      PlainError(faultMessage)
    }

    /** `getItemAsync`: the stored value, null for a missing key. */
    method GetItem(key: string) returns (r: Result<Option<string>, JsError>)
      ensures key in faulty ==> r == Err(Fault())
      ensures key !in faulty && key in items ==> r == Ok(Some(items[key]))
      ensures key !in faulty && key !in items ==> r == Ok(None)
    {
      if key in faulty {
        r := Err(Fault());
      } else if key in items {
        r := Ok(Some(items[key]));
      } else {
        r := Ok(None);
      }
    }

    /** `setItemAsync`. */
    method SetItem(key: string, value: string) returns (r: Outcome<JsError>)
      modifies this
      ensures key in faulty ==> r == Fail(Fault()) && items == old(items)
      ensures key !in faulty ==> r == Pass && items == old(items)[key := value]
    {
      if key in faulty {
        r := Fail(Fault());
      } else {
        items := items[key := value];
        r := Pass;
      }
    }

    /** `deleteItemAsync`: deleting a missing key succeeds. */
    method DeleteItem(key: string) returns (r: Outcome<JsError>)
      modifies this
      ensures key in faulty ==> r == Fail(Fault()) && items == old(items)
      ensures key !in faulty ==> r == Pass && items == old(items) - {key}
    {
      if key in faulty {
        r := Fail(Fault());
      } else {
        items := items - {key};
        r := Pass;
      }
    }
  }

  /** What a sequence of awaited deletions leaves behind: the remaining
      entries, and the key whose deletion raised and stopped the sequence. */
  datatype Deletion = Deletion(items: map<string, string>, failedAt: Option<string>)

  /** What `getItemAsync` would return for `key` if it does not raise. */
  function Lookup(items: map<string, string>, key: string): (v: Option<string>)
    ensures v.Some? <==> key in items
    ensures v.Some? ==> v.value == items[key]
  {
    if key in items then Some(items[key]) else None
  }

  /** Entries `a` and `b` agree on key `k`: both lack it or both map it to the same value. */
  predicate SameEntry(a: map<string, string>, b: map<string, string>, k: string)
  {
    (k in a <==> k in b) && (k in a ==> a[k] == b[k])
  }

  /** Deleting `keys` one after another, stopping at the first that raises.
      All keys go iff none is faulty; a failure names the faulty key; nothing
      outside `keys` is touched and nothing is added or changed. */
  function DeleteInOrder(items: map<string, string>, faulty: set<string>, keys: seq<string>): (d: Deletion)
    decreases |keys|
    ensures d.failedAt.None? <==> forall i :: 0 <= i < |keys| ==> keys[i] !in faulty
    ensures d.failedAt.Some? ==> d.failedAt.value in keys && d.failedAt.value in faulty
    ensures d.failedAt.None? ==> d.items == items - (set k | k in keys)
    ensures d.items.Keys <= items.Keys
    ensures forall k :: k in d.items ==> d.items[k] == items[k]
    ensures forall k :: k !in keys ==> SameEntry(items, d.items, k)
  {
    if keys == [] then Deletion(items, None)
    else if keys[0] in faulty then Deletion(items, Some(keys[0]))
    else
      var d := DeleteInOrder(items - {keys[0]}, faulty, keys[1..]);
      assert forall k :: k in keys <==> k == keys[0] || k in keys[1..];
      assert d.failedAt.None? ==> d.items == items - (set k | k in keys);
      d
  }

  /** One awaited deletion: the first key raises, or it goes and the rest follow. */
  lemma DeleteHead(items: map<string, string>, faulty: set<string>, keys: seq<string>)
    requires |keys| > 0
    ensures DeleteInOrder(items, faulty, keys)
         == if keys[0] in faulty then Deletion(items, Some(keys[0]))
            else DeleteInOrder(items - {keys[0]}, faulty, keys[1..])
  {
  }

  /** The sequence stops at the first faulty key: keys before it are gone,
      it and every later key keep their entries. */
  lemma {:induction false} DeleteInOrderStopsAtFirstFault(items: map<string, string>, faulty: set<string>, keys: seq<string>, j: nat)
    requires j < |keys| && keys[j] in faulty
    requires forall i :: 0 <= i < j ==> keys[i] !in faulty
    ensures DeleteInOrder(items, faulty, keys).failedAt == Some(keys[j])
    ensures DeleteInOrder(items, faulty, keys).items == items - (set i | 0 <= i < j :: keys[i])
    decreases j
  {
    if j > 0 {
      DeleteInOrderStopsAtFirstFault(items - {keys[0]}, faulty, keys[1..], j - 1);
      assert (items - {keys[0]}) - (set i | 0 <= i < j - 1 :: keys[1..][i])
          == items - (set i | 0 <= i < j :: keys[i]);
    }
  }
}
