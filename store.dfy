/** The `Expenses` store: an observable list of records that writes itself to the
    key-value backend after every assignment and reads itself back when created. */
module Store {
  import opened Wrappers
  import opened Expense
  import opened Codec
  import opened Offsets

  /** The fixed key under which the whole list is stored. */
  const ItemsKey: string := "Items"

  /** The key-value backend (`UserDefaults.standard`): each key holds one blob. */
  class UserDefaults {
    var store: map<string, Blob>

    constructor(initial: map<string, Blob>)
      ensures store == initial
    {
      store := initial;
    }

    /** `data(forKey:)`: the blob under `key`, if there is one. */
    function Data(key: string): (r: Option<Blob>)
      reads this
      ensures r.Some? <==> key in store
      ensures r.Some? ==> r.value == store[key]
    {
      if key in store then Some(store[key]) else None
    }

    /** `set(_:forKey:)`: replaces whatever `key` held and leaves every other key alone. */
    method Set(value: Blob, key: string)
      modifies this
      ensures store == old(store)[key := value]
    {
      store := store[key := value];
    }
  }

  /** The source of `UUID()` values: a counter, so that every identifier it hands out is
      different from all earlier ones. */
  class UuidSource {
    var next: Uuid

    constructor()
      ensures next == 0
    {
      next := 0;
    }

    method Make() returns (u: Uuid)
      modifies this
      ensures u == old(next) && next == old(next) + 1
    {
      u := next;
      next := next + 1;
    }

    /** Marks the `n` identifiers from `next` on as handed out. */
    method Reserve(n: nat)
      modifies this
      ensures next == old(next) + n
    {
      next := next + n;
    }
  }

  /** What `init` loads from a backend holding `store`, when the next identifier to be
      issued is `first`: the decoded list if the key is present and decodes, otherwise an
      empty list. */
  function Rehydrate(store: map<string, Blob>, first: Uuid): (r: seq<ExpenseItem>)
    ensures IdsBelow(r, first + |r|) && DistinctIds(r)
    ensures ItemsKey !in store ==> r == []
    ensures ItemsKey in store && Decode(store[ItemsKey], first).None? ==> r == []
    ensures ItemsKey in store && Decode(store[ItemsKey], first).Some? ==>
      r == Decode(store[ItemsKey], first).value
  {
    if ItemsKey in store then
      match Decode(store[ItemsKey], first)
      case Some(decoded) => decoded
      case None => []
    else
      []
  }

  /** After a write of `xs`, a fresh `init` against the same backend reads back the same
      records in the same order, with new identifiers. */
  lemma PersistThenRehydrate(store: map<string, Blob>, xs: seq<ExpenseItem>, first: Uuid)
    ensures |Rehydrate(store[ItemsKey := Encode(xs)], first)| == |xs|
    ensures forall i :: 0 <= i < |xs| ==>
      Rehydrate(store[ItemsKey := Encode(xs)], first)[i] == xs[i].(id := first + i)
  {
    RoundTrip(xs, first);
  }

  /** Whatever is stored under the key that is not an array (an object, say, or nothing
      at all) is replaced by an empty list. */
  lemma CorruptDataFallsBackToEmpty(store: map<string, Blob>, first: Uuid)
    requires ItemsKey in store
    requires store[ItemsKey] == [] || store[ItemsKey][0] != BeginArray
    ensures Rehydrate(store, first) == []
  {
    RejectsNonArray(store[ItemsKey], first);
  }

  /** Removal never brings back an identifier: the identifiers left are a subset of those
      before, still below the counter and still pairwise distinct. */
  lemma RemoveKeepsIds(xs: seq<ExpenseItem>, offsets: set<nat>, bound: nat)
    requires IdsBelow(xs, bound) && DistinctIds(xs)
    ensures IdsBelow(RemoveOffsets(xs, offsets), bound) && DistinctIds(RemoveOffsets(xs, offsets))
  {
    var r := RemoveOffsets(xs, offsets);
    var kept := Kept(|xs|, offsets);
    RemoveOffsetsSelects(xs, offsets);
    KeptIsSurvivors(|xs|, offsets);
    forall i, j | 0 <= i < j < |r| ensures r[i].id != r[j].id {
      assert kept[i] < kept[j];
    }
  }

  class Expenses {
    /** The published list; every assignment runs the persisting observer. */
    var items: seq<ExpenseItem>
    /** Change announcements sent by `@Published`, one per assignment. */
    var notifications: nat
    const defaults: UserDefaults
    const uuids: UuidSource

    /** Every record carries an identifier already handed out, and no two share one. */
    ghost predicate Valid()
      reads this, uuids
    {
      IdsBelow(items, uuids.next) && DistinctIds(items)
    }

    /** `init`: reads the key, decodes it into records with new identifiers, or falls back
        to an empty list. Observers do not run inside the initializer, so nothing is
        written back and nothing is announced. */
    constructor(defaults: UserDefaults, uuids: UuidSource)
      modifies uuids
      ensures this.defaults == defaults && this.uuids == uuids
      ensures items == Rehydrate(defaults.store, old(uuids.next))
      ensures uuids.next == old(uuids.next) + |items|
      ensures defaults.store == old(defaults.store)
      ensures notifications == 0
      ensures Valid()
    {
      this.defaults := defaults;
      this.uuids := uuids;
      notifications := 0;
      var first := uuids.next;
      var saved := defaults.Data(ItemsKey);
      var decoded := if saved.Some? then Decode(saved.value, first) else None;
      if decoded.Some? {
        items := decoded.value;
      } else {
        items := [];
      }
      new;
      uuids.Reserve(|items|);
    }

    /** `items = newItems`: the new list is stored, announced once, and encoded under the
        fixed key, replacing the earlier blob; no other key changes. */
    method Assign(newItems: seq<ExpenseItem>)
      modifies this, defaults
      ensures items == newItems
      ensures notifications == old(notifications) + 1
      ensures defaults.store == old(defaults.store)[ItemsKey := Encode(newItems)]
    {
      items := newItems;
      notifications := notifications + 1;
      DidSet();
    }

    /** The `didSet` observer of `items`. */
    method DidSet()
      modifies defaults
      ensures defaults.store == old(defaults.store)[ItemsKey := Encode(items)]
    {
      var encoded := Encode(items);
      defaults.Set(encoded, ItemsKey);
    }
  }
}
