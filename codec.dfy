/** The archive format of the store. `JSONEncoder`/`JSONDecoder` are replaced by a
    field-tagged token stream with the same shape: an array of objects, each object a
    run of keyed scalar entries. Encoding writes all four stored properties of a record;
    decoding reads `name`, `type` and `amount` and, like the synthesized `Decodable`
    conformance of a struct whose `let id = UUID()` has an initial value, never reads
    `id` back but gives every decoded record a new identifier. */
module Codec {
  import opened Wrappers
  import opened Expense

  datatype Scalar = Text(text: string) | Number(number: int) | Identifier(uuid: Uuid)

  datatype Token =
    | BeginArray
    | EndArray
    | BeginObject
    | EndObject
    | Entry(key: string, value: Scalar)

  /** The bytes stored in the key-value backend. */
  type Blob = seq<Token>

  function EncodeItem(x: ExpenseItem): Blob {
    [ BeginObject,
      Entry("id", Identifier(x.id)),
      Entry("name", Text(x.name)),
      Entry("type", Text(x.category)),
      Entry("amount", Number(x.amount)),
      EndObject ]
  }

  function EncodeItems(xs: seq<ExpenseItem>): (r: Blob)
    ensures |r| == 6 * |xs|
  {
    if xs == [] then [] else EncodeItem(xs[0]) + EncodeItems(xs[1..])
  }

  /** Encoding an `[ExpenseItem]` cannot fail: every field is a string, an integer or a UUID.
      The result is one array holding one six-token object per record; `RoundTrip` is its
      partner. */
  function Encode(xs: seq<ExpenseItem>): (r: Blob)
    ensures |r| == 2 + 6 * |xs|
    ensures r[0] == BeginArray && r[|r| - 1] == EndArray
  {
    [BeginArray] + EncodeItems(xs) + [EndArray]
  }

  /** Splits off the run of entries at the front of `b` and collects them by key, the
      first entry of a key taking precedence over later ones. */
  function Entries(b: Blob): (r: (map<string, Scalar>, Blob))
    ensures |r.1| <= |b|
    ensures b == [] || !b[0].Entry? ==> r == (map[], b)
  {
    if b != [] && b[0].Entry? then
      var (fields, rest) := Entries(b[1..]);
      (fields[b[0].key := b[0].value], rest)
    else
      (map[], b)
  }

  /** Builds a record from the fields of one object: `name` and `type` must be strings
      and `amount` an integer that fits in an `Int`; other keys (among them `id`) are
      ignored, and the record gets the identifier `id`. */
  function ItemFrom(fields: map<string, Scalar>, id: Uuid): (r: Option<ExpenseItem>)
    ensures r.Some? ==> r.value.id == id
  {
    if "name" in fields && "type" in fields && "amount" in fields then
      match (fields["name"], fields["type"], fields["amount"])
      case (Text(name), Text(category), Number(amount)) =>
        if IsInt64(amount) then Some(ExpenseItem(id, name, category, amount)) else None
      case _ => None
    else
      None
  }

  /** Decodes a sequence of objects; one malformed object rejects the whole sequence. */
  function DecodeObjects(b: Blob, first: Uuid): (r: Option<seq<ExpenseItem>>)
    ensures r.Some? ==> forall i :: 0 <= i < |r.value| ==> r.value[i].id == first + i
    decreases |b|
  {
    if b == [] then Some([])
    else if b[0] != BeginObject then None
    else
      var (es, rest) := Entries(b[1..]);
      if rest == [] || rest[0] != EndObject then None
      else
        match ItemFrom(es, first)
        case None => None
        case Some(x) =>
          match DecodeObjects(rest[1..], first + 1)
          case None => None
          case Some(xs) => Some([x] + xs)
  }

  /** Decodes a whole blob, which must be one array of objects; decoded records receive
      the identifiers `first`, `first + 1`, ... in order. */
  function Decode(b: Blob, first: Uuid): (r: Option<seq<ExpenseItem>>)
    ensures r.Some? ==> |b| >= 2 && b[0] == BeginArray && b[|b| - 1] == EndArray
    ensures r.Some? ==> forall i :: 0 <= i < |r.value| ==> r.value[i].id == first + i
  {
    if |b| >= 2 && b[0] == BeginArray && b[|b| - 1] == EndArray then
      DecodeObjects(b[1..|b| - 1], first)
    else
      None
  }

  lemma EntriesCons(key: string, value: Scalar, rest: Blob)
    ensures Entries([Entry(key, value)] + rest)
         == (Entries(rest).0[key := value], Entries(rest).1)
  {
    assert ([Entry(key, value)] + rest)[1..] == rest;
  }

  /** The fields of an encoded record, as the decoder collects them. */
  function EncodedFields(x: ExpenseItem): map<string, Scalar> {
    map["amount" := Number(x.amount)]["type" := Text(x.category)]
       ["name" := Text(x.name)]["id" := Identifier(x.id)]
  }

  /** The four entries of an encoded record are read back as one run, up to its `EndObject`. */
  lemma EntriesOfEncodedItem(x: ExpenseItem, tail: Blob)
    ensures Entries((EncodeItem(x) + tail)[1..]) == (EncodedFields(x), [EndObject] + tail)
  {
    var close: Blob := [EndObject] + tail;
    var e4: Blob := [Entry("amount", Number(x.amount))] + close;
    var e3: Blob := [Entry("type", Text(x.category))] + e4;
    var e2: Blob := [Entry("name", Text(x.name))] + e3;
    var e1: Blob := [Entry("id", Identifier(x.id))] + e2;
    assert (EncodeItem(x) + tail)[1..] == e1;
    assert close[0] == EndObject;
    EntriesCons("amount", Number(x.amount), close);
    EntriesCons("type", Text(x.category), e4);
    EntriesCons("name", Text(x.name), e3);
    EntriesCons("id", Identifier(x.id), e2);
  }

  lemma ItemFromEncodedFields(x: ExpenseItem, id: Uuid)
    ensures ItemFrom(EncodedFields(x), id) == Some(x.(id := id))
  {
    assert "id" != "name" && "id" != "type" && "id" != "amount";
    assert "name" != "type" && "name" != "amount" && "type" != "amount";
  }

  /** The first object of a run that starts with an encoded record decodes to that record;
      the run decodes exactly when the rest does. */
  lemma DecodeObjectsAfterEncodedItem(x: ExpenseItem, rest: Blob, first: Uuid)
    ensures DecodeObjects(EncodeItem(x) + rest, first)
         == match DecodeObjects(rest, first + 1)
            case None => None
            case Some(xs) => Some([x.(id := first)] + xs)
  {
    EntriesOfEncodedItem(x, rest);
    ItemFromEncodedFields(x, first);
    assert ([EndObject] + rest)[1..] == rest;
  }

  lemma {:induction false} DecodeObjectsEncodeItems(xs: seq<ExpenseItem>, first: Uuid)
    ensures DecodeObjects(EncodeItems(xs), first).Some?
    ensures |DecodeObjects(EncodeItems(xs), first).value| == |xs|
    ensures forall i :: 0 <= i < |xs| ==>
      DecodeObjects(EncodeItems(xs), first).value[i] == xs[i].(id := first + i)
    decreases |xs|
  {
    if xs != [] {
      DecodeObjectsAfterEncodedItem(xs[0], EncodeItems(xs[1..]), first);
      DecodeObjectsEncodeItems(xs[1..], first + 1);
    }
  }

  /** Decoding what was encoded gives back the same records in the same order with the
      same name, type and amount; only the identifiers are new. */
  lemma RoundTrip(xs: seq<ExpenseItem>, first: Uuid)
    ensures Decode(Encode(xs), first).Some?
    ensures |Decode(Encode(xs), first).value| == |xs|
    ensures forall i :: 0 <= i < |xs| ==>
      Decode(Encode(xs), first).value[i] == xs[i].(id := first + i)
  {
    var b := Encode(xs);
    assert b[1..|b| - 1] == EncodeItems(xs);
    DecodeObjectsEncodeItems(xs, first);
  }

  /** The identifier is not part of the round trip: a record written with identifier 0
      and read back with the counter at 1 comes back as a different identifier. */
  lemma RoundTripRenewsIds()
    ensures Decode(Encode([ExpenseItem(0, "Lunch", "Personal", 12)]), 1)
         == Some([ExpenseItem(1, "Lunch", "Personal", 12)])
  {
    var xs := [ExpenseItem(0, "Lunch", "Personal", 12)];
    RoundTrip(xs, 1);
    var ys := Decode(Encode(xs), 1).value;
    assert ys[0] == ExpenseItem(1, "Lunch", "Personal", 12);
    assert ys == [ExpenseItem(1, "Lunch", "Personal", 12)];
  }

  /** A blob that is not an array is rejected. */
  lemma RejectsNonArray(b: Blob, first: Uuid)
    requires b == [] || b[0] != BeginArray
    ensures Decode(b, first) == None
  {
  }

  /** One malformed object rejects the whole array, however many well-formed records come
      before it. */
  lemma {:induction false} MalformedElementRejectsAll(xs: seq<ExpenseItem>, bad: Blob, first: Uuid)
    requires forall k: Uuid :: DecodeObjects(bad, k) == None
    ensures Decode([BeginArray] + EncodeItems(xs) + bad + [EndArray], first) == None
  {
    var b := [BeginArray] + EncodeItems(xs) + bad + [EndArray];
    assert b[1..|b| - 1] == EncodeItems(xs) + bad;
    MalformedAfterEncodedItems(xs, bad, first);
  }

  lemma {:induction false} MalformedAfterEncodedItems(xs: seq<ExpenseItem>, bad: Blob, first: Uuid)
    requires forall k: Uuid :: DecodeObjects(bad, k) == None
    ensures DecodeObjects(EncodeItems(xs) + bad, first) == None
    decreases |xs|
  {
    if xs == [] {
      assert EncodeItems(xs) + bad == bad;
    } else {
      var tail := EncodeItems(xs[1..]);
      assert EncodeItems(xs) + bad == EncodeItem(xs[0]) + (tail + bad);
      MalformedAfterEncodedItems(xs[1..], bad, first + 1);
      DecodeObjectsAfterEncodedItem(xs[0], tail + bad, first + 1);
      DecodeObjectsAfterEncodedItem(xs[0], tail + bad, first);
    }
  }

  /** A run made only of entries. */
  predicate IsRun(run: Blob) {
    forall t :: t in run ==> t.Entry?
  }

  /** A run of entries is read up to its end, whatever follows it, provided that does not
      start with another entry. */
  lemma {:induction false} EntriesOfRun(run: Blob, tail: Blob)
    requires IsRun(run)
    requires tail == [] || !tail[0].Entry?
    ensures Entries(run + tail) == (Entries(run).0, tail)
    decreases |run|
  {
    if run == [] {
      assert run + tail == tail;
    } else {
      assert (run + tail)[1..] == run[1..] + tail;
      assert run[0] in run;
      EntriesOfRun(run[1..], tail);
    }
  }

  /** Every field the decoder collects from a run comes from an entry of that run with the
      same key and value. */
  lemma {:induction false} FieldComesFromEntry(run: Blob, key: string)
    requires IsRun(run)
    ensures key in Entries(run).0 ==>
      exists t :: t in run && t == Entry(key, Entries(run).0[key])
    decreases |run|
  {
    if run != [] {
      assert run[0] in run;
      FieldComesFromEntry(run[1..], key);
      if key in Entries(run[1..]).0 && key != run[0].key {
        var t :| t in run[1..] && t == Entry(key, Entries(run[1..]).0[key]);
        assert t in run;
      }
    }
  }

  /** An object whose fields do not make a record rejects the run of objects it starts. */
  lemma RejectedObject(run: Blob, rest: Blob, first: Uuid)
    requires IsRun(run)
    requires forall id: Uuid :: ItemFrom(Entries(run).0, id) == None
    ensures DecodeObjects([BeginObject] + run + [EndObject] + rest, first) == None
  {
    var b := [BeginObject] + run + [EndObject] + rest;
    assert b[1..] == run + ([EndObject] + rest);
    EntriesOfRun(run, [EndObject] + rest);
    assert ItemFrom(Entries(run).0, first) == None;
  }

  /** An object that has no entry for `name`, `type` or `amount` does not decode. */
  lemma MissingKeyRejected(run: Blob, key: string, rest: Blob, first: Uuid)
    requires key == "name" || key == "type" || key == "amount"
    requires IsRun(run)
    requires forall t :: t in run ==> t.key != key
    ensures DecodeObjects([BeginObject] + run + [EndObject] + rest, first) == None
  {
    FieldComesFromEntry(run, key);
    RejectedObject(run, rest, first);
  }

  /** An object whose every `name` entry, or every `type` entry, holds something other
      than a string does not decode. */
  lemma WrongKindRejected(run: Blob, key: string, rest: Blob, first: Uuid)
    requires key == "name" || key == "type"
    requires IsRun(run)
    requires forall t :: t in run && t.key == key ==> !t.value.Text?
    ensures DecodeObjects([BeginObject] + run + [EndObject] + rest, first) == None
  {
    FieldComesFromEntry(run, key);
    RejectedObject(run, rest, first);
  }

  /** An object whose every `amount` entry holds something other than an integer that fits
      in an `Int` (a string, an identifier, or a number out of range) does not decode. */
  lemma BadAmountRejected(run: Blob, rest: Blob, first: Uuid)
    requires IsRun(run)
    requires forall t :: t in run && t.key == "amount" ==>
      !(t.value.Number? && IsInt64(t.value.number))
    ensures DecodeObjects([BeginObject] + run + [EndObject] + rest, first) == None
  {
    FieldComesFromEntry(run, "amount");
    RejectedObject(run, rest, first);
  }

  /** Example: a stored list whose second element lacks `amount` does not decode at all,
      so the well-formed first record is lost too. */
  lemma RejectsMissingAmount(rent: ExpenseItem, first: Uuid)
    ensures Decode([BeginArray] + EncodeItem(rent)
                   + [BeginObject, Entry("name", Text("Taxi")), Entry("type", Text("Personal")),
                      EndObject]
                   + [EndArray], first) == None
  {
    var run: Blob := [Entry("name", Text("Taxi")), Entry("type", Text("Personal"))];
    var bad: Blob := [BeginObject] + run + [EndObject] + [];
    assert bad == [BeginObject, Entry("name", Text("Taxi")), Entry("type", Text("Personal")),
                   EndObject];
    forall k: Uuid ensures DecodeObjects(bad, k) == None {
      MissingKeyRejected(run, "amount", [], k);
    }
    assert EncodeItems([rent]) == EncodeItem(rent);
    MalformedElementRejectsAll([rent], bad, first);
  }

  /** Example: a number where the name should be a string rejects the blob. */
  lemma RejectsWrongKind(first: Uuid)
    ensures Decode([BeginArray,
                    BeginObject, Entry("name", Number(7)), Entry("type", Text("Business")),
                    Entry("amount", Number(500)), EndObject,
                    EndArray], first) == None
  {
    var run: Blob := [Entry("name", Number(7)), Entry("type", Text("Business")),
                      Entry("amount", Number(500))];
    var b: Blob := [BeginArray,
                    BeginObject, Entry("name", Number(7)), Entry("type", Text("Business")),
                    Entry("amount", Number(500)), EndObject,
                    EndArray];
    assert "type" != "name" && "amount" != "name";
    assert b[1..|b| - 1] == [BeginObject] + run + [EndObject] + [];
    WrongKindRejected(run, "name", [], first);
  }

  /** Example: an amount one above the largest `Int` rejects the blob. */
  lemma RejectsAmountOutOfRange(first: Uuid)
    ensures Decode([BeginArray,
                    BeginObject, Entry("name", Text("Yacht")), Entry("type", Text("Business")),
                    Entry("amount", Number(MaxInt64 + 1)), EndObject,
                    EndArray], first) == None
  {
    var run: Blob := [Entry("name", Text("Yacht")), Entry("type", Text("Business")),
                      Entry("amount", Number(MaxInt64 + 1))];
    var b: Blob := [BeginArray,
                    BeginObject, Entry("name", Text("Yacht")), Entry("type", Text("Business")),
                    Entry("amount", Number(MaxInt64 + 1)), EndObject,
                    EndArray];
    assert "name" != "amount" && "type" != "amount";
    assert b[1..|b| - 1] == [BeginObject] + run + [EndObject] + [];
    BadAmountRejected(run, [], first);
  }
}
