# iExpense expense store in Dafny

This project models the core of iExpense, a small SwiftUI expense tracker. The core is the
`Expenses` store, an observable list of `ExpenseItem` records (`id`, `name`, `type`, `amount`).
Every assignment to its `items` property runs a `didSet` observer. The observer encodes the
whole list and writes it to `UserDefaults` under the fixed key `"Items"`. Its `init` reads
that key back, and falls back silently to an empty list when the key is missing or the data
does not decode. The model also covers the two callers that change the list:

- `ContentView.removeItems(at:)` deletes rows by offset.
- The Save button of `AddView` parses the amount text as an `Int`. On success it appends
  one record and dismisses the sheet; on failure it raises an alert.

It also covers the colour rule that the list applies to each amount.

Modules, one per concern:

- `Expense`: the record, Swift's 64-bit `Int`, and the identifier predicates the store keeps
  (`IdsBelow`, `DistinctIds`).
- `Codec`: the archive format. JSON is replaced by a field-tagged token stream of the same
  shape: an array of objects whose entries are keyed scalars. `Encode` writes all four stored
  properties. `Decode` reads `name`, `type` and `amount` and rejects the whole blob when one
  element is malformed. It never reads `id` back: like the synthesized `Decodable` of a struct
  whose `let id = UUID()` has an initial value, it gives each decoded record a new identifier.
- `Offsets`: `remove(atOffsets:)`, with every offset resolved against the order before the
  call.
- `Store`: the `UserDefaults` backend (a class holding a `map<string, Blob>`), the `UUID()`
  source (a counter), and the `Expenses` class. `Expenses.Assign` is the assignment to `items`
  together with its `didSet` observer and its change announcement.
- `Style`: the colour bands of an amount. The source's own quirk is kept: exactly 100 is
  black, because it is neither `< 100` nor `> 100`.
- `IntParse`: Swift's `Int(String)` and the decimal rendering that is its partner.
- `MainView` and `AddForm`: the two screens, as classes holding the store.

Three consequences of the code are worth stating outright:

- Identifiers do not survive a save and reload. The synthesized `Decodable` conformance
  skips `let id = UUID()`, because that property has an initial value, so every decoded
  record gets a new identifier (`Codec.RoundTripRenewsIds`).
- Save stores any `Int` the amount text parses to, negative ones included
  (`IntParse.NegativeParses`). No range check follows the parse.
- `remove(atOffsets:)` traps on an offset out of range, so in-range offsets are a
  precondition of `MainView.ContentView.RemoveItems`.

## Model

| member | source | states |
|---|---|---|
| `Expense.AppendFreshId` | ContentView.swift:15-16 | appending a record with the next identifier to be issued keeps every identifier below the counter and all identifiers distinct |
| `Codec.Encode` | ContentView.swift:28-30 | `encoder.encode(items)`: always succeeds and gives one array with one object per record; its partner `Codec.RoundTrip` shows decoding inverts it up to identifiers |
| `Codec.ItemFrom` | ContentView.swift:14-21 | a record decoded from one object carries the new identifier it was given, never one read from the data |
| `Codec.DecodeObjects` | ContentView.swift:42 | a successful decode of a run of objects numbers the records `first`, `first + 1`, ... in order |
| `Codec.Decode` | ContentView.swift:42 | only a blob that is one array can decode; decoded records receive consecutive new identifiers |
| `Codec.RoundTrip` | ContentView.swift:25-44 | decoding the encoding of any list succeeds and gives the same length, order, name, type and amount; only `id` is new |
| `Codec.RoundTripRenewsIds` | ContentView.swift:16 | a record written with identifier 0 and read back with the counter at 1 comes back with identifier 1 |
| `Codec.RejectsNonArray` | ContentView.swift:42-49 | a blob that is empty or does not start an array does not decode |
| `Codec.MalformedElementRejectsAll` | ContentView.swift:42-49 | one object that does not decode rejects the whole array, however many well-formed records precede it |
| `Codec.MissingKeyRejected` | ContentView.swift:18-20 | any object with no entry for `name`, `type` or `amount` does not decode, whatever its other entries and whatever follows it |
| `Codec.WrongKindRejected` | ContentView.swift:18-19 | any object whose every `name` entry (or every `type` entry) holds something other than a string does not decode |
| `Codec.BadAmountRejected` | ContentView.swift:20 | any object whose every `amount` entry holds something other than an integer within 64-bit range does not decode |
| `Codec.RejectsMissingAmount` | ContentView.swift:42-49 | example: a stored list whose second element lacks `amount` does not decode, so the well-formed first record is lost too |
| `Codec.RejectsWrongKind` | ContentView.swift:42-49 | example: a blob whose only element has the number 7 as its name is rejected |
| `Codec.RejectsAmountOutOfRange` | ContentView.swift:42-49 | example: a blob whose only element has an amount one above the largest `Int` is rejected |
| `Offsets.RemoveOffsets` | ContentView.swift:125 | `remove(atOffsets:)`: the result is never longer than the input; its partner `Offsets.RemoveOffsetsSpec` states exactly which elements remain and in what order |
| `Offsets.KeptIsSurvivors` | ContentView.swift:124-126 | the surviving positions are exactly the in-range positions that are not offsets, ascending and each once |
| `Offsets.RemoveOffsetsSpec` | ContentView.swift:124-126 | with all offsets in range, removal keeps exactly the elements whose position before the call is not an offset, in their original order, and the length drops by the number of offsets |
| `Offsets.RemoveOneAndThree` | ContentView.swift:125 | removing {1, 3} from [a, b, c, d] leaves [a, c] |
| `Offsets.RemoveZeroAndTwo` | ContentView.swift:125 | removing {0, 2} from [a, b, c] leaves [b] |
| `Store.UserDefaults.Set` | ContentView.swift:32 | the write replaces the key's blob and leaves every other key as it was |
| `Store.UuidSource.Make` | ContentView.swift:16 | each `UUID()` hands out the counter's value and moves past it, so it differs from every earlier one |
| `Store.UuidSource.Reserve` | ContentView.swift:42 | decoding `n` records uses up `n` new identifiers |
| `Store.Rehydrate` | ContentView.swift:36-50 | what `init` loads: an absent key or a blob that does not decode gives an empty list; any result has fresh, distinct identifiers |
| `Store.PersistThenRehydrate` | ContentView.swift:25-50 | after a write of a list, loading from the same backend gives the same records in the same order, with new identifiers |
| `Store.CorruptDataFallsBackToEmpty` | ContentView.swift:42-49 | any blob under "Items" that is empty or does not start an array loads as an empty list, not an error |
| `Store.RemoveKeepsIds` | ContentView.swift:124-126 | removal keeps the remaining identifiers below the counter and pairwise distinct |
| `Store.Expenses.constructor` | ContentView.swift:36-50 | `init` loads the decoded list or an empty one, writes nothing to the backend, announces nothing, and leaves the store valid |
| `Store.Expenses.Assign` | ContentView.swift:25-34 | an assignment stores the new list, announces once, and writes its encoding under "Items", replacing the earlier value; no other key changes |
| `Store.Expenses.DidSet` | ContentView.swift:26-34 | the observer writes the encoding of the current list under "Items" and changes no other key |
| `Style.StyleColor` | ContentView.swift:56-69 | red below 10, green from 10 to 99, blue above 100, black for exactly 100 |
| `Style.BandsAreDisjoint` | ContentView.swift:57-68 | a colour whose band holds the amount is the colour chosen, so the bands do not overlap |
| `Style.Boundaries` | ContentView.swift:57-68 | 9 is red, 10 and 99 are green, 100 is black and 101 is blue |
| `IntParse.ParseInt` | AddView.swift:46 | a parsed string is non-empty with digits after its first character, and a negative result comes from a leading minus |
| `IntParse.ParseShow` | AddView.swift:46 | every 64-bit integer written in decimal parses back to itself |
| `IntParse.EmptyDoesNotParse` | AddView.swift:19 | the empty amount text does not parse |
| `IntParse.NegativeParses` | AddView.swift:46-48 | "-25" parses to -25, so a negative amount is accepted |
| `IntParse.MalformedDoesNotParse` | AddView.swift:46 | a sign alone, surrounding spaces or a decimal point do not parse |
| `MainView.ContentView.constructor` | ContentView.swift:73-76 | the screen creates its store from the backend without writing to it, and starts with the sheet hidden |
| `MainView.ContentView.RemoveItems` | ContentView.swift:124-126 | one assignment of the list without the rows at the offsets (resolved before the call), so one announcement and one write holding the list after removal; the length drops by the number of offsets |
| `AddForm.AddView.constructor` | AddView.swift:17-23 | the form starts with empty name and amount, category "Personal", categories ["Business", "Personal"], no alert |
| `AddForm.AddView.Save` | AddView.swift:44-58 | a parsing amount appends exactly one record with a new id and the form's values after the unchanged earlier ones, writes the new list and dismisses; otherwise the list, backend and sheet stay and the alert is raised |
| `AddForm.SaveOnFreshForm` | AddView.swift:44-58 | Save on an untouched form raises the alert, does not dismiss, and leaves the list and backend unchanged |

## Left out

- SwiftUI view bodies are not modelled: `NavigationView`, `List`/`ForEach` rendering, the toolbar buttons (including the plus button that shows the sheet), the sheet, `EditButton`, the alert's text and the previews. They are presentation only.
- `ObservableObject`/`@Published` change delivery is reduced to the `notifications` counter, which each assignment increments once. Subscribers are not modelled.
- `UserDefaults` is an in-memory map from keys to blobs. Its writing to disk, a non-`Data` value under "Items" (which `data(forKey:)` reports as absent) and other processes sharing the domain are not modelled.
- JSON text and `JSONEncoder`/`JSONDecoder` internals are replaced by the token stream in `Codec`. When an object repeats a key, the model takes the first entry; what Foundation does then is not modelled.
- Store.Expenses.DidSet: the `try?` failure branch of line 30 is not modelled. Encoding a list of these records cannot fail, so the model's `Encode` is total and every assignment writes.
- `UUID()` randomness is a counter (`Store.UuidSource`). In Swift, a decode that fails part-way discards the UUIDs it generated. In the model, such a decode reserves none. Neither is observable.
- `MainView.ContentView.showingAddExpense` only records the initial state of `@State showingAddExpense` (ContentView.swift:76). The plus button that sets it and the sheet's dismissal that clears it are not modelled.
- The form fields' text bindings (typing into the name and amount fields, picking a category) are not modelled as operations. The fields are plain variables that Save reads.
- Swift strings are grapheme-cluster collections; the model uses `seq<char>`. Only ASCII digits count as digits, as in Swift's `Int(String)`.
