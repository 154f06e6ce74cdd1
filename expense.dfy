/** The expense record of the tracker and the facts about identifiers that the store keeps. */
module Expense {

  /** Swift's `Int` on the platforms the app runs on is a signed 64-bit integer. */
  const MinInt64: int := -0x8000_0000_0000_0000
  const MaxInt64: int := 0x7FFF_FFFF_FFFF_FFFF

  predicate IsInt64(n: int) {
    MinInt64 <= n <= MaxInt64
  }

  type Int64 = n: int | IsInt64(n)

  /** A `UUID`, modelled as a number handed out by a counter (see Store.UuidSource). */
  type Uuid = nat

  /** One expense: an identifier created with the record, a free-text name, a free-text
      category (the Swift property `type`, a keyword in Dafny),
      and a whole-unit amount. */
  datatype ExpenseItem = ExpenseItem(id: Uuid, name: string, category: string, amount: Int64)

  /** Every identifier in `xs` was issued before the counter reached `bound`. */
  predicate IdsBelow(xs: seq<ExpenseItem>, bound: nat) {
    forall i :: 0 <= i < |xs| ==> xs[i].id < bound
  }

  /** No two records in `xs` share an identifier. */
  predicate DistinctIds(xs: seq<ExpenseItem>) {
    forall i, j :: 0 <= i < j < |xs| ==> xs[i].id != xs[j].id
  }

  /** Appending a record whose identifier is the next one to be issued keeps the
      identifiers of the list fresh and pairwise distinct. */
  lemma AppendFreshId(xs: seq<ExpenseItem>, bound: nat, x: ExpenseItem)
    requires IdsBelow(xs, bound) && DistinctIds(xs)
    requires x.id == bound
    ensures IdsBelow(xs + [x], bound + 1) && DistinctIds(xs + [x])
  {
  }
}
