/** The colour of an amount in the list: a `ViewModifier` whose body picks one of four
    foreground colours by comparing the amount with 10 and 100. */
module Style {
  import opened Expense

  datatype Color = Red | Green | Blue | Black

  /** The band each colour stands for, as ranges: red below 10, green from 10 to 99,
      blue above 100, and black for exactly 100, which neither `< 100` nor `> 100` takes. */
  predicate InBand(c: Color, amount: int) {
    match c
    case Red => amount < 10
    case Green => 10 <= amount <= 99
    case Blue => amount >= 101
    case Black => amount == 100
  }

  function StyleColor(amount: Int64): (c: Color)
    ensures InBand(c, amount)
  {
    if amount < 10 then Red
    else if amount < 100 then Green
    else if amount > 100 then Blue
    else Black
  }

  /** Every amount lies in exactly one band: the colour chosen is the only colour whose
      band holds the amount. */
  lemma BandsAreDisjoint(amount: Int64, c: Color)
    requires InBand(c, amount)
    ensures c == StyleColor(amount)
  {
  }

  /** The thresholds: 9 is red, 10 and 99 green, 100 black, 101 blue. */
  lemma Boundaries()
    ensures StyleColor(9) == Red && StyleColor(10) == Green && StyleColor(99) == Green
    ensures StyleColor(100) == Black && StyleColor(101) == Blue
  {
  }
}
