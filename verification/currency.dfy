/**
 * Amounts shown as currency. Rupee amounts use the Indian units: from one crore (10,000,000) up the
 * amount is shown in crores, from one lakh (100,000) up in lakhs, and below that in full with digit
 * grouping; other currencies show their code, a space and the grouped amount.
 *
 * Turning a number into digits (two decimals, thousands separators) is left abstract: a `Figure`
 * records which rendering the source asks for and of which number.
 */
module Currency {

  const Inr: string := "INR"
  const Rupee: string := "\U{20B9}"
  const Crore: real := 10000000.0
  const Lakh: real := 100000.0

  /** The number to render and how: two decimals, or two decimals with thousands grouping. */
  datatype Figure = Fixed2(x: real) | Grouped2(x: real)

  /** The rendered text is `prefix`, then the figure, then `suffix`. */
  datatype Display = Display(prefix: string, figure: Figure, suffix: string)

  datatype Tier = Plain | Lakhs | Crores

  /** The Indian unit a rupee amount is shown in; both thresholds are inclusive. */
  function TierOf(amount: real): (t: Tier)
    ensures t == Crores <==> amount >= Crore
    ensures t == Lakhs <==> Lakh <= amount < Crore
    ensures t == Plain <==> amount < Lakh
  {
    if amount >= Crore then Crores else if amount >= Lakh then Lakhs else Plain
  }

  function Rank(t: Tier): nat
  {
    match t
    case Plain => 0
    case Lakhs => 1
    case Crores => 2
  }

  /** The display of `amount` in `currency`. */
  function Format(amount: real, currency: string): (d: Display)
    ensures currency != Inr ==> d == Display(currency + " ", Grouped2(amount), "")
    ensures currency == Inr ==> d.prefix == Rupee
    ensures currency == Inr && TierOf(amount) == Crores ==>
      d.suffix == " Cr" && d.figure.Fixed2? && d.figure.x * Crore == amount && d.figure.x >= 1.0
    ensures currency == Inr && TierOf(amount) == Lakhs ==>
      d.suffix == " L" && d.figure.Fixed2? && d.figure.x * Lakh == amount && 1.0 <= d.figure.x < 100.0
    ensures currency == Inr && TierOf(amount) == Plain ==> d.suffix == "" && d.figure == Grouped2(amount)
  {
    if currency == Inr then
      match TierOf(amount)
      case Crores => Display(Rupee, Fixed2(amount / Crore), " Cr")
      case Lakhs => Display(Rupee, Fixed2(amount / Lakh), " L")
      case Plain => Display(Rupee, Grouped2(amount), "")
    else Display(currency + " ", Grouped2(amount), "")
  }

  /** The display with the currency left at its default, rupees: the unit suffix names the tier. */
  function FormatDefault(amount: real): (d: Display)
    ensures d.prefix == Rupee
    ensures d.suffix == " Cr" <==> amount >= Crore
    ensures d.suffix == " L" <==> Lakh <= amount < Crore
    ensures d.suffix == "" <==> amount < Lakh
  {
    Format(amount, Inr)
  }

  /** A larger rupee amount never drops to a smaller unit. */
  lemma TierMonotone(a: real, b: real)
    requires a <= b
    ensures Rank(TierOf(a)) <= Rank(TierOf(b))
  {
  }
}
