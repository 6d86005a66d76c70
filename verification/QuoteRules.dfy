/** What counts as a usable quote, wherever it comes from. */
module QuoteRules {

  type Symbol = nat

  /** A floating-point number; finite ones are taken as exact reals. */
  datatype Float = Finite(r: real) | Infinite(positive: bool) | NotANumber

  function Add(x: Float, y: Float): Float {
    if x.Finite? && y.Finite? then Finite(x.r + y.r)
    else if x.NotANumber? || y.NotANumber? || (x.Infinite? && y.Infinite? && x != y) then NotANumber
    else if x.Infinite? then x
    else y
  }

  function Mid(bid: Float, ask: Float): Float {
    var sum := Add(bid, ask);
    if sum.Finite? then Finite(sum.r / 2.0) else sum
  }

  /** Finite, positive, not crossed, and the mid within a factor of ten of the symbol's base price. */
  predicate Valid(base: map<Symbol, real>, s: Symbol, bid: Float, ask: Float) {
    && bid.Finite? && ask.Finite? && bid.r > 0.0 && ask.r > 0.0 && ask.r >= bid.r
    && s in base && base[s] > 0.0
    && base[s] <= 5.0 * (bid.r + ask.r) && bid.r + ask.r <= 20.0 * base[s]
  }

  lemma ValidMid(base: map<Symbol, real>, s: Symbol, bid: Float, ask: Float)
    requires Valid(base, s, bid, ask)
    ensures Mid(bid, ask).Finite? && bid.r <= Mid(bid, ask).r <= ask.r
    ensures base[s] / 10.0 <= Mid(bid, ask).r <= 10.0 * base[s]
  {
  }
}
