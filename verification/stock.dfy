/**
 The stock thresholds both product pages apply: more than ten units is a high
 stock, one to ten a low stock, and zero or less none at all.
 */
module Stock {

  datatype Level = High | Low | Out

  /** The colour token a page picks for a level. */
  datatype Tone = Green | Yellow | Red

  /** The level of a stock quantity; every quantity has exactly one. */
  function LevelOf(quantity: int): (l: Level)
    ensures l == High <==> quantity > 10
    ensures l == Low <==> 0 < quantity <= 10
    ensures l == Out <==> quantity <= 0
  {
    if quantity > 10 then High else if quantity > 0 then Low else Out
  }

  /** The colour every stock indicator uses for a level. */
  function ToneOf(l: Level): Tone {
    match l
    case High => Green
    case Low => Yellow
    case Out => Red
  }

  /**
   The colour rule every stock indicator applies: the list's status dot and
   quantity figure, and the detail page's badge and status label, all use this
   one three-way rule.
   */
  function ToneFor(quantity: int): (t: Tone)
    ensures t == ToneOf(LevelOf(quantity))
  {
    if quantity > 10 then Green else if quantity > 0 then Yellow else Red
  }
}
