/**
 * The pattern maps the strategies exchange: a map from a detected pattern to its strength.
 * The keys are a fixed vocabulary, so they are modelled as a datatype; `PatternName` gives the
 * dictionary key each one stands for.
 */
module Patterns {
  import Text

  /** The two directions a pattern can point in. */
  datatype Direction = Bullish | Bearish

  function DirectionName(d: Direction): string
  {
    match d
    case Bullish => "bullish"
    case Bearish => "bearish"
  }

  /** The four harmonic shapes, named as in the ratio table. */
  datatype HarmonicShape = Gartley | Butterfly | Bat | Crab

  function ShapeName(s: HarmonicShape): string
  {
    match s
    case Gartley => "GARTLEY"
    case Butterfly => "BUTTERFLY"
    case Bat => "BAT"
    case Crab => "CRAB"
  }

  datatype Pattern =
    // produced by the shared `detect_patterns`, an input to the model
    | DoubleBottom | DoubleTop | Breakout | Breakdown | VolumeSpike
    // Bollinger Bands
    | Squeeze | UpperTouch | LowerTouch | WalkingUpper | WalkingLower
    // Ichimoku
    | TkCross(d: Direction) | CloudBreakout(d: Direction) | CloudTwist(d: Direction) | ChikouCross(d: Direction)
    // harmonic
    | Harmonic(shape: HarmonicShape, d: Direction)
    // volume profile
    | AtHvn | InLvn | PriceAcceptance | PriceRejection

  /** The dictionary key of a pattern. */
  function PatternName(p: Pattern): string
  {
    match p
    case DoubleBottom => "double_bottom"
    case DoubleTop => "double_top"
    case Breakout => "breakout"
    case Breakdown => "breakdown"
    case VolumeSpike => "volume_spike"
    case Squeeze => "squeeze"
    case UpperTouch => "upper_touch"
    case LowerTouch => "lower_touch"
    case WalkingUpper => "walking_upper"
    case WalkingLower => "walking_lower"
    case TkCross(d) => "tk_cross_" + DirectionName(d)
    case CloudBreakout(d) => "cloud_breakout_" + DirectionName(d)
    case CloudTwist(d) => "cloud_twist_" + DirectionName(d)
    case ChikouCross(d) => "chikou_cross_" + DirectionName(d)
    case Harmonic(s, d) => Text.Lower(ShapeName(s)) + "_" + DirectionName(d)
    case AtHvn => "at_hvn"
    case InLvn => "in_lvn"
    case PriceAcceptance => "price_acceptance"
    case PriceRejection => "price_rejection"
  }

  type PatternMap = map<Pattern, real>

  /** The strength a pattern contributes: its value when detected, 0 otherwise. */
  function Score(patterns: PatternMap, p: Pattern): real
  {
    if p in patterns then patterns[p] else 0.0
  }

  /** Every detected pattern has a non-negative strength. */
  predicate NonNegative(patterns: PatternMap)
  {
    forall p :: p in patterns ==> patterns[p] >= 0.0
  }

  /** The bonus a strategy adds when the last volume is above its 20-candle average. */
  function VolumeBonus(volumeConfirmed: bool): real
  {
    if volumeConfirmed then 0.1 else 0.0
  }
}
