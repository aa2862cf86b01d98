/** The tables of src/ai/onlineModel.js: the feature groups and the features whose weight keeps its sign. */
module ModelTables {
  import opened OnlineModel

  const TREND := Group("trend_quality_composite", 0.34,
    {"momentum_20", "ema_gap", "ema_trend_score", "ema_trend_slope", "trend_strength", "trend_quality",
     "trend_persistence", "adx_strength", "dmi_spread", "supertrend_bias"})

  const BREAKOUT := Group("breakout_quality_composite", 0.3,
    {"breakout_pct", "donchian_breakout", "donchian_position", "structure_break", "breakout_follow_through",
     "squeeze_release", "keltner_squeeze", "bollinger_squeeze", "volume_z"})

  const EXECUTION := Group("execution_quality_composite", 0.26,
    {"book_pressure", "orderbook_signal", "weighted_depth_imbalance", "microprice_edge", "queue_imbalance",
     "queue_refresh", "replenishment_quality", "book_resilience", "depth_confidence"})

  const MONOTONIC: seq<Monotonic> := [
    Monotonic("trend_strength", 0.14, AtLeast(0.035)),
    Monotonic("data_confidence", 0.08, AtLeast(0.02)),
    Monotonic("feature_completeness", 0.1, AtLeast(0.025)),
    Monotonic("acceptance_quality", 0.16, AtLeast(0.04)),
    Monotonic("anchored_vwap_acceptance", 0.1, AtLeast(0.025)),
    Monotonic("close_location_quality", 0.1, AtLeast(0.025)),
    Monotonic("volume_acceptance", 0.1, AtLeast(0.025)),
    Monotonic("execution_quality_composite", 0.18, AtLeast(0.045)),
    Monotonic("pair_health_score", 0.1, AtLeast(0.025)),
    Monotonic("spread_bps", -0.28, AtMost(-0.07)),
    Monotonic("venue_divergence", -0.16, AtMost(-0.04))]

  /** The learner with its tables, for some square root and sigmoid. */
  function Learner(sqrt: real -> real, sigmoid: real -> real): Setup {
    Setup([TREND, BREAKOUT, EXECUTION], MONOTONIC, sqrt, sigmoid)
  }
}
