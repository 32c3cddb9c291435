/** The trade-type code to human-readable text mapping of the trades view helper. */
module TradesHelper {
  import opened Wrappers

  const TradeTypeTrade: string := "T"
  const TradeTypeReconciliation: string := "R"
  const TradeTypeCorporateAction: string := "C"
  const TradeTypeExerciseOrExpire: string := "E"

  /** Prefix of the text given to every code that is not one of the four known ones. */
  const UnknownPrefix: string := "Unknown: "

  predicate IsKnownTradeType(tradeType: string)
  {
    tradeType in {TradeTypeTrade, TradeTypeReconciliation, TradeTypeExerciseOrExpire, TradeTypeCorporateAction}
  }

  /** The text shown for a trade-type code; an absent code (nil) behaves as the empty string. */
  function HumanTradeType(tradeType: string): (text: string)
    ensures tradeType == TradeTypeTrade <==> text == "Trade"
    ensures tradeType == TradeTypeReconciliation <==> text == "Reconciliation"
    ensures tradeType == TradeTypeExerciseOrExpire <==> text == "Exercise or expire"
    ensures tradeType == TradeTypeCorporateAction <==> text == "Corporate action"
    ensures !IsKnownTradeType(tradeType) <==> text == UnknownPrefix + tradeType
    ensures IsKnownTradeType(tradeType) <==> !StartsWith(text, UnknownPrefix)
  {
    if tradeType == TradeTypeTrade then
      assert "Trade"[0] != UnknownPrefix[0];
      "Trade"
    else if tradeType == TradeTypeReconciliation then
      assert "Reconciliation"[0] != UnknownPrefix[0];
      "Reconciliation"
    else if tradeType == TradeTypeExerciseOrExpire then
      assert "Exercise or expire"[0] != UnknownPrefix[0];
      "Exercise or expire"
    else if tradeType == TradeTypeCorporateAction then
      assert "Corporate action"[0] != UnknownPrefix[0];
      "Corporate action"
    else
      var unknown := UnknownPrefix + tradeType;
      assert unknown[0] == 'U';
      assert unknown != "Trade" && unknown != "Reconciliation" by {
        assert "Trade"[0] == 'T' && "Reconciliation"[0] == 'R';
      }
      assert unknown != "Exercise or expire" && unknown != "Corporate action" by {
        assert "Exercise or expire"[0] == 'E' && "Corporate action"[0] == 'C';
      }
      assert unknown[..|UnknownPrefix|] == UnknownPrefix;
      unknown
  }

  predicate StartsWith(s: string, prefix: string)
  {
    |prefix| <= |s| && s[..|prefix|] == prefix
  }

  /** Recovers the trade-type code from a text, or None when no code yields that text. */
  function TradeTypeOfText(text: string): (tradeType: Option<string>)
    ensures tradeType.Some? ==> HumanTradeType(tradeType.value) == text
  {
    if text == "Trade" then Some(TradeTypeTrade)
    else if text == "Reconciliation" then Some(TradeTypeReconciliation)
    else if text == "Exercise or expire" then Some(TradeTypeExerciseOrExpire)
    else if text == "Corporate action" then Some(TradeTypeCorporateAction)
    else if StartsWith(text, UnknownPrefix) && !IsKnownTradeType(text[|UnknownPrefix|..]) then
      assert text == UnknownPrefix + text[|UnknownPrefix|..];
      Some(text[|UnknownPrefix|..])
    else None
  }

  /** Every code is recovered from its text, so distinct codes never share a text. */
  lemma TextRoundTrip(tradeType: string)
    ensures TradeTypeOfText(HumanTradeType(tradeType)) == Some(tradeType)
  {
    var text := HumanTradeType(tradeType);
    if !IsKnownTradeType(tradeType) {
      assert text[|UnknownPrefix|..] == tradeType;
      assert text[0] == 'U';
    }
  }

  lemma HumanTradeTypeInjective(a: string, b: string)
    requires HumanTradeType(a) == HumanTradeType(b)
    ensures a == b
  {
    TextRoundTrip(a);
    TextRoundTrip(b);
  }
}
