/**
 * The four metric cards of the last completed run: what each shows, its
 * colour, and the skeletons shown while the status loads. Number
 * formatting (`toLocaleString`) is a parameter.
 */
module MetricCards {
  import opened Base
  import opened Text
  import Schemas

  datatype CardVariant = Default | Success | Warning | Error

  /** The text colour of each variant. */
  function CardStyle(v: CardVariant): (style: string)
    ensures HasPrefix(style, "text-")
  {
    match v
    case Default => "text-text-primary"
    case Success => "text-success"
    case Warning => "text-warning"
    case Error => "text-error"
  }

  /** The four variants have four different colours. */
  lemma CardStylesDistinct(a: CardVariant, b: CardVariant)
    requires a != b
    ensures CardStyle(a) != CardStyle(b)
  {
    assert CardStyle(Default)[5] != CardStyle(CardVariant.Success)[5];
    assert CardStyle(Default)[5] != CardStyle(Warning)[5];
    assert CardStyle(Default)[5] != CardStyle(Error)[5];
    assert CardStyle(CardVariant.Success)[5] != CardStyle(Warning)[5];
    assert CardStyle(CardVariant.Success)[5] != CardStyle(Error)[5];
    assert CardStyle(Warning)[5] != CardStyle(Error)[5];
  }

  datatype Card = Card(caption: string, value: string, variant: CardVariant)

  datatype CardsView = Skeletons(count: nat) | Cards(cards: seq<Card>)

  /** The metrics of the run; every count and duration 0 when there is no run. */
  function MetricsOr0(metrics: Option<Schemas.Metrics>): (m: Schemas.Metrics)
    ensures metrics.Some? ==> m == metrics.value
    ensures metrics.None? ==> m.processedCount == 0 && m.matchCount == 0 && m.parseErrorCount == 0 && m.durationMs == 0
  {
    if metrics.Some? then metrics.value else Schemas.Metrics(0, 0, 0, 0, 0, 0)
  }

  /**
   * Four skeletons while loading; otherwise Processed, Matches, Parse Errors
   * and Cycle Duration, each read as 0 without a run. Matches is coloured
   * success when positive, Parse Errors warning when positive, the other two
   * never; the duration reads "<n>ms".
   */
  function View(metrics: Option<Schemas.Metrics>, isLoading: bool, localeNumber: int -> string): (v: CardsView)
    ensures isLoading <==> v == Skeletons(4)
    ensures !isLoading ==>
              var processed := MetricsOr0(metrics).processedCount;
              var matchCount := MetricsOr0(metrics).matchCount;
              var parseErrors := MetricsOr0(metrics).parseErrorCount;
              var duration := MetricsOr0(metrics).durationMs;
              && v.Cards? && |v.cards| == 4
              && v.cards[0] == Card("Processed", localeNumber(processed), Default)
              && v.cards[1].caption == "Matches" && v.cards[1].value == localeNumber(matchCount)
              && (v.cards[1].variant == CardVariant.Success <==> matchCount > 0)
              && (v.cards[1].variant != CardVariant.Success ==> v.cards[1].variant == Default)
              && v.cards[2].caption == "Parse Errors" && v.cards[2].value == localeNumber(parseErrors)
              && (v.cards[2].variant == Warning <==> parseErrors > 0)
              && (v.cards[2].variant != Warning ==> v.cards[2].variant == Default)
              && v.cards[3].caption == "Cycle Duration" && v.cards[3].variant == Default
              && HasSuffix(v.cards[3].value, "ms") && v.cards[3].value[..|v.cards[3].value| - 2] == IntToString(duration)
  {
    if isLoading then Skeletons(4)
    else
      var processedCount := MetricsOr0(metrics).processedCount;
      var matchCount := MetricsOr0(metrics).matchCount;
      var parseErrorCount := MetricsOr0(metrics).parseErrorCount;
      var durationMs := MetricsOr0(metrics).durationMs;
      Cards([
        Card("Processed", localeNumber(processedCount), Default),
        Card("Matches", localeNumber(matchCount), if matchCount > 0 then CardVariant.Success else Default),
        Card("Parse Errors", localeNumber(parseErrorCount), if parseErrorCount > 0 then Warning else Default),
        Card("Cycle Duration", IntToString(durationMs) + "ms", Default)])
  }

  /** Without a run every card shows 0 in the default colour, the duration "0ms". */
  lemma NoRunShowsZeros(localeNumber: int -> string)
    ensures View(None, false, localeNumber) == Cards([
              Card("Processed", localeNumber(0), Default),
              Card("Matches", localeNumber(0), Default),
              Card("Parse Errors", localeNumber(0), Default),
              Card("Cycle Duration", "0ms", Default)])
  {
    assert IntToString(0) == NatToString(0) == [DigitChar(0)] == "0";
    assert MetricsOr0(None) == Schemas.Metrics(0, 0, 0, 0, 0, 0);
    var v := View(None, false, localeNumber);
    assert v.cards[3].value == "0ms";
  }

  /** No card is ever coloured as an error. */
  lemma NeverErrorColoured(metrics: Option<Schemas.Metrics>, localeNumber: int -> string)
    ensures View(metrics, false, localeNumber).Cards?
    ensures forall i :: 0 <= i < |View(metrics, false, localeNumber).cards| ==>
              View(metrics, false, localeNumber).cards[i].variant != Error
  {
  }
}
