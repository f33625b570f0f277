/** translate_to_russian: one call of the translation service, whose outcome
    is given, with the fallback the bot applies when the call raises. */
module Translation {

  /** What one call of the translation service does. */
  datatype Outcome = Translated(text: string) | Raised

  /** The text the bot uses after one translation call. */
  function TranslateToRussian(text: string, outcome: Outcome): (r: string)
    ensures outcome.Raised? ==> r == text
    ensures outcome.Translated? ==> r == outcome.text
  {
    match outcome
    case Translated(t) => t
    case Raised => text
  }
}
