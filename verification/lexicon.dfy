/** The generator's fixed phrasings, in the order the constructor lists them. */
module Lexicon {

  /** Phrasings of acknowledgement (`conf_responses`). */
  const Confirmations: seq<string> :=
    ["You got it", "As you wish", "You don't have to ask me twice", "Of course", "Okay", "Acknowledged"]

  /** Phrasings of affirmation (`aff_responses`). */
  const Affirmations: seq<string> := ["Yes", "Yeah", "Very much so", "Affirmative"]

  /** Phrasings of decline (`neg_responses`). */
  const Negations: seq<string> := ["No", "Nah", "Negative", "I'm afraid not"]

  /** Synonyms of "search" used as the summary's verb (`search_verbs`). */
  const SearchVerbs: seq<string> := ["look for", "search for", "bring you", "seek", "find"]

  /** The answer to a query with no criteria at all. */
  const EverythingSentence: string := "I will just look for every recipe we have."
}
