# Response generation of a cooking assistant, in Dafny

This project models the response-generation layer of a conversational cooking
assistant. It has two parts:

- the `NLG` class (`nlg/nlg.py`), which turns an utterance tag plus a keyword
  frame, or a recipe-search query, into text;
- `get_cuisine` (`RecipeCategorizer.py`), which tallies the cuisines that a
  list of recipe words points to.

The model covers what the generator decides *before* it calls the simplenlg
surface realiser:

- how `generate` routes a tag (compared case-insensitively) to the greeting,
  the echo, the template responders, the clarification clauses, the query
  summary, or a question or declarative clause;
- the phrase tree it builds for a clause: the subject, verb with adverbs,
  and an object noun phrase that always carries a prepositional phrase (the
  subject is the bare `subject` string as the code is written; see
  "## Findings");
- the strings made by `acknowledge`, `affirm` and `decline`;
- the two-clause document made by `summarize_query`: cuisine complements,
  ingredient phrases, and the ordered list of timing and count constraints;
- which timing lines `generate_recipe` omits.

The realiser is a function parameter `realise: Spec -> string`. Every
property is stated about the phrase tree handed to it. Each
`random.choice`/`random.randint` is an explicit index, required to be in
range (`Router.Choices`, `Router.ChoicesFit`).

Files (one module each): `base.dfy` (Option, Result), `text.dfy` (Python's
`lower()`, `strip()` and `'%i'`), `phrase.dfy` (phrase specifications),
`frames.dfy` (keyword frame, recipe query, errors), `lexicon.dfy` (template
lists), `responders.dfy`, `clause_builder.dfy`, `summarizer.dfy`,
`router.dfy`, `recipe_display.dfy`, `categorizer.dfy`.

The model follows the code as written:

- `echo` without `lastinput` falls through to a declarative clause.
- A tag outside the recognised list also gives a declarative clause. It does
  not raise.
- `subject` and `object` are read before the responder tags are dispatched,
  so `confirm`, `affirm`, `decline`, `unknown` and `summarize` raise
  KeyError without them.
- `verb` is read only on the clause paths.
- The prepositional phrase is attached to the object even when no
  preposition is given.
- " dishes" goes on every cuisine equal to the last one, not only on the
  last position.
- The constraint clause is opened whenever a constraint key is present,
  even one holding `None`. The constraint document always holds both
  clauses.
- "recipes that require " goes on every constraint equal to the first one.
  `Summarizer.OnlyFirstConstraintPrefixed` proves that this is only the
  first.
- There is no validation of negative values and no realiser retry.
- `summarize` with no query raises a TypeError (`Frames.Error.NoQuery`).

## Model

| member | source | states |
|---|---|---|
| `Router.ParseTag` | nlg/nlg.py:116-168 | the tag is the one whose spelling equals `utter_type.lower()`, and the tag is "other" exactly when no recognised spelling does |
| `Router.MoodOf` | nlg/nlg.py:147-158 | `yes_no`, `how`, `what`, `where`, `who` and `why` set the interrogative type of the same name (the tag asking with that type); every other tag leaves the clause declarative |
| `Router.Generate` | nlg/nlg.py:116-179 | `greet` gives "Hello, name!" or "Hello there!" and `echo` with `lastinput` returns it unchanged; on every other path a missing `subject`, then `object`, raises KeyError; the call fails exactly when a key read on its path is missing or a summary has no query; `summarize` without a query raises TypeError, and a clause tag without `verb` raises KeyError on "verb"; responder tags give the responder text ending in a terminator; `unknown` and the clause tags give the stripped realisation of their clause, with the tag's mood and, as line 171 is written, the bare subject |
| `Router.GenerateIntended` | nlg/nlg.py:127-179 | with the subject noun phrase attached as intended, `generate` fails exactly when the code as written fails and answers identically off the clause paths and whenever `submodifiers` is absent or empty; on a clause path it realises the subject with its `submodifiers` |
| `Router.ParseTagIgnoresCase` | nlg/nlg.py:116-167 | the tag routes the same after lowering, since every comparison is on `utter_type.lower()` |
| `Router.GenerateIgnoresCase` | nlg/nlg.py:116-167 | `generate` gives the same answer for a tag and its lowered form |
| `Router.GreetReadsOnlyName` | nlg/nlg.py:116-120 | the greeting depends on `name` alone: other keys, the query, the random draws and the realiser do not change it |
| `Router.EchoWithoutInputStates` | nlg/nlg.py:123-179 | `echo` without `lastinput` realises the declarative clause of the frame, with the bare subject of line 171 |
| `Router.ClauseAnswerIsStripped` | nlg/nlg.py:178-179 | a question or statement neither starts nor ends with a character that Python 2 `unicode.strip()` removes (ASCII whitespace, U+001C-U+001F, U+0085, U+00A0, U+1680, U+180E, U+2000-U+200A, U+2028, U+2029, U+202F, U+205F, U+3000) |
| `Router.ResponderWithoutNameHasNoComma` | nlg/nlg.py:159-164 | without `name`, a `confirm`/`affirm`/`decline` answer contains no comma |
| `Router.YesNoExample` | nlg/nlg.py:103-111 | the docstring frame asks its yes/no question without error, and the same frame without `object` raises KeyError on "object" |
| `ClauseBuilder.BuildClause` | nlg/nlg.py:127-176 | subject noun phrase with `submodifiers` in order, the verb, `adverbs` in order as clause modifiers, one complement: the object with `objmodifiers` in order and then the prepositional phrase (preposition if given, `prepmodifiers` in order), always present; mood as given; nothing else set |
| `ClauseBuilder.BuildClauseAsWritten` | nlg/nlg.py:171 | the clause subject is the bare `subject` string, with no modifiers |
| `ClauseBuilder.AsWrittenDropsSubjectModifiers` | nlg/nlg.py:139-171 | the clause as written differs from the intended one only in its subject, and the two agree when `submodifiers` is absent or empty |
| `ClauseBuilder.AsWrittenIgnoresSubmodifiers` | nlg/nlg.py:139-171 | as written, two frames that differ only in `submodifiers` give the same clause |
| `ClauseBuilder.SubmodifierLostExample` | nlg/nlg.py:139-171 | for subject "you" with submodifier "hungry", the clause as written has subject "you" with no modifier, and the intended clause has it with "hungry" |
| `ClauseBuilder.ReadBackBuildClause` | nlg/nlg.py:127-176 | taking the built clause apart gives back the frame's subject, verb, object, preposition and all four modifier lists (a missing list reads as empty) |
| `ClauseBuilder.ReadBackAsWritten` | nlg/nlg.py:127-176 | taking the clause as written apart gives back everything except `submodifiers`, which comes back empty |
| `Responders.Respond` | nlg/nlg.py:190-193 | the result is the chosen phrasing, then `", " + name` or nothing (always nothing without a name), then "." or "!" as drawn |
| `Responders.Acknowledge` | nlg/nlg.py:181-193 | ends in "." or "!"; without a name, what precedes it is one of the acknowledgement phrasings |
| `Responders.Affirm` | nlg/nlg.py:195-207 | ends in "." or "!"; without a name, what precedes it is one of the affirmation phrasings |
| `Responders.Decline` | nlg/nlg.py:209-221 | ends in "." or "!"; without a name, what precedes it is one of the decline phrasings |
| `Responders.FixedPhrasingsArePlain` | nlg/nlg.py:19-34 | no fixed phrasing contains a comma or ends in "." or "!" |
| `Responders.NoNameNoComma` | nlg/nlg.py:190-193 | without a name, a response built from comma-free phrasings contains no comma |
| `Responders.SingleTerminator` | nlg/nlg.py:190-193 | a response ends in exactly one terminator, unless the name itself ends in one |
| `Responders.UnknownClause` | nlg/nlg.py:229-248 | form 1 is a negated past "understand what you just said"; form 2 is a past WHAT question "do ... say"; form 3 is a present, verbless "please rephrase what you just said" |
| `Summarizer.SummarizeQuery` | nlg/nlg.py:252-328 | `{}` gives "I will just look for every recipe we have." whatever the draws and the realiser; any other query gives the stripped realisation of the summary document |
| `Summarizer.SummaryDoc` | nlg/nlg.py:263-326 | the realiser always receives two clauses joined by ".": first "I" with a search verb, progressive, the cuisine complements and the ingredient phrases; then the empty clause when no constraint key is present, and otherwise "I also" with the other search verb, progressive, and the constraint complements |
| `Summarizer.PrimaryClause` | nlg/nlg.py:263-292 | a progressive declarative clause with subject "I", the drawn search verb, the cuisine complements and the ingredient phrases |
| `Summarizer.SecondaryClause` | nlg/nlg.py:297-321 | the empty clause when no constraint key is present; otherwise subject "I", the drawn search verb, progressive, premodifier "also", one complement per present non-None constraint, each mentioning that constraint's phrase |
| `Summarizer.CuisineComplements` | nlg/nlg.py:268-276 | one complement per cuisine, in order; an entry gets " dishes" exactly when it equals the last cuisine, and otherwise stays bare; without the key, the single complement "recipes" |
| `Summarizer.OnlyLastCuisineGetsDishes` | nlg/nlg.py:269-274 | when the last cuisine occurs once, only it gets " dishes" |
| `Summarizer.IngredientModifiers` | nlg/nlg.py:278-292 | "that contain" with the included ingredients comes first and "but do not contain" with the excluded ones comes last, each present exactly when its key is |
| `Summarizer.StepsList` | nlg/nlg.py:304-315 | the phrase of a constraint with value n is listed exactly when that key holds n (present and not None); the phrases are pairwise distinct; an earlier phrase belongs to a constraint of higher priority (prep_time, cook_time, total_time, num_steps, num_ingredients) |
| `Summarizer.StepComplements` | nlg/nlg.py:316-320 | one complement per phrase; the first gets "recipes that require ", a later one only when it repeats the first; so with distinct phrases every later one stays bare |
| `Summarizer.EntriesRanked` | nlg/nlg.py:304-315 | the constraints come in the order prep_time, cook_time, total_time, num_steps, num_ingredients, each at most once |
| `Summarizer.EntriesMembership` | nlg/nlg.py:304-315 | a constraint with value n is listed exactly when its key is present and holds n (not None) |
| `Summarizer.ConstraintPhraseInjective` | nlg/nlg.py:305-315 | two constraint phrases are equal only for the same constraint and the same value |
| `Summarizer.OnlyFirstConstraintPrefixed` | nlg/nlg.py:316-320 | only the first constraint gets "recipes that require "; every later one stays bare |
| `Summarizer.NullConstraintsOpenEmptyClause` | nlg/nlg.py:297-303 | a constraint key present with only None values still gives the second clause its subject "I", search verb, progressive aspect and "also", with no complements |
| `Summarizer.IncludedIngredientsExample` | nlg/nlg.py:278-284 | `include_ingredients = ['chicken', 'pineapple']` gives the single modifier "that contain" chicken, pineapple, in that order |
| `Summarizer.PrepTimeAndStepsExample` | nlg/nlg.py:297-320 | `prep_time = 20, num_steps = 5` gives the complements "recipes that require 20 minutes to prepare" and "5 steps to complete" |
| `Text.Strip` | nlg/nlg.py:178 | the realiser's text is a Java string, which arrives as `unicode`, so this is `unicode.strip()`: the result is a slice of the input with only Unicode whitespace (as `unicode.isspace()` defines it) cut off on either side, and it neither starts nor ends with such a character |
| `Text.NoBreakSpacesStripped` | nlg/nlg.py:178 | a no-break space (U+00A0) before and an ideographic space (U+3000) after the text are removed |
| `Text.LineSeparatorStripped` | nlg/nlg.py:178 | a leading line separator (U+2028) and a trailing newline are removed |
| `Text.DecimalRoundTrip` | nlg/nlg.py:306 | the `'%i'` text of an integer reads back as that integer |
| `Text.LowerIdempotent` | nlg/nlg.py:116 | lowering twice is the same as lowering once |
| `RecipeDisplay.TimingLines` | nlg/nlg.py:76-81 | the prep, cook and total time lines appear exactly for the truthy attributes (not None, not 0), each showing its own value: prep first, cook after it, total last |
| `RecipeDisplay.UntimedRecipeShowsNoTimes` | nlg/nlg.py:76-81 | a recipe whose timing attributes are all None or 0 shows no timing line |
| `Categorizer.GetCuisine` | RecipeCategorizer.py:18-27 | a cuisine is a key exactly when its count is positive, and then maps to that count (so at least 1); the count is the number of words equal to it that are adjectival, plus its multiplicity in the mapping list of every word that is a mapping key |
| `Categorizer.BumpAllCounts` | RecipeCategorizer.py:25-26 | the loop over one mapping list adds each cuisine's multiplicity in that list |
| `Categorizer.StepCounts` | RecipeCategorizer.py:19-26 | one word adds one to its own count when it is adjectival, and, independently, the multiplicities of its mapping list when it is a mapping key |
| `Categorizer.FoldCounts` | RecipeCategorizer.py:19-26 | the loop over the words adds each cuisine's count to the starting tally |
| `Categorizer.TallyOfConcatenation` | RecipeCategorizer.py:19-26 | the tally of `a + b` is the cuisine-by-cuisine sum of the tallies of `a` and `b` |
| `Categorizer.TallyIgnoresOrder` | RecipeCategorizer.py:19-26 | word lists with the same multiset of words give the same tally |
| `Categorizer.IrrelevantWord` | RecipeCategorizer.py:19-26 | a word that is neither adjectival nor a mapping key leaves the tally unchanged, wherever it is inserted |
| `Categorizer.AdjectivalIngredientCountsTwice` | RecipeCategorizer.py:21-26 | a word that is both adjectival and a mapping key counts once as an adjective plus its multiplicity in its own mapping list |
| `Categorizer.FirstDocstringExample` | RecipeCategorizer.py:12-13 | with Prosciutto and Pasta mapped to Italian, the first docstring example gives {Italian: 1} |
| `Categorizer.SecondDocstringExample` | RecipeCategorizer.py:14-16 | with Israeli and American adjectival, the second docstring example gives {Israeli: 1, American: 1, Italian: 2} |

## Left out

- The simplenlg realiser (`Realiser.realiseDocument`, agreement, and conjunction and comma insertion) is a foreign library. It is the parameter `realise`, and nothing is claimed about its text.
- The Java `gateway` booleans become plain `bool` fields (`negated`, `progressive`).
- Randomness: each draw is an index in `Router.Choices`. In the summary, `acknowledge` is evaluated even when the empty prefix is drawn. Only the order of draws is lost, and it has no effect.
- The `print` in `__init__` and the demo data `self.words`/`self.query` are a side effect and sample data.
- `unknown` is modelled only as its three phrase trees. Its wording depends on the realiser.
- `generate_recipe` is modelled only through its timing-line omission rule. Its other lines are plain layout. `HORIZONTAL_LINE` (nlg/nlg.py:70) is not defined in nlg/nlg.py, so as written the function raises NameError before it returns anything. This is not modelled.
- data_structures.py holds plain records with no behaviour.
- `NLGException` is never raised.
- The `wordlists` and `ingredient_cuisine_mapping` modules are not part of this model. `get_cuisine` takes them as parameters.
- Python's dynamic typing is not modelled. Frame values are strings or string lists, and timing values are integers or None. So these cases are left out: a string used as a modifier list (Python would iterate its characters), a list key of the query set to None (TypeError), and `'%i'` applied to a float.
- `Text.Lower` lowers ASCII letters only, which is what Python 2 `str.lower()` does in the default locale. The tag is taken to be a byte string.
- Python 2 byte strings and `unicode` strings are both modelled as sequences of characters. The realiser's text is treated as `unicode` (see `Text.Strip`). So one error path is left out. On `summarize`, line 168 adds the acknowledgement, a byte string, to the `unicode` summary. If the acknowledgement holds a non-ASCII byte-string `name`, that addition raises UnicodeDecodeError.

## Findings

| source | as written | input that shows it | evidently intended | confidence | as-written member | corrected member |
|---|---|---|---|---|---|---|
| nlg/nlg.py:171 | `utterance.setSubject(keywords['subject'])` sets the raw subject string, so the noun phrase built at lines 128 and 139-141 with the `submodifiers` is never attached and they never reach the realiser | `{'subject': 'you', 'verb': 'prefer', 'object': 'recipes', 'submodifiers': ['hungry']}` | the clause subject is the noun phrase with its submodifiers, as the docstring says modifiers can be given to the subject | high, not executed | `ClauseBuilder.SubmodifierLostExample` | `ClauseBuilder.BuildClause` |

`ClauseBuilder.BuildClauseAsWritten` models line 171 as written, and
`ClauseBuilder.AsWrittenIgnoresSubmodifiers` shows that it ignores
`submodifiers`. `Router.Generate` models `generate` as written and so uses it.
The corrected `ClauseBuilder.BuildClause` keeps every part of the frame, as
`ClauseBuilder.ReadBackBuildClause` proves, and `Router.GenerateIntended` is
`generate` with it in place. By `ClauseBuilder.AsWrittenDropsSubjectModifiers`,
the two clauses, and so the two routers, agree whenever `submodifiers` is
absent or empty.
