/**
 * The inputs of the generator: the keyword frame of `generate`, the recipe
 * query of `summarize_query`, and the exceptions their lookups can raise.
 * Python dictionaries become records whose optional keys are `Option`s.
 */
module Frames {
  import opened Base

  /**
   * The `keywords` dictionary. Each field is `None` exactly when its key is
   * absent. Modifier lists are ordered.
   */
  datatype Frame = Frame(
    name: Option<string>,
    lastInput: Option<string>,
    subject: Option<string>,
    verb: Option<string>,
    obj: Option<string>,
    preposition: Option<string>,
    prepModifiers: Option<seq<string>>,
    subModifiers: Option<seq<string>>,
    objModifiers: Option<seq<string>>,
    adverbs: Option<seq<string>>)

  /** The frame with no keys at all, `{}`. */
  const EmptyFrame := Frame(None, None, None, None, None, None, None, None, None, None)

  /** A timing or count key of the query: missing, present with `None`, or an integer. */
  datatype Slot = Absent | Null | Given(n: int)

  /**
   * The `query` dictionary. `otherKeys` holds any key outside the recognised
   * ones: it matters only to the `query == {}` test.
   */
  datatype Query = Query(
    includeIngredients: Option<seq<string>>,
    excludeIngredients: Option<seq<string>>,
    includeCuisines: Option<seq<string>>,
    prepTime: Slot,
    cookTime: Slot,
    totalTime: Slot,
    numSteps: Slot,
    numIngredients: Slot,
    otherKeys: set<string>)

  /** `query == {}`. */
  predicate IsEmptyQuery(q: Query)
  {
    && q.includeIngredients.None?
    && q.excludeIngredients.None?
    && q.includeCuisines.None?
    && q.prepTime.Absent?
    && q.cookTime.Absent?
    && q.totalTime.Absent?
    && q.numSteps.Absent?
    && q.numIngredients.Absent?
    && q.otherKeys == {}
  }

  /** The query with no keys at all, `{}`. */
  const EmptyQuery := Query(None, None, None, Absent, Absent, Absent, Absent, Absent, {})

  /** What the generator can raise. */
  datatype Error =
    | MissingKey(key: string)   // KeyError on a `keywords[...]` lookup
    | NoQuery                   // TypeError: `summarize_query(None)` tests `'include_cuisines' in None`
}
