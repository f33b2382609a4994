/**
 * The omission rule of `generate_recipe`: the prep, cook and total time
 * lines appear only for attributes that are truthy (neither `None` nor 0).
 * The rest of the layout is not part of this model.
 */
module RecipeDisplay {
  import opened Base
  import opened Text

  /** The timing attributes of a recipe, in minutes; `None` when unset. */
  datatype Recipe = Recipe(prepTime: Option<int>, cookTime: Option<int>, totalTime: Option<int>)

  /** Python truthiness of an optional integer. */
  predicate Truthy(t: Option<int>)
  {
    t.Some? && t.value != 0
  }

  function PrepLine(n: int): (r: string)
  {
    "Prep time: " + DecimalString(n) + " minutes"
  }

  function CookLine(n: int): (r: string)
  {
    "Cook time: " + DecimalString(n) + " minutes"
  }

  function TotalLine(n: int): (r: string)
  {
    "Total time: " + DecimalString(n) + " minutes\n"
  }

  /** 1 for a truthy attribute, which contributes one line; 0 otherwise. */
  function LineCount(b: bool): (r: nat)
  {
    if b then 1 else 0
  }

  /** `'%i'` values written between a fixed prefix and suffix can be told apart. */
  lemma FramedInjective(prefix: string, suffix: string, m: int, n: int)
    ensures prefix + DecimalString(m) + suffix == prefix + DecimalString(n) + suffix ==> m == n
  {
    var a, b := prefix + DecimalString(m) + suffix, prefix + DecimalString(n) + suffix;
    if a == b {
      assert DecimalString(m) == a[|prefix|..|a| - |suffix|];
      assert DecimalString(n) == b[|prefix|..|b| - |suffix|];
      DecimalInjective(m, n);
    }
  }

  /** Each timing line starts with its own letter and shows one value. */
  lemma TimingLineFacts()
    ensures forall n :: PrepLine(n)[0] == 'P' && CookLine(n)[0] == 'C' && TotalLine(n)[0] == 'T'
    ensures forall m, n :: PrepLine(m) == PrepLine(n) ==> m == n
    ensures forall m, n :: CookLine(m) == CookLine(n) ==> m == n
    ensures forall m, n :: TotalLine(m) == TotalLine(n) ==> m == n
  {
    forall m, n ensures PrepLine(m) == PrepLine(n) ==> m == n {
      FramedInjective("Prep time: ", " minutes", m, n);
    }
    forall m, n ensures CookLine(m) == CookLine(n) ==> m == n {
      FramedInjective("Cook time: ", " minutes", m, n);
    }
    forall m, n ensures TotalLine(m) == TotalLine(n) ==> m == n {
      FramedInjective("Total time: ", " minutes\n", m, n);
    }
  }

  /** The lines appended under `if recipe.prep_time:`, `if recipe.cook_time:` and `if recipe.total_time:`. */
  function AppendedLines(r: Recipe): (lines: seq<string>)
  {
    (if Truthy(r.prepTime) then [PrepLine(r.prepTime.value)] else [])
    + (if Truthy(r.cookTime) then [CookLine(r.cookTime.value)] else [])
    + (if Truthy(r.totalTime) then [TotalLine(r.totalTime.value)] else [])
  }

  lemma AppendedPrepLine(r: Recipe)
    ensures forall n :: PrepLine(n) in AppendedLines(r) <==> r.prepTime == Some(n) && n != 0
  {
    TimingLineFacts();
  }

  lemma AppendedCookLine(r: Recipe)
    ensures forall n :: CookLine(n) in AppendedLines(r) <==> r.cookTime == Some(n) && n != 0
  {
    TimingLineFacts();
  }

  lemma AppendedTotalLine(r: Recipe)
    ensures forall n :: TotalLine(n) in AppendedLines(r) <==> r.totalTime == Some(n) && n != 0
  {
    TimingLineFacts();
  }

  /**
   * The timing lines of the recipe display, in the order prep, cook, total,
   * each present exactly when its attribute is truthy and showing its value.
   */
  function TimingLines(r: Recipe): (lines: seq<string>)
    ensures |lines| == LineCount(Truthy(r.prepTime)) + LineCount(Truthy(r.cookTime)) + LineCount(Truthy(r.totalTime))
    ensures forall n :: PrepLine(n) in lines <==> r.prepTime == Some(n) && n != 0
    ensures forall n :: CookLine(n) in lines <==> r.cookTime == Some(n) && n != 0
    ensures forall n :: TotalLine(n) in lines <==> r.totalTime == Some(n) && n != 0
    // the order prep, cook, total: each line sits after the lines of the attributes before it
    ensures Truthy(r.prepTime) ==> lines[0] == PrepLine(r.prepTime.value)
    ensures Truthy(r.cookTime) ==> lines[LineCount(Truthy(r.prepTime))] == CookLine(r.cookTime.value)
    ensures Truthy(r.totalTime) ==> lines[|lines| - 1] == TotalLine(r.totalTime.value)
  {
    AppendedPrepLine(r);
    AppendedCookLine(r);
    AppendedTotalLine(r);
    AppendedLines(r)
  }

  /** A recipe with no timing attributes, or all of them 0, shows no timing line. */
  lemma UntimedRecipeShowsNoTimes(r: Recipe)
    requires !Truthy(r.prepTime) && !Truthy(r.cookTime) && !Truthy(r.totalTime)
    ensures TimingLines(r) == []
  {
  }
}
