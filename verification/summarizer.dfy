/**
 * `summarize_query`: a recipe query becomes a document of two clauses, the
 * first naming the cuisines and ingredients, the second the timing and count
 * constraints. Each `random.choice(self.search_verbs)` is an index into
 * `Lexicon.SearchVerbs`.
 */
module Summarizer {
  import opened Base
  import opened Text
  import opened Phrase
  import opened Frames
  import Lexicon

  // ---------------------------------------------------------------- cuisines and ingredients

  /**
   * One complement per cuisine, in order; an entry equal to the LAST cuisine
   * gets " dishes". Without the key, the single complement "recipes".
   */
  function CuisineComplements(cuisines: Option<seq<string>>): (r: seq<Complement>)
    ensures cuisines.None? ==> r == [Text("recipes")]
    ensures cuisines.Some? ==> var cs := cuisines.value;
      && |r| == |cs|
      && forall i :: 0 <= i < |cs| ==>
           && (r[i] == Text(cs[i] + " dishes") <==> cs[i] == cs[|cs| - 1])
           && (r[i] == Text(cs[i]) <==> cs[i] != cs[|cs| - 1])
  {
    if cuisines.None? then [Text("recipes")]
    else
      var cs := cuisines.value;
      var r := seq(|cs|, i requires 0 <= i < |cs| =>
                 if cs[i] == cs[|cs| - 1] then Text(cs[i] + " dishes") else Text(cs[i]));
      assert forall i :: 0 <= i < |cs| ==> cs[i] + " dishes" != cs[i] by {
        forall i | 0 <= i < |cs| ensures cs[i] + " dishes" != cs[i] {
          assert |cs[i] + " dishes"| != |cs[i]|;
        }
      }
      r
  }

  /** When the last cuisine occurs only once, it alone is turned into "... dishes". */
  lemma OnlyLastCuisineGetsDishes(cs: seq<string>)
    requires |cs| > 0
    requires forall i :: 0 <= i < |cs| - 1 ==> cs[i] != cs[|cs| - 1]
    ensures var r := CuisineComplements(Some(cs));
      && r[|cs| - 1] == Text(cs[|cs| - 1] + " dishes")
      && forall i :: 0 <= i < |cs| - 1 ==> r[i] == Text(cs[i])
  {
  }

  /**
   * The clause modifiers: "that contain" with the included ingredients, then
   * "but do not contain" with the excluded ones, each only when its key is present.
   */
  function IngredientModifiers(q: Query): (r: seq<Modifier>)
    ensures |r| == (if q.includeIngredients.Some? then 1 else 0) + (if q.excludeIngredients.Some? then 1 else 0)
    ensures q.includeIngredients.Some? ==> r[0] == Prep(PrepPhrase(Some("that contain"), q.includeIngredients.value))
    ensures q.excludeIngredients.Some? ==> r[|r| - 1] == Prep(PrepPhrase(Some("but do not contain"), q.excludeIngredients.value))
  {
    (if q.includeIngredients.Some? then [Prep(PrepPhrase(Some("that contain"), q.includeIngredients.value))] else [])
    + (if q.excludeIngredients.Some? then [Prep(PrepPhrase(Some("but do not contain"), q.excludeIngredients.value))] else [])
  }

  /**
   * "I <search verb>", progressive and declarative, with the cuisine
   * complements and the ingredient phrases.
   */
  function PrimaryClause(q: Query, verb: nat): (r: Clause)
    requires verb < |Lexicon.SearchVerbs|
    ensures r.subject == Some(Bare("I")) && r.verb == Some(Lexicon.SearchVerbs[verb]) && r.progressive
    ensures r.interrogative.None? && r.tense.None? && !r.negated
    ensures r.complements == CuisineComplements(q.includeCuisines)
    ensures r.modifiers == IngredientModifiers(q)
  {
    EmptyClause.(subject := Some(Bare("I")), verb := Some(Lexicon.SearchVerbs[verb]), progressive := true,
                 complements := CuisineComplements(q.includeCuisines), modifiers := IngredientModifiers(q))
  }

  // ---------------------------------------------------------------- constraints

  /** The five constraint keys, in their fixed priority order. */
  datatype Constraint = PrepTime | CookTime | TotalTime | NumSteps | NumIngredients

  function Rank(k: Constraint): (r: nat)
  {
    match k
    case PrepTime => 0
    case CookTime => 1
    case TotalTime => 2
    case NumSteps => 3
    case NumIngredients => 4
  }

  function SlotOf(q: Query, k: Constraint): (r: Slot)
  {
    match k
    case PrepTime => q.prepTime
    case CookTime => q.cookTime
    case TotalTime => q.totalTime
    case NumSteps => q.numSteps
    case NumIngredients => q.numIngredients
  }

  function Suffix(k: Constraint): (r: string)
  {
    match k
    case PrepTime => " minutes to prepare"
    case CookTime => " minutes to cook"
    case TotalTime => " total minutes to make"
    case NumSteps => " steps to complete"
    case NumIngredients => " ingredients"
  }

  /** The phrase `'%i ...' % value` for one constraint. */
  function ConstraintPhrase(k: Constraint, n: int): (r: string)
  {
    DecimalString(n) + Suffix(k)
  }

  /** Any of the five keys is present, possibly holding `None`. */
  predicate HasConstraintKey(q: Query)
  {
    !q.prepTime.Absent? || !q.cookTime.Absent? || !q.totalTime.Absent? || !q.numSteps.Absent? || !q.numIngredients.Absent?
  }

  function Entry(s: Slot, k: Constraint): (r: seq<(Constraint, int)>)
  {
    if s.Given? then [(k, s.n)] else []
  }

  /** The constraints that are present and not `None`, in priority order. */
  function Entries(q: Query): (e: seq<(Constraint, int)>)
  {
    Entry(q.prepTime, PrepTime) + Entry(q.cookTime, CookTime) + Entry(q.totalTime, TotalTime)
    + Entry(q.numSteps, NumSteps) + Entry(q.numIngredients, NumIngredients)
  }

  /**
   * `steps_list`: one phrase per constraint that is present and not `None`,
   * all distinct, in priority order.
   */
  function StepsList(q: Query): (r: seq<string>)
    ensures |r| == |Entries(q)|
    ensures forall k, n :: ConstraintPhrase(k, n) in r <==> SlotOf(q, k) == Given(n)
    ensures forall i, j :: 0 <= i < j < |r| ==> r[i] != r[j]
    ensures forall i, j, k1, n1, k2, n2 ::
      0 <= i < j < |r| && r[i] == ConstraintPhrase(k1, n1) && r[j] == ConstraintPhrase(k2, n2) ==> Rank(k1) < Rank(k2)
  {
    var e := Entries(q);
    var r := seq(|e|, i requires 0 <= i < |e| => ConstraintPhrase(e[i].0, e[i].1));
    PhrasesOfEntries(q, r);
    r
  }

  /** The phrases of the entries, one per entry, are the present constraints', distinct and in order. */
  lemma PhrasesOfEntries(q: Query, r: seq<string>)
    requires |r| == |Entries(q)|
    requires forall i :: 0 <= i < |r| ==> r[i] == ConstraintPhrase(Entries(q)[i].0, Entries(q)[i].1)
    ensures forall k, n :: ConstraintPhrase(k, n) in r <==> SlotOf(q, k) == Given(n)
    ensures forall i, j :: 0 <= i < j < |r| ==> r[i] != r[j]
    ensures forall i, j, k1, n1, k2, n2 ::
      0 <= i < j < |r| && r[i] == ConstraintPhrase(k1, n1) && r[j] == ConstraintPhrase(k2, n2) ==> Rank(k1) < Rank(k2)
  {
    var e := Entries(q);
    EntriesRanked(q);
    forall k, n ensures ConstraintPhrase(k, n) in r <==> SlotOf(q, k) == Given(n) {
      EntriesMembership(q, k, n);
      if ConstraintPhrase(k, n) in r {
        var i :| 0 <= i < |r| && r[i] == ConstraintPhrase(k, n);
        ConstraintPhraseInjective(k, n, e[i].0, e[i].1);
        assert e[i] == (k, n);
      }
      if SlotOf(q, k) == Given(n) {
        var i :| 0 <= i < |e| && e[i] == (k, n);
        assert r[i] == ConstraintPhrase(k, n);
      }
    }
    forall i, j | 0 <= i < j < |r| ensures r[i] != r[j] {
      ConstraintPhraseInjective(e[i].0, e[i].1, e[j].0, e[j].1);
    }
    forall i, j, k1, n1, k2, n2 |
      0 <= i < j < |r| && r[i] == ConstraintPhrase(k1, n1) && r[j] == ConstraintPhrase(k2, n2)
      ensures Rank(k1) < Rank(k2)
    {
      ConstraintPhraseInjective(k1, n1, e[i].0, e[i].1);
      ConstraintPhraseInjective(k2, n2, e[j].0, e[j].1);
    }
  }

  /**
   * The loop over `steps_list`: the first phrase is prefixed with "recipes
   * that require ", a later phrase only when it repeats the first, so with
   * distinct phrases every later one stays bare.
   */
  function StepComplements(steps: seq<string>): (r: seq<Complement>)
    ensures |r| == |steps|
    ensures |steps| > 0 ==> r[0] == Text("recipes that require " + steps[0])
    ensures forall i :: 0 < i < |steps| && steps[i] == steps[0] ==> r[i] == r[0]
    ensures forall i :: 0 < i < |steps| && steps[i] != steps[0] ==> r[i] == Text(steps[i])
    ensures (forall i, j :: 0 <= i < j < |steps| ==> steps[i] != steps[j]) ==>
      forall i :: 0 < i < |steps| ==> r[i] == Text(steps[i])
  {
    seq(|steps|, i requires 0 <= i < |steps| =>
      Text(if steps[i] == steps[0] then "recipes that require " + steps[i] else steps[i]))
  }

  /** Every phrase is among the complements, bare or prefixed. */
  lemma StepComplementsMention(steps: seq<string>, p: string)
    requires p in steps
    ensures Text(p) in StepComplements(steps) || Text("recipes that require " + p) in StepComplements(steps)
  {
    var r := StepComplements(steps);
    var i :| 0 <= i < |steps| && steps[i] == p;
    assert r[i] == Text(p) || r[i] == Text("recipes that require " + p);
  }

  /**
   * The second clause: set up (subject "I", a search verb, progressive, "also")
   * whenever a constraint key is present, even when all of them hold `None`,
   * with one complement per present constraint, each mentioning its phrase;
   * otherwise left as the empty `SPhraseSpec()`.
   */
  function SecondaryClause(q: Query, verb: nat): (r: Clause)
    requires verb < |Lexicon.SearchVerbs|
    ensures !HasConstraintKey(q) ==> r == EmptyClause
    ensures HasConstraintKey(q) ==>
      && r.subject == Some(Bare("I")) && r.verb == Some(Lexicon.SearchVerbs[verb]) && r.progressive
      && r.premodifiers == ["also"] && r.interrogative.None? && !r.negated
      && r.complements == StepComplements(StepsList(q))
    ensures HasConstraintKey(q) ==> |r.complements| == |Entries(q)|
    ensures HasConstraintKey(q) ==> forall k, n :: SlotOf(q, k) == Given(n) ==>
      Text(ConstraintPhrase(k, n)) in r.complements || Text("recipes that require " + ConstraintPhrase(k, n)) in r.complements
  {
    if HasConstraintKey(q) then
      var steps := StepsList(q);
      assert forall k, n :: SlotOf(q, k) == Given(n) ==>
        Text(ConstraintPhrase(k, n)) in StepComplements(steps)
        || Text("recipes that require " + ConstraintPhrase(k, n)) in StepComplements(steps) by {
        forall k, n | SlotOf(q, k) == Given(n)
          ensures Text(ConstraintPhrase(k, n)) in StepComplements(steps)
               || Text("recipes that require " + ConstraintPhrase(k, n)) in StepComplements(steps)
        {
          StepComplementsMention(steps, ConstraintPhrase(k, n));
        }
      }
      EmptyClause.(subject := Some(Bare("I")), verb := Some(Lexicon.SearchVerbs[verb]), progressive := true,
                   premodifiers := ["also"], complements := StepComplements(steps))
    else EmptyClause
  }

  // ---------------------------------------------------------------- the summary

  /** The document handed to the realiser: both clauses, always, joined by ".". */
  function SummaryDoc(q: Query, verb: nat, alsoVerb: nat): (r: Spec)
    requires verb < |Lexicon.SearchVerbs| && alsoVerb < |Lexicon.SearchVerbs|
    ensures r.Document? && |r.clauses| == 2 && r.conjunct == "."
    ensures var c := r.clauses[0];
      && c.subject == Some(Bare("I")) && c.verb == Some(Lexicon.SearchVerbs[verb]) && c.progressive
      && c.complements == CuisineComplements(q.includeCuisines) && c.modifiers == IngredientModifiers(q)
    ensures !HasConstraintKey(q) ==> r.clauses[1] == EmptyClause
    ensures HasConstraintKey(q) ==> var c := r.clauses[1];
      && c.subject == Some(Bare("I")) && c.verb == Some(Lexicon.SearchVerbs[alsoVerb]) && c.progressive
      && c.premodifiers == ["also"] && c.complements == StepComplements(StepsList(q))
  {
    Document([PrimaryClause(q, verb), SecondaryClause(q, alsoVerb)], ".")
  }

  /**
   * `summarize_query`: the fixed sentence for `{}`, otherwise the stripped
   * realisation of the summary document.
   */
  function SummarizeQuery(q: Query, verb: nat, alsoVerb: nat, realise: Spec -> string): (r: string)
    requires verb < |Lexicon.SearchVerbs| && alsoVerb < |Lexicon.SearchVerbs|
    ensures IsEmptyQuery(q) ==> r == Lexicon.EverythingSentence
    ensures !IsEmptyQuery(q) ==> r == Strip(realise(SummaryDoc(q, verb, alsoVerb)))
  {
    if q == EmptyQuery then Lexicon.EverythingSentence else Strip(realise(SummaryDoc(q, verb, alsoVerb)))
  }

  // ---------------------------------------------------------------- properties of the constraint list

  predicate StrictlyRanked(e: seq<(Constraint, int)>)
  {
    forall i, j :: 0 <= i < j < |e| ==> Rank(e[i].0) < Rank(e[j].0)
  }

  lemma AppendEntry(e: seq<(Constraint, int)>, s: Slot, k: Constraint)
    requires StrictlyRanked(e)
    requires forall i :: 0 <= i < |e| ==> Rank(e[i].0) < Rank(k)
    ensures StrictlyRanked(e + Entry(s, k))
    ensures forall i :: 0 <= i < |e + Entry(s, k)| ==> Rank((e + Entry(s, k))[i].0) <= Rank(k)
  {
  }

  /** The present constraints come in priority order, each key at most once. */
  lemma EntriesRanked(q: Query)
    ensures StrictlyRanked(Entries(q))
  {
    var e1 := Entry(q.prepTime, PrepTime);
    var e2 := e1 + Entry(q.cookTime, CookTime);
    AppendEntry(e1, q.cookTime, CookTime);
    var e3 := e2 + Entry(q.totalTime, TotalTime);
    AppendEntry(e2, q.totalTime, TotalTime);
    var e4 := e3 + Entry(q.numSteps, NumSteps);
    AppendEntry(e3, q.numSteps, NumSteps);
    AppendEntry(e4, q.numIngredients, NumIngredients);
    assert Entries(q) == e4 + Entry(q.numIngredients, NumIngredients);
  }

  /** A constraint is listed exactly when its key is present and not `None`. */
  lemma EntriesMembership(q: Query, k: Constraint, n: int)
    ensures (k, n) in Entries(q) <==> SlotOf(q, k) == Given(n)
  {
  }

  /** The last two characters of each suffix. */
  function Ending(k: Constraint): (r: string)
  {
    match k
    case PrepTime => "re"
    case CookTime => "ok"
    case TotalTime => "ke"
    case NumSteps => "te"
    case NumIngredients => "ts"
  }

  /** The endings tell the five constraints apart. */
  lemma EndingInjective(k1: Constraint, k2: Constraint)
    ensures Ending(k1) == Ending(k2) ==> k1 == k2
  {
    if Ending(k1) == Ending(k2) {
      assert Ending(k1)[0] == Ending(k2)[0] && Ending(k1)[1] == Ending(k2)[1];
    }
  }

  lemma PhraseEnding(k: Constraint, n: int)
    ensures var p := ConstraintPhrase(k, n); |p| >= 2 && p[|p| - 2..] == Ending(k)
  {
    var x, s := DecimalString(n), Suffix(k);
    var p := x + s;
    assert p[|p| - 2..] == s[|s| - 2..];
  }

  /** Distinct constraints, or distinct values, give distinct phrases. */
  lemma ConstraintPhraseInjective(k1: Constraint, n1: int, k2: Constraint, n2: int)
    ensures ConstraintPhrase(k1, n1) == ConstraintPhrase(k2, n2) ==> k1 == k2 && n1 == n2
  {
    var p1, p2 := ConstraintPhrase(k1, n1), ConstraintPhrase(k2, n2);
    if p1 == p2 {
      PhraseEnding(k1, n1);
      PhraseEnding(k2, n2);
      EndingInjective(k1, k2);
      var d1, d2, s := DecimalString(n1), DecimalString(n2), Suffix(k1);
      assert d1 == p1[..|p1| - |s|];
      assert d2 == p2[..|p2| - |s|];
      DecimalInjective(n1, n2);
    }
  }

  /**
   * Only the first constraint is prefixed with "recipes that require ": the
   * entries are distinct, so none after the first equals it.
   */
  lemma OnlyFirstConstraintPrefixed(q: Query)
    ensures var s := StepsList(q); var r := StepComplements(s);
      && (|s| > 0 ==> r[0] == Text("recipes that require " + s[0]))
      && forall i :: 0 < i < |s| ==> r[i] == Text(s[i])
  {
  }

  /** A present key holding `None` still opens the second clause, which then has no complements. */
  lemma NullConstraintsOpenEmptyClause(q: Query, verb: nat)
    requires verb < |Lexicon.SearchVerbs|
    requires HasConstraintKey(q)
    requires forall k :: !SlotOf(q, k).Given?
    ensures var c := SecondaryClause(q, verb);
      c.subject == Some(Bare("I")) && c.verb == Some(Lexicon.SearchVerbs[verb]) && c.premodifiers == ["also"]
      && c.progressive && c.complements == []
  {
    assert !SlotOf(q, PrepTime).Given? && !SlotOf(q, CookTime).Given? && !SlotOf(q, TotalTime).Given?;
    assert !SlotOf(q, NumSteps).Given? && !SlotOf(q, NumIngredients).Given?;
    assert Entries(q) == [];
  }

  // ---------------------------------------------------------------- worked examples

  /** `include_ingredients = ['chicken', 'pineapple']` gives "that contain" with both, in order. */
  lemma IncludedIngredientsExample(verb: nat)
    requires verb < |Lexicon.SearchVerbs|
    ensures var q := EmptyQuery.(includeIngredients := Some(["chicken", "pineapple"]));
      PrimaryClause(q, verb).modifiers == [Prep(PrepPhrase(Some("that contain"), ["chicken", "pineapple"]))]
  {
  }

  lemma TwentyAndFive()
    ensures ConstraintPhrase(PrepTime, 20) == "20 minutes to prepare"
    ensures ConstraintPhrase(NumSteps, 5) == "5 steps to complete"
  {
    assert DecimalString(20) == "20" by {
      assert NatDigits(2) == "2";
      assert NatDigits(20) == NatDigits(2) + [DigitChar(0)];
    }
    assert DecimalString(5) == "5" by {
      assert NatDigits(5) == [DigitChar(5)];
    }
  }

  /** The query `{'prep_time': 20, 'num_steps': 5}`. */
  const PrepAndSteps := EmptyQuery.(prepTime := Given(20), numSteps := Given(5))

  lemma PrepAndStepsList()
    ensures StepsList(PrepAndSteps) == ["20 minutes to prepare", "5 steps to complete"]
  {
    assert Entries(PrepAndSteps) == [(PrepTime, 20), (NumSteps, 5)];
    TwentyAndFive();
  }

  lemma TwoStepComplements(x: string, y: string)
    requires x != y
    ensures StepComplements([x, y]) == [Text("recipes that require " + x), Text(y)]
  {
  }

  lemma PrepAndStepsComplements()
    ensures StepComplements(["20 minutes to prepare", "5 steps to complete"])
         == [Text("recipes that require 20 minutes to prepare"), Text("5 steps to complete")]
  {
    assert "20 minutes to prepare"[0] != "5 steps to complete"[0];
    assert "recipes that require " + "20 minutes to prepare" == "recipes that require 20 minutes to prepare";
    TwoStepComplements("20 minutes to prepare", "5 steps to complete");
  }

  /** `prep_time = 20, num_steps = 5` gives the complements in priority order, the first prefixed. */
  lemma PrepTimeAndStepsExample(verb: nat)
    requires verb < |Lexicon.SearchVerbs|
    ensures SecondaryClause(PrepAndSteps, verb).complements
         == [Text("recipes that require 20 minutes to prepare"), Text("5 steps to complete")]
  {
    PrepAndStepsList();
    PrepAndStepsComplements();
  }
}
