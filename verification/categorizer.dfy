/**
 * `get_cuisine` of RecipeCategorizer.py: a tally of cuisines over a word
 * list. The adjectival word list and the ingredient-to-cuisines mapping are
 * parameters; the result is the `defaultdict(int)` as a map whose keys are
 * exactly the cuisines that were incremented.
 */
module Categorizer {

  type Tally = map<string, int>

  /** Reading a `defaultdict(int)`: 0 for a key never incremented. */
  function Get(m: Tally, c: string): (r: int)
  {
    if c in m then m[c] else 0
  }

  /** `cuisines[c] += 1`. */
  function Bump(m: Tally, c: string): (r: Tally)
  {
    m[c := Get(m, c) + 1]
  }

  /** `for cuisine in mapping[word]: cuisines[cuisine] += 1`. */
  function BumpAll(m: Tally, cs: seq<string>): (r: Tally)
    decreases |cs|
  {
    if |cs| == 0 then m else BumpAll(Bump(m, cs[0]), cs[1..])
  }

  /** The loop body for one word: the adjectival check, then, independently, the mapping check. */
  function Step(m: Tally, word: string, adjectivals: set<string>, mapping: map<string, seq<string>>): (r: Tally)
  {
    var afterAdjective := if word in adjectivals then Bump(m, word) else m;
    if word in mapping then BumpAll(afterAdjective, mapping[word]) else afterAdjective
  }

  /** The loop over the words, from the first to the last. */
  function Fold(m: Tally, words: seq<string>, adjectivals: set<string>, mapping: map<string, seq<string>>): (r: Tally)
    decreases |words|
  {
    if |words| == 0 then m else Fold(Step(m, words[0], adjectivals, mapping), words[1..], adjectivals, mapping)
  }

  // ---------------------------------------------------------------- the reference count

  /** How often `c` occurs in `cs`. */
  function Occurrences(cs: seq<string>, c: string): (r: nat)
  {
    if |cs| == 0 then 0 else (if cs[0] == c then 1 else 0) + Occurrences(cs[1..], c)
  }

  /**
   * What one word adds to the count of `c`: one if it is the adjective `c`,
   * plus the multiplicity of `c` in its mapping list.
   */
  function Contribution(word: string, c: string, adjectivals: set<string>, mapping: map<string, seq<string>>): (r: nat)
  {
    (if word in adjectivals && word == c then 1 else 0) + (if word in mapping then Occurrences(mapping[word], c) else 0)
  }

  /** The count of `c` over all words. */
  function Count(words: seq<string>, c: string, adjectivals: set<string>, mapping: map<string, seq<string>>): (r: nat)
  {
    if |words| == 0 then 0 else Contribution(words[0], c, adjectivals, mapping) + Count(words[1..], c, adjectivals, mapping)
  }

  // ---------------------------------------------------------------- the fold computes the count

  lemma {:induction false} BumpAllCounts(m: Tally, cs: seq<string>)
    ensures forall c :: Get(BumpAll(m, cs), c) == Get(m, c) + Occurrences(cs, c)
    ensures forall c :: c in BumpAll(m, cs) <==> c in m || Occurrences(cs, c) > 0
    decreases |cs|
  {
    if |cs| > 0 {
      BumpAllCounts(Bump(m, cs[0]), cs[1..]);
    }
  }

  lemma StepCounts(m: Tally, word: string, adjectivals: set<string>, mapping: map<string, seq<string>>)
    ensures forall c :: Get(Step(m, word, adjectivals, mapping), c) == Get(m, c) + Contribution(word, c, adjectivals, mapping)
    ensures forall c :: c in Step(m, word, adjectivals, mapping) <==> c in m || Contribution(word, c, adjectivals, mapping) > 0
  {
    var m1 := if word in adjectivals then Bump(m, word) else m;
    if word in mapping {
      BumpAllCounts(m1, mapping[word]);
    }
  }

  lemma {:induction false} FoldCounts(m: Tally, words: seq<string>, adjectivals: set<string>, mapping: map<string, seq<string>>)
    ensures forall c :: Get(Fold(m, words, adjectivals, mapping), c) == Get(m, c) + Count(words, c, adjectivals, mapping)
    ensures forall c :: c in Fold(m, words, adjectivals, mapping) <==> c in m || Count(words, c, adjectivals, mapping) > 0
    decreases |words|
  {
    if |words| > 0 {
      var m1 := Step(m, words[0], adjectivals, mapping);
      StepCounts(m, words[0], adjectivals, mapping);
      FoldCounts(m1, words[1..], adjectivals, mapping);
    }
  }

  /**
   * `get_cuisine(words)`: a cuisine is a key exactly when its count is
   * positive, and then maps to that count, so every value is at least 1.
   */
  function GetCuisine(words: seq<string>, adjectivals: set<string>, mapping: map<string, seq<string>>): (r: Tally)
    ensures forall c :: c in r <==> Count(words, c, adjectivals, mapping) > 0
    ensures forall c :: c in r ==> r[c] == Count(words, c, adjectivals, mapping) && r[c] >= 1
  {
    FoldCounts(map[], words, adjectivals, mapping);
    Fold(map[], words, adjectivals, mapping)
  }

  // ---------------------------------------------------------------- properties of the tally

  lemma {:induction false} CountAppend(a: seq<string>, b: seq<string>, c: string, adjectivals: set<string>,
                                       mapping: map<string, seq<string>>)
    ensures Count(a + b, c, adjectivals, mapping) == Count(a, c, adjectivals, mapping) + Count(b, c, adjectivals, mapping)
    decreases |a|
  {
    if |a| > 0 {
      assert (a + b)[1..] == a[1..] + b;
      CountAppend(a[1..], b, c, adjectivals, mapping);
    } else {
      assert a + b == b;
    }
  }

  /** Tallying `a + b` adds the tallies of `a` and of `b`, cuisine by cuisine. */
  lemma TallyOfConcatenation(a: seq<string>, b: seq<string>, adjectivals: set<string>, mapping: map<string, seq<string>>)
    ensures forall c :: Get(GetCuisine(a + b, adjectivals, mapping), c)
                     == Get(GetCuisine(a, adjectivals, mapping), c) + Get(GetCuisine(b, adjectivals, mapping), c)
  {
    forall c ensures Get(GetCuisine(a + b, adjectivals, mapping), c)
                  == Get(GetCuisine(a, adjectivals, mapping), c) + Get(GetCuisine(b, adjectivals, mapping), c) {
      CountAppend(a, b, c, adjectivals, mapping);
    }
  }

  /** Two tallies agree on every cuisine's count exactly when they are the same map. */
  lemma TallyExtensional(words1: seq<string>, words2: seq<string>, adjectivals: set<string>,
                         mapping: map<string, seq<string>>)
    requires forall c :: Count(words1, c, adjectivals, mapping) == Count(words2, c, adjectivals, mapping)
    ensures GetCuisine(words1, adjectivals, mapping) == GetCuisine(words2, adjectivals, mapping)
  {
    var r1, r2 := GetCuisine(words1, adjectivals, mapping), GetCuisine(words2, adjectivals, mapping);
    assert r1.Keys == r2.Keys;
  }

  /** A word that is neither adjectival nor a mapping key changes nothing, wherever it stands. */
  lemma IrrelevantWord(a: seq<string>, word: string, b: seq<string>, adjectivals: set<string>,
                       mapping: map<string, seq<string>>)
    requires word !in adjectivals && word !in mapping
    ensures GetCuisine(a + [word] + b, adjectivals, mapping) == GetCuisine(a + b, adjectivals, mapping)
  {
    forall c ensures Count(a + [word] + b, c, adjectivals, mapping) == Count(a + b, c, adjectivals, mapping) {
      CountAppend(a + [word], b, c, adjectivals, mapping);
      CountAppend(a, [word], c, adjectivals, mapping);
      CountAppend(a, b, c, adjectivals, mapping);
    }
    TallyExtensional(a + [word] + b, a + b, adjectivals, mapping);
  }

  /** A word that is adjectival and a mapping key is counted by both checks. */
  lemma AdjectivalIngredientCountsTwice(word: string, adjectivals: set<string>, mapping: map<string, seq<string>>)
    requires word in adjectivals && word in mapping
    ensures Get(GetCuisine([word], adjectivals, mapping), word) == 1 + Occurrences(mapping[word], word)
  {
    assert Count([word], word, adjectivals, mapping) == Contribution(word, word, adjectivals, mapping);
  }

  lemma {:induction false} CountSplit(words: seq<string>, k: nat, c: string, adjectivals: set<string>,
                                      mapping: map<string, seq<string>>)
    requires k < |words|
    ensures Count(words, c, adjectivals, mapping)
         == Contribution(words[k], c, adjectivals, mapping) + Count(words[..k] + words[k + 1..], c, adjectivals, mapping)
  {
    assert words == words[..k] + [words[k]] + words[k + 1..];
    CountAppend(words[..k] + [words[k]], words[k + 1..], c, adjectivals, mapping);
    CountAppend(words[..k], [words[k]], c, adjectivals, mapping);
    CountAppend(words[..k], words[k + 1..], c, adjectivals, mapping);
  }

  /** Removing the element at `k` removes one copy of it from the multiset. */
  lemma MultisetRemoveAt(s: seq<string>, k: nat)
    requires k < |s|
    ensures multiset(s[..k] + s[k + 1..]) == multiset(s) - multiset{s[k]}
  {
    assert s == s[..k] + [s[k]] + s[k + 1..];
    assert multiset(s) == multiset(s[..k]) + multiset{s[k]} + multiset(s[k + 1..]);
  }

  lemma {:induction false} CountPermutation(a: seq<string>, b: seq<string>, c: string, adjectivals: set<string>,
                                            mapping: map<string, seq<string>>)
    requires multiset(a) == multiset(b)
    ensures Count(a, c, adjectivals, mapping) == Count(b, c, adjectivals, mapping)
    decreases |a|
  {
    if |a| == 0 {
      assert |b| == |multiset(b)| == 0;
    } else {
      assert a[0] in multiset(b);
      var k :| 0 <= k < |b| && b[k] == a[0];
      var b' := b[..k] + b[k + 1..];
      MultisetRemoveAt(b, k);
      MultisetRemoveAt(a, 0);
      assert a[..0] + a[1..] == a[1..];
      CountPermutation(a[1..], b', c, adjectivals, mapping);
      CountSplit(b, k, c, adjectivals, mapping);
      assert Count(a, c, adjectivals, mapping)
          == Contribution(a[0], c, adjectivals, mapping) + Count(a[1..], c, adjectivals, mapping);
    }
  }

  /** The tally depends only on the multiset of words, not on their order. */
  lemma TallyIgnoresOrder(a: seq<string>, b: seq<string>, adjectivals: set<string>, mapping: map<string, seq<string>>)
    requires multiset(a) == multiset(b)
    ensures GetCuisine(a, adjectivals, mapping) == GetCuisine(b, adjectivals, mapping)
  {
    forall c ensures Count(a, c, adjectivals, mapping) == Count(b, c, adjectivals, mapping) {
      CountPermutation(a, b, c, adjectivals, mapping);
    }
    TallyExtensional(a, b, adjectivals, mapping);
  }

  // ---------------------------------------------------------------- the docstring examples

  const ExampleAdjectivals: set<string> := {"Israeli", "American"}
  const ExampleMapping: map<string, seq<string>> := map["Prosciutto" := ["Italian"], "Pasta" := ["Italian"]]

  lemma FirstDocstringExample()
    ensures GetCuisine(["Apple Pie Spice", "Prosciutto", "black pepper"], ExampleAdjectivals, ExampleMapping)
         == map["Italian" := 1]
  {
    var words := ["Apple Pie Spice", "Prosciutto", "black pepper"];
    var r := Fold(map[], words, ExampleAdjectivals, ExampleMapping);
    assert Step(map[], "Apple Pie Spice", ExampleAdjectivals, ExampleMapping) == map[];
    assert Step(map[], "Prosciutto", ExampleAdjectivals, ExampleMapping) == map["Italian" := 1];
    assert Step(map["Italian" := 1], "black pepper", ExampleAdjectivals, ExampleMapping) == map["Italian" := 1];
    assert words[1..] == ["Prosciutto", "black pepper"];
    assert words[1..][1..] == ["black pepper"];
  }

  lemma SecondDocstringExample()
    ensures GetCuisine(["Apple", "Prosciutto", "Pasta", "Stuffed Chicken Breast", "Israeli", "American"],
                       ExampleAdjectivals, ExampleMapping)
         == map["Israeli" := 1, "American" := 1, "Italian" := 2]
  {
    var words := ["Apple", "Prosciutto", "Pasta", "Stuffed Chicken Breast", "Israeli", "American"];
    var m2 := map["Italian" := 2];
    var m3 := map["Italian" := 2, "Israeli" := 1];
    assert Step(map[], "Apple", ExampleAdjectivals, ExampleMapping) == map[];
    assert Step(map[], "Prosciutto", ExampleAdjectivals, ExampleMapping) == map["Italian" := 1];
    assert Step(map["Italian" := 1], "Pasta", ExampleAdjectivals, ExampleMapping) == m2;
    assert Step(m2, "Stuffed Chicken Breast", ExampleAdjectivals, ExampleMapping) == m2;
    assert Step(m2, "Israeli", ExampleAdjectivals, ExampleMapping) == m3;
    assert Step(m3, "American", ExampleAdjectivals, ExampleMapping) == map["Israeli" := 1, "American" := 1, "Italian" := 2];
    assert words[1..] == ["Prosciutto", "Pasta", "Stuffed Chicken Breast", "Israeli", "American"];
    assert words[2..] == ["Pasta", "Stuffed Chicken Breast", "Israeli", "American"];
    assert words[3..] == ["Stuffed Chicken Breast", "Israeli", "American"];
    assert words[4..] == ["Israeli", "American"];
    assert words[5..] == ["American"];
    assert words[1..][1..] == words[2..];
    assert words[2..][1..] == words[3..];
    assert words[3..][1..] == words[4..];
    assert words[4..][1..] == words[5..];
    assert words[5..][1..] == [];
  }
}
