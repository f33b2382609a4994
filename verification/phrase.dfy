/**
 * The phrase specifications the generator hands to the surface realiser
 * (simplenlg's NPPhraseSpec, PPPhraseSpec, SPhraseSpec and TextSpec), as
 * immutable trees. The realiser itself is not modelled: callers receive it
 * as an arbitrary function `Spec -> string`.
 */
module Phrase {
  import opened Base

  /** simplenlg's InterrogativeType values used by the generator. */
  datatype Interrogative = YesNo | How | What | Where | Who | Why

  datatype Tense = Past | Present

  /** A prepositional phrase; the preposition stays unset when none was given. */
  datatype PrepPhrase = PrepPhrase(preposition: Option<string>, complements: seq<string>)

  /** What `addModifier` attaches: a bare word or a prepositional phrase. */
  datatype Modifier = Word(word: string) | Prep(pp: PrepPhrase)

  /** A noun phrase with its modifiers in the order they were added. */
  datatype NounPhrase = NounPhrase(head: string, modifiers: seq<Modifier>)

  /** What `addComplement`/`setComplement` attaches to a clause. */
  datatype Complement = Text(text: string) | Noun(np: NounPhrase)

  /** A clause (SPhraseSpec); unset attributes are `None`, empty or `false`. */
  datatype Clause = Clause(
    subject: Option<NounPhrase>,
    verb: Option<string>,
    complements: seq<Complement>,
    modifiers: seq<Modifier>,
    premodifiers: seq<string>,
    postmodifier: Option<string>,
    interrogative: Option<Interrogative>,
    tense: Option<Tense>,
    negated: bool,
    progressive: bool)

  /** What the realiser is given: one clause, or a document of clauses and a list conjunct. */
  datatype Spec = Sentence(clause: Clause) | Document(clauses: seq<Clause>, conjunct: string)

  /** A freshly constructed `SPhraseSpec()` with nothing set. */
  const EmptyClause := Clause(None, None, [], [], [], None, None, None, false, false)

  /** A noun phrase made from a plain string, as `setSubject('I')` does. */
  function Bare(head: string): (np: NounPhrase)
  {
    NounPhrase(head, [])
  }

  /** The words of a modifier list, each added with `addModifier`, in order. */
  function Words(ws: seq<string>): (r: seq<Modifier>)
    ensures |r| == |ws|
    ensures forall i :: 0 <= i < |ws| ==> r[i] == Word(ws[i])
  {
    if |ws| == 0 then [] else [Word(ws[0])] + Words(ws[1..])
  }

  /** Recovers the words of a modifier list made only of bare words. */
  function Unwords(ms: seq<Modifier>): (r: Option<seq<string>>)
    ensures r.Some? <==> forall i :: 0 <= i < |ms| ==> ms[i].Word?
  {
    if |ms| == 0 then Some([])
    else if !ms[0].Word? then None
    else match Unwords(ms[1..])
      case None => None
      case Some(rest) => Some([ms[0].word] + rest)
  }

  /** Turning words into modifiers and back is the identity. */
  lemma {:induction false} UnwordsWords(ws: seq<string>)
    ensures Unwords(Words(ws)) == Some(ws)
  {
    if |ws| > 0 {
      assert Words(ws)[1..] == Words(ws[1..]);
      UnwordsWords(ws[1..]);
      assert [ws[0]] + ws[1..] == ws;
    }
  }
}
