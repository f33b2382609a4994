/**
 * The clause `generate` builds for question and declarative tags: a subject
 * noun phrase with `submodifiers`, the verb with `adverbs`, and one complement,
 * the object noun phrase with `objmodifiers` followed by a prepositional
 * phrase that is always attached, even when it is empty.
 */
module ClauseBuilder {
  import opened Base
  import opened Phrase
  import opened Frames

  /** A missing modifier list adds nothing, exactly as an empty one does. */
  function ListOrEmpty(ws: Option<seq<string>>): (r: seq<string>)
  {
    if ws.Some? then ws.value else []
  }

  /** The keys a full clause looks up; a missing one raises KeyError. */
  predicate HasClauseKeys(kw: Frame)
  {
    kw.subject.Some? && kw.verb.Some? && kw.obj.Some?
  }

  /** The prepositional phrase: preposition if given, then every `prepmodifiers` entry. */
  function PrepositionOf(kw: Frame): (r: PrepPhrase)
  {
    PrepPhrase(kw.preposition, ListOrEmpty(kw.prepModifiers))
  }

  /** The object noun phrase: `objmodifiers` in order, then the prepositional phrase. */
  function TargetOf(kw: Frame): (r: NounPhrase)
    requires kw.obj.Some?
  {
    NounPhrase(kw.obj.value, Words(ListOrEmpty(kw.objModifiers)) + [Prep(PrepositionOf(kw))])
  }

  /**
   * The clause as the source builds it: the subject is set from the raw
   * `subject` string, so the noun phrase carrying `submodifiers` is never
   * attached.
   */
  function BuildClauseAsWritten(kw: Frame, mood: Option<Interrogative>): (r: Clause)
    requires HasClauseKeys(kw)
    ensures r.subject == Some(Bare(kw.subject.value))
  {
    EmptyClause.(
      subject := Some(Bare(kw.subject.value)),
      verb := Some(kw.verb.value),
      modifiers := Words(ListOrEmpty(kw.adverbs)),
      complements := [Noun(TargetOf(kw))],
      interrogative := mood)
  }

  /**
   * The clause as intended: the subject is the noun phrase built from
   * `subject` and its `submodifiers`.
   */
  function BuildClause(kw: Frame, mood: Option<Interrogative>): (r: Clause)
    requires HasClauseKeys(kw)
    ensures r.subject.Some? && r.subject.value.head == kw.subject.value
    ensures r.verb == kw.verb
    ensures r.interrogative == mood
    // modifiers of every kind keep their given order
    ensures var sub := ListOrEmpty(kw.subModifiers);
      |r.subject.value.modifiers| == |sub| && forall i :: 0 <= i < |sub| ==> r.subject.value.modifiers[i] == Word(sub[i])
    ensures var adv := ListOrEmpty(kw.adverbs);
      |r.modifiers| == |adv| && forall i :: 0 <= i < |adv| ==> r.modifiers[i] == Word(adv[i])
    // exactly one complement: the object, whose last modifier is the prepositional phrase
    ensures |r.complements| == 1 && r.complements[0].Noun?
    ensures var target := r.complements[0].np;
      var obj := ListOrEmpty(kw.objModifiers);
      && target.head == kw.obj.value
      && |target.modifiers| == |obj| + 1
      && (forall i :: 0 <= i < |obj| ==> target.modifiers[i] == Word(obj[i]))
      && target.modifiers[|obj|] == Prep(PrepPhrase(kw.preposition, ListOrEmpty(kw.prepModifiers)))
    ensures r.premodifiers == [] && r.postmodifier.None? && r.tense.None? && !r.negated && !r.progressive
  {
    BuildClauseAsWritten(kw, mood).(subject := Some(NounPhrase(kw.subject.value, Words(ListOrEmpty(kw.subModifiers)))))
  }

  /** The two constructions differ only in the subject's modifiers. */
  lemma AsWrittenDropsSubjectModifiers(kw: Frame, mood: Option<Interrogative>)
    requires HasClauseKeys(kw)
    ensures BuildClauseAsWritten(kw, mood) == BuildClause(kw, mood).(subject := Some(Bare(kw.subject.value)))
    ensures ListOrEmpty(kw.subModifiers) == [] ==> BuildClauseAsWritten(kw, mood) == BuildClause(kw, mood)
  {
  }

  /**
   * As written, `submodifiers` cannot influence what is realised: two frames
   * that differ only there give the same clause.
   */
  lemma AsWrittenIgnoresSubmodifiers(kw: Frame, mood: Option<Interrogative>, mods: seq<string>)
    requires HasClauseKeys(kw)
    ensures BuildClauseAsWritten(kw.(subModifiers := Some(mods)), mood) == BuildClauseAsWritten(kw.(subModifiers := None), mood)
  {
  }

  /** The frame `{'subject': 'you', 'verb': 'prefer', 'object': 'recipes', 'submodifiers': ['hungry']}`. */
  const HungrySubject := EmptyFrame.(subject := Some("you"), verb := Some("prefer"), obj := Some("recipes"),
                                     subModifiers := Some(["hungry"]))

  /** The concrete input on which the two constructions disagree. */
  lemma SubmodifierLostExample()
    ensures BuildClauseAsWritten(HungrySubject, None).subject == Some(NounPhrase("you", []))
    ensures BuildClause(HungrySubject, None).subject == Some(NounPhrase("you", [Word("hungry")]))
  {
    assert Words(["hungry"]) == [Word("hungry")];
  }

  // ---------------------------------------------------------------- reading a clause back

  /** Everything a frame contributes to its clause, missing lists read as empty. */
  datatype ClauseParts = ClauseParts(
    subject: string, verb: string, obj: string, preposition: Option<string>,
    prepModifiers: seq<string>, subModifiers: seq<string>, objModifiers: seq<string>, adverbs: seq<string>)

  function PartsOf(kw: Frame): (r: ClauseParts)
    requires HasClauseKeys(kw)
  {
    ClauseParts(kw.subject.value, kw.verb.value, kw.obj.value, kw.preposition,
                ListOrEmpty(kw.prepModifiers), ListOrEmpty(kw.subModifiers), ListOrEmpty(kw.objModifiers),
                ListOrEmpty(kw.adverbs))
  }

  /**
   * Takes apart a clause of the shape `generate` builds; `None` for any other
   * shape.
   */
  function ReadBack(c: Clause): (r: Option<ClauseParts>)
  {
    if c.subject.None? || c.verb.None? || |c.complements| != 1 || !c.complements[0].Noun? then None
    else
      var target := c.complements[0].np;
      if |target.modifiers| == 0 || !target.modifiers[|target.modifiers| - 1].Prep? then None
      else
        var pp := target.modifiers[|target.modifiers| - 1].pp;
        match (Unwords(c.subject.value.modifiers), Unwords(target.modifiers[..|target.modifiers| - 1]), Unwords(c.modifiers))
        case (Some(sub), Some(obj), Some(adv)) =>
          Some(ClauseParts(c.subject.value.head, c.verb.value, target.head, pp.preposition,
                           pp.complements, sub, obj, adv))
        case _ => None
  }

  /** The clause keeps every part of the frame: reading it back gives the frame's parts. */
  lemma ReadBackBuildClause(kw: Frame, mood: Option<Interrogative>)
    requires HasClauseKeys(kw)
    ensures ReadBack(BuildClause(kw, mood)) == Some(PartsOf(kw))
  {
    var c := BuildClause(kw, mood);
    var obj := Words(ListOrEmpty(kw.objModifiers));
    assert c.complements[0].np.modifiers[..|obj|] == obj;
    UnwordsWords(ListOrEmpty(kw.subModifiers));
    UnwordsWords(ListOrEmpty(kw.objModifiers));
    UnwordsWords(ListOrEmpty(kw.adverbs));
  }

  /** As written, everything but the subject's modifiers survives. */
  lemma ReadBackAsWritten(kw: Frame, mood: Option<Interrogative>)
    requires HasClauseKeys(kw)
    ensures ReadBack(BuildClauseAsWritten(kw, mood)) == Some(PartsOf(kw).(subModifiers := []))
  {
    var kw' := kw.(subModifiers := None);
    ReadBackBuildClause(kw', mood);
    assert BuildClause(kw', mood) == BuildClauseAsWritten(kw, mood);
  }
}
