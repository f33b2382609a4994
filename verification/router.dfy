/**
 * `generate`: routes an utterance tag, compared case-insensitively, to the
 * greeting, the echo, a template responder, the clarification, the query
 * summary, or a question or declarative clause handed to the realiser.
 */
module Router {
  import opened Base
  import opened Text
  import opened Phrase
  import opened Frames
  import Lexicon
  import Responders
  import ClauseBuilder
  import Summarizer

  /** The tags `generate` recognises; `Other` is every remaining string. */
  datatype Tag = Greet | Echo | AskYesNo | AskHow | AskWhat | AskWhere | AskWho | AskWhy
               | Confirm | AffirmTag | DeclineTag | Unknown | Summarize | Other

  /** The lower-case spelling `generate` compares against for each tag; `Other` has none. */
  function Spelling(tag: Tag): (r: Option<string>)
  {
    match tag
    case Greet => Some("greet")
    case Echo => Some("echo")
    case AskYesNo => Some("yes_no")
    case AskHow => Some("how")
    case AskWhat => Some("what")
    case AskWhere => Some("where")
    case AskWho => Some("who")
    case AskWhy => Some("why")
    case Confirm => Some("confirm")
    case AffirmTag => Some("affirm")
    case DeclineTag => Some("decline")
    case Unknown => Some("unknown")
    case Summarize => Some("summarize")
    case Other => None
  }

  /**
   * `utter_type.lower()` compared with each recognised tag: the tag whose
   * spelling is the lowered text, and `Other` exactly when no spelling is.
   */
  function ParseTag(utterType: string): (r: Tag)
    ensures r != Other ==> Spelling(r) == Some(Lower(utterType))
    ensures r == Other <==> forall tag :: Spelling(tag) != Some(Lower(utterType))
  {
    var t := Lower(utterType);
    if t == "greet" then Greet
    else if t == "echo" then Echo
    else if t == "yes_no" then AskYesNo
    else if t == "how" then AskHow
    else if t == "what" then AskWhat
    else if t == "where" then AskWhere
    else if t == "who" then AskWho
    else if t == "why" then AskWhy
    else if t == "confirm" then Confirm
    else if t == "affirm" then AffirmTag
    else if t == "decline" then DeclineTag
    else if t == "unknown" then Unknown
    else if t == "summarize" then Summarize
    else Other
  }

  /** Routing does not depend on letter case. */
  lemma ParseTagIgnoresCase(utterType: string)
    ensures ParseTag(Lower(utterType)) == ParseTag(utterType)
  {
    LowerIdempotent(utterType);
  }

  /** The question tag that asks with a given interrogative type. */
  function QuestionTag(mood: Interrogative): (r: Tag)
  {
    match mood
    case YesNo => AskYesNo
    case How => AskHow
    case What => AskWhat
    case Where => AskWhere
    case Who => AskWho
    case Why => AskWhy
  }

  /**
   * The interrogative type a question tag sets: the one whose question tag it
   * is; every other tag leaves the clause declarative.
   */
  function MoodOf(tag: Tag): (r: Option<Interrogative>)
    ensures r.Some? ==> QuestionTag(r.value) == tag
    ensures r.None? <==> forall mood :: QuestionTag(mood) != tag
  {
    match tag
    case AskYesNo => Some(YesNo)
    case AskHow => Some(How)
    case AskWhat => Some(What)
    case AskWhere => Some(Where)
    case AskWho => Some(Who)
    case AskWhy => Some(Why)
    case _ => None
  }

  /** The tags answered by a template responder, the clarification or the summary. */
  predicate IsResponderTag(tag: Tag)
  {
    tag == Confirm || tag == AffirmTag || tag == DeclineTag || tag == Unknown || tag == Summarize
  }

  /** The tags that end in a realised clause of the frame's own words. */
  predicate IsClauseTag(tag: Tag)
  {
    tag != Greet && !IsResponderTag(tag)
  }

  /** Every tag but `greet`, and `echo` with a `lastinput`, reads `subject` and `object`. */
  predicate ReadsSubjectAndObject(tag: Tag, kw: Frame)
  {
    tag != Greet && !(tag == Echo && kw.lastInput.Some?)
  }

  /** The phrasing list a responder tag draws from (`summarize` acknowledges). */
  function TemplatesFor(tag: Tag): (r: seq<string>)
  {
    if tag == AffirmTag then Lexicon.Affirmations
    else if tag == DeclineTag then Lexicon.Negations
    else Lexicon.Confirmations
  }

  /**
   * The outcomes of every random draw `generate` may make: `template`,
   * `withName` and `terminator` for the responder, `unknownForm` for
   * `random.randint(1, 3)`, `ackPrefix` for `[acknowledgement + '\n', '']`,
   * and `verb`/`alsoVerb` for the two search verbs of the summary.
   */
  datatype Choices = Choices(template: nat, withName: nat, terminator: nat, unknownForm: nat,
                             ackPrefix: nat, verb: nat, alsoVerb: nat)

  /** Every draw lies in the range `random.choice`/`random.randint` produce. */
  predicate ChoicesFit(tag: Tag, c: Choices)
  {
    && c.template < |TemplatesFor(tag)|
    && c.withName < 2 && c.terminator < 2
    && 1 <= c.unknownForm <= 3
    && c.ackPrefix < 2
    && c.verb < |Lexicon.SearchVerbs| && c.alsoVerb < |Lexicon.SearchVerbs|
  }

  function Greeting(name: Option<string>): (r: string)
  {
    if name.Some? then "Hello, " + name.value + "!" else "Hello there!"
  }

  /** The responder's text for `confirm`, `affirm` or `decline`. */
  function RespondTo(tag: Tag, kw: Frame, c: Choices): (r: string)
    requires ChoicesFit(tag, c)
  {
    Responders.Respond(TemplatesFor(tag), kw.name, c.template, c.withName, c.terminator)
  }

  /**
   * `generate(utter_type, keywords, query)`. `query` is `None` when the
   * caller omitted it; `realise` stands for `Realiser.realiseDocument`.
   * Question and declarative clauses are built as line 171 is written, with
   * the bare subject (see `ClauseBuilder.BuildClauseAsWritten`).
   */
  function Generate(utterType: string, kw: Frame, query: Option<Query>, c: Choices,
                    realise: Spec -> string): (r: Result<string, Error>)
    requires ChoicesFit(ParseTag(utterType), c)
    // greet and echo answer before anything is looked up
    ensures ParseTag(utterType) == Greet ==>
      r == Ok(if kw.name.Some? then "Hello, " + kw.name.value + "!" else "Hello there!")
    ensures ParseTag(utterType) == Echo && kw.lastInput.Some? ==> r == Ok(kw.lastInput.value)
    // every other path reads subject, then object, before dispatching
    ensures ReadsSubjectAndObject(ParseTag(utterType), kw) && kw.subject.None? ==> r == Err(MissingKey("subject"))
    ensures ReadsSubjectAndObject(ParseTag(utterType), kw) && kw.subject.Some? && kw.obj.None? ==>
      r == Err(MissingKey("object"))
    // the only failures: a missing key on a path that reads it, or a summary without a query
    ensures r.Err? <==>
      && ReadsSubjectAndObject(ParseTag(utterType), kw)
      && (|| kw.subject.None? || kw.obj.None?
          || (IsClauseTag(ParseTag(utterType)) && kw.verb.None?)
          || (ParseTag(utterType) == Summarize && query.None?))
    ensures r.Err? ==> r.error.MissingKey? || (ParseTag(utterType) == Summarize && query.None?)
    ensures ParseTag(utterType) == Summarize && kw.subject.Some? && kw.obj.Some? && query.None? ==> r == Err(NoQuery)
    ensures && ReadsSubjectAndObject(ParseTag(utterType), kw) && IsClauseTag(ParseTag(utterType))
            && kw.subject.Some? && kw.obj.Some? && kw.verb.None?
            ==> r == Err(MissingKey("verb"))
    // the template responders end in one terminator
    ensures r.Ok? && ParseTag(utterType) in {Confirm, AffirmTag, DeclineTag} ==>
      r.value == RespondTo(ParseTag(utterType), kw, c) && Responders.IsTerminator(r.value[|r.value| - 1])
    ensures r.Ok? && ParseTag(utterType) == Unknown ==>
      r.value == Strip(realise(Sentence(Responders.UnknownClause(c.unknownForm))))
    ensures r.Ok? && ParseTag(utterType) == Summarize ==>
      r.value == (if c.ackPrefix == 0 then Responders.Acknowledge(kw.name, c.template, c.withName, c.terminator) + "\n" else "")
                 + Summarizer.SummarizeQuery(query.value, c.verb, c.alsoVerb, realise)
    // questions and statements realise the frame's clause with the tag's mood
    ensures r.Ok? && IsClauseTag(ParseTag(utterType)) && !(ParseTag(utterType) == Echo && kw.lastInput.Some?) ==>
      && ClauseBuilder.HasClauseKeys(kw)
      && r.value == Strip(realise(Sentence(ClauseBuilder.BuildClauseAsWritten(kw, MoodOf(ParseTag(utterType))))))
  {
    var tag := ParseTag(utterType);
    if tag == Greet then Ok(Greeting(kw.name))
    else if tag == Echo && kw.lastInput.Some? then Ok(kw.lastInput.value)
    else if kw.subject.None? then Err(MissingKey("subject"))
    else if kw.obj.None? then Err(MissingKey("object"))
    else if tag == Confirm || tag == AffirmTag || tag == DeclineTag then Ok(RespondTo(tag, kw, c))
    else if tag == Unknown then Ok(Strip(realise(Sentence(Responders.UnknownClause(c.unknownForm)))))
    else if tag == Summarize then
      var acknowledgement := Responders.Acknowledge(kw.name, c.template, c.withName, c.terminator);
      var prefix := [acknowledgement + "\n", ""][c.ackPrefix];
      if query.None? then Err(NoQuery)
      else Ok(prefix + Summarizer.SummarizeQuery(query.value, c.verb, c.alsoVerb, realise))
    else if kw.verb.None? then Err(MissingKey("verb"))
    else Ok(Strip(realise(Sentence(ClauseBuilder.BuildClauseAsWritten(kw, MoodOf(tag))))))
  }

  /** The paths that end in a realised clause of the frame. */
  predicate OnClausePath(tag: Tag, kw: Frame)
  {
    IsClauseTag(tag) && ReadsSubjectAndObject(tag, kw) && ClauseBuilder.HasClauseKeys(kw)
  }

  /**
   * `generate` with line 171 corrected to attach the subject noun phrase:
   * it fails exactly when `generate` fails, answers exactly as `generate`
   * off the clause paths and whenever `submodifiers` is absent or empty,
   * and on a clause path realises the submodified subject.
   */
  function GenerateIntended(utterType: string, kw: Frame, query: Option<Query>, c: Choices,
                            realise: Spec -> string): (r: Result<string, Error>)
    requires ChoicesFit(ParseTag(utterType), c)
    ensures r.Err? <==> Generate(utterType, kw, query, c, realise).Err?
    ensures !OnClausePath(ParseTag(utterType), kw) ==> r == Generate(utterType, kw, query, c, realise)
    ensures ClauseBuilder.ListOrEmpty(kw.subModifiers) == [] ==> r == Generate(utterType, kw, query, c, realise)
    ensures OnClausePath(ParseTag(utterType), kw) ==>
      r == Ok(Strip(realise(Sentence(ClauseBuilder.BuildClause(kw, MoodOf(ParseTag(utterType)))))))
  {
    var tag := ParseTag(utterType);
    if OnClausePath(tag, kw) then
      ClauseBuilder.AsWrittenDropsSubjectModifiers(kw, MoodOf(tag));
      Ok(Strip(realise(Sentence(ClauseBuilder.BuildClause(kw, MoodOf(tag))))))
    else Generate(utterType, kw, query, c, realise)
  }

  // ---------------------------------------------------------------- properties of the router

  /** The greeting reads only `name`: no other key, the query, the draws or the realiser matter. */
  lemma GreetReadsOnlyName(utterType: string, kw1: Frame, kw2: Frame, q1: Option<Query>, q2: Option<Query>,
                           c1: Choices, c2: Choices, realise1: Spec -> string, realise2: Spec -> string)
    requires ParseTag(utterType) == Greet
    requires ChoicesFit(Greet, c1) && ChoicesFit(Greet, c2)
    requires kw1.name == kw2.name
    ensures Generate(utterType, kw1, q1, c1, realise1) == Generate(utterType, kw2, q2, c2, realise2)
  {
  }

  /** The tag is compared case-insensitively: "GREET", "Greet" and "greet" route alike. */
  lemma GenerateIgnoresCase(utterType: string, kw: Frame, query: Option<Query>, c: Choices, realise: Spec -> string)
    requires ChoicesFit(ParseTag(utterType), c)
    ensures ChoicesFit(ParseTag(Lower(utterType)), c)
    ensures Generate(Lower(utterType), kw, query, c, realise) == Generate(utterType, kw, query, c, realise)
  {
    ParseTagIgnoresCase(utterType);
  }

  /** `echo` without `lastinput` is a declarative statement of the frame, with the bare subject. */
  lemma EchoWithoutInputStates(utterType: string, kw: Frame, query: Option<Query>, c: Choices, realise: Spec -> string)
    requires ParseTag(utterType) == Echo && kw.lastInput.None?
    requires ChoicesFit(Echo, c)
    requires ClauseBuilder.HasClauseKeys(kw)
    ensures Generate(utterType, kw, query, c, realise)
         == Ok(Strip(realise(Sentence(ClauseBuilder.BuildClauseAsWritten(kw, None)))))
  {
  }

  /** A question or statement is the realiser's text with surrounding whitespace removed. */
  lemma ClauseAnswerIsStripped(utterType: string, kw: Frame, query: Option<Query>, c: Choices, realise: Spec -> string)
    requires IsClauseTag(ParseTag(utterType)) && ChoicesFit(ParseTag(utterType), c)
    requires !(ParseTag(utterType) == Echo && kw.lastInput.Some?)
    ensures var r := Generate(utterType, kw, query, c, realise);
      r.Ok? && |r.value| > 0 ==> !IsSpace(r.value[0]) && !IsSpace(r.value[|r.value| - 1])
  {
  }

  /** Without a name, no responder answer carries a comma. */
  lemma ResponderWithoutNameHasNoComma(utterType: string, kw: Frame, query: Option<Query>, c: Choices,
                                       realise: Spec -> string)
    requires ParseTag(utterType) in {Confirm, AffirmTag, DeclineTag} && ChoicesFit(ParseTag(utterType), c)
    requires kw.name.None?
    ensures var r := Generate(utterType, kw, query, c, realise); r.Ok? ==> ',' !in r.value
  {
    Responders.FixedPhrasingsArePlain();
    Responders.NoNameNoComma(TemplatesFor(ParseTag(utterType)), c.template, c.withName, c.terminator);
  }

  /** The example frame of the source's docstring: subject, verb, object and every modifier list. */
  const DocstringFrame := EmptyFrame.(subject := Some("you"), verb := Some("prefer"), obj := Some("recipes"),
    preposition := Some("that contains"), objModifiers := Some(["Thai"]),
    prepModifiers := Some(["potatoes", "celery", "carrots"]), adverbs := Some(["confidently"]))

  /** `generate('yes_no', words)` asks the docstring's question; without `object` it raises. */
  lemma YesNoExample(c: Choices, realise: Spec -> string)
    requires ChoicesFit(AskYesNo, c)
    ensures ParseTag("yes_no") == AskYesNo
    ensures Generate("yes_no", DocstringFrame, None, c, realise).Ok?
    ensures Generate("yes_no", DocstringFrame.(obj := None), None, c, realise) == Err(MissingKey("object"))
  {
    assert Lower("yes_no") == "yes_no";
  }
}
