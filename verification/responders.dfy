/**
 * The template responders `acknowledge`, `affirm` and `decline`, and the
 * three clarification clauses of `unknown`. Each `random.choice` is an
 * explicit index: `template` into the phrasing list, `withName` into
 * `[', ' + name, '']`, `terminator` into `['.', '!']`.
 */
module Responders {
  import opened Base
  import opened Phrase
  import Lexicon

  predicate IsTerminator(ch: char)
  {
    ch == '.' || ch == '!'
  }

  /**
   * The shared policy of the three responders: a phrasing, then `", " + name`
   * or nothing (nothing when there is no name), then one terminator.
   */
  function Respond(templates: seq<string>, name: Option<string>, template: nat, withName: nat, terminator: nat): (r: string)
    requires template < |templates| && withName < 2 && terminator < 2
    ensures |r| > 0 && r[|r| - 1] == (if terminator == 0 then '.' else '!')
    ensures r[..|r| - 1] == templates[template]
         || (name.Some? && r[..|r| - 1] == templates[template] + ", " + name.value)
    ensures name.None? ==> r[..|r| - 1] == templates[template]
    ensures name.Some? && withName == 0 ==> r[..|r| - 1] == templates[template] + ", " + name.value
    ensures withName == 1 ==> r[..|r| - 1] == templates[template]
  {
    var withNameText := if name.Some? then [", " + name.value, ""][withName] else "";
    var body := templates[template] + withNameText;
    var r := body + [".", "!"][terminator];
    assert r[..|r| - 1] == body;
    r
  }

  function Acknowledge(name: Option<string>, template: nat, withName: nat, terminator: nat): (r: string)
    requires template < |Lexicon.Confirmations| && withName < 2 && terminator < 2
    ensures |r| > 0 && IsTerminator(r[|r| - 1])
    ensures name.None? ==> r[..|r| - 1] in Lexicon.Confirmations
  {
    Respond(Lexicon.Confirmations, name, template, withName, terminator)
  }

  function Affirm(name: Option<string>, template: nat, withName: nat, terminator: nat): (r: string)
    requires template < |Lexicon.Affirmations| && withName < 2 && terminator < 2
    ensures |r| > 0 && IsTerminator(r[|r| - 1])
    ensures name.None? ==> r[..|r| - 1] in Lexicon.Affirmations
  {
    Respond(Lexicon.Affirmations, name, template, withName, terminator)
  }

  function Decline(name: Option<string>, template: nat, withName: nat, terminator: nat): (r: string)
    requires template < |Lexicon.Negations| && withName < 2 && terminator < 2
    ensures |r| > 0 && IsTerminator(r[|r| - 1])
    ensures name.None? ==> r[..|r| - 1] in Lexicon.Negations
  {
    Respond(Lexicon.Negations, name, template, withName, terminator)
  }

  /** No phrasing of the three lists contains a comma or ends in a terminator. */
  predicate PlainPhrasings(templates: seq<string>)
  {
    forall i :: 0 <= i < |templates| ==>
      ',' !in templates[i] && |templates[i]| > 0 && !IsTerminator(templates[i][|templates[i]| - 1])
  }

  lemma FixedPhrasingsArePlain()
    ensures PlainPhrasings(Lexicon.Confirmations)
    ensures PlainPhrasings(Lexicon.Affirmations)
    ensures PlainPhrasings(Lexicon.Negations)
  {
  }

  /** Without a name, a response never carries a comma-separated name. */
  lemma NoNameNoComma(templates: seq<string>, template: nat, withName: nat, terminator: nat)
    requires template < |templates| && withName < 2 && terminator < 2
    requires PlainPhrasings(templates)
    ensures ',' !in Respond(templates, None, template, withName, terminator)
  {
    var r := Respond(templates, None, template, withName, terminator);
    assert r == r[..|r| - 1] + [r[|r| - 1]];
  }

  /**
   * A response ends in exactly one terminator, provided the name (when one is
   * given) does not itself end in `.` or `!`.
   */
  lemma SingleTerminator(templates: seq<string>, name: Option<string>, template: nat, withName: nat, terminator: nat)
    requires template < |templates| && withName < 2 && terminator < 2
    requires PlainPhrasings(templates)
    requires name.Some? && |name.value| > 0 ==> !IsTerminator(name.value[|name.value| - 1])
    ensures var r := Respond(templates, name, template, withName, terminator);
      |r| >= 2 && IsTerminator(r[|r| - 1]) && !IsTerminator(r[|r| - 2])
  {
    var r := Respond(templates, name, template, withName, terminator);
    var body := r[..|r| - 1];
    var t := templates[template];
    if body != t {
      var n := name.value;
      assert body == t + ", " + n;
      if |n| == 0 {
        assert body[|body| - 1] == ' ';
      } else {
        assert body[|body| - 1] == n[|n| - 1];
      }
    }
    assert r[|r| - 2] == body[|body| - 1];
  }

  /**
   * The clause `unknown` realises for `random.randint(1, 3) == form`: subject
   * "I", complement "you", past tense, then per form (1) a negated "understand
   * what you just said", (2) a WHAT question "do ... say", (3) a present-tense
   * "please rephrase what you just said" with no verb.
   */
  function UnknownClause(form: nat): (r: Clause)
    requires 1 <= form <= 3
    ensures r.tense == Some(if form == 3 then Present else Past)
    ensures r.negated <==> form == 1
    ensures r.interrogative == (if form == 2 then Some(What) else None)
    ensures r.verb.None? <==> form == 3
    ensures r.postmodifier == Some(if form == 2 then "say" else "just said")
    ensures r.complements == [Text(if form == 2 then "you" else "what you")]
    ensures r.subject == Some(Bare(if form == 3 then "please rephrase" else "I"))
    ensures r.modifiers == [] && r.premodifiers == [] && !r.progressive
  {
    var base := EmptyClause.(subject := Some(Bare("I")), complements := [Text("you")], tense := Some(Past));
    if form == 1 then
      base.(verb := Some("understand"), complements := [Text("what you")], negated := true, postmodifier := Some("just said"))
    else if form == 2 then
      base.(interrogative := Some(What), verb := Some("do"), postmodifier := Some("say"))
    else
      base.(tense := Some(Present), subject := Some(Bare("please rephrase")), complements := [Text("what you")],
            postmodifier := Some("just said"))
  }
}
