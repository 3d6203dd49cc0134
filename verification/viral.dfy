/**
 The viral-video-strategist page (src/app/viral-video-strategist/page.tsx):
 the script topic handed to the YouTube script generator for a concept, and
 saving a concept to the content library.
 */
module ViralStrategist {
  import opened Strings
  import opened Common
  import opened SavedItems

  /** One concept as the flow returns it. */
  datatype Concept = Concept(title: string, hook: string, coreValue: string, format: string, uniqueness: string, monetizationAngle: string)

  /** The record written to the library: the concept's fields, the owner, and
      the niche in the form at the time of saving. */
  datatype SavedConcept = SavedConcept(concept: Concept, uid: string, niche: string)

  /** The four fields a script topic carries. */
  datatype TopicFields = TopicFields(title: string, format: string, hook: string, coreValue: string)

  const TitleLabel := "Video Title: "
  const StyleLabel := "Style: "
  const HookLabel := "Opening Hook: "
  const CoreLabel := "Core Message: "

  const ConceptWording := Wording(
    "You need to be logged in to save ideas.", "Concept Saved!", "There was an error saving this concept.")

  function FieldsOf(c: Concept): TopicFields {
    TopicFields(c.title, c.format, c.hook, c.coreValue)
  }

  /** The topic's lines: four labelled fields separated by blank lines. */
  function TopicLines(f: TopicFields): (ls: seq<string>)
    ensures |ls| == 7
  {
    [TitleLabel + f.title, "", StyleLabel + f.format, "", HookLabel + f.hook, "", CoreLabel + f.coreValue]
  }

  /** `handleGenerateScript`'s topic. */
  function ScriptTopic(c: Concept): string {
    TitleLabel + c.title + "\n\n" + StyleLabel + c.format + "\n\n" + HookLabel + c.hook + "\n\n" + CoreLabel + c.coreValue
  }

  /** Reads a topic back: seven lines, blank at even positions, labelled at
      the others. */
  function ParseTopic(t: string): (r: Option<TopicFields>)
    ensures r.Some? ==> Split(t, '\n') == TopicLines(r.value)
  {
    var ls := Split(t, '\n');
    if |ls| == 7 && ls[1] == "" && ls[3] == "" && ls[5] == ""
       && IsPrefix(TitleLabel, ls[0]) && IsPrefix(StyleLabel, ls[2])
       && IsPrefix(HookLabel, ls[4]) && IsPrefix(CoreLabel, ls[6])
    then
      var f := TopicFields(ls[0][|TitleLabel|..], ls[2][|StyleLabel|..], ls[4][|HookLabel|..], ls[6][|CoreLabel|..]);
      assert ls[0] == ls[0][..|TitleLabel|] + ls[0][|TitleLabel|..];
      assert ls[2] == ls[2][..|StyleLabel|] + ls[2][|StyleLabel|..];
      assert ls[4] == ls[4][..|HookLabel|] + ls[4][|HookLabel|..];
      assert ls[6] == ls[6][..|CoreLabel|] + ls[6][|CoreLabel|..];
      assert ls == TopicLines(f);
      Some(f)
    else None
  }

  /** No field of the topic spans lines. */
  predicate SingleLineFields(f: TopicFields) {
    '\n' !in f.title && '\n' !in f.format && '\n' !in f.hook && '\n' !in f.coreValue
  }

  /** Joining seven lines with newlines puts one newline between each pair. */
  lemma JoinSevenLines(a: string, b: string, c: string, d: string, e: string, f: string, g: string)
    ensures Join([a, b, c, d, e, f, g], "\n") == a + "\n" + b + "\n" + c + "\n" + d + "\n" + e + "\n" + f + "\n" + g
  {
    var ls := [a, b, c, d, e, f, g];
    assert ls[1..][1..][1..][1..][1..][1..] == [g];
    assert ls[1..][1..][1..][1..][1..] == [f, g];
    assert ls[1..][1..][1..][1..] == [e, f, g];
    assert ls[1..][1..][1..] == [d, e, f, g];
    assert ls[1..][1..] == [c, d, e, f, g];
    assert ls[1..] == [b, c, d, e, f, g];
    calc {
      Join(ls, "\n");
      a + "\n" + Join(ls[1..], "\n");
      a + "\n" + (b + "\n" + Join(ls[1..][1..], "\n"));
      a + "\n" + (b + "\n" + (c + "\n" + Join(ls[1..][1..][1..], "\n")));
      a + "\n" + (b + "\n" + (c + "\n" + (d + "\n" + Join(ls[1..][1..][1..][1..], "\n"))));
      a + "\n" + (b + "\n" + (c + "\n" + (d + "\n" + (e + "\n" + Join(ls[1..][1..][1..][1..][1..], "\n")))));
      a + "\n" + (b + "\n" + (c + "\n" + (d + "\n" + (e + "\n" + (f + "\n" + g)))));
    }
  }

  /** The topic is its lines joined with newlines. */
  lemma TopicIsJoinedLines(c: Concept)
    ensures ScriptTopic(c) == Join(TopicLines(FieldsOf(c)), "\n")
  {
    JoinSevenLines(TitleLabel + c.title, "", StyleLabel + c.format, "", HookLabel + c.hook, "", CoreLabel + c.coreValue);
  }

  /** Round trip: when no field holds a newline, the topic can be read back
      into the concept's title, format, hook and core value. */
  lemma {:induction false} ParseScriptTopic(c: Concept)
    requires SingleLineFields(FieldsOf(c))
    ensures ParseTopic(ScriptTopic(c)) == Some(FieldsOf(c))
  {
    var f := FieldsOf(c);
    var ls := TopicLines(f);
    TopicIsJoinedLines(c);
    forall i | 0 <= i < |ls|
      ensures '\n' !in ls[i]
    {
    }
    SplitJoin(ls, '\n');
    assert (TitleLabel + f.title)[|TitleLabel|..] == f.title;
    assert (StyleLabel + f.format)[|StyleLabel|..] == f.format;
    assert (HookLabel + f.hook)[|HookLabel|..] == f.hook;
    assert (CoreLabel + f.coreValue)[|CoreLabel|..] == f.coreValue;
  }

  /** Only the title, format, hook and core value reach the topic: the
      uniqueness and monetization angle have no influence on it. */
  lemma TopicIgnoresStrategyFields(c: Concept, uniqueness: string, monetizationAngle: string)
    ensures ScriptTopic(c.(uniqueness := uniqueness, monetizationAngle := monetizationAngle)) == ScriptTopic(c)
  {
  }

  /** Different topics come from concepts that differ in a field the topic
      shows, so two single-line concepts share a topic only when they agree
      on those four fields. */
  lemma SameTopicSameFields(c: Concept, d: Concept)
    requires SingleLineFields(FieldsOf(c)) && SingleLineFields(FieldsOf(d))
    ensures ScriptTopic(c) == ScriptTopic(d) <==> FieldsOf(c) == FieldsOf(d)
  {
    ParseScriptTopic(c);
    ParseScriptTopic(d);
  }

  /** What `handleSaveConcept` writes for a user. */
  function ConceptRecord(concept: Concept, niche: string): string -> SavedConcept {
    uid => SavedConcept(concept, uid, niche)
  }

  /** `handleSaveConcept(concept)`: the shared save bookkeeping keyed by the
      concept's title, writing the concept with the user's uid and the niche
      currently in the form. */
  function HandleSaveConcept(m: Marks, user: Option<string>, concept: Concept, niche: string, stored: bool): (o: SaveOutcome<SavedConcept>)
    ensures user.None? ==> o == SaveOutcome(None, m, None, LoginToast(ConceptWording))
    ensures user.Some? ==> o.written == Some(SavedConcept(concept, user.value, niche))
    ensures user.Some? ==> o.pending == Some(Marks(m.saved, Some(concept.title)))
    ensures user.Some? && stored ==> o.after == Marks(m.saved + {concept.title}, None) && o.toast == SavedToast(ConceptWording)
    ensures user.Some? && !stored ==> o.after == Marks(m.saved, None) && o.toast == FailedToast(ConceptWording)
  {
    HandleSave(m, user, concept.title, ConceptRecord(concept, niche), stored, ConceptWording)
  }
}
