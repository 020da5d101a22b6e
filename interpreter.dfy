/** The education-mode interpreter: the class-6 science knowledge lookup, the
    out-of-syllabus refusal, and the prompt it builds with the knowledge as a
    last system section (src/cortex/education/CortexInterpreter.ts). Its
    persona, safety text, family detection and markup are those of the prompt
    builder, whose texts it repeats line for line. */
module Interpreter {
  import opened Wrappers
  import opened Text
  import opened Classes
  import opened ToolDefinitions
  import opened ClassRules
  import opened Tools
  import opened PromptFormat
  import opened PromptBuilder
  import Seqs

  /** The words whose presence puts a class-6 question in the syllabus. */
  const SyllabusKeywords: seq<string> := ["plant", "photosynthesis", "root", "leaf", "stem"]

  /** The lines of the class-6 science knowledge block. */
  const Class6ScienceLines: seq<string> := [
      "KNOWLEDGE BASE (CLASS 6 SCIENCE):",
      "- Plants have stems, roots, and leaves.",
      "- Photosynthesis is the process by which plants make food.",
      "- Water and minerals are absorbed by roots.",
      "- Leaves are the food factories of plants."]

  /** The answer to an `explain` request from class 6 outside the syllabus. */
  const SyllabusRefusal: string :=
    // written in two parts so that the verifier can read its first character
    "I'm sorry, " + "but this topic is not part of your current Class 6 Science syllabus. Please ask something related to your school subjects!"

  /** What the lookup found: the knowledge text, if any, and whether the
      question is in the syllabus. */
  datatype Knowledge = Knowledge(content: Option<string>, isSyllabusMatch: bool)

  /** The lower-cased input contains one of the syllabus keywords. */
  predicate MentionsSyllabus(input: string) {
    exists k | k in SyllabusKeywords :: Contains(Lower(input), k)
  }

  /** A subject the lookup accepts: `science`, or none (`!subject` is also
      true of the empty string). */
  predicate ScienceOrAny(subject: Option<string>) {
    subject.None? || subject.value == "" || subject.value == "science"
  }

  /** The knowledge block, the trimmed template: exactly its lines. */
  function Class6Science(): (r: string)
    ensures r == Join(Class6ScienceLines, "\n")
    ensures StartsWith(r, "KNOWLEDGE BASE (CLASS 6 SCIENCE):")
  {
    assert Class6ScienceLines[0][0] == 'K';
    assert Class6ScienceLines[4][|Class6ScienceLines[4]| - 1] == '.';
    TrimmedTemplate(Class6ScienceLines);
    Trim("\n" + Join(Class6ScienceLines, "\n") + "\n")
  }

  /** `loadKnowledgeIfAvailable`: knowledge is found, and the question is in
      the syllabus, exactly for class 6 with a science or absent subject and
      an input naming a keyword; then the content is the class-6 science
      block. */
  function LoadKnowledge(cls: Option<UserClass>, subject: Option<string>, input: string): (r: Knowledge)
    ensures r.content.Some? <==> r.isSyllabusMatch
    ensures r.isSyllabusMatch <==> cls == Some(Grade(6)) && ScienceOrAny(subject) && MentionsSyllabus(input)
    ensures r.content.Some? ==> r.content.value == Join(Class6ScienceLines, "\n")
    ensures cls.None? ==> r == Knowledge(None, false)
  {
    if cls.None? then Knowledge(None, false)
    else if cls.value == Grade(6) && ScienceOrAny(subject) && MentionsSyllabus(input) then
      Knowledge(Some(Class6Science()), true)
    else Knowledge(None, false)
  }

  /** The knowledge section: `CONTEXT INFORMATION:` and the knowledge, or
      nothing when there is no knowledge or it is empty (an empty string is
      falsy). */
  function KnowledgeSection(k: Knowledge): (r: string)
    ensures r == "" <==> k.content.None? || k.content.value == ""
    ensures r != "" ==> r == "CONTEXT INFORMATION:\n" + k.content.value
  {
    if k.content.Some? && k.content.value != "" then "CONTEXT INFORMATION:\n" + k.content.value
    else ""
  }

  /** An `explain` request from class 6 that is not in the syllabus. */
  predicate Refuses(activeTool: Option<ToolId>, userClass: Option<UserClass>, input: string) {
    activeTool == Some(Explain) && userClass == Some(Grade(6)) && !LoadKnowledge(userClass, None, input).isSyllabusMatch
  }

  /** The interpreter's system prompt: persona, safety rules, class context,
      tool task and knowledge, empty ones dropped. */
  function InterpreterSystemPrompt(custom: Option<string>, userClass: Option<UserClass>,
                                   activeTool: Option<ToolId>, input: string): string
  {
    JoinSections([Persona(custom), HardSafetyPrompt(), GetClassContext(userClass),
                  GetToolPrompt(activeTool, userClass), KnowledgeSection(LoadKnowledge(userClass, None, input))])
  }

  /** What `buildPrompt` returns: the refusal, or the serialised prompt. */
  function Interpret(userClass: Option<UserClass>, activeTool: Option<ToolId>, input: string,
                     modelName: string, history: seq<Message>, custom: Option<string>): string
  {
    if Refuses(activeTool, userClass, input) then SyllabusRefusal
    else PromptFor(DetectFamily(modelName), InterpreterSystemPrompt(custom, userClass, activeTool, input), history, input)
  }

  /** `buildPrompt`: look up knowledge with no subject, refuse out of
      syllabus, else join the sections and serialise for the model's family. */
  method BuildPrompt(userClass: Option<UserClass>, activeTool: Option<ToolId>, input: string,
                     modelName: string, history: seq<Message>, customSystemPrompt: Option<string>)
    returns (prompt: string)
    ensures prompt == Interpret(userClass, activeTool, input, modelName, history, customSystemPrompt)
  {
    var family := DetectFamily(modelName);
    var knowledge := LoadKnowledge(userClass, None, input);
    if activeTool == Some(Explain) && userClass == Some(Grade(6)) && !knowledge.isSyllabusMatch {
      return SyllabusRefusal;
    }
    var system := JoinSections([Persona(customSystemPrompt), HardSafetyPrompt(), GetClassContext(userClass),
                                GetToolPrompt(activeTool, userClass), KnowledgeSection(knowledge)]);
    prompt := Emit(family, system, history, input);
  }

  // ---------------------------------------------------------------------------
  // Properties

  /** With no subject, a class-6 question is in the syllabus exactly when it
      names a keyword, in any letter case; no other class ever matches. */
  lemma SyllabusMatchByInput(cls: Option<UserClass>, input: string)
    ensures LoadKnowledge(cls, None, input).isSyllabusMatch <==> cls == Some(Grade(6)) && MentionsSyllabus(input)
    ensures MentionsSyllabus(input) <==> MentionsSyllabus(Lower(input))
  {
    LowerIdempotent(input);
  }

  /** Every serialised prompt opens with markup, so no prompt is the refusal. */
  lemma PromptOpensWithMarkup(f: Family, system: string, history: seq<Message>, input: string)
    ensures |PromptFor(f, system, history, input)| > 0 && PromptFor(f, system, history, input)[0] == '<'
  {
    if !(f == Generic && |history| == 0) {
      var mk := FamilyMarkup(f);
      RenderFrame(mk, system, history, input);
      assert mk.systemOpen[0] == '<';
      assert Render(mk, system, history, input)[..|mk.systemOpen|] == mk.systemOpen;
    }
  }

  /** The result is the refusal exactly for an `explain` request from class 6
      outside the syllabus; the refusal carries no model markup. */
  lemma RefusalExactly(userClass: Option<UserClass>, activeTool: Option<ToolId>, input: string,
                       modelName: string, history: seq<Message>, custom: Option<string>)
    ensures Interpret(userClass, activeTool, input, modelName, history, custom) == SyllabusRefusal
      <==> activeTool == Some(Explain) && userClass == Some(Grade(6)) && !MentionsSyllabus(input)
  {
    SyllabusMatchByInput(userClass, input);
    if !Refuses(activeTool, userClass, input) {
      NoMarkupInRefusal(DetectFamily(modelName), InterpreterSystemPrompt(custom, userClass, activeTool, input), history, input);
    }
  }

  /** No serialised prompt is the refusal. */
  lemma NoMarkupInRefusal(f: Family, system: string, history: seq<Message>, input: string)
    ensures PromptFor(f, system, history, input) != SyllabusRefusal
  {
    PromptOpensWithMarkup(f, system, history, input);
    assert SyllabusRefusal[0] == 'I';
  }

  /** When knowledge is found, the system prompt ends with it, under the
      `CONTEXT INFORMATION:` heading. */
  lemma KnowledgeComesLast(custom: Option<string>, userClass: Option<UserClass>, activeTool: Option<ToolId>, input: string)
    requires LoadKnowledge(userClass, None, input).isSyllabusMatch
    ensures EndsWith(InterpreterSystemPrompt(custom, userClass, activeTool, input),
                     "CONTEXT INFORMATION:\n" + Join(Class6ScienceLines, "\n"))
  {
    var k := KnowledgeSection(LoadKnowledge(userClass, None, input));
    FoundKnowledgeSection(userClass, input);
    FiveSections(Persona(custom), HardSafetyPrompt(), GetClassContext(userClass), GetToolPrompt(activeTool, userClass), k);
  }

  /** Found knowledge gives the headed class-6 science block as its section. */
  lemma FoundKnowledgeSection(userClass: Option<UserClass>, input: string)
    requires LoadKnowledge(userClass, None, input).isSyllabusMatch
    ensures KnowledgeSection(LoadKnowledge(userClass, None, input)) == "CONTEXT INFORMATION:\n" + Join(Class6ScienceLines, "\n")
  {
    assert StartsWith(Class6Science(), "KNOWLEDGE BASE (CLASS 6 SCIENCE):");
  }

  /** The persona, custom or master, opens the system prompt, and the safety
      rules and the class context are always in it; without a class it is
      exactly persona and safety rules. */
  lemma InterpreterSections(custom: Option<string>, userClass: Option<UserClass>, activeTool: Option<ToolId>, input: string)
    ensures var s := InterpreterSystemPrompt(custom, userClass, activeTool, input);
      && StartsWith(s, Persona(custom))
      && Contains(s, HardSafetyPrompt())
      && (userClass.None? ==> s == Persona(custom) + "\n\n" + HardSafetyPrompt())
      && (userClass.Some? ==> Contains(s, GetClassContext(userClass)))
  {
    var k := KnowledgeSection(LoadKnowledge(userClass, None, input));
    FiveSections(Persona(custom), HardSafetyPrompt(), GetClassContext(userClass), GetToolPrompt(activeTool, userClass), k);
  }

  /** Outside the refusal, the interpreter serialises like the prompt builder:
      same family precedence, same markup, every history message verbatim. */
  lemma InterpreterHistoryVerbatim(userClass: Option<UserClass>, activeTool: Option<ToolId>, input: string,
                                   modelName: string, history: seq<Message>, custom: Option<string>, i: nat)
    requires !Refuses(activeTool, userClass, input) && i < |history|
    ensures var system := InterpreterSystemPrompt(custom, userClass, activeTool, input);
      OccursAt(Interpret(userClass, activeTool, input, modelName, history, custom), history[i].content,
               ContentOffset(FamilyMarkup(DetectFamily(modelName)), system, history, i))
  {
    HistoryVerbatim(DetectFamily(modelName), InterpreterSystemPrompt(custom, userClass, activeTool, input), history, input, i);
  }
}
