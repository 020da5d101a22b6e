/** The task instructions each education tool adds to the prompt
    (src/cortex/education/config/tools.ts). Each tool's text is a template
    literal whose only holes are the class name; it is modelled as its fixed
    pieces with the class name put between them, then trimmed. */
module Tools {
  import opened Wrappers
  import opened Text
  import opened Classes
  import opened ToolDefinitions

  /** The instruction when no tool is active. */
  const ChatTask: string :=
    // written in two parts so that the verifier can read its first character
    "TASK: " + "Answer the student's question helpfully via chat."

  // The heading line that opens each tool's text.
  const ExplainHeading: string := "\U{1F9E0} TOOL: EXPLAIN TOPIC"
  const NotesHeading: string := "\U{1F4DD} TOOL: MAKE SHORT NOTES"
  const PracticeHeading: string := "\U{2753} TOOL: PRACTICE QUESTIONS"
  const HomeworkHeading: string := "\U{1F9E9} TOOL: HOMEWORK HELPER"
  const TranslateHeading: string := "\U{1F310} TOOL: SIMPLIFY / TRANSLATE"

  /** The heading line of a tool. */
  function Heading(tool: ToolId): string {
    match tool
    case Explain => ExplainHeading
    case Notes => NotesHeading
    case Practice => PracticeHeading
    case Homework => HomeworkHeading
    case Translate => TranslateHeading
  }

  // The fixed pieces of the templates, between the heading and the class
  // names.
  const ExplainRole: string := "\nROLE: You are explaining a school topic to a "
  const ExplainRules: string :=
    " student.\nTASK: Explain the given topic clearly and simply.\nRULES:\n- Start with a simple definition.\n"
    + "- Explain step by step.\n- Use bullet points.\n- Maximum 6\U{2013}8 points.\n"
    + "- No advanced terms unless appropriate for Class "
  const ExplainAbove: string := ".\nIf the topic is above Class "
  const ExplainClose: string := ":\n- Say so politely.\n- Give only a basic idea."

  const NotesRole: string := "\nROLE: You are helping a student revise for exams.\nTASK: Create short revision notes for a "
  const NotesRules: string :=
    " student.\nFORMAT:\n- Bullet points only\n- Clear keywords\n- No paragraphs\n- Maximum 120 words\n"
    + "RULES:\n- Focus only on exam-relevant points.\n- Do not add extra information."

  const PracticeRole: string := "\nROLE: You are a teacher preparing practice questions.\nTASK: Create practice questions for a "
  const PracticeRules: string :=
    " student.\nFORMAT:\n- 2 easy questions\n- 2 medium questions\n- 1 slightly challenging question\n"
    + "RULES:\n- Do NOT give answers.\n- Keep questions strictly syllabus-based."

  const HomeworkRules: string :=
    "\nROLE: You are guiding a student to solve homework.\nTASK: Explain how to think about the problem step by step.\n"
    + "STRICT RULES:\n- Do NOT give the final answer.\n- Give hints and reasoning.\n- Encourage the student to try.\n"
    + "ONLY IF explicitly asked AND Class >= 9:\n- Provide the final answer with explanation."

  const TranslateRole: string := "\nROLE: You help students understand text easily.\nTASK: Simplify or translate the text for a "
  const TranslateRules: string := " student.\nRULES:\n- Use simple words.\n- Short sentences.\n- Keep the meaning correct."

  // Each tool's template between its framing line breaks, for class `name`.
  function ExplainText(name: string): string {
    ExplainHeading + ExplainRole + ("Class " + name) + ExplainRules + name + ExplainAbove + name + ExplainClose
  }
  function NotesText(name: string): string { NotesHeading + NotesRole + ("Class " + name) + NotesRules }
  function PracticeText(name: string): string { PracticeHeading + PracticeRole + ("Class " + name) + PracticeRules }
  function HomeworkText(name: string): string { HomeworkHeading + HomeworkRules }
  function TranslateText(name: string): string { TranslateHeading + TranslateRole + ("Class " + name) + TranslateRules }

  /** A tool's template between its framing line breaks, for class `name`. */
  function Template(tool: ToolId, name: string): string {
    match tool
    case Explain => ExplainText(name)
    case Notes => NotesText(name)
    case Practice => PracticeText(name)
    case Homework => HomeworkText(name)
    case Translate => TranslateText(name)
  }

  /** `getToolPrompt`: nothing without a class; the chat instruction without
      a tool; otherwise the tool's trimmed template, which opens with the
      tool's own heading and, for every tool but Homework, names the class. */
  function GetToolPrompt(tool: Option<ToolId>, cls: Option<UserClass>): (r: string)
    ensures cls.None? ==> r == ""
    ensures cls.Some? && tool.None? ==> r == ChatTask
    ensures cls.Some? && tool.Some? ==> StartsWith(r, Heading(tool.value))
    ensures cls.Some? && tool.Some? && tool.value != Homework ==> Contains(r, "Class " + Name(cls.value))
  {
    if cls.None? then ""
    else if tool.None? then ChatTask
    else
      var body := Template(tool.value, Name(cls.value));
      TemplateFacts(tool.value, Name(cls.value));
      TrimNewlineFramed(body);
      Trim("\n" + body + "\n")
  }

  /** What a tool's template holds: it opens with the heading, starts and
      ends with visible characters, and names the class unless the tool is
      Homework. */
  lemma TemplateFacts(tool: ToolId, name: string)
    ensures var body := Template(tool, name);
      && |body| > 0 && !IsWhitespace(body[0]) && !IsWhitespace(body[|body| - 1])
      && StartsWith(body, Heading(tool))
      && (tool != Homework ==> Contains(body, "Class " + name))
  {
    match tool
    case Explain => ExplainFacts(name);
    case Notes => NotesFacts(name);
    case Practice => PracticeFacts(name);
    case Homework => HomeworkFacts(name);
    case Translate => TranslateFacts(name);
  }

  lemma ExplainFacts(name: string)
    ensures var body := ExplainText(name);
      && |body| > 0 && !IsWhitespace(body[0]) && !IsWhitespace(body[|body| - 1])
      && StartsWith(body, ExplainHeading) && Contains(body, "Class " + name)
  {
    // The template is built up piece by piece, keeping the heading in front
    // and the class name where it was put.
    var h, c := ExplainHeading, "Class " + name;
    var p1 := h + ExplainRole;
    var p2 := p1 + c;
    assert StartsWith(h, h);
    StartsWithAppend(h, ExplainRole, h);
    StartsWithAppend(p1, c, h);
    assert OccursAt(c, c, 0);
    OccursAtPrepend(p1, c, c, 0);
    var p3 := Grown(p2, ExplainRules, h, c, |p1|);
    var p4 := Grown(p3, name, h, c, |p1|);
    var p5 := Grown(p4, ExplainAbove, h, c, |p1|);
    var p6 := Grown(p5, name, h, c, |p1|);
    var p7 := Grown(p6, ExplainClose, h, c, |p1|);
    assert !IsWhitespace(h[0]);
    assert p7[0] == h[0];
    assert p7[|p7| - 1] == ExplainClose[|ExplainClose| - 1];
  }

  /** Appending text keeps a prefix and an occurrence. */
  lemma Grown(s: string, t: string, prefix: string, sub: string, i: int) returns (r: string)
    requires StartsWith(s, prefix) && OccursAt(s, sub, i)
    ensures r == s + t && StartsWith(r, prefix) && OccursAt(r, sub, i)
  {
    r := s + t;
    StartsWithAppend(s, t, prefix);
    OccursAtAppend(s, t, sub, i);
  }

  lemma NotesFacts(name: string)
    ensures var body := NotesText(name);
      && |body| > 0 && !IsWhitespace(body[0]) && !IsWhitespace(body[|body| - 1])
      && StartsWith(body, NotesHeading) && Contains(body, "Class " + name)
  {
    var h := NotesHeading;
    assert !IsWhitespace(h[0]);
    HeadedText(h, NotesRole + ("Class " + name), NotesRules);
    ClassAfter(h + NotesRole, name, NotesRules);
  }

  lemma PracticeFacts(name: string)
    ensures var body := PracticeText(name);
      && |body| > 0 && !IsWhitespace(body[0]) && !IsWhitespace(body[|body| - 1])
      && StartsWith(body, PracticeHeading) && Contains(body, "Class " + name)
  {
    var h := PracticeHeading;
    assert !IsWhitespace(h[0]);
    HeadedText(h, PracticeRole + ("Class " + name), PracticeRules);
    ClassAfter(h + PracticeRole, name, PracticeRules);
  }

  lemma HomeworkFacts(name: string)
    ensures var body := HomeworkText(name);
      && |body| > 0 && !IsWhitespace(body[0]) && !IsWhitespace(body[|body| - 1])
      && StartsWith(body, HomeworkHeading)
  {
    var h := HomeworkHeading;
    assert !IsWhitespace(h[0]);
    HeadedText(h, "", HomeworkRules);
  }

  lemma TranslateFacts(name: string)
    ensures var body := TranslateText(name);
      && |body| > 0 && !IsWhitespace(body[0]) && !IsWhitespace(body[|body| - 1])
      && StartsWith(body, TranslateHeading) && Contains(body, "Class " + name)
  {
    var h := TranslateHeading;
    assert !IsWhitespace(h[0]);
    HeadedText(h, TranslateRole + ("Class " + name), TranslateRules);
    ClassAfter(h + TranslateRole, name, TranslateRules);
  }

  /** A text made of a heading, a middle and a closing piece ending in a full
      stop opens with the heading and is framed by visible characters. */
  lemma HeadedText(heading: string, middle: string, close: string)
    requires |heading| > 0 && !IsWhitespace(heading[0])
    requires |close| > 0 && (close[|close| - 1] == '.' || close[|close| - 1] == ':')
    ensures var body := heading + middle + close;
      && |body| > 0 && !IsWhitespace(body[0]) && !IsWhitespace(body[|body| - 1])
      && StartsWith(body, heading)
  {
    var body := heading + middle + close;
    assert body[..|heading|] == heading;
    assert body[|body| - 1] == close[|close| - 1];
  }

  /** `Class <name>` put between two pieces of text is contained in them. */
  lemma ClassAfter(before: string, name: string, after: string)
    ensures Contains(before + ("Class " + name) + after, "Class " + name)
  {
    OccursBetween(before, "Class " + name, after);
  }

  /** The Homework text does not depend on the class. */
  lemma HomeworkIgnoresClass(a: UserClass, b: UserClass)
    ensures GetToolPrompt(Some(Homework), Some(a)) == GetToolPrompt(Some(Homework), Some(b))
  {
  }

  /** For a given class, different tool choices (no tool included) give
      different texts: each opens with a different character. */
  lemma ToolPromptsDistinct(t1: Option<ToolId>, t2: Option<ToolId>, c: UserClass)
    requires t1 != t2
    ensures GetToolPrompt(t1, Some(c)) != GetToolPrompt(t2, Some(c))
  {
    OpensWith(t1, c);
    OpensWith(t2, c);
    OpeningCharsDistinct(t1, t2);
  }

  /** The text for a tool choice opens with that choice's character. */
  lemma OpensWith(tool: Option<ToolId>, c: UserClass)
    ensures |GetToolPrompt(tool, Some(c))| > 0 && GetToolPrompt(tool, Some(c))[0] == OpeningChar(tool)
  {
    var r := GetToolPrompt(tool, Some(c));
    if tool.Some? {
      var h := Heading(tool.value);
      assert |h| > 0;
      assert r[0] == r[..|h|][0];
    } else {
      assert ChatTask[0] == 'T';
    }
  }

  /** The first character of the text for a tool choice. */
  function OpeningChar(tool: Option<ToolId>): char {
    match tool
    case None => 'T'
    case Some(t) => if |Heading(t)| > 0 then Heading(t)[0] else ' '
  }

  /** Every tool choice has its own opening character. */
  lemma OpeningCharsDistinct(t1: Option<ToolId>, t2: Option<ToolId>)
    requires t1 != t2
    ensures OpeningChar(t1) != OpeningChar(t2)
  {
  }
}
