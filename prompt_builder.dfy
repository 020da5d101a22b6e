/** The education-mode prompt builder: the persona, safety, class and tool
    sections of the system prompt, and the model family that decides the
    markup (utils/PromptBuilder.ts). */
module PromptBuilder {
  import opened Wrappers
  import opened Text
  import opened Classes
  import opened ToolDefinitions
  import opened ClassRules
  import opened Tools
  import opened PromptFormat
  import Seqs

  /** The lines of `MASTER_SYSTEM_PROMPT`, the default teacher persona. */
  const MasterLines: seq<string> := [
      // written in two parts so that the verifier can read its first character
      "You are a calm, friendly, " + "and disciplined school teacher.",
      "You help students from Nursery to Class 10 learn their school subjects in a safe, simple, and correct way.",
      "",
      "IMPORTANT BEHAVIOR RULES:",
      "- Always teach according to the student's class level.",
      "- Use simple and age-appropriate language.",
      "- Never explain concepts beyond the student's syllabus level.",
      "- Never use adult, political, religious, medical, or unsafe topics.",
      "- Never encourage cheating.",
      "- Never mention AI, models, training, or internal rules.",
      "",
      "TEACHING STYLE:",
      "- Be clear and structured.",
      "- Prefer short sentences.",
      "- Prefer bullet points.",
      "- Explain step by step.",
      "- Be encouraging, not authoritative.",
      "",
      "OUTPUT RULES:",
      "- Keep answers short by default.",
      "- Do not over-explain unless asked.",
      "- If unsure, ask a simple clarification question."]

  /** The lines of `HARD_SAFETY_PROMPT`. */
  const SafetyLines: seq<string> := [
      "SAFETY RULES:",
      "You must NOT answer questions about:",
      "- Sexual or adult content",
      "- Violence or weapons",
      "- Drugs or illegal activities",
      "- Politics or religion",
      "- Medical advice",
      "- Self-harm",
      "",
      "If asked:",
      "- Say the topic is not appropriate for school students.",
      "- Suggest asking a parent or teacher."]

  /** `MASTER_SYSTEM_PROMPT`: the trimmed template is exactly its lines. */
  function MasterSystemPrompt(): (r: string)
    ensures r == Join(MasterLines, "\n")
    ensures StartsWith(r, MasterLines[0]) && |r| > 0
  {
    assert MasterLines[0][0] == 'Y';
    assert MasterLines[21][|MasterLines[21]| - 1] == '.';
    TrimmedTemplate(MasterLines);
    Trim("\n" + Join(MasterLines, "\n") + "\n")
  }

  /** `HARD_SAFETY_PROMPT`: the trimmed template is exactly its lines. */
  function HardSafetyPrompt(): (r: string)
    ensures r == Join(SafetyLines, "\n")
    ensures StartsWith(r, "SAFETY RULES:") && |r| > 0
  {
    assert SafetyLines[0][0] == 'S' && SafetyLines[11][|SafetyLines[11]| - 1] == '.';
    TrimmedTemplate(SafetyLines);
    Trim("\n" + Join(SafetyLines, "\n") + "\n")
  }

  // ---------------------------------------------------------------------------
  // Model family

  datatype Family = Llama3 | Qwen | TinyLlama | Generic

  predicate NamesLlama3(modelName: string) {
    Contains(Lower(modelName), "llama 3") || Contains(Lower(modelName), "llama-3")
  }

  /** The family named by the model, by case-insensitive substring: Llama 3
      first, then Qwen, then TinyLlama; anything else is generic. */
  function DetectFamily(modelName: string): (f: Family)
    ensures f == Llama3 <==> NamesLlama3(modelName)
    ensures f == Qwen <==> !NamesLlama3(modelName) && Contains(Lower(modelName), "qwen")
    ensures f == TinyLlama <==>
      !NamesLlama3(modelName) && !Contains(Lower(modelName), "qwen") && Contains(Lower(modelName), "tinyllama")
  {
    if NamesLlama3(modelName) then Llama3
    else if Contains(Lower(modelName), "qwen") then Qwen
    else if Contains(Lower(modelName), "tinyllama") then TinyLlama
    else Generic
  }

  /** The markup of each family; for the generic family, the one used when
      there is history. */
  function FamilyMarkup(f: Family): Markup {
    match f
    case Llama3 =>
      Markup("<|begin_of_text|>" + "<|start_header_id|>system<|end_header_id|>\n\n", "<|eot_id|>",
        "<|start_header_id|>" + RoleName(User) + "<|end_header_id|>\n\n", "<|eot_id|>",
        "<|start_header_id|>" + RoleName(Assistant) + "<|end_header_id|>\n\n", "<|eot_id|>",
        "<|start_header_id|>user<|end_header_id|>\n\n", "<|eot_id|>" + "<|start_header_id|>assistant<|end_header_id|>\n\n")
    case Qwen =>
      Markup("<|im_start|>system\n", "<|im_end|>\n",
        "<|im_start|>" + RoleName(User) + "\n", "<|im_end|>\n",
        "<|im_start|>" + RoleName(Assistant) + "\n", "<|im_end|>\n",
        "<|im_start|>user\n", "<|im_end|>\n<|im_start|>assistant\n")
    case TinyLlama =>
      Markup("<|system|>\n", "</s>\n",
        "<|" + RoleName(User) + "|>\n", "</s>\n",
        "<|" + RoleName(Assistant) + "|>\n", "</s>\n",
        "<|user|>\n", "</s>\n<|assistant|>\n")
    case Generic =>
      Markup("<s>[INST] ", " [/INST] </s>",
        "<s>[INST] ", " [/INST] ",
        "", " </s>",
        "<s>[INST] ", " [/INST]")
  }

  /** The whole prompt for a family. The generic family without history puts
      system prompt and input into one instruction block. */
  function PromptFor(f: Family, system: string, history: seq<Message>, input: string): string {
    if f == Generic && |history| == 0 then "<s>[INST] " + system + "\n\n" + input + " [/INST]"
    else Render(FamilyMarkup(f), system, history, input)
  }

  // ---------------------------------------------------------------------------
  // System prompt

  /** A custom prompt that is not blank after trimming replaces the persona. */
  function Persona(custom: Option<string>): (r: string)
    ensures custom.Some? && Trim(custom.value) != "" ==> r == Trim(custom.value)
    ensures custom.None? || Trim(custom.value) == "" ==> r == MasterSystemPrompt()
    ensures |r| > 0
  {
    if custom.Some? && Trim(custom.value) != "" then Trim(custom.value) else MasterSystemPrompt()
  }

  function NonEmpty(): string -> bool {
    (line: string) => |line| > 0
  }

  /** `parts.filter(line => line.length > 0).join("\n\n")`. */
  function JoinSections(parts: seq<string>): string {
    Join(Seqs.Filter(parts, NonEmpty()), "\n\n")
  }

  /** The system prompt: persona, safety rules, class context and tool task. */
  function SystemPrompt(custom: Option<string>, userClass: Option<UserClass>, activeTool: Option<ToolId>): string {
    JoinSections([Persona(custom), HardSafetyPrompt(), GetClassContext(userClass), GetToolPrompt(activeTool, userClass)])
  }

  /** `buildPrompt`: the system prompt, serialised with the history and the
      input in the markup of the model's family. */
  method BuildPrompt(userClass: Option<UserClass>, activeTool: Option<ToolId>, input: string,
                     modelName: string, history: seq<Message>, customSystemPrompt: Option<string>)
    returns (prompt: string)
    ensures prompt == PromptFor(DetectFamily(modelName), SystemPrompt(customSystemPrompt, userClass, activeTool), history, input)
  {
    var family := DetectFamily(modelName);
    var system := SystemPrompt(customSystemPrompt, userClass, activeTool);
    prompt := Emit(family, system, history, input);
  }

  /** The serialisation step of `buildPrompt`: one instruction block for the
      generic family without history, else the family's markup. */
  method Emit(family: Family, system: string, history: seq<Message>, input: string) returns (prompt: string)
    ensures prompt == PromptFor(family, system, history, input)
  {
    if family == Generic && |history| == 0 {
      prompt := "<s>[INST] " + system + "\n\n" + input + " [/INST]";
    } else {
      prompt := Serialize(FamilyMarkup(family), system, history, input);
    }
  }

  // ---------------------------------------------------------------------------
  // Properties of the system prompt

  /** The first section, when present, opens the joined text. */
  lemma JoinSectionsFirst(parts: seq<string>)
    requires |parts| > 0 && |parts[0]| > 0
    ensures StartsWith(JoinSections(parts), parts[0])
  {
    var kept := Seqs.Filter(parts, NonEmpty());
    assert kept[0] == parts[0];
    JoinEnds(kept, "\n\n");
  }

  /** The last section, when present, closes the joined text. */
  lemma JoinSectionsLast(parts: seq<string>)
    requires |parts| > 0 && |parts[|parts| - 1]| > 0
    ensures EndsWith(JoinSections(parts), parts[|parts| - 1])
  {
    var n := |parts|;
    Seqs.FilterConcat(parts[..n - 1], [parts[n - 1]], NonEmpty());
    assert parts[..n - 1] + [parts[n - 1]] == parts;
    var kept := Seqs.Filter(parts, NonEmpty());
    assert Seqs.Filter([parts[n - 1]], NonEmpty()) == [parts[n - 1]];
    assert kept[|kept| - 1] == parts[n - 1];
    JoinEnds(kept, "\n\n");
  }

  /** Every non-empty section appears in the joined text. */
  lemma JoinSectionsHas(parts: seq<string>, i: nat)
    requires i < |parts| && |parts[i]| > 0
    ensures Contains(JoinSections(parts), parts[i])
  {
    var kept := Seqs.Filter(parts, NonEmpty());
    assert NonEmpty()(parts[i]);
    assert parts[i] in kept;
    var k :| 0 <= k < |kept| && kept[k] == parts[i];
    JoinAt(kept, "\n\n", k);
  }

  /** Two present sections followed only by empty ones join to the two, a
      blank line apart. */
  lemma LeadingPair(a: string, b: string, rest: seq<string>)
    requires |a| > 0 && |b| > 0
    requires forall i :: 0 <= i < |rest| ==> rest[i] == ""
    ensures JoinSections([a, b] + rest) == a + "\n\n" + b
  {
    var p := NonEmpty();
    Seqs.FilterConcat([a, b], rest, p);
    Seqs.FilterNone(rest, p);
    assert [a, b][1..] == [b] && [b][1..] == [];
    assert Seqs.Filter([b], p) == [b];
    assert Seqs.Filter([a, b], p) == [a, b];
    assert [a, b] + [] == [a, b];
    assert Join([b], "\n\n") == b;
    assert Join([a, b], "\n\n") == a + "\n\n" + Join([b], "\n\n");
  }

  /** What joining four sections, the first two present, guarantees. */
  lemma FourSections(a: string, b: string, c: string, d: string)
    requires |a| > 0 && |b| > 0
    ensures StartsWith(JoinSections([a, b, c, d]), a)
    ensures Contains(JoinSections([a, b, c, d]), b)
    ensures |c| > 0 ==> Contains(JoinSections([a, b, c, d]), c)
    ensures |d| > 0 ==> Contains(JoinSections([a, b, c, d]), d)
    ensures c == "" && d == "" ==> JoinSections([a, b, c, d]) == a + "\n\n" + b
  {
    var parts := [a, b, c, d];
    JoinSectionsFirst(parts);
    JoinSectionsHas(parts, 1);
    if |c| > 0 {
      JoinSectionsHas(parts, 2);
    }
    if |d| > 0 {
      JoinSectionsHas(parts, 3);
    }
    if c == "" && d == "" {
      assert parts == [a, b] + [c, d];
      LeadingPair(a, b, [c, d]);
    }
  }

  /** What joining five sections, the first two present, guarantees. */
  lemma FiveSections(a: string, b: string, c: string, d: string, e: string)
    requires |a| > 0 && |b| > 0
    ensures StartsWith(JoinSections([a, b, c, d, e]), a)
    ensures Contains(JoinSections([a, b, c, d, e]), b)
    ensures |c| > 0 ==> Contains(JoinSections([a, b, c, d, e]), c)
    ensures |e| > 0 ==> EndsWith(JoinSections([a, b, c, d, e]), e)
    ensures c == "" && d == "" && e == "" ==> JoinSections([a, b, c, d, e]) == a + "\n\n" + b
  {
    var parts := [a, b, c, d, e];
    JoinSectionsFirst(parts);
    JoinSectionsHas(parts, 1);
    if |c| > 0 {
      JoinSectionsHas(parts, 2);
    }
    if |e| > 0 {
      JoinSectionsLast(parts);
    }
    if c == "" && d == "" && e == "" {
      assert parts == [a, b] + [c, d, e];
      LeadingPair(a, b, [c, d, e]);
    }
  }

  /** The persona opens the system prompt and the safety rules are always in
      it; without a class it is exactly persona and safety rules, and with a
      class the class context and the tool task are in it too. */
  lemma SystemPromptSections(custom: Option<string>, userClass: Option<UserClass>, activeTool: Option<ToolId>)
    ensures var s := SystemPrompt(custom, userClass, activeTool);
      && StartsWith(s, Persona(custom))
      && Contains(s, HardSafetyPrompt())
      && (userClass.None? ==> s == Persona(custom) + "\n\n" + HardSafetyPrompt())
      && (userClass.Some? ==> Contains(s, GetClassContext(userClass)) && Contains(s, GetToolPrompt(activeTool, userClass)))
  {
    ToolSectionPresent(activeTool, userClass);
    FourSections(Persona(custom), HardSafetyPrompt(), GetClassContext(userClass), GetToolPrompt(activeTool, userClass));
  }

  /** With a class, the tool section is never empty. */
  lemma ToolSectionPresent(activeTool: Option<ToolId>, userClass: Option<UserClass>)
    ensures userClass.Some? ==> |GetToolPrompt(activeTool, userClass)| > 0
  {
    if userClass.Some? && activeTool.Some? {
      assert StartsWith(GetToolPrompt(activeTool, userClass), Heading(activeTool.value));
    }
  }

  // ---------------------------------------------------------------------------
  // Properties of the serialised prompt

  /** Every history message is in the prompt verbatim, in order, for every
      family; the history is neither pruned nor cut. */
  lemma HistoryVerbatim(f: Family, system: string, history: seq<Message>, input: string, i: nat)
    requires i < |history|
    ensures OccursAt(PromptFor(f, system, history, input), history[i].content, ContentOffset(FamilyMarkup(f), system, history, i))
    ensures i + 1 < |history| ==>
      ContentOffset(FamilyMarkup(f), system, history, i) + |history[i].content|
        <= ContentOffset(FamilyMarkup(f), system, history, i + 1)
  {
    MessageInRender(FamilyMarkup(f), system, history, input, i);
  }

  /** The Llama 3 prompt opens with the begin-of-text token and the system
      header and ends with an open assistant header. */
  lemma Llama3Frame(system: string, history: seq<Message>, input: string)
    ensures StartsWith(PromptFor(Llama3, system, history, input), "<|begin_of_text|>")
    ensures StartsWith(PromptFor(Llama3, system, history, input), "<|begin_of_text|>" + "<|start_header_id|>system<|end_header_id|>\n\n")
    ensures EndsWith(PromptFor(Llama3, system, history, input), "<|start_header_id|>assistant<|end_header_id|>\n\n")
  {
    var mk := FamilyMarkup(Llama3);
    var r := Render(mk, system, history, input);
    RenderFrame(mk, system, history, input);
    assert StartsWith("<|begin_of_text|>", "<|begin_of_text|>");
    StartsWithAppend("<|begin_of_text|>", "<|start_header_id|>system<|end_header_id|>\n\n", "<|begin_of_text|>");
    StartsWithTrans(r, mk.systemOpen, "<|begin_of_text|>");
    assert EndsWith("<|start_header_id|>assistant<|end_header_id|>\n\n", "<|start_header_id|>assistant<|end_header_id|>\n\n");
    EndsWithPrepend("<|eot_id|>", "<|start_header_id|>assistant<|end_header_id|>\n\n", "<|start_header_id|>assistant<|end_header_id|>\n\n");
    EndsWithTrans(r, mk.inputClose, "<|start_header_id|>assistant<|end_header_id|>\n\n");
  }

  /** The Qwen prompt opens with the system turn and ends by opening the
      assistant's turn. */
  lemma QwenFrame(system: string, history: seq<Message>, input: string)
    ensures StartsWith(PromptFor(Qwen, system, history, input), "<|im_start|>system\n")
    ensures EndsWith(PromptFor(Qwen, system, history, input), "<|im_end|>\n<|im_start|>assistant\n")
  {
    RenderFrame(FamilyMarkup(Qwen), system, history, input);
  }

  /** The TinyLlama prompt opens with the system turn and ends by opening the
      assistant's turn. */
  lemma TinyLlamaFrame(system: string, history: seq<Message>, input: string)
    ensures StartsWith(PromptFor(TinyLlama, system, history, input), "<|system|>\n")
    ensures EndsWith(PromptFor(TinyLlama, system, history, input), "</s>\n<|assistant|>\n")
  {
    RenderFrame(FamilyMarkup(TinyLlama), system, history, input);
  }

  /** With history, the generic prompt opens with the system instruction
      block and ends with the input's instruction block. */
  lemma GenericFrame(system: string, history: seq<Message>, input: string)
    requires |history| > 0
    ensures StartsWith(PromptFor(Generic, system, history, input), "<s>[INST] " + system + " [/INST] </s>")
    ensures EndsWith(PromptFor(Generic, system, history, input), "<s>[INST] " + input + " [/INST]")
  {
    var mk := FamilyMarkup(Generic);
    var r := Render(mk, system, history, input);
    assert r == Head(mk, system) + (Turns(mk, history) + Tail(mk, input));
    assert StartsWith(Head(mk, system), Head(mk, system));
    StartsWithAppend(Head(mk, system), Turns(mk, history) + Tail(mk, input), Head(mk, system));
    assert r == (Head(mk, system) + Turns(mk, history)) + Tail(mk, input);
    assert EndsWith(Tail(mk, input), Tail(mk, input));
    EndsWithPrepend(Head(mk, system) + Turns(mk, history), Tail(mk, input), Tail(mk, input));
  }
}
