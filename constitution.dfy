/** The Cortex constitution and the system-prompt text built from it
    (src/cortex/runtime/Constitution.ts). */
module Constitution {
  import opened Text

  const Version: string := "1.0"

  const Principles: seq<string> := [
    "Intelligence must be decentralized and run locally.",
    "Users own their data and their intelligence outputs.",
    "Cortex must be transparent and auditable.",
    "Cortex intelligence must avoid manipulation and exploitation.",
    "Cortex must reject harmful misuse and respect human dignity."
  ]

  const SafetyRules: seq<string> := [
    "No sexual or adult content.",
    "No violence or weapons.",
    "No drugs or illegal activities.",
    "No political or religious manipulation.",
    "No medical advice.",
    "No self-harm encouragement."
  ]

  const PromptHeader: string := "CORTEX CONSTITUTION (v1.0):\nPrinciples:\n"
  const SafetyHeader: string := "\n\nSafety Rules:\n"
  const GeneralBehavior: string :=
    "\n\nGENERAL BEHAVIOR:\n"
    + "- You are Cortex, a local-first AI runtime.\n"
    + "- You must always abide by the principles and safety rules above.\n"
    + "- Never claim authority over a syllabus or subject unless a Knowledge Pack is explicitly provided.\n"
    + "- Be uncertain when answering general questions; use language like \"Generally speaking...\" or "
    + "\"I don't have a specific reference for this, but...\"."

  /** The `CONSTITUTION` record. */
  datatype Charter = Charter(version: string, principles: seq<string>, safety: seq<string>)

  const CONSTITUTION: Charter := Charter(Version, Principles, SafetyRules)

  /** `items.map(x => `- ${x}`)`. */
  function Bullets(items: seq<string>): (r: seq<string>)
    ensures |r| == |items|
    ensures forall i :: 0 <= i < |items| ==> r[i] == "- " + items[i]
  {
    if |items| == 0 then [] else ["- " + items[0]] + Bullets(items[1..])
  }

  /** The prompt text for a charter, without the template's framing line breaks. */
  function PromptBody(c: Charter): string {
    Layout(PromptHeader, Join(Bullets(c.principles), "\n"), SafetyHeader, Join(Bullets(c.safety), "\n"), GeneralBehavior)
  }

  /** The five parts of the prompt, in order. */
  function Layout(header: string, principles: string, safetyHeader: string, safety: string, behavior: string): string {
    header + principles + safetyHeader + safety + behavior
  }

  /** `getConstitutionPrompt`: the template literal for `CONSTITUTION`. */
  function GetConstitutionPrompt(): (r: string)
    ensures r == PromptBody(CONSTITUTION)
    ensures StartsWith(r, "CORTEX CONSTITUTION (v1.0):")
  {
    PromptText(CONSTITUTION)
  }

  /** The template literal for a charter, which opens and closes with a line
      break, trimmed. Trimming removes exactly those two line breaks, so the
      prompt opens with the header and closes with the last behaviour rule. */
  function PromptText(c: Charter): (r: string)
    ensures r == PromptBody(c)
    ensures StartsWith(r, "CORTEX CONSTITUTION (v1.0):")
  {
    var body := PromptBody(c);
    BodyEnds(c);
    TrimNewlineFramed(body);
    Trim("\n" + body + "\n")
  }

  /** A charter's prompt body opens with the header and ends with the full
      stop of the last behaviour rule. */
  lemma BodyEnds(c: Charter)
    ensures var body := PromptBody(c);
      && |body| > 0 && !IsWhitespace(body[0]) && !IsWhitespace(body[|body| - 1])
      && StartsWith(body, "CORTEX CONSTITUTION (v1.0):")
  {
    var body := PromptBody(c);
    FixedEnds();
    LayoutEnds(PromptHeader, Join(Bullets(c.principles), "\n"), SafetyHeader, Join(Bullets(c.safety), "\n"), GeneralBehavior);
    StartsWithTrans(body, PromptHeader, "CORTEX CONSTITUTION (v1.0):");
  }

  /** The header opens with the title, and the behaviour rules end in a full stop. */
  lemma FixedEnds()
    ensures |PromptHeader| > 0 && PromptHeader[0] == 'C' && StartsWith(PromptHeader, "CORTEX CONSTITUTION (v1.0):")
    ensures |GeneralBehavior| > 0 && GeneralBehavior[|GeneralBehavior| - 1] == '.'
  {
  }

  /** The laid-out prompt opens with its header and closes with its last part. */
  lemma LayoutEnds(header: string, principles: string, safetyHeader: string, safety: string, behavior: string)
    requires |header| > 0 && |behavior| > 0
    ensures var s := Layout(header, principles, safetyHeader, safety, behavior);
      StartsWith(s, header) && s[0] == header[0] && s[|s| - 1] == behavior[|behavior| - 1]
  {
    var s := Layout(header, principles, safetyHeader, safety, behavior);
    assert StartsWith(header, header);
    StartsWithAppend(header, principles, header);
    StartsWithAppend(header + principles, safetyHeader, header);
    StartsWithAppend(header + principles + safetyHeader, safety, header);
    StartsWithAppend(header + principles + safetyHeader + safety, behavior, header);
  }

  /** Where principle `i`'s bullet starts in the prompt. */
  function PrincipleOffset(c: Charter, i: nat): nat
    requires i < |c.principles|
  {
    |PromptHeader| + JoinOffset(Bullets(c.principles), "\n", i)
  }

  /** Where the safety-rules header starts in the prompt. */
  function SafetyHeaderOffset(c: Charter): nat {
    |PromptHeader| + |Join(Bullets(c.principles), "\n")|
  }

  /** Where safety rule `j`'s bullet starts in the prompt. */
  function SafetyRuleOffset(c: Charter, j: nat): nat
    requires j < |c.safety|
  {
    SafetyHeaderOffset(c) + |SafetyHeader| + JoinOffset(Bullets(c.safety), "\n", j)
  }

  /** Item `i` of the principle list sits in the laid-out prompt at its
      offset in the list shifted by the header. */
  lemma PrincipleInLayout(header: string, xs: seq<string>, safetyHeader: string, safety: string, behavior: string, i: nat)
    requires i < |xs|
    ensures OccursAt(Layout(header, Join(xs, "\n"), safetyHeader, safety, behavior), xs[i], |header| + JoinOffset(xs, "\n", i))
  {
    var list := Join(xs, "\n");
    JoinAt(xs, "\n", i);
    OccursAtShift(header, list, safetyHeader + safety + behavior, xs[i], JoinOffset(xs, "\n", i));
    assert Layout(header, list, safetyHeader, safety, behavior) == header + list + (safetyHeader + safety + behavior);
  }

  /** The safety header, and item `j` of the safety list after it, sit in the
      laid-out prompt right after the principle list. */
  lemma SafetyInLayout(header: string, principles: string, safetyHeader: string, xs: seq<string>, behavior: string, j: nat)
    requires j < |xs|
    ensures var s := Layout(header, principles, safetyHeader, Join(xs, "\n"), behavior);
      && OccursAt(s, safetyHeader, |header| + |principles|)
      && OccursAt(s, xs[j], |header| + |principles| + |safetyHeader| + JoinOffset(xs, "\n", j))
  {
    var list := Join(xs, "\n");
    SafetyHeaderInLayout(header + principles, safetyHeader, list, behavior);
    JoinAt(xs, "\n", j);
    SafetyItemInLayout(header + principles + safetyHeader, list, behavior, xs[j], JoinOffset(xs, "\n", j));
  }

  /** The safety header sits right after what precedes it. */
  lemma SafetyHeaderInLayout(pre: string, safetyHeader: string, list: string, behavior: string)
    ensures OccursAt(pre + safetyHeader + list + behavior, safetyHeader, |pre|)
  {
    assert OccursAt(safetyHeader, safetyHeader, 0);
    OccursAtPrepend(pre, safetyHeader, safetyHeader, 0);
    OccursAtAppend(pre + safetyHeader, list, safetyHeader, |pre|);
    OccursAtAppend(pre + safetyHeader + list, behavior, safetyHeader, |pre|);
  }

  /** An item at offset `k` of the safety list sits at that offset after
      what precedes the list. */
  lemma SafetyItemInLayout(pre: string, list: string, behavior: string, item: string, k: int)
    requires OccursAt(list, item, k)
    ensures OccursAt(pre + list + behavior, item, |pre| + k)
  {
    OccursAtShift(pre, list, behavior, item, k);
  }

  /** Every principle appears as a bullet, in array order, and before the
      safety-rules header. */
  lemma PrincipleInPrompt(c: Charter, i: nat)
    requires i < |c.principles|
    ensures OccursAt(PromptBody(c), "- " + c.principles[i], PrincipleOffset(c, i))
    ensures i + 1 < |c.principles| ==> PrincipleOffset(c, i) < PrincipleOffset(c, i + 1)
    ensures PrincipleOffset(c, i) + |"- " + c.principles[i]| <= SafetyHeaderOffset(c)
  {
    JoinAt(Bullets(c.principles), "\n", i);
    PrincipleInLayout(PromptHeader, Bullets(c.principles), SafetyHeader, Join(Bullets(c.safety), "\n"), GeneralBehavior, i);
  }

  /** The safety-rules header follows the principles, and every safety rule
      appears as a bullet after it, in array order. */
  lemma SafetyRuleInPrompt(c: Charter, j: nat)
    requires j < |c.safety|
    ensures OccursAt(PromptBody(c), "\n\nSafety Rules:\n", SafetyHeaderOffset(c))
    ensures OccursAt(PromptBody(c), "- " + c.safety[j], SafetyRuleOffset(c, j))
    ensures SafetyHeaderOffset(c) + |SafetyHeader| <= SafetyRuleOffset(c, j)
    ensures j + 1 < |c.safety| ==> SafetyRuleOffset(c, j) < SafetyRuleOffset(c, j + 1)
  {
    JoinAt(Bullets(c.safety), "\n", j);
    SafetyInLayout(PromptHeader, Join(Bullets(c.principles), "\n"), SafetyHeader, Bullets(c.safety), GeneralBehavior, j);
  }
}
