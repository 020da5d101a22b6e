/** `processQuery`, the Cortex runtime's answer to one query
    (src/cortex/runtime/CortexRuntime.ts): pick a knowledge pack, ground the
    prompt in it, lay out the system block in its fixed order, prune and cap
    the history, serialise, and vet the engine's answer. The engine call and
    the pack discovery are inputs: the packs on disk are a parameter, and the
    engine's outcome is given for the request the runtime makes. */
module Runtime {
  import opened Wrappers
  import opened Text
  import opened PromptFormat
  import opened PackManager
  import opened Constitution
  import opened Validation

  // ---------------------------------------------------------------------------
  // Splitting on a space

  /** `s.split(sep)` for a one-character separator: the pieces between the
      separators, in order (an empty text is one empty piece). */
  function Split(s: string, sep: char): (r: seq<string>)
    ensures |r| > 0
    decreases |s|
  {
    if |s| == 0 then [""]
    else
      var rest := Split(s[1..], sep);
      if s[0] == sep then [""] + rest
      else [[s[0]] + rest[0]] + rest[1..]
  }

  /** The number of times `c` occurs in `s`. */
  function Count(s: string, c: char): nat
    decreases |s|
  {
    if |s| == 0 then 0 else (if s[0] == c then 1 else 0) + Count(s[1..], c)
  }

  /** Splitting gives one piece more than there are separators. */
  lemma {:induction false} SplitCount(s: string, sep: char)
    ensures |Split(s, sep)| == Count(s, sep) + 1
    decreases |s|
  {
    if |s| > 0 {
      SplitCount(s[1..], sep);
    }
  }

  /** Joining the pieces with the separator gives back the text. */
  lemma {:induction false} SplitJoin(s: string, sep: char)
    ensures Join(Split(s, sep), [sep]) == s
    decreases |s|
  {
    if |s| > 0 {
      var rest := Split(s[1..], sep);
      SplitJoin(s[1..], sep);
      if s[0] == sep {
        JoinCons("", rest, [sep]);
        assert s == [sep] + s[1..];
      } else {
        assert [rest[0]] + rest[1..] == rest;
        JoinGlue(s[0], rest[0], rest[1..], [sep]);
        assert s == [s[0]] + s[1..];
      }
    }
  }

  /** No piece holds the separator. */
  lemma {:induction false} SplitPiecesFree(s: string, sep: char)
    ensures forall i :: 0 <= i < |Split(s, sep)| ==> sep !in Split(s, sep)[i]
    decreases |s|
  {
    if |s| > 0 {
      var rest := Split(s[1..], sep);
      SplitPiecesFree(s[1..], sep);
      var r := Split(s, sep);
      if s[0] != sep {
        assert r[0] == [s[0]] + rest[0];
        assert forall i :: 1 <= i < |r| ==> r[i] == rest[i];
      } else {
        assert forall i :: 1 <= i < |r| ==> r[i] == rest[i - 1];
      }
    }
  }

  /** A character glued to the front of the first item is glued to the front
      of the joined text. */
  lemma JoinGlue(c: char, x: string, xs: seq<string>, sep: string)
    ensures Join([[c] + x] + xs, sep) == [c] + Join([x] + xs, sep)
  {
    JoinCons([c] + x, xs, sep);
    JoinCons(x, xs, sep);
    if |xs| > 0 {
      AppendAssoc([c] + x, sep, Join(xs, sep));
      AppendAssoc([c], x, sep + Join(xs, sep));
      AppendAssoc(x, sep, Join(xs, sep));
    }
  }

  lemma JoinCons(x: string, xs: seq<string>, sep: string)
    ensures Join([x] + xs, sep) == if |xs| == 0 then x else x + sep + Join(xs, sep)
  {
    assert ([x] + xs)[1..] == xs;
  }

  // ---------------------------------------------------------------------------
  // Choosing a pack

  /** `likelyFollowUp`: a short input, or one of fewer than five
      space-separated pieces. */
  predicate LikelyFollowUp(input: string) {
    |input| < 25 || |Split(input, ' ')| < 5
  }

  /** `directMatch`: the keyword match for inputs longer than three characters. */
  function DirectMatch(packs: seq<KnowledgePack>, input: string): Option<KnowledgePack> {
    if |input| > 3 then FindPackByQuery(packs, input) else None
  }

  /** The keyword match of each history turn, in order. */
  function TurnMatches(packs: seq<KnowledgePack>, history: seq<Message>): (ms: seq<Option<KnowledgePack>>)
    ensures |ms| == |history|
    ensures forall i :: 0 <= i < |history| ==> ms[i] == FindPackByQuery(packs, history[i].content)
  {
    seq(|history|, i requires 0 <= i < |history| => FindPackByQuery(packs, history[i].content))
  }

  /** Where the last present value of `ms` sits, or -1 when there is none. */
  function NewestIndex<T>(ms: seq<Option<T>>): (k: int)
    ensures -1 <= k < |ms|
    ensures k >= 0 ==> ms[k].Some?
    ensures forall j :: k < j < |ms| ==> ms[j].None?
    decreases |ms|
  {
    if |ms| == 0 then -1
    else if ms[|ms| - 1].Some? then |ms| - 1
    else
      var init := ms[..|ms| - 1];
      assert forall j :: 0 <= j < |init| ==> ms[j] == init[j];
      NewestIndex(init)
  }

  /** The last present value of `ms`. */
  function Newest<T>(ms: seq<Option<T>>): (r: Option<T>)
    ensures r.None? <==> forall i :: 0 <= i < |ms| ==> ms[i].None?
    ensures r.Some? ==> exists i :: 0 <= i < |ms| && r == ms[i] && forall j :: i < j < |ms| ==> ms[j].None?
  {
    var k := NewestIndex(ms);
    if k >= 0 then ms[k] else None
  }

  /** One step back from the end of a prefix. */
  lemma NewestStep<T>(ms: seq<Option<T>>, i: nat)
    requires i < |ms|
    ensures Newest(ms[..i + 1]) == if ms[i].Some? then ms[i] else Newest(ms[..i])
  {
    var prefix := ms[..i + 1];
    assert prefix[|prefix| - 1] == ms[i];
    assert prefix[..|prefix| - 1] == ms[..i];
    var k := NewestIndex(ms[..i]);
    assert k >= 0 ==> prefix[k] == ms[..i][k];
  }

  /** The keyword match of the newest history turn that has one: none iff no
      turn has one, and otherwise turn `i`'s match, with no match after `i`. */
  function NewestMatch(packs: seq<KnowledgePack>, history: seq<Message>): (r: Option<KnowledgePack>)
    ensures var ms := TurnMatches(packs, history);
      && (r.None? <==> forall i :: 0 <= i < |ms| ==> ms[i].None?)
      && (r.Some? ==> exists i :: 0 <= i < |ms| && r == ms[i] && forall j :: i < j < |ms| ==> ms[j].None?)
  {
    Newest(TurnMatches(packs, history))
  }

  /** The pack `processQuery` settles on: the direct match; else the pack
      declared for the class and subject; else, for a likely follow-up with a
      history, the newest history turn's match. */
  function SelectPack(packs: seq<KnowledgePack>, userClass: Option<string>, subject: Option<string>,
                      input: string, history: seq<Message>): Option<KnowledgePack>
  {
    var declared := FindPack(packs, userClass, subject);
    var direct := DirectMatch(packs, input);
    if direct.Some? then direct
    else if declared.None? && |history| > 0 && LikelyFollowUp(input) then NewestMatch(packs, history)
    else declared
  }

  /** The backwards walk over the history, stopping at the first match. */
  method SearchHistory(packs: seq<KnowledgePack>, history: seq<Message>) returns (pack: Option<KnowledgePack>)
    ensures pack == NewestMatch(packs, history)
  {
    ghost var ms := TurnMatches(packs, history);
    pack := None;
    var i := |history| - 1;
    assert ms[..i + 1] == ms;
    while i >= 0
      invariant -1 <= i < |history|
      invariant Newest(ms) == Newest(ms[..i + 1])
      decreases i
    {
      var match_ := FindPackByQuery(packs, history[i].content);
      NewestStep(ms, i);
      if match_.Some? {
        pack := match_;
        break;
      }
      i := i - 1;
    }
    assert pack.None? ==> ms[..i + 1] == [];
  }

  /** The selection steps of `processQuery`, reassigning `pack`. */
  method ChoosePack(packs: seq<KnowledgePack>, userClass: Option<string>, subject: Option<string>,
                    input: string, history: seq<Message>) returns (pack: Option<KnowledgePack>)
    ensures pack == SelectPack(packs, userClass, subject, input, history)
  {
    pack := FindPack(packs, userClass, subject);
    var directMatch := if |input| > 3 then FindPackByQuery(packs, input) else None;
    if directMatch.Some? {
      pack := directMatch;
    } else if pack.None? && |history| > 0 {
      var likelyFollowUp := |input| < 25 || |Split(input, ' ')| < 5;
      if likelyFollowUp {
        pack := SearchHistory(packs, history);
      }
    }
  }

  /** An input longer than three characters that names some pack's keyword
      gets the first such pack, whatever pack is declared for the class. */
  lemma DirectMatchWins(packs: seq<KnowledgePack>, userClass: Option<string>, subject: Option<string>,
                        input: string, history: seq<Message>, k: nat)
    requires |input| > 3 && k < |packs| && KeywordHit(packs[k], input)
    ensures SelectPack(packs, userClass, subject, input, history) == FindPackByQuery(packs, input)
    ensures FindPackByQuery(packs, input).Some?
  {
  }

  /** An input of at most three characters never matches directly: with a
      declared pack, that pack is used even when the input names a keyword. */
  lemma ShortInputKeepsDeclared(packs: seq<KnowledgePack>, userClass: Option<string>, subject: Option<string>,
                                input: string, history: seq<Message>)
    requires |input| <= 3 && FindPack(packs, userClass, subject).Some?
    ensures DirectMatch(packs, input).None?
    ensures SelectPack(packs, userClass, subject, input, history) == FindPack(packs, userClass, subject)
  {
  }

  /** The history decides only when nothing else does: no direct match, no
      declared pack, a non-empty history and a likely follow-up; otherwise a
      query with neither match gets no pack, whether it is no follow-up or
      there is no history to search. */
  lemma HistoryOnlyAsFallback(packs: seq<KnowledgePack>, userClass: Option<string>, subject: Option<string>,
                              input: string, history: seq<Message>)
    requires DirectMatch(packs, input).None?
    ensures var p := SelectPack(packs, userClass, subject, input, history);
      && (FindPack(packs, userClass, subject).Some? ==> p == FindPack(packs, userClass, subject))
      && (FindPack(packs, userClass, subject).None? && |history| > 0 && LikelyFollowUp(input) ==> p == NewestMatch(packs, history))
      && (FindPack(packs, userClass, subject).None? && !LikelyFollowUp(input) ==> p.None?)
      && (FindPack(packs, userClass, subject).None? && |history| == 0 ==> p.None?)
  {
  }

  /** An input is a likely follow-up when it is short or has fewer than four
      spaces. */
  lemma FollowUpBySpaces(input: string)
    ensures LikelyFollowUp(input) <==> |input| < 25 || Count(input, ' ') < 4
  {
    SplitCount(input, ' ');
  }

  // ---------------------------------------------------------------------------
  // Grounding

  const TruncationMarker: string := "... [truncated]"

  /** Bloat protection: a text longer than `limit` is cut to its first
      `limit` characters and marked as truncated. */
  function Cap(text: string, limit: nat): (r: string)
    ensures |text| <= limit ==> r == text
    ensures |text| > limit ==>
      |r| == limit + |TruncationMarker| && r[..limit] == text[..limit] && EndsWith(r, TruncationMarker)
  {
    if |text| > limit then text[..limit] + TruncationMarker else text
  }

  /** The words that ask for the detailed reference. */
  const DetailKeywords: seq<string> := ["explain", "detail", "describe", "notes", "process", "syllabus", "define"]

  /** The words that ask to resume an answer. */
  const ResumeKeywords: seq<string> := ["resume", "continue", "go on", "tell me more", "keep going"]

  predicate NeedsDetail(input: string) {
    exists k | k in DetailKeywords :: Contains(Lower(input), k)
  }

  predicate IsResume(input: string) {
    exists k | k in ResumeKeywords :: Contains(Lower(input), k)
  }

  /** `pack?.compactContent || ""`, capped at 800 characters. */
  function CompactGrounding(pack: Option<KnowledgePack>): (r: string)
    ensures pack.None? || pack.value.compactContent.None? ==> r == ""
    ensures pack.Some? && pack.value.compactContent.Some? ==>
      var c := pack.value.compactContent.value;
      (|c| <= 800 ==> r == c) && (|c| > 800 ==> r == c[..800] + TruncationMarker)
  {
    Cap(if pack.Some? && pack.value.compactContent.Some? then pack.value.compactContent.value else "", 800)
  }

  /** The pack's section for the input, capped at 1500 characters, when a
      pack is chosen and the input asks for detail; else nothing. */
  function DetailedGrounding(pack: Option<KnowledgePack>, input: string): (r: string)
    ensures r != "" ==> pack.Some? && NeedsDetail(input)
    ensures |r| <= 1500 + |TruncationMarker|
    ensures pack.Some? && NeedsDetail(input) ==>
      var section := ExtractRelevantSection(pack.value.knowledgeContent, input);
      (|section| <= 1500 ==> r == section) && (|section| > 1500 ==> r == section[..1500] + TruncationMarker)
  {
    if pack.Some? && NeedsDetail(input) then Cap(ExtractRelevantSection(pack.value.knowledgeContent, input), 1500)
    else ""
  }

  /** The grounding steps of `processQuery`, reassigning the two texts. */
  method Ground(pack: Option<KnowledgePack>, input: string) returns (compactGrounding: string, detailedGrounding: string)
    ensures compactGrounding == CompactGrounding(pack)
    ensures detailedGrounding == DetailedGrounding(pack, input)
  {
    var needsDetail := NeedsDetail(input);
    compactGrounding := if pack.Some? && pack.value.compactContent.Some? then pack.value.compactContent.value else "";
    detailedGrounding := "";
    if pack.Some? && needsDetail {
      detailedGrounding := ExtractRelevantSection(pack.value.knowledgeContent, input);
      if |detailedGrounding| > 1500 {
        detailedGrounding := detailedGrounding[..1500] + TruncationMarker;
      }
    }
    if |compactGrounding| > 800 {
      compactGrounding := compactGrounding[..800] + TruncationMarker;
    }
  }

  // ---------------------------------------------------------------------------
  // The system block

  const SafetyConstraintLines: seq<string> := [
    "SAFETY CONSTRAINTS:",
    "- Do NOT provide medical diagnoses.",
    "- Do NOT generate code for cyberattacks.",
    "- If unsure, stick to the provided knowledge."]

  const CompactHeading: string := "SCOPE CONTEXT (Compact):"
  const DetailedHeading: string := "DETAILED REFERENCE:"

  const ContinuationLines: seq<string> := [
    "CONTINUATION INSTRUCTION:",
    // written in two parts so that the verifier can read its last character
    "The user has asked you to resume or continue. Look at your LAST message in the history. "
    + "DO NOT repeat the parts already written. Start exactly where you stopped to complete the answer."]

  const Fallback: string :=
    "CONSTITUTIONAL FALLBACK:\n"
    + "If the user's question is unrelated to the provided knowledge, answer generally based on the Cortex Constitution principles."

  /** `safetyHeader`, the trimmed template: exactly its lines. */
  function SafetyConstraints(): (r: string)
    ensures r == Join(SafetyConstraintLines, "\n")
  {
    assert SafetyConstraintLines[0][0] == 'S';
    assert SafetyConstraintLines[3][|SafetyConstraintLines[3]| - 1] == '.';
    TrimmedTemplate(SafetyConstraintLines);
    Trim("\n" + Join(SafetyConstraintLines, "\n") + "\n")
  }

  /** A grounding text under its heading, trimmed; nothing for an empty
      grounding. */
  function Injection(heading: string, grounding: string): (r: string)
    ensures grounding == "" ==> r == ""
  {
    if grounding == "" then "" else Trim("\n" + (heading + "\n" + grounding) + "\n")
  }

  /** A grounding that ends in a visible character comes out whole, on the
      line after its heading. */
  lemma InjectionWhole(heading: string, grounding: string)
    requires |heading| > 0 && !IsWhitespace(heading[0])
    requires grounding != "" && !IsWhitespace(grounding[|grounding| - 1])
    ensures Injection(heading, grounding) == heading + "\n" + grounding
  {
    var body := heading + "\n" + grounding;
    assert body[0] == heading[0];
    assert body[|body| - 1] == grounding[|grounding| - 1];
    TrimNewlineFramed(body);
  }

  function CompactInjection(grounding: string): string {
    Injection(CompactHeading, grounding)
  }

  function DetailedInjection(grounding: string): string {
    Injection(DetailedHeading, grounding)
  }

  /** `resumeInstruction`: the trimmed continuation template when resuming,
      else nothing. */
  function ResumeInstruction(isResume: bool): (r: string)
    ensures isResume ==> r == Join(ContinuationLines, "\n")
    ensures !isResume ==> r == ""
  {
    if isResume then
      assert ContinuationLines[0][0] == 'C';
      assert ContinuationLines[1][|ContinuationLines[1]| - 1] == '.';
      TrimmedTemplate(ContinuationLines);
      Trim("\n" + Join(ContinuationLines, "\n") + "\n")
    else ""
  }

  /** The system block's parts in their fixed order, each pair separated by
      a blank line; empty parts leave their blank lines in place. */
  function SystemSections(constitution: string, safety: string, compact: string, detailed: string, resume: string,
                          fallback: string): string {
    constitution + Between(safety, compact, detailed, resume) + fallback
  }

  /** The parts between the constitution and the fallback, with the blank
      lines around them. */
  function Between(safety: string, compact: string, detailed: string, resume: string): string {
    "\n\n" + safety + "\n\n" + compact + "\n\n" + detailed + "\n\n" + resume + "\n\n"
  }

  /** `systemPrompt`, the trimmed template, laid out around the
      constitution's prompt text, the safety constraints, the three optional
      parts and the fallback. When the constitution opens and the fallback
      closes with a visible character the trim leaves every part whole, in
      this order. */
  function SystemPrompt(constitution: string, safety: string, compact: string, detailed: string, resume: string,
                        fallback: string): (r: string)
    ensures OpensVisibly(constitution) && ClosesVisibly(fallback) ==>
      r == SystemSections(constitution, safety, compact, detailed, resume, fallback)
  {
    if OpensVisibly(constitution) && ClosesVisibly(fallback) then
      FramedTrim(constitution, Between(safety, compact, detailed, resume), fallback);
      Trim("\n" + SystemSections(constitution, safety, compact, detailed, resume, fallback) + "\n")
    else Trim("\n" + SystemSections(constitution, safety, compact, detailed, resume, fallback) + "\n")
  }

  predicate ClosesVisibly(s: string) {
    |s| > 0 && !IsWhitespace(s[|s| - 1])
  }

  /** A constitution text that opens with a visible character opens the
      system block. */
  predicate OpensVisibly(constitution: string) {
    |constitution| > 0 && !IsWhitespace(constitution[0])
  }

  /** The constitution's prompt opens with its title. */
  lemma ConstitutionOpensVisibly()
    ensures OpensVisibly(GetConstitutionPrompt())
  {
    var c := GetConstitutionPrompt();
    assert c[0] == c[..27][0];
  }

  /** A text laid out as `first + middle + last` opens with `first` and
      closes with `last`. */
  lemma SectionsEnds(first: string, middle: string, last: string)
    requires |last| > 0
    ensures var s := first + middle + last;
      && StartsWith(s, first) && EndsWith(s, last) && s[|s| - 1] == last[|last| - 1]
      && (|first| > 0 ==> s[0] == first[0])
  {
    var s := first + middle + last;
    assert s[..|first|] == first;
    assert s[|s| - |last|..] == last;
  }

  /** Trimming the template's framing line breaks leaves a text laid out as
      `first + middle + last` whole when `first` opens and `last` closes with
      a visible character. */
  lemma FramedTrim(first: string, middle: string, last: string)
    requires |first| > 0 && !IsWhitespace(first[0])
    requires |last| > 0 && !IsWhitespace(last[|last| - 1])
    ensures Trim("\n" + (first + middle + last) + "\n") == first + middle + last
  {
    SectionsEnds(first, middle, last);
    TrimNewlineFramed(first + middle + last);
  }

  /** The fallback instruction ends in a full stop. */
  lemma FallbackEnds()
    ensures ClosesVisibly(Fallback)
  {
  }

  /** The system block opens with the constitution and closes with the
      fallback instruction. */
  lemma SystemPromptFrame(constitution: string, safety: string, compact: string, detailed: string, resume: string,
                          fallback: string)
    requires OpensVisibly(constitution) && ClosesVisibly(fallback)
    ensures StartsWith(SystemPrompt(constitution, safety, compact, detailed, resume, fallback), constitution)
    ensures EndsWith(SystemPrompt(constitution, safety, compact, detailed, resume, fallback), fallback)
  {
    SectionsEnds(constitution, Between(safety, compact, detailed, resume), fallback);
  }

  /** The compact grounding follows the constitution, the safety constraints
      and their blank lines. */
  lemma CompactInSections(constitution: string, safety: string, compact: string, detailed: string, resume: string,
                          fallback: string)
    ensures OccursAt(SystemSections(constitution, safety, compact, detailed, resume, fallback), compact,
                     |constitution| + |safety| + 4)
  {
    var head := constitution + "\n\n" + safety + "\n\n";
    var rest := "\n\n" + detailed + "\n\n" + resume + "\n\n" + fallback;
    assert SystemSections(constitution, safety, compact, detailed, resume, fallback) == head + compact + rest;
    OccursBetween(head, compact, rest);
  }

  /** A compact injection sits whole in the system block, right after the
      constitution, the safety constraints and their blank lines. */
  lemma CompactInSystem(constitution: string, safety: string, compact: string, detailed: string, resume: string,
                        fallback: string)
    requires OpensVisibly(constitution) && ClosesVisibly(fallback)
    ensures OccursAt(SystemPrompt(constitution, safety, compact, detailed, resume, fallback), compact,
                     |constitution| + |safety| + 4)
  {
    CompactInSections(constitution, safety, compact, detailed, resume, fallback);
  }

  /** A pack's compact text that ends in a visible character, and is at
      most 800 characters long, is injected whole, under its heading. */
  lemma CompactContentInjected(pack: KnowledgePack)
    requires pack.compactContent.Some? && 0 < |pack.compactContent.value| <= 800
    requires !IsWhitespace(pack.compactContent.value[|pack.compactContent.value| - 1])
    ensures CompactInjection(CompactGrounding(Some(pack))) == CompactHeading + "\n" + pack.compactContent.value
  {
    assert CompactHeading[0] == 'S';
    InjectionWhole(CompactHeading, pack.compactContent.value);
  }

  // ---------------------------------------------------------------------------
  // Generation parameters

  /** The parameters handed to the engine. */
  datatype Params = Params(temperature: real, topP: real, topK: int, maxTokens: int)

  /** The caller's `generationParams`; an absent field is `None`. */
  datatype Overrides = Overrides(temperature: Option<real>, maxTokens: Option<int>)

  /** `finalParams`: the defaults, each replaced by the caller's field when
      one is given. */
  function FinalParams(longAnswer: bool, o: Overrides): (p: Params)
    ensures p.topP == 0.9 && p.topK == 40
    ensures o.temperature.None? ==> p.temperature == 0.1
    ensures o.temperature.Some? ==> p.temperature == o.temperature.value
    ensures o.maxTokens.None? ==> p.maxTokens == (if longAnswer then 256 else 100)
    ensures o.maxTokens.Some? ==> p.maxTokens == o.maxTokens.value
  {
    var defaults := Params(0.1, 0.9, 40, if longAnswer then 256 else 100);
    defaults.(temperature := if o.temperature.Some? then o.temperature.value else defaults.temperature,
              maxTokens := if o.maxTokens.Some? then o.maxTokens.value else defaults.maxTokens)
  }

  /** Overriding one field leaves the other at what it would have been. */
  lemma OverridesIndependent(longAnswer: bool, o: Overrides)
    ensures FinalParams(longAnswer, o).temperature == FinalParams(longAnswer, o.(maxTokens := None)).temperature
    ensures FinalParams(longAnswer, o).maxTokens == FinalParams(longAnswer, o.(temperature := None)).maxTokens
  {
  }

  // ---------------------------------------------------------------------------
  // History

  /** `history.slice(-n)` for a positive `n`: the last `n` turns, or all. */
  function LastTurns(history: seq<Message>, n: nat): (r: seq<Message>)
    ensures |r| == if |history| <= n then |history| else n
    ensures r == history[|history| - |r|..]
  {
    if |history| <= n then history else history[|history| - n..]
  }

  function PruningLimit(packActive: bool): nat { if packActive then 2 else 4 }

  function CharCap(packActive: bool): nat { if packActive then 300 else 500 }

  /** One turn's content after the cap: unchanged up to the cap; beyond it,
      the tail of a resumed answer after `... `, or the head and a marker. */
  function CapTurn(content: string, cap: nat, resumeTail: bool): (r: string)
    ensures |content| <= cap ==> r == content
    ensures |content| > cap && !resumeTail ==>
      |r| == cap + 12 && r[..cap] == content[..cap] && EndsWith(r, " [truncated]")
    ensures |content| > cap && resumeTail ==>
      && |r| == 4 + (if |content| <= 800 then |content| else 800)
      && r[..4] == "... "
      && r[4..] == content[|content| - (|r| - 4)..]
  {
    if |content| > cap then
      if resumeTail then "... " + TakeLast(content, 800) else Take(content, cap) + " [truncated]"
    else content
  }

  /** Whether turn `i` of the pruned history keeps its tail: the last turn,
      an assistant's, while resuming. */
  predicate KeepsTail(pruned: seq<Message>, i: int, isResume: bool)
    requires 0 <= i < |pruned|
  {
    isResume && i == |pruned| - 1 && pruned[i].role == Assistant
  }

  /** The pruned history with every turn capped. */
  function CappedTurns(pruned: seq<Message>, cap: nat, isResume: bool): (r: seq<Message>)
    ensures |r| == |pruned|
    ensures forall i :: 0 <= i < |r| ==>
      r[i] == Message(pruned[i].role, CapTurn(pruned[i].content, cap, KeepsTail(pruned, i, isResume)))
  {
    seq(|pruned|, i requires 0 <= i < |pruned| =>
      Message(pruned[i].role, CapTurn(pruned[i].content, cap, KeepsTail(pruned, i, isResume))))
  }

  /** Only the last turn can keep its tail; every earlier turn over the cap
      keeps its head. */
  lemma OnlyLastTurnKeepsTail(pruned: seq<Message>, cap: nat, isResume: bool, i: nat)
    requires i + 1 < |pruned| && |pruned[i].content| > cap
    ensures var c := CappedTurns(pruned, cap, isResume)[i].content;
      |c| == cap + 12 && c[..cap] == pruned[i].content[..cap] && EndsWith(c, " [truncated]")
  {
  }

  // ---------------------------------------------------------------------------
  // Serialisation

  const Llama3Markup: Markup := Markup(
    "<|begin_of_text|>" + "<|start_header_id|>system<|end_header_id|>\n\n", "<|eot_id|>\n\n",
    "<|start_header_id|>user<|end_header_id|>\n\n", "<|eot_id|>",
    "<|start_header_id|>assistant<|end_header_id|>\n\n", "<|eot_id|>",
    "<|start_header_id|>user<|end_header_id|>\n\n", "<|eot_id|>" + "<|start_header_id|>assistant<|end_header_id|>\n\n")

  const PlainMarkup: Markup := Markup(
    "System: ", "\n\n",
    "User: ", "\n",
    "Assistant: ", "\n",
    "User: ", "\nAssistant:")

  /** `isLlama3`: only the spelling with a space counts. */
  predicate IsLlama3(modelName: string) {
    Contains(Lower(modelName), "llama 3")
  }

  function RuntimeMarkup(modelName: string): Markup {
    if IsLlama3(modelName) then Llama3Markup else PlainMarkup
  }

  /** The `forEach` over the pruned history: each turn capped, wrapped and
      appended, then the input block. */
  method RenderHistory(mk: Markup, system: string, pruned: seq<Message>, cap: nat, isResume: bool, input: string)
    returns (prompt: string)
    ensures prompt == Render(mk, system, CappedTurns(pruned, cap, isResume), input)
  {
    ghost var turns := CappedTurns(pruned, cap, isResume);
    prompt := mk.systemOpen + system + mk.systemClose;
    for idx := 0 to |pruned|
      invariant prompt == Head(mk, system) + Turns(mk, turns[..idx])
    {
      var msg := pruned[idx];
      var content := CapTurn(msg.content, cap, isResume && idx == |pruned| - 1 && msg.role == Assistant);
      var turn := Turn(mk, Message(msg.role, content));
      CappedStep(mk, pruned, cap, isResume, idx);
      AppendAssoc(Head(mk, system), Turns(mk, turns[..idx]), turn);
      prompt := prompt + turn;
    }
    assert turns[..|pruned|] == turns;
    prompt := prompt + (mk.inputOpen + input + mk.inputClose);
  }

  /** One round of the loop: the next capped turn, wrapped, extends the
      serialised history. */
  lemma CappedStep(mk: Markup, pruned: seq<Message>, cap: nat, isResume: bool, idx: nat)
    requires idx < |pruned|
    ensures var turns := CappedTurns(pruned, cap, isResume);
      var tail := isResume && idx == |pruned| - 1 && pruned[idx].role == Assistant;
      Turns(mk, turns[..idx + 1])
        == Turns(mk, turns[..idx]) + Turn(mk, Message(pruned[idx].role, CapTurn(pruned[idx].content, cap, tail)))
  {
    TurnsSnoc(mk, CappedTurns(pruned, cap, isResume), idx);
  }

  // ---------------------------------------------------------------------------
  // The query

  datatype RuntimeOptions = RuntimeOptions(
    userClass: Option<string>, subject: Option<string>, modelName: string,
    history: seq<Message>, generationParams: Overrides)

  /** What the runtime hands the engine. */
  datatype Request = Request(prompt: string, params: Params)

  /** What the engine did with the request. */
  datatype EngineOutcome = Generated(text: string) | Threw

  datatype RuntimeResult = RuntimeResult(response: string, packUsed: Option<string>)

  const InternalError: string := "An internal error occurred in the Cortex Runtime."

  function PackId(pack: Option<KnowledgePack>): Option<string> {
    if pack.Some? then Some(pack.value.id) else None
  }

  /** The system block for a chosen pack and input. */
  function SystemFor(constitution: string, pack: Option<KnowledgePack>, input: string): string {
    SystemPrompt(constitution, SafetyConstraints(), CompactInjection(CompactGrounding(pack)),
                 DetailedInjection(DetailedGrounding(pack, input)), ResumeInstruction(IsResume(input)), Fallback)
  }

  /** The history turns serialised for a chosen pack: the last two with a
      pack, the last four without, each capped. */
  function TurnsFor(pack: Option<KnowledgePack>, input: string, history: seq<Message>): seq<Message> {
    CappedTurns(LastTurns(history, PruningLimit(pack.Some?)), CharCap(pack.Some?), IsResume(input))
  }

  /** The request `processQuery` makes of the engine once `pack` is chosen,
      for the constitution's prompt text `constitution`. */
  function RequestWith(constitution: string, pack: Option<KnowledgePack>, input: string, o: RuntimeOptions): Request {
    Request(Render(RuntimeMarkup(o.modelName), SystemFor(constitution, pack, input), TurnsFor(pack, input, o.history), input),
            FinalParams(NeedsDetail(input) || IsResume(input), o.generationParams))
  }

  /** The request `processQuery` makes of the engine. */
  function RequestFor(constitution: string, input: string, o: RuntimeOptions, packs: seq<KnowledgePack>): Request {
    RequestWith(constitution, SelectPack(packs, o.userClass, o.subject, input, o.history), input, o)
  }

  /** What `processQuery` answers for the engine's outcome: a rejected text is
      replaced by the hard refusal, an accepted one is trimmed, and a failure
      becomes the internal-error text with no pack. */
  function Respond(outcome: EngineOutcome, pack: Option<KnowledgePack>): (r: RuntimeResult)
    ensures outcome.Threw? ==> r == RuntimeResult(InternalError, None)
    ensures outcome.Generated? && !ValidateOutput(outcome.text).isValid ==>
      r == RuntimeResult(HardRefusal, PackId(pack))
    ensures outcome.Generated? && ValidateOutput(outcome.text).isValid ==>
      r == RuntimeResult(Trim(outcome.text), PackId(pack))
  {
    match outcome
    case Threw => RuntimeResult(InternalError, None)
    case Generated(text) =>
      var validation := ValidateOutput(text);
      if !validation.isValid then RuntimeResult(GetHardRefusal(validation.reason), PackId(pack))
      else RuntimeResult(Trim(text), PackId(pack))
  }

  /** The `try` around the engine call: the answer for what the engine did. */
  method Vet(outcome: EngineOutcome, pack: Option<KnowledgePack>) returns (result: RuntimeResult)
    ensures result == Respond(outcome, pack)
  {
    match outcome
    case Threw =>
      result := RuntimeResult(InternalError, None);
    case Generated(response) =>
      var validation := ValidateOutput(response);
      if !validation.isValid {
        result := RuntimeResult(GetHardRefusal(validation.reason), PackId(pack));
      } else {
        result := RuntimeResult(Trim(response), PackId(pack));
      }
  }

  /** The grounding and system-prompt steps of `processQuery`. */
  method ComposeSystem(constitution: string, pack: Option<KnowledgePack>, input: string) returns (systemPrompt: string)
    ensures systemPrompt == SystemFor(constitution, pack, input)
  {
    var isResume := IsResume(input);
    var compactGrounding, detailedGrounding := Ground(pack, input);
    systemPrompt := SystemPrompt(constitution, SafetyConstraints(), CompactInjection(compactGrounding),
                                 DetailedInjection(detailedGrounding), ResumeInstruction(isResume), Fallback);
  }

  /** The steps of `processQuery` after the pack is chosen: grounding, the
      system prompt, the parameters, pruning and serialisation. */
  method Compose(constitution: string, pack: Option<KnowledgePack>, input: string, options: RuntimeOptions)
    returns (request: Request)
    ensures request == RequestWith(constitution, pack, input, options)
  {
    var needsDetail := NeedsDetail(input);
    var isResume := IsResume(input);
    var systemPrompt := ComposeSystem(constitution, pack, input);
    var finalParams := FinalParams(needsDetail || isResume, options.generationParams);
    var pruned := LastTurns(options.history, if pack.Some? then 2 else 4);
    var prompt := RenderHistory(RuntimeMarkup(options.modelName), systemPrompt, pruned,
                                if pack.Some? then 300 else 500, isResume, input);
    request := Request(prompt, finalParams);
  }

  /** `processQuery`: the request it makes of the engine, and its answer for
      what the engine did. */
  method ProcessQuery(input: string, options: RuntimeOptions, packs: seq<KnowledgePack>, outcome: EngineOutcome)
    returns (request: Request, result: RuntimeResult)
    ensures request == RequestFor(GetConstitutionPrompt(), input, options, packs)
    ensures result == Respond(outcome, SelectPack(packs, options.userClass, options.subject, input, options.history))
  {
    var pack := ChoosePack(packs, options.userClass, options.subject, input, options.history);
    request := Compose(GetConstitutionPrompt(), pack, input, options);
    result := Vet(outcome, pack);
  }

  // ---------------------------------------------------------------------------
  // Properties of the whole

  /** Every answer is the hard refusal, the internal-error text, or a text
      that itself passes validation: trimming an accepted text cannot bring
      a banned word into it. */
  lemma AnswerAlwaysVetted(outcome: EngineOutcome, pack: Option<KnowledgePack>)
    ensures var r := Respond(outcome, pack).response;
      r == HardRefusal || r == InternalError || ValidateOutput(r).isValid
  {
    if outcome.Generated? && ValidateOutput(outcome.text).isValid {
      TrimStaysValid(outcome.text);
    }
  }

  /** A text that passes validation still passes once trimmed. */
  lemma TrimStaysValid(text: string)
    requires ValidateOutput(text).isValid
    ensures ValidateOutput(Trim(text)).isValid
  {
    var before, after := TrimWithin(text);
    if !ValidateOutput(Trim(text)).isValid {
      InvalidPreservedByExtension(before, Trim(text), after);
    }
  }

  /** Two turns are sent with a pack and four without (or the whole history
      when it is shorter): the newest ones, in their original order, each
      with its role and its capped content; only the last one, an
      assistant's, keeps its tail while resuming. */
  lemma PrunedHistory(pack: Option<KnowledgePack>, input: string, history: seq<Message>)
    ensures var turns := TurnsFor(pack, input, history);
      var limit := if pack.Some? then 2 else 4;
      var newest := history[|history| - |turns|..];
      && |turns| == (if |history| <= limit then |history| else limit)
      && forall i :: 0 <= i < |turns| ==>
           turns[i] == Message(newest[i].role, CapTurn(newest[i].content, CharCap(pack.Some?),
                                                       IsResume(input) && i == |turns| - 1 && newest[i].role == Assistant))
  {
    PrunedTurns(history, PruningLimit(pack.Some?), CharCap(pack.Some?), IsResume(input));
  }

  /** The capped newest `limit` turns, one by one. */
  lemma PrunedTurns(history: seq<Message>, limit: nat, cap: nat, isResume: bool)
    ensures var turns := CappedTurns(LastTurns(history, limit), cap, isResume);
      var newest := history[|history| - |turns|..];
      && |turns| == (if |history| <= limit then |history| else limit)
      && forall i :: 0 <= i < |turns| ==>
           turns[i] == Message(newest[i].role, CapTurn(newest[i].content, cap,
                                                       isResume && i == |turns| - 1 && newest[i].role == Assistant))
  {
  }

  /** Capping the newest `limit` turns keeps their number and their roles. */
  lemma PrunedRoles(history: seq<Message>, limit: nat, cap: nat, isResume: bool)
    ensures var turns := CappedTurns(LastTurns(history, limit), cap, isResume);
      && |turns| <= limit
      && forall i :: 0 <= i < |turns| ==>
           turns[i].role == history[|history| - |turns| + i].role
  {
    var pruned := LastTurns(history, limit);
    CappedRoles(pruned, cap, isResume);
    SuffixRoles(history, pruned, CappedTurns(pruned, cap, isResume));
  }

  /** Turns that keep the roles of a suffix of the history have the roles of
      the history's last turns. */
  lemma SuffixRoles(history: seq<Message>, pruned: seq<Message>, turns: seq<Message>)
    requires |pruned| <= |history| && pruned == history[|history| - |pruned|..]
    requires |turns| == |pruned| && forall i :: 0 <= i < |turns| ==> turns[i].role == pruned[i].role
    ensures forall i :: 0 <= i < |turns| ==> turns[i].role == history[|history| - |turns| + i].role
  {
  }

  /** Capping keeps every turn's role. */
  lemma CappedRoles(pruned: seq<Message>, cap: nat, isResume: bool)
    ensures var turns := CappedTurns(pruned, cap, isResume);
      forall i :: 0 <= i < |turns| ==> turns[i].role == pruned[i].role
  {
  }
}
