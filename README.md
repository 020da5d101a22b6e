# Cortex query core, in Dafny

This project models the query-processing core of the Cortex offline AI chat app. The model covers four areas.

- **Answering one query.** `processQuery` picks a knowledge pack for the query:
  - a keyword hit in the query wins;
  - otherwise the pack declared for the user's class and subject;
  - otherwise, for a likely follow-up, the newest history turn that names a pack.
- **Building the prompt.** The runtime grounds the prompt in the chosen pack, with compact and detailed text both capped. It lays out a system block in a fixed order and merges the generation parameters. It then prunes and caps the history and serialises everything for the model family. The answer is checked against a banned-word list.
- **Education prompts.** The education-mode builders join a persona, safety rules, a class context and a tool task, and serialise them in one of four model-family formats. The interpreter adds a class-6 science knowledge lookup and a hard refusal for out-of-syllabus explain requests.
- **Small stores.** The tool catalogue and which classes may use which tool. The session's response cache, with its 32-bit string hash. The chat-history index with its titles, previews, saving and deleting.

Modules, one per source file:

| module | source | notes |
|---|---|---|
| `Runtime` | `CortexRuntime.ts` | |
| `PackManager` | `PackManager.ts` | |
| `Validation` | `Validation.ts` | |
| `Constitution` | `Constitution.ts` | |
| `PromptBuilder` | `utils/PromptBuilder.ts` | the four-family serialisation is shared, through `PromptFormat` |
| `Interpreter` | `CortexInterpreter.ts` | |
| `Tools` | `config/tools.ts` | |
| `ClassRules` | `config/classRules.ts` | |
| `ToolDefinitions` | `ToolDefinitions.ts` | |
| `ResponseCache` | `ResponseCache.ts` | |
| `ChatStore` | `store/useChatStore.ts` | |

`Wrappers`, `Seqs`, `Text` and `Classes` hold the shared vocabulary:
- optional values;
- first-match search and filtering;
- JavaScript's `trim`, `toLowerCase`, `includes`, `slice` and `join` on strings;
- the student classes.

Where the source mutates state, the model does too:
- The pack cache is a field of `PackManager.PackStore`.
- The response cache's `Map` is a field of `ResponseCache.Cache`.
- The chat index is a pair of fields of `ChatStore.Store`.
- The loops that build text with `+=` are methods with loop invariants:
  - the reverse history walk;
  - the `forEach` serialisations;
  - `simpleHash`.

  Each method is proved equal to a specification function. The properties are proved about those functions.

Two behaviours of the runtime are easy to misread; the model keeps both as the code has them.
- **Follow-up detection.** `CortexRuntime.ts:41` treats a query as a likely follow-up when it is shorter than 25 characters *or* has fewer than five space-separated parts. So a long query with few spaces can still inherit a pack from the history.
- **Runtime model families.** The runtime recognises Llama 3 only by the spelling `llama 3`. Every other model gets the plain `System:`/`User:`/`Assistant:` format (`CortexRuntime.ts:120,151-165`). It does not use the four-family dispatch of the education builders.

## Model

| member | source | states |
|---|---|---|
| Runtime.Split | src/cortex/runtime/CortexRuntime.ts:41 | `split(' ')` yields at least one piece |
| Runtime.SplitCount | src/cortex/runtime/CortexRuntime.ts:41 | `split(' ')` yields one piece more than there are spaces |
| Runtime.SplitJoin | src/cortex/runtime/CortexRuntime.ts:41 | joining the pieces with the separator gives back the input |
| Runtime.SplitPiecesFree | src/cortex/runtime/CortexRuntime.ts:41 | no piece contains the separator |
| Runtime.FollowUpBySpaces | src/cortex/runtime/CortexRuntime.ts:41 | likely follow-up iff the input is under 25 characters or has fewer than 4 spaces (fewer than 5 parts) |
| Runtime.TurnMatches | src/cortex/runtime/CortexRuntime.ts:44-46 | each history turn's keyword match, at its own index |
| Runtime.NewestIndex | src/cortex/runtime/CortexRuntime.ts:44-50 | the index of the newest present match; every later one is absent |
| Runtime.Newest | src/cortex/runtime/CortexRuntime.ts:44-50 | none iff every turn misses; otherwise the match of a turn after which no turn matches |
| Runtime.NewestStep | src/cortex/runtime/CortexRuntime.ts:44-50 | one more turn replaces the newest match when it matches, and keeps it otherwise |
| Runtime.NewestMatch | src/cortex/runtime/CortexRuntime.ts:44-50 | the match of the newest history turn that has one, or none iff no turn matches |
| Runtime.SearchHistory | src/cortex/runtime/CortexRuntime.ts:44-51 | the reverse loop with early `break` returns exactly the newest match |
| Runtime.ChoosePack | src/cortex/runtime/CortexRuntime.ts:30-52 | the step-by-step reassignment of `pack` equals the tiered selection |
| Runtime.DirectMatchWins | src/cortex/runtime/CortexRuntime.ts:30-36 | an input over 3 characters that hits some pack's keyword selects the first such pack, whatever `findPack` found |
| Runtime.ShortInputKeepsDeclared | src/cortex/runtime/CortexRuntime.ts:33 | an input of at most 3 characters never matches directly and keeps the declared pack |
| Runtime.HistoryOnlyAsFallback | src/cortex/runtime/CortexRuntime.ts:37-52 | without a direct match the declared pack wins. The history is searched only when there is no declared pack, the history is non-empty and the input is a likely follow-up. With no declared pack, there is no pack when the input is no follow-up and also when the history is empty |
| Runtime.Cap | src/cortex/runtime/CortexRuntime.ts:67-69 | a text within the limit is unchanged; a longer one is its first `limit` characters followed by `... [truncated]` |
| Runtime.CompactGrounding | src/cortex/runtime/CortexRuntime.ts:61-76 | empty without a pack or compact text; the compact text itself up to 800 characters; its first 800 plus the marker beyond |
| Runtime.DetailedGrounding | src/cortex/runtime/CortexRuntime.ts:55-69 | non-empty only with a pack and a detail keyword; then the section the corrected extractor finds, capped at 1500 plus the marker |
| Runtime.Ground | src/cortex/runtime/CortexRuntime.ts:61-76 | the reassignments of the two grounding texts compute those two functions |
| Runtime.SafetyConstraints | src/cortex/runtime/CortexRuntime.ts:81-86 | the trimmed template is exactly its four lines |
| Runtime.Injection | src/cortex/runtime/CortexRuntime.ts:88-96 | an empty grounding injects nothing |
| Runtime.InjectionWhole | src/cortex/runtime/CortexRuntime.ts:88-96 | a grounding ending in a visible character is injected whole, under its heading |
| Runtime.CompactContentInjected | src/cortex/runtime/CortexRuntime.ts:88-91 | a pack's non-empty compact text of at most 800 characters that ends in a visible character reaches the system block unchanged, under `SCOPE CONTEXT (Compact):`; the injection is trimmed, so trailing whitespace (such as a final newline) is dropped |
| Runtime.ResumeInstruction | src/cortex/runtime/CortexRuntime.ts:98-101 | the continuation text when resuming, nothing otherwise |
| Runtime.SystemPrompt | src/cortex/runtime/CortexRuntime.ts:103-116 | trimming the template leaves the sections in the fixed order, each pair separated by a blank line: constitution, safety, compact, detailed, resume, fallback |
| Runtime.SystemPromptFrame | src/cortex/runtime/CortexRuntime.ts:103-116 | the system block opens with the constitution and closes with the fallback instruction |
| Runtime.CompactInSections | src/cortex/runtime/CortexRuntime.ts:103-108 | the compact injection sits right after the constitution and the safety constraints |
| Runtime.CompactInSystem | src/cortex/runtime/CortexRuntime.ts:103-108 | the same position holds in the trimmed system block |
| Runtime.ConstitutionOpensVisibly | src/cortex/runtime/CortexRuntime.ts:104 | the constitution prompt opens with a visible character, so trimming keeps it whole |
| Runtime.FallbackEnds | src/cortex/runtime/CortexRuntime.ts:114-115 | the fallback instruction ends in a visible character |
| Runtime.FinalParams | src/cortex/runtime/CortexRuntime.ts:123-129 | the defaults are temperature 0.1, top_p 0.9, top_k 40, and max_tokens 256 with detail or resume (100 otherwise). Each field the caller supplies overrides its default |
| Runtime.OverridesIndependent | src/cortex/runtime/CortexRuntime.ts:123-129 | overriding one field leaves the other at the value it would otherwise have |
| Runtime.LastTurns | src/cortex/runtime/CortexRuntime.ts:133 | `slice(-n)` is the last `n` turns (or all of them), as a suffix of the history |
| Runtime.CapTurn | src/cortex/runtime/CortexRuntime.ts:138-147 | a turn within the cap is unchanged. A resumed tail is `... ` followed by exactly the turn's last 800 characters (all of it when shorter). Any other long turn is its first `cap` characters plus ` [truncated]` |
| Runtime.CappedTurns | src/cortex/runtime/CortexRuntime.ts:137-149 | every pruned turn keeps its role and gets its capped content; only the last assistant turn while resuming keeps its tail |
| Runtime.OnlyLastTurnKeepsTail | src/cortex/runtime/CortexRuntime.ts:141-146 | every turn but the last that is over the cap keeps its head and the marker |
| Runtime.PrunedRoles | src/cortex/runtime/CortexRuntime.ts:132-149 | the capped newest `limit` turns are at most `limit`, with the roles of the history's last turns in order |
| Runtime.PrunedHistory | src/cortex/runtime/CortexRuntime.ts:131-149 | exactly min(2, history length) turns are sent with a pack and min(4, history length) without. Turn `i` is the matching one of the history's newest turns, in order, with its role and its content capped at 300 (pack) or 500 (none); only the last, an assistant's, keeps its tail while resuming |
| Runtime.RenderHistory | src/cortex/runtime/CortexRuntime.ts:135-165 | the `+=` loop over the pruned history builds exactly the serialised conversation of the capped turns |
| Runtime.CappedStep | src/cortex/runtime/CortexRuntime.ts:137-149 | one round of that loop appends the next capped turn, wrapped |
| Runtime.Respond | src/cortex/runtime/CortexRuntime.ts:188-205 | a rejected text becomes the hard refusal with the pack's id; an accepted text is trimmed; a throw gives the internal-error text and no pack |
| Runtime.Vet | src/cortex/runtime/CortexRuntime.ts:174-206 | the `try` block computes that answer |
| Runtime.AnswerAlwaysVetted | src/cortex/runtime/CortexRuntime.ts:188-199 | every answer is the refusal, the error text or a text that passes validation; the generated text is never returned unchecked |
| Runtime.TrimStaysValid | src/cortex/runtime/CortexRuntime.ts:196-199 | trimming a text that passes validation keeps it passing |
| Runtime.ComposeSystem | src/cortex/runtime/CortexRuntime.ts:54-116 | grounding and template steps build the specified system block |
| Runtime.Compose | src/cortex/runtime/CortexRuntime.ts:54-166 | once a pack is chosen, the steps build the specified request: prompt and parameters |
| Runtime.ProcessQuery | src/cortex/runtime/CortexRuntime.ts:23-207 | the request made of the engine and the answer for each engine outcome |
| PackManager.FindPack | src/cortex/runtime/PackManager.ts:73-76 | none when the class or subject is null or empty. Otherwise it is the first pack whose class equals the user's and whose subject equals the asked one, ignoring case. It is none iff no such pack exists |
| PackManager.FindPackByQuery | src/cortex/runtime/PackManager.ts:81-87 | none iff no pack has a keyword in the lower-cased query; otherwise the first such pack in list order |
| PackManager.FindPackByQueryIgnoresCase | src/cortex/runtime/PackManager.ts:82 | matching depends only on the query's lower-case form |
| PackManager.NextHeading | src/cortex/runtime/PackManager.ts:138 | the next cut point (a newline, `##` or `###`, then whitespace) at or after a position |
| PackManager.Sections | src/cortex/runtime/PackManager.ts:138 | the split always yields at least one section |
| PackManager.SectionsConcat | src/cortex/runtime/PackManager.ts:138 | the lookahead split keeps its delimiters: the sections concatenate back to the text |
| PackManager.SectionsStartAtHeadings | src/cortex/runtime/PackManager.ts:138 | every section after the first starts with the newline and `##` of its heading |
| PackManager.SectionsCutAtHeadings | src/cortex/runtime/PackManager.ts:138 | each section is the text at its offset; every section after the first starts at a cut point (newline, `##` or `###`, whitespace), and no cut point lies inside any section past its start |
| PackManager.FirstLine | src/cortex/runtime/PackManager.ts:143 | `split('\n')[0]` is the newline-free prefix up to the first newline |
| PackManager.LeadingRun | src/cortex/runtime/PackManager.ts:139 | `WordRun` counts the longest leading run of `\w` characters: every character in it is one and the next one is not |
| PackManager.PieceIsWordChars | src/cortex/runtime/PackManager.ts:139 | every kept piece of `split(/\W+/)` is non-empty and made only of word characters |
| PackManager.WordsAreRuns | src/cortex/runtime/PackManager.ts:139 | the pieces are exactly the maximal runs of word characters: every such run is a piece and every piece is one |
| PackManager.ExtractRelevantSection | src/cortex/runtime/PackManager.ts:137-150 | `""` when no heading line mentions a query word of over 3 characters; otherwise the trimmed first such section (corrected reading) |
| PackManager.ShortWordsNeverSelect | src/cortex/runtime/PackManager.ts:144 | query words of at most 3 characters never select a section |
| PackManager.SecondSectionSelected | src/cortex/runtime/PackManager.ts:142-146 | when the first heading misses and the second hits, the corrected extractor returns the second section, trimmed |
| PackManager.ExtractRelevantSectionAsWritten | src/cortex/runtime/PackManager.ts:137-150 | the code as written: the first section whose `split('\n')[0]` mentions a query word, trimmed |
| PackManager.AsWrittenSeesOnlyFirstSection | src/cortex/runtime/PackManager.ts:143 | as written, the result is `""` or the trimmed first section, never a later one |
| PackManager.LaterSectionLineEmpty | src/cortex/runtime/PackManager.ts:143 | each later section's `split('\n')[0]` is the empty string |
| PackManager.HeadingMissedAsWritten | src/cortex/runtime/PackManager.ts:143 | `"a\n## leaf"` queried with `"leaf"`: the code gives `""`, the corrected extractor gives `"## leaf"` |
| PackManager.LoadFolder | src/cortex/runtime/PackManager.ts:45-58 | a folder yields a pack iff `pack.json` and `knowledge.md` are present, nothing read fails and the manifest parses. The pack has each manifest field (id, class, subject, language, version, strict, keywords) and the knowledge text. Its compact text is absent iff the compact file is |
| PackManager.PacksInFromCompleteFolders | src/cortex/runtime/PackManager.ts:33-63 | every discovered pack comes from some folder that holds both required files |
| PackManager.PackStore.DiscoverPacks | src/cortex/runtime/PackManager.ts:19-71 | a set cache is returned unchanged without a rescan unless refreshing. A missing directory or a failed scan returns `[]` and leaves the cache alone. A listing returns the loaded packs in folder order and caches them |
| PackManager.PackStore.DownloadPack | src/cortex/runtime/PackManager.ts:92-131 | success iff `pack.json` and `knowledge.md` were fetched. Success clears the cache; failure leaves it. Each file fetched before the first failure replaces the folder's old one; every other file is what the folder held before |
| PackManager.DownloadedFolderLoads | src/cortex/runtime/PackManager.ts:92-131 | after a successful download the folder yields a pack iff the fetched manifest parses and an unfetched compact file still reads; the pack has the new manifest and knowledge, and the fetched compact text or else the folder's old one |
| PackManager.FailedDownloadIntoEmptyFolder | src/cortex/runtime/PackManager.ts:92-131 | a failed download into a folder without `knowledge.md` never leaves a loadable pack |
| PackManager.FailedRedownloadMixesFiles | src/cortex/runtime/PackManager.ts:96-108 | a re-download whose `knowledge.md` fetch fails leaves a folder that loads the new manifest with the old knowledge text |
| Validation.Scan | src/cortex/runtime/Validation.ts:10-14 | the keyword loop rejects, with the safety reason, iff a keyword from its position on occurs |
| Validation.ValidateOutput | src/cortex/runtime/Validation.ts:2-23 | invalid, with reason `Safety violation detected.`, iff the lower-cased text contains a banned keyword; valid with no reason otherwise (the syllabus phrases have no effect) |
| Validation.ValidateIgnoresCase | src/cortex/runtime/Validation.ts:3 | the verdict depends only on the lower-case form |
| Validation.InvalidPreservedByExtension | src/cortex/runtime/Validation.ts:10-13 | a rejected text stays rejected inside any surrounding text |
| Validation.GetHardRefusal | src/cortex/runtime/Validation.ts:25-27 | always the one refusal text |
| Validation.HardRefusalIgnoresReason | src/cortex/runtime/Validation.ts:25-27 | the refusal does not depend on the reason |
| Constitution.Bullets | src/cortex/runtime/Constitution.ts:24 | each item becomes `- ` plus the item, in order |
| Constitution.GetConstitutionPrompt | src/cortex/runtime/Constitution.ts:20-35 | the prompt is the laid-out text of the constant charter (five principles, six rules) and begins with `CORTEX CONSTITUTION (v1.0):` |
| Constitution.PromptText | src/cortex/runtime/Constitution.ts:20-35 | the trimmed template for a charter is its laid-out body |
| Constitution.BodyEnds | src/cortex/runtime/Constitution.ts:21-34 | the body opens with the header and closes with the behaviour rules |
| Constitution.PrincipleInPrompt | src/cortex/runtime/Constitution.ts:24 | every principle appears as a bullet, in array order, before the safety header |
| Constitution.SafetyRuleInPrompt | src/cortex/runtime/Constitution.ts:26-27 | the `Safety Rules:` header follows the principles, and every rule appears as a bullet after it, in order |
| PromptBuilder.MasterSystemPrompt | utils/PromptBuilder.ts:19-42 | the trimmed template is exactly its lines |
| PromptBuilder.HardSafetyPrompt | utils/PromptBuilder.ts:45-58 | the trimmed template is exactly its lines, opening with `SAFETY RULES:` |
| PromptBuilder.DetectFamily | utils/PromptBuilder.ts:155-157 | Llama 3 iff the lower-cased name has `llama 3` or `llama-3`. Qwen iff it has `qwen` and is not Llama 3. TinyLlama iff it has `tinyllama` and is neither of those. Otherwise generic |
| PromptBuilder.Persona | utils/PromptBuilder.ts:163 | a custom prompt that is non-blank after trimming replaces the master persona, trimmed |
| PromptBuilder.JoinSectionsHas | utils/PromptBuilder.ts:162-169 | every non-empty section is in the `\n\n`-joined text |
| PromptBuilder.LeadingPair | utils/PromptBuilder.ts:162-169 | two present sections followed by empty ones join to exactly the two with `\n\n` between |
| PromptBuilder.SystemPromptSections | utils/PromptBuilder.ts:162-169 | the persona opens the system prompt and the safety rules are always in it. With a null class it is exactly persona, `\n\n` and safety. With a class it contains the class context and the tool task |
| PromptBuilder.ToolSectionPresent | utils/PromptBuilder.ts:166 | with a class the tool section is never empty |
| PromptBuilder.BuildPrompt | utils/PromptBuilder.ts:154-216 | the prompt is the detected family's serialisation of the system prompt, the history and the input |
| PromptBuilder.Emit | utils/PromptBuilder.ts:171-213 | the per-family `+=` loops build exactly that serialisation |
| PromptBuilder.HistoryVerbatim | utils/PromptBuilder.ts:176-192 | every history message's content appears verbatim, in order, for every family |
| PromptBuilder.Llama3Frame | utils/PromptBuilder.ts:175-179 | the prompt opens with the begin-of-text token and the system header, and ends with an open assistant header |
| PromptBuilder.QwenFrame | utils/PromptBuilder.ts:182-186 | the prompt opens with the ChatML system turn and ends by opening the assistant turn |
| PromptBuilder.TinyLlamaFrame | utils/PromptBuilder.ts:189-193 | the prompt opens with the TinyLlama system tag and ends with the open assistant tag |
| PromptBuilder.GenericFrame | utils/PromptBuilder.ts:205-211 | with history the prompt opens with the system `[INST]` block and ends with the input's `[INST]` block |
| PromptFormat.Serialize | utils/PromptBuilder.ts:176-179 | the `forEach` with `+=` builds exactly the rendered conversation |
| PromptFormat.TurnsSnoc | utils/PromptBuilder.ts:176-178 | one more message appends its wrapped block |
| PromptFormat.ContentInRender | utils/PromptBuilder.ts:176-178 | each message's content sits right after its role's opening markup |
| PromptFormat.ContentsInOrder | utils/PromptBuilder.ts:176-178 | message `i`'s content ends before message `i + 1`'s begins |
| PromptFormat.RenderFrame | utils/PromptBuilder.ts:175-179 | the conversation opens with the system block and closes with the input block |
| Interpreter.Class6Science | src/cortex/education/CortexInterpreter.ts:59-65 | the knowledge block is exactly its lines, opening with its heading |
| Interpreter.LoadKnowledge | src/cortex/education/CortexInterpreter.ts:48-72 | content is present iff there is a syllabus match. There is a match iff the class is 6, the subject is `science` or absent, and the lower-cased input has a syllabus keyword. A null class gives neither |
| Interpreter.KnowledgeSection | src/cortex/education/CortexInterpreter.ts:95 | `CONTEXT INFORMATION:\n` plus the knowledge, or nothing |
| Interpreter.SyllabusMatchByInput | src/cortex/education/CortexInterpreter.ts:80 | with the null subject `buildPrompt` passes, only class and input decide the match |
| Interpreter.RefusalExactly | src/cortex/education/CortexInterpreter.ts:83-85 | the result is the refusal iff the tool is `explain`, the class is 6 and the input is outside the syllabus |
| Interpreter.NoMarkupInRefusal | src/cortex/education/CortexInterpreter.ts:84 | no serialised prompt equals the refusal text |
| Interpreter.PromptOpensWithMarkup | src/cortex/education/CortexInterpreter.ts:100-142 | every serialised prompt opens with markup |
| Interpreter.KnowledgeComesLast | src/cortex/education/CortexInterpreter.ts:90-98 | found knowledge is the last system section, under `CONTEXT INFORMATION:` |
| Interpreter.FoundKnowledgeSection | src/cortex/education/CortexInterpreter.ts:95 | found knowledge gives the headed class-6 science block |
| Interpreter.InterpreterSections | src/cortex/education/CortexInterpreter.ts:90-98 | the persona opens the system prompt and the safety rules are always in it. With a class, the class context is in it too. With a null class it is exactly persona and safety |
| Interpreter.BuildPrompt | src/cortex/education/CortexInterpreter.ts:74-145 | the refusal, or the family serialisation of the five-section system prompt |
| Interpreter.InterpreterHistoryVerbatim | src/cortex/education/CortexInterpreter.ts:102-142 | outside the refusal, every history message appears verbatim with the builder's markup and precedence |
| Tools.GetToolPrompt | src/cortex/education/config/tools.ts:4-80 | `""` for a null class, and the chat task for a null tool. Otherwise the text opens with the tool's own heading and, for every tool but homework, names `Class <cls>` |
| Tools.TemplateFacts | src/cortex/education/config/tools.ts:8-75 | each template opens with its heading, is framed by visible characters and names the class (homework excepted) |
| Tools.HomeworkIgnoresClass | src/cortex/education/config/tools.ts:53-64 | the homework text is the same for every class |
| Tools.ToolPromptsDistinct | src/cortex/education/config/tools.ts:7-79 | for one class, different tool choices (including none) give different texts |
| Tools.OpensWith | src/cortex/education/config/tools.ts:7-79 | each choice's text opens with its own character |
| ClassRules.GetClassContext | src/cortex/education/config/classRules.ts:3-15 | `""` iff the class is null. Otherwise the text opens with `STUDENT CONTEXT:` and contains `- Class: <cls>`, `- Subject: General` and `Do NOT include content above Class <cls>` |
| ClassRules.ContextBody | src/cortex/education/config/classRules.ts:5-14 | what the joined template lines contain |
| Classes.Name | src/cortex/shared/constants/ToolDefinitions.ts:13-17 | a class's name is non-empty and all digits iff it is a numbered class |
| Classes.NameInjective | src/cortex/shared/constants/ToolDefinitions.ts:13-17 | different classes have different names |
| ToolDefinitions.ClassRank | src/cortex/shared/constants/ToolDefinitions.ts:13-17 | ranks run from 0 to 10; rank 0 iff Nursery, LKG or UKG |
| ToolDefinitions.CatalogueComplete | src/cortex/shared/constants/ToolDefinitions.ts:19-55 | every tool has exactly one catalogue entry, carrying its minimum class |
| ToolDefinitions.IsToolAvailable | src/cortex/shared/constants/ToolDefinitions.ts:57-64 | false for a null class; otherwise iff the class's rank reaches the tool's minimum |
| ToolDefinitions.GetAvailableTools | src/cortex/shared/constants/ToolDefinitions.ts:66-70 | `[]` for a null class; a tool is listed iff it is in the catalogue and available |
| ToolDefinitions.AvailableToolsInOrder | src/cortex/shared/constants/ToolDefinitions.ts:66-70 | the listed tools keep catalogue order, each listed once, as `TOOLS.filter` keeps them |
| ToolDefinitions.FilteredCatalogueInOrder | src/cortex/shared/constants/ToolDefinitions.ts:19-70 | any filter of the catalogue lists its tools in catalogue positions that strictly increase |
| ToolDefinitions.AvailableToolsMonotone | src/cortex/shared/constants/ToolDefinitions.ts:66-70 | a higher-ranked class never loses a tool |
| ToolDefinitions.PreschoolTools | src/cortex/shared/constants/ToolDefinitions.ts:19-55 | Nursery, LKG and UKG get exactly explain and translate, in that order |
| ToolDefinitions.SeniorTools | src/cortex/shared/constants/ToolDefinitions.ts:19-55 | classes 9 and 10 get the whole catalogue, in order |
| ResponseCache.Wrap32 | src/cortex/core/utils/ResponseCache.ts:18-19 | ToInt32: a signed 32-bit value congruent to the input modulo 2^32 |
| ResponseCache.StepIsTimes31 | src/cortex/core/utils/ResponseCache.ts:18-19 | one round is the multiply-by-31 hash, taken to 32 bits |
| ResponseCache.Hash | src/cortex/core/utils/ResponseCache.ts:14-22 | the hash is always a signed 32-bit integer |
| ResponseCache.SimpleHash | src/cortex/core/utils/ResponseCache.ts:14-22 | the loop keeps `hash` in 32-bit range after every round and returns the decimal text of the hash |
| ResponseCache.EmptyHashesToZero | src/cortex/core/utils/ResponseCache.ts:14-22 | the empty text hashes to `"0"` |
| ResponseCache.KeysCanCollide | src/cortex/core/utils/ResponseCache.ts:14-22 | `"a@"` and `"b!"` hash alike, so distinct inputs can share a key |
| ResponseCache.GetCacheKey | src/cortex/core/utils/ResponseCache.ts:24-29 | the key is `class-or-none:tool-or-chat:hash` of the trimmed, lower-cased input |
| ResponseCache.KeyIgnoresCase | src/cortex/core/utils/ResponseCache.ts:26 | inputs differing only in case share a key |
| ResponseCache.KeyIgnoresSurroundingWhitespace | src/cortex/core/utils/ResponseCache.ts:26 | inputs differing only in surrounding whitespace share a key |
| ResponseCache.KeySeparatesClasses | src/cortex/core/utils/ResponseCache.ts:27 | requests for different classes, or for a class and none, never share a key |
| ResponseCache.Read | src/cortex/core/utils/ResponseCache.ts:31-34 | present iff the key is stored with a non-empty answer, and then that answer |
| ResponseCache.Cache.GetCachedResponse | src/cortex/core/utils/ResponseCache.ts:31-34 | the lookup reads the entry for the request's key |
| ResponseCache.Cache.CacheResponse | src/cortex/core/utils/ResponseCache.ts:36-39 | only the request's key changes, to the new answer |
| ResponseCache.Cache.ClearCache | src/cortex/core/utils/ResponseCache.ts:41-43 | the map becomes empty |
| ResponseCache.ReadAfterStore | src/cortex/core/utils/ResponseCache.ts:31-39 | a stored answer reads back; a stored `""` reads as absent |
| ResponseCache.StoreKeepsOtherKeys | src/cortex/core/utils/ResponseCache.ts:36-39 | storing leaves every other key's lookup as it was |
| ResponseCache.ReadAfterClear | src/cortex/core/utils/ResponseCache.ts:41-43 | after clearing, every lookup is absent |
| ResponseCache.StoredFoundInAnyCase | src/cortex/core/utils/ResponseCache.ts:26-39 | an answer stored for an input is found for that input in lower case |
| ChatStore.TitleFrom | store/useChatStore.ts:73 | the first 30 characters, trimmed, with `...` iff the message is longer than 30 |
| ChatStore.Title | store/useChatStore.ts:72-73 | `New Chat` when no message is the user's; otherwise the title of the first user message |
| ChatStore.TitleOfFirstUserMessage | store/useChatStore.ts:72-73 | a first user message of at most 30 characters is the title, trimmed; a longer one gives a title ending in `...` |
| ChatStore.NewlinesToSpaces | store/useChatStore.ts:74 | every line feed becomes a space and nothing else changes |
| ChatStore.Preview | store/useChatStore.ts:74 | the first 50 characters of the last message (all of it when shorter) with every line feed turned into a space and nothing else changed, then `...` always |
| ChatStore.WithoutId | store/useChatStore.ts:90 | exactly the sessions with another id survive, in their original order |
| ChatStore.SessionIdFor | store/useChatStore.ts:76-79 | the current id when set and non-empty; otherwise the decimal text of the clock |
| ChatStore.FreshIdsFollowTheClock | store/useChatStore.ts:76-79 | distinct clock readings give distinct fresh ids |
| ChatStore.Summary | store/useChatStore.ts:81-87 | the summary carries the id, title, preview and time, and an empty message list |
| ChatStore.SavedSessions | store/useChatStore.ts:90-91 | the summary is first, its id occurs nowhere else, and every other session is kept |
| ChatStore.Store.StartNewSession | store/useChatStore.ts:61-63 | the current id becomes null; the list is unchanged |
| ChatStore.Store.SaveCurrentSession | store/useChatStore.ts:65-96 | an empty conversation changes nothing. Otherwise the current id becomes the filing id and the list becomes the saved list |
| ChatStore.Store.DeleteSession | store/useChatStore.ts:125-132 | every entry with the id goes; the current id is cleared iff it was that id |
| ChatStore.DeleteKeepsOrder | store/useChatStore.ts:127 | deleting acts on each part of the list separately, so the rest keep their order |
| ChatStore.DeleteAbsentId | store/useChatStore.ts:127 | deleting an absent id changes nothing |
| ChatStore.ResaveReplacesSummary | store/useChatStore.ts:90-91 | saving the same session again replaces its summary at the head and leaves the rest |
| ChatStore.DeleteUndoesSave | store/useChatStore.ts:90-91 | deleting a just-saved session leaves what deleting it beforehand would |

## Findings

| source | as written | input that shows it | evidently intended | confidence | as-written member | corrected member |
|---|---|---|---|---|---|---|
| src/cortex/runtime/PackManager.ts:143 | The heading test reads `section.split('\n')[0]`. The lookahead split keeps the `\n` at the start of every section after the first, so that line is `""` and only the first section can ever be selected | knowledge `"a\n## leaf"` with query `"leaf"` returns `""` | the heading line of the section is tested, and the call returns `"## leaf"` | not executed | PackManager.ExtractRelevantSectionAsWritten | PackManager.ExtractRelevantSection |

The runtime's detailed grounding (`Runtime.DetailedGrounding`) uses the corrected extractor; "## Left out" says what that changes.

## Left out

- The engine call `OfflineLLMModule.generate` is foreign code. Its result is an input to `Runtime.ProcessQuery`: an `EngineOutcome` that is either a generated text or a throw.
- The `onToken` listener is left out: streaming is an event subscription with no effect on the result.
- `console.log`/`console.error` calls and the segment-length diagnostics are output only.
- The file system, JSON parsing and `fetch` in `discoverPacks` and `downloadPack` are I/O. A directory scan is a `DirScan` value of per-folder file states. Each download is a `Fetch` value per file, given with the folder's prior contents. A `pack.json` is seen through its parse: a `PackManifest`, or text that does not parse.
- PackManager.PackStore.DownloadPack: a failed write counts as a failed fetch of that file and leaves the old file in place; a write that fails halfway through a file is not modelled.
- Runtime.DetailedGrounding: it extracts with the corrected `ExtractRelevantSection`, where `CortexRuntime.ts:64` calls the code as written. The two differ only when no section's `split('\n')[0]` names a long query word but some section's heading line does: the code then gives no detailed grounding, the model that section. Its other properties (non-empty only with a pack and a detail keyword, the 1500 cap) hold for both. `Runtime.Ground`, `Runtime.ComposeSystem` and `Runtime.Compose` inherit this.
- Runtime.ProcessQuery: the prompt it is proved to send embeds the corrected extractor's section, as `Runtime.DetailedGrounding` above.
- `getRemoteCatalog` is a network fetch and JSON parse with no logic of its own.
- The `fullContext` text built in the generic branch of both education builders is never used. It is not modelled.
- The chat store's file writes, `initialize` and `loadSession` are file I/O. `Date.now()` is the parameter `now`.
- The model and user stores, the UI screens and components, the native module and the build scripts lie outside this core.
- Strings are sequences of Unicode characters, not UTF-16 code units. Every length, cap and slice counts characters, so text with characters outside the Basic Multilingual Plane measures shorter than in JavaScript. The members affected are `Runtime.Cap`, `Runtime.CapTurn`, `ChatStore.TitleFrom` and `ChatStore.Preview`. Pack selection is affected too, since it tests `input.length > 3` and `input.length < 25`: `Runtime.LikelyFollowUp`, `Runtime.DirectMatch` and `Runtime.ChoosePack`, and the lemmas that state those tests, `Runtime.FollowUpBySpaces`, `Runtime.DirectMatchWins`, `Runtime.ShortInputKeepsDeclared` and `Runtime.HistoryOnlyAsFallback`. For example, eleven emoji in five space-separated groups measure 26 code units in JavaScript, so that input is no follow-up; the model counts 15 characters and treats it as one.
- ResponseCache.Hash: each non-BMP character enters the hash once, as its code point, while `charCodeAt` feeds its two surrogate units. Hashes of such texts differ from the program's.
- Text.Lower: lower-casing is ASCII only, as are `\w`/`\W` in the section extractor. JavaScript's `toLowerCase` also folds non-ASCII letters.
- A numbered class other than 1 to 10 cannot be constructed (`UserClass` is a subtype). The program's `UserClass` union excludes it too.
