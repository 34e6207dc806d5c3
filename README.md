# DietAI memory system — a Dafny model

DietAI keeps four Markdown "workspace" documents per user: `shared` (profile, health and long-term
preferences), `goal_tracking` (active goal, daily targets, today's status, weight progress,
suggestions), `nutrition` (diet summary, frequent foods, recent analyses) and `chat` (recent
interactions, frequent topics, feedback). This project models the logic that produces, patches and
reads those documents, and proves properties of that model:

- `schemas.dfy` (module `Schemas`): the record types, enums and defaults the renderers consume.
- `nutrition_calc.dfy` (`NutritionCalc`): age, Mifflin–St Jeor BMR, TDEE, daily targets,
  remaining budget, meal impact, goal progress and trend, over exact `real` arithmetic with
  Python's round-half-even `round`.
- `markdown_doc.dfy` (`MarkdownDoc`) and `memory_manager.dfy` (`MemoryStore`): the workspace store
  as a class `MemoryManager` whose `files` map stands for one user's directory, the frontmatter and
  section parser, `update_section` with the regular expression's exact matching and replacement
  semantics, the frontmatter timestamp rewrite, agent context assembly, snapshots, deletion and the
  user-id scan.
- `markdown_renderer.dfy` (`MarkdownRenderer`): the four renderers as documents of typed lines
  (headings, sub-headings, bullets, plain text) that render to the exact strings of the source,
  up to the number formatting noted under "## Left out".
- `sync_service.dfy` (`SyncService`): the four projections from database rows to schema records
  (dietary restrictions, today's status, weight progress, 7-day summary, 30-day frequent foods, chat
  topics) and `full_sync`. The database is a record of row sequences handed in by the caller.
- `memory_events.dfy` (`MemoryEvents`) and `scheduler.dfy` (`Scheduler`): event handlers as ordered
  sequences of store and sync actions under a fallible action model, the four batch jobs as loops
  counting successes and errors, and the scheduler singleton.
- `orchestrator.dfy` (`Orchestrator`): the merge of the memory, goal and analysis branches of
  `analyze_food_with_goals`, the nutrition-agent fallback, the default goal payload, the goal impact
  and the `_extract_preferences` line parser, plus the lazily created client and orchestrator
  singleton.
- `goal_nodes.dfy` (`GoalNodes`), `goal_state.dfy` (`GoalTracking`) and `enhanced_nodes.dfy`
  (`EnhancedNodes`): the goal-tracking and enhanced-nutrition graph nodes as classes whose fields
  are the state keys they set, and their three text parsers (profile extraction, suggestion
  parsing, preference extraction).
- Support modules: `Wrappers` (Option/Result), `Text` (Python `str` operations: `split`, `join`,
  `strip`, `find`, `int`), `Dates` (ISO dates and date-times) and `Foreign` (float formatting and
  PyYAML, passed in as function values so every property holds for any of them).

Where the two text parsers in the orchestrator and in the goal nodes misread the documents the
renderer and the prompt produce, each parser takes a `Reading` (or `ColonReading`) parameter: the
flows of the source use the reading as written, and the corrected reading is defined and proved
beside it (see "## Findings"). The goal impact and the memory update of the orchestrator likewise
take a `Lookup`: the source reads the streamed analysis dict by attribute, and the reading by key
is the corrected one.

## Model

| member | source | states |
|---|---|---|
| Dates.Pad | agent/memory/markdown_renderer.py:48 | the zero-padded number has at least the field width and only digits |
| Dates.IsoDate | agent/memory/markdown_renderer.py:48 | `isoformat()` of a date is at least `YYYY-MM-DD` long |
| Text.LStripSpec | agent/goal_tracking/nodes.py:335 | `strip()`'s left half removes exactly the leading whitespace |
| Text.RStripSpec | agent/memory/memory_manager.py:252 | `rstrip()` removes exactly the trailing whitespace |
| Text.IndexOfSpec | agent/memory/memory_manager.py:234-236 | a search finds the first occurrence of the pattern, and none means it occurs nowhere |
| Text.Split | agent/memory/memory_manager.py:193 | `split(c)` yields at least one part, none containing c |
| Text.SplitJoin | agent/memory/memory_manager.py:193 | joining the parts of a split with the separator gives back the text |
| Text.JoinSplit | agent/memory/markdown_renderer.py:176 | splitting a join of separator-free parts gives back the parts |
| Text.ParseInt | agent/memory/memory_manager.py:380 | `int()` only succeeds on text that is not blank |
| Text.ParseNegative | agent/memory/memory_manager.py:380 | `int()` reads a leading minus sign |
| Text.ParseIntRoundTrip | agent/memory/memory_manager.py:376-382 | `int(str(i)) == i` for every integer |
| Text.BeforeParen | shared/services/agent_orchestrator.py:487 | `split('(')[0]` is a prefix without `(`, the whole text when there is none |
| Text.BeforeParenAt | shared/services/agent_orchestrator.py:487 | the part before the first `(` is the text before it |
| Schemas.GoalTypeOf | agent/memory/schemas.py:17-23 | `GoalType(v)` succeeds exactly for 1..5 and gives the member with that value |
| Schemas.SeverityOf | agent/memory/schemas.py:26-30 | `SeverityLevel(v)` succeeds exactly for 1..3 and gives the member with that value |
| Schemas.ActivityOf | agent/memory/schemas.py:33-39 | `ActivityLevel(v)` succeeds exactly for 1..5 and gives the member with that value |
| Schemas.EnumValuesRoundTrip | agent/memory/schemas.py:17-39 | every member's value lies in its enum's range and converts back to that member |
| Schemas.GoalTypeMembers | agent/memory/schemas.py:17-23 | LOSE_WEIGHT to LOSE_FAT carry the values 1 to 5 |
| Schemas.RecordDefaults | agent/memory/schemas.py:44-304 | the defaults the renderers and the sync service rely on: a seven-day diet summary of zeros with 良好 regularity, a zeroed today status, shared memory at schema 1.0 with LIGHT activity, no allergies, diseases or medications, a 中等 budget and breakfast at 07:30, an empty goal-tracking record, the 控制中 disease status, the B food level, the 进行中 goal status, the 专业友善 response style and the 中性 sentiment |
| NutritionCalc.Round | shared/utils/nutrition_calc.py:170-173 | Python's `round(x)` lands within half a unit of `x` (ties go to the even neighbour) |
| NutritionCalc.RoundMonotone | shared/utils/nutrition_calc.py:170-173 | rounding never reverses the order of two values |
| NutritionCalc.RoundOfInt | shared/utils/nutrition_calc.py:170-173 | a whole number rounds to itself |
| NutritionCalc.Round1 | shared/utils/nutrition_calc.py:120 | `round(x, 1)` is within 0.05 of `x` |
| NutritionCalc.Round2 | shared/utils/nutrition_calc.py:335-336 | `round(x, 2)` is within 0.005 of `x` |
| NutritionCalc.Round1Monotone | shared/utils/nutrition_calc.py:120 | `round(·, 1)` preserves order |
| NutritionCalc.Round2Monotone | shared/utils/nutrition_calc.py:335-336 | `round(·, 2)` preserves order |
| NutritionCalc.RoundOfWhole | shared/utils/nutrition_calc.py:120 | whole numbers survive one- and two-decimal rounding unchanged |
| NutritionCalc.ActivityFactor | shared/utils/nutrition_calc.py:40-46 | the factor lies between 1.2 and 1.9, and an unknown level falls back to LIGHT's 1.375 |
| NutritionCalc.ActivityFactorOrdered | shared/utils/nutrition_calc.py:40-46 | a more active level always has a strictly larger factor; an unknown level is treated like LIGHT |
| NutritionCalc.CalorieAdjustment | shared/utils/nutrition_calc.py:58-64 | a deficit exactly for LOSE_WEIGHT and LOSE_FAT, a surplus exactly for GAIN_WEIGHT and BUILD_MUSCLE, always within -500..300, and 0 for unknown goals |
| NutritionCalc.MacroRatios | shared/utils/nutrition_calc.py:67-73 | the three shares are positive and sum to one; an unknown goal gets MAINTAIN's 25/50/25 |
| NutritionCalc.GoalTypeName | shared/utils/nutrition_calc.py:342-351 | the name is 未知目标 exactly when the goal type is outside 1..5 |
| NutritionCalc.CalculateAge | shared/utils/nutrition_calc.py:76-90 | the age is the difference of the years, minus one exactly when today's month and day come before the birthday's |
| NutritionCalc.AgeAroundBirthday | shared/utils/nutrition_calc.py:76-90 | on the n-th birthday the age is n, and on the day before it is n - 1 |
| NutritionCalc.CalculateBmr | shared/utils/nutrition_calc.py:93-120 | the result is the Mifflin–St Jeor value (gender 1 with +5, every other gender with -161) up to the one-decimal rounding |
| NutritionCalc.BmrGenderGap | shared/utils/nutrition_calc.py:115-118 | before rounding, gender 1 is exactly 166 kcal above any other gender for the same body |
| NutritionCalc.BmrMonotone | shared/utils/nutrition_calc.py:93-120 | the rounded BMR never decreases with weight or height and never increases with age |
| NutritionCalc.CalculateTdee | shared/utils/nutrition_calc.py:123-139 | the result is BMR times the level's factor up to the one-decimal rounding |
| NutritionCalc.TdeeMonotoneInLevel | shared/utils/nutrition_calc.py:123-139 | for a non-negative BMR a more active level never yields a smaller TDEE |
| NutritionCalc.MacroGrams | shared/utils/nutrition_calc.py:163-167 | the gram amounts give back the calorie target at 4, 4 and 9 kcal per gram |
| NutritionCalc.CalculateDailyTargets | shared/utils/nutrition_calc.py:142-175 | the calorie target is TDEE plus the goal's adjustment up to rounding, each macro is its gram amount up to rounding, and the adjustment is reported as is |
| NutritionCalc.UnknownGoalIsMaintain | shared/utils/nutrition_calc.py:157-161 | an unknown goal type gets exactly the targets of MAINTAIN |
| NutritionCalc.FullNutritionProfile | shared/utils/nutrition_calc.py:178-217 | BMR feeds TDEE, which feeds the daily targets; the BMR is the equation's value up to rounding; gender 1 is shown as 男 and every other as 女 |
| NutritionCalc.RemainingBudget | shared/utils/nutrition_calc.py:220-239 | each of the four macros is target minus consumed, missing keys read as 0, up to rounding to an integer |
| NutritionCalc.NearIsExact | shared/utils/nutrition_calc.py:234-239 | when the difference is a whole number the budget holds it exactly |
| NutritionCalc.MealImpact | shared/utils/nutrition_calc.py:242-282 | a missing calorie target raises KeyError and nothing else does; the meal share is 0 for a non-positive target and otherwise the rounded percentage; the meal fits exactly when calories stay non-negative; the excess is the overshoot, else 0; each of calories, protein, carbs and fat left after the meal is the remaining budget minus the meal's amount (missing keys read as 0), rounded |
| NutritionCalc.Clamp | shared/utils/nutrition_calc.py:337 | `min(100, max(0, p))` lies in 0..100 and keeps values already in range |
| NutritionCalc.TrendOf | shared/utils/nutrition_calc.py:322-329 | stable exactly when the change is under 0.5 kg; on track exactly when a larger change goes the goal's way (down for the losing goals, up for GAIN_WEIGHT); off track otherwise |
| NutritionCalc.GoalProgress | shared/utils/nutrition_calc.py:285-339 | the percentage lies in 0..100 and, for a move toward a target that differs from the start, is the clamped share of the needed change achieved, up to `round(x, 1)`; the trend is the change's trend, and the remaining distance and the weight change are the rounded exact values |
| NutritionCalc.ProgressMovedAway | shared/utils/nutrition_calc.py:311-318 | moving against the goal's direction reports 0%, never a negative number |
| NutritionCalc.ProgressReached | shared/utils/nutrition_calc.py:308-310 | reaching or passing the target in the goal's direction reports 100% |
| NutritionCalc.ProgressNoChangeNeeded | shared/utils/nutrition_calc.py:319-320 | when no change is needed the result is 100% at the target and 0% anywhere else |
| NutritionCalc.ProgressExamples | shared/utils/nutrition_calc.py:285-339 | losing from 80 kg toward 70 kg: at 75 kg the progress is 50% and on track; at 82 kg it is 0% and off track |
| MarkdownDoc.FrontmatterEnd | agent/memory/memory_manager.py:181 | a match needs the text to start with `---` and a newline, and its closing `---` line lies inside the text |
| MarkdownDoc.FrontmatterEndSpec | agent/memory/memory_manager.py:181 | the lazy `(.*?)` stops at the first closing `---` line, and a block with no closing line is not frontmatter |
| MarkdownDoc.AfterFrontmatter | agent/memory/memory_manager.py:187 | what remains after the frontmatter is a suffix of the text |
| MarkdownDoc.SectionsFromKeys | agent/memory/memory_manager.py:190-203 | from any point of the loop, the finished map has a key exactly for the saved titles, the open title and every non-empty later header title |
| MarkdownDoc.SectionsFromKept | agent/memory/memory_manager.py:194-196 | a saved section that no later header reopens keeps its body |
| MarkdownDoc.SectionsFromOpen | agent/memory/memory_manager.py:199-203 | the open section, when no later header reopens it, gets its lines up to the next header, joined and stripped |
| MarkdownDoc.SectionsFromLast | agent/memory/memory_manager.py:194-203 | the last header with a given title decides that section's body |
| MarkdownDoc.Sections | agent/memory/memory_manager.py:189-203 | no contract of its own: the section scan from the first line, which SectionsCharacterized characterises |
| MarkdownDoc.SectionsCharacterized | agent/memory/memory_manager.py:189-203 | the sections are exactly the non-empty header titles, each holding the stripped body under its last header; text before the first header belongs to none |
| MarkdownDoc.SubheadingIsNotHeader | agent/memory/memory_manager.py:194 | a `### ` line never opens a section, so it stays in the enclosing body |
| MarkdownDoc.ParseMarkdown | agent/memory/memory_manager.py:164-205 | the raw text is kept; the sections are those of the text after the frontmatter; the frontmatter is the loaded block, or empty when there is none or it fails to load |
| MarkdownDoc.SectionsOfLines | agent/memory/memory_manager.py:189-203 | the loop computes exactly the section map characterised above |
| MarkdownDoc.SectionHeader | agent/memory/memory_manager.py:234 | the header the pattern matches literally starts with `## ` and ends with a newline |
| MarkdownDoc.BodyEnd | agent/memory/memory_manager.py:234 | the lazy body stops at a following `\n## ` or at the end of the text |
| MarkdownDoc.BodyEndSpec | agent/memory/memory_manager.py:234 | no `\n## ` occurs inside the body, so the stop is the first one |
| MarkdownDoc.UpdateSectionText | agent/memory/memory_manager.py:226-256 | an absent or empty file becomes the bare section; otherwise the file is patched and its frontmatter timestamp rewritten |
| MarkdownDoc.BodyEndAt | agent/memory/memory_manager.py:234 | a body free of `\n## ` ends exactly where the next `\n## ` (or the end) begins |
| MarkdownDoc.SubAllStep | agent/memory/memory_manager.py:238-248 | the substitution replaces the first match and resumes after it |
| MarkdownDoc.SubAll | agent/memory/memory_manager.py:238-248 | no contract of its own: `re.sub` of every header-then-body match, left to right, whose steps SubAllStep and SubAllOnce state |
| MarkdownDoc.SubAllOnce | agent/memory/memory_manager.py:236-248 | with one occurrence of the header, only that section's body is replaced or extended and every other character is kept |
| MarkdownDoc.FirstAt | agent/memory/memory_manager.py:236 | the header's first match is right after a prefix that neither contains it nor straddles it |
| MarkdownDoc.PatchSectionOnce | agent/memory/memory_manager.py:236-248 | patching an existing file with one occurrence of the header rewrites only that section |
| MarkdownDoc.PatchExisting | agent/memory/memory_manager.py:236-248 | replace puts the new content in place of the old body; append puts it after the stripped old body; the text before and after is unchanged |
| MarkdownDoc.PatchMissing | agent/memory/memory_manager.py:249-251 | a missing section goes after the right-stripped text, separated by a blank line, and the rest of the text is kept |
| MarkdownDoc.LastNonNewline | agent/memory/memory_manager.py:266 | the position `[^\n]+` backs off to holds a non-newline character |
| MarkdownDoc.LastNonNewlineSpec | agent/memory/memory_manager.py:266 | only newlines follow the position found, and with none found the rest is all newlines |
| MarkdownDoc.LStripStart | agent/memory/memory_manager.py:266 | the greedy `\s*` leaves the match at a non-space character |
| MarkdownDoc.ValueSpan | agent/memory/memory_manager.py:266 | the value the timestamp replaces lies after the key and is non-empty |
| MarkdownDoc.StampFrontmatter | agent/memory/memory_manager.py:258-271 | a text without a frontmatter opening is returned unchanged |
| MarkdownDoc.NoStampWithoutKey | agent/memory/memory_manager.py:258-271 | a text without `last_updated:` is returned unchanged |
| MarkdownDoc.StampAllStep | agent/memory/memory_manager.py:265-269 | the substitution starts at the key's first occurrence |
| MarkdownDoc.StampFromSpan | agent/memory/memory_manager.py:265-269 | the matched value is replaced by the quoted timestamp and scanning resumes after it |
| MarkdownDoc.StampOnce | agent/memory/memory_manager.py:258-271 | with one `last_updated:` key, exactly its value becomes the quoted timestamp and the rest is kept |
| MarkdownDoc.ValueSpanAt | agent/memory/memory_manager.py:266 | after the key, blanks and a one-line value, the match covers exactly that value |
| MarkdownDoc.LStripPast | agent/memory/memory_manager.py:266 | the `\s*` run consumes exactly the leading blanks |
| MemoryStore.ParseWorkspace | agent/memory/memory_manager.py:45-50 | a name is accepted only as the workspace whose table key it is |
| MemoryStore.WorkspacePath | agent/memory/memory_manager.py:86-98 | ValueError exactly for a name outside the table; otherwise the path starts with `agent/UserMemory/` and ends with the workspace's file |
| MemoryStore.WorkspaceNames | agent/memory/memory_manager.py:45-50 | every workspace name is accepted back as that workspace, and distinct workspaces have distinct names and files |
| MemoryStore.AgentWorkspaces | agent/memory/memory_manager.py:53-58 | every agent type reads the shared workspace first and at least one more; `all` reads the four in table order |
| MemoryStore.AgentReadsOwnWorkspace | agent/memory/memory_manager.py:53-58 | each agent reads the shared workspace and its own and nobody else's; there is no `shared` agent type |
| MemoryStore.Upper | agent/memory/memory_manager.py:293 | upper-casing keeps the length |
| MemoryStore.WorkspaceHeader | agent/memory/memory_manager.py:293 | the workspace header is never empty |
| MemoryStore.ContextParts | agent/memory/memory_manager.py:289-294 | at most one piece per workspace, and every piece is non-empty |
| MemoryStore.ContextPartsEmpty | agent/memory/memory_manager.py:289-294 | there is no piece exactly when no workspace reads back with text |
| MemoryStore.JoinEmpty | agent/memory/memory_manager.py:296 | joining non-empty pieces gives the empty text only for no pieces |
| MemoryStore.ContextEmptyIff | agent/memory/memory_manager.py:289-296 | the agent context is empty exactly when none of its workspaces has text |
| MemoryStore.SnapshotNamesDistinct | agent/memory/memory_manager.py:317 | snapshots of distinct workspaces taken at one time have distinct file names |
| MemoryStore.Archived | agent/memory/memory_manager.py:314-320 | archiving only adds or overwrites snapshot files, never removes one |
| MemoryStore.ArchivedHolds | agent/memory/memory_manager.py:314-320 | after archiving distinct workspaces, the snapshot of each one with text holds that text |
| MemoryStore.ArchivedKeeps | agent/memory/memory_manager.py:314-320 | every other file under `history/` is left as it was |
| MemoryStore.ArchiveNames | agent/memory/memory_manager.py:312 | `all` means the four workspaces in table order; any other name means itself and fails when unknown; the list has no repeats |
| MemoryStore.MemoryManager.constructor | agent/memory/memory_manager.py:60-68 | a store starts from the given files, disk state and user id |
| MemoryStore.MemoryManager.Read | agent/memory/memory_manager.py:100-123 | ValueError exactly for an unknown name; a missing file reads as None; an existing readable file reads as its text |
| MemoryStore.MemoryManager.Exists | agent/memory/memory_manager.py:328-331 | ValueError for an unknown name; otherwise whether the file exists |
| MemoryStore.MemoryManager.ReadAll | agent/memory/memory_manager.py:333-343 | every workspace name, and nothing else, is mapped to what reading it returns |
| MemoryStore.MemoryManager.Write | agent/memory/memory_manager.py:125-146 | ValueError for an unknown name; the result is whether the disk accepts writes; a successful write makes the file read back as the new text and changes no other file |
| MemoryStore.MemoryManager.ReadStructured | agent/memory/memory_manager.py:148-162 | None exactly for a missing, unreadable or empty file; otherwise the raw text, its sections and its frontmatter |
| MemoryStore.MemoryManager.Metadata | agent/memory/memory_manager.py:385-396 | the frontmatter of the parsed file, None without text, ValueError for an unknown name |
| MemoryStore.MemoryManager.UpdateSection | agent/memory/memory_manager.py:207-256 | ValueError for an unknown name; on success the file reads back as the patched text with the section replaced or appended to, and that workspace is no longer unreadable while the others keep their flags; on failure nothing changes; snapshots and the writable flag never change |
| MemoryStore.MemoryManager.ContextForAgent | agent/memory/memory_manager.py:273-296 | ValueError for an unknown agent type; otherwise the headed texts of its readable non-empty workspaces joined by blank lines |
| MemoryStore.MemoryManager.ArchiveSnapshot | agent/memory/memory_manager.py:298-326 | workspace files are untouched; the result is false exactly when a snapshot with text cannot be written; on success each snapshot holds its workspace's text |
| MemoryStore.MemoryManager.ArchiveAs | agent/memory/memory_manager.py:312-326 | the copying loop leaves `history/` as the archiving function describes, and nothing else changes |
| MemoryStore.MemoryManager.Delete | agent/memory/memory_manager.py:345-363 | true when the file is gone afterwards, including when it never existed; on failure nothing changes |
| MemoryStore.FrontmatterOf | agent/memory/memory_manager.py:181-186 | the loaded block between the `---` lines, or empty when there is none or it fails to load |
| MemoryStore.UserIds | agent/memory/memory_manager.py:376-383 | at most one id per directory entry |
| MemoryStore.AllUserIds | agent/memory/memory_manager.py:366-383 | no ids without the memory root; otherwise the ids of the directories whose names parse as integers, in listing order |
| MemoryStore.UserDirRoundTrip | agent/memory/memory_manager.py:68 | the directory a store creates for its user is reported back as that id, and a plain file is never an id |
| MarkdownRenderer.Texts | agent/memory/markdown_renderer.py:176 | one rendered text per appended line |
| MarkdownRenderer.HeaderLines | agent/memory/markdown_renderer.py:60-176 | each appended text starts a `## ` section exactly when it is a `Heading`; sub-headings, bullets and plain texts not starting with `## ` never do (a text holding a line break counts as one appended text) |
| MarkdownRenderer.Headings | agent/memory/markdown_renderer.py:84-150 | a document has at most as many section titles as lines |
| MarkdownRenderer.HeadingsAppend | agent/memory/markdown_renderer.py:60-176 | the section titles of two concatenated runs of lines are those of the first followed by those of the second |
| MarkdownRenderer.HeadingsNone | agent/memory/markdown_renderer.py:84-88 | a body without `## ` lines contributes no section title |
| MarkdownRenderer.Items | agent/memory/markdown_renderer.py:127-132 | one `- ` bullet per text, none a heading |
| MarkdownRenderer.EachNoHeadings | agent/memory/markdown_renderer.py:339-340 | a loop whose per-item lines hold no heading produces no heading |
| MarkdownRenderer.EachFlush | agent/memory/markdown_renderer.py:339-340 | a loop whose per-item lines never start with a blank line keeps that property |
| MarkdownRenderer.EachLength | agent/memory/markdown_renderer.py:358-362 | a loop emitting between lo and hi lines per item emits between lo and hi times the item count |
| MarkdownRenderer.First | agent/memory/markdown_renderer.py:358 | the `[:n]` slice is the prefix of length min(n, len) |
| MarkdownRenderer.Titles | agent/memory/markdown_renderer.py:84-150 | one title per section |
| MarkdownRenderer.SectionHeadings | agent/memory/markdown_renderer.py:60-176 | the headings of a preamble followed by sections are exactly the section titles in order |
| MarkdownRenderer.FlattenHeadings | agent/memory/markdown_renderer.py:84-174 | concatenated sections show exactly their titles as headings |
| MarkdownRenderer.FlattenMembers | agent/memory/markdown_renderer.py:84-174 | a line is in the concatenated sections exactly when it is in some section's body |
| MarkdownRenderer.TitlesOfFour | agent/memory/markdown_renderer.py:84-174 | the titles of four sections in order |
| MarkdownRenderer.FourSections | agent/memory/markdown_renderer.py:60-176 | a four-section document shows exactly those four titles in order |
| MarkdownRenderer.FiveSections | agent/memory/markdown_renderer.py:181-296 | a five-section document shows exactly those five titles in order |
| MarkdownRenderer.FormatDate | agent/memory/markdown_renderer.py:44-48 | no date gives 未设定, a date its ISO form |
| MarkdownRenderer.FormatDateTime | agent/memory/markdown_renderer.py:51-55 | no timestamp gives 未知, a timestamp its minute-precision form |
| MarkdownRenderer.FrontmatterLine | agent/memory/markdown_renderer.py:39-41 | the frontmatter block is a plain line opening with `---` and a newline |
| MarkdownRenderer.StampFrontmatter | agent/memory/markdown_renderer.py:314-317 | the frontmatter holds exactly user_id and last_updated, the latter in ISO form |
| MarkdownRenderer.Preamble | agent/memory/markdown_renderer.py:318-321 | frontmatter and document title open no section |
| MarkdownRenderer.SharedFrontmatter | agent/memory/markdown_renderer.py:73-78 | the shared frontmatter holds exactly user_id, last_updated (ISO) and schema_version |
| MarkdownRenderer.BasicInfoBody | agent/memory/markdown_renderer.py:84-88 | the basic-information body opens no section |
| MarkdownRenderer.MapTexts | agent/memory/markdown_renderer.py:96-99 | one text per item |
| MarkdownRenderer.ListSub | agent/memory/markdown_renderer.py:94-102 | an empty list gives the sub-heading, the placeholder bullet and a blank line; otherwise the sub-heading, one bullet per entry and a blank line |
| MarkdownRenderer.HealthBody | agent/memory/markdown_renderer.py:91-121 | the allergy, disease and medication sub-sections open no `## ` section |
| MarkdownRenderer.FoodsSub | agent/memory/markdown_renderer.py:127-139 | a food sub-section opens no `## ` section |
| MarkdownRenderer.PreferencesBody | agent/memory/markdown_renderer.py:124-147 | the preference body opens no `## ` section |
| MarkdownRenderer.BehaviorBody | agent/memory/markdown_renderer.py:150-174 | the behaviour body opens no `## ` section |
| MarkdownRenderer.SharedSectionList | agent/memory/markdown_renderer.py:84-174 | every shared-memory section body is free of `## ` lines |
| MarkdownRenderer.SharedSections | agent/memory/markdown_renderer.py:60-176 | the shared memory document opens with its frontmatter and has exactly the sections 基础信息, 健康状况, 长期偏好, 行为模式 in that order |
| MarkdownRenderer.RenderSharedMemory | agent/memory/markdown_renderer.py:60-176 | no contract of its own: the `"\n"` join of the shared-memory lines, whose frontmatter and four sections SharedSections states |
| MarkdownRenderer.SignLabels | agent/memory/markdown_renderer.py:235-252 | a negative adjustment reads 赤字, a positive 盈余, zero 无调整; a negative weight change reads 减重, a positive 增重, zero 无变化; the magnitude is shown without its sign |
| MarkdownRenderer.ActiveGoalBody | agent/memory/markdown_renderer.py:204-217 | the active-goal body opens no section |
| MarkdownRenderer.BaselineBody | agent/memory/markdown_renderer.py:220-242 | the baseline body opens no section |
| MarkdownRenderer.ProgressBody | agent/memory/markdown_renderer.py:245-269 | the progress body opens no section |
| MarkdownRenderer.MilestoneBody | agent/memory/markdown_renderer.py:272-281 | the milestone body opens no section |
| MarkdownRenderer.WarningLines | agent/memory/markdown_renderer.py:289-294 | the warning sub-heading appears exactly when there are warnings |
| MarkdownRenderer.SuggestionBody | agent/memory/markdown_renderer.py:284-294 | the suggestion body opens no section and shows the warning sub-heading exactly when there are warnings |
| MarkdownRenderer.GoalSectionList | agent/memory/markdown_renderer.py:204-294 | every goal-tracking section body is free of `## ` lines |
| MarkdownRenderer.GoalSections | agent/memory/markdown_renderer.py:181-296 | the goal-tracking document has exactly the sections 当前活跃目标, 计算基准, 进度追踪, 里程碑, Agent 生成的建议 in that order |
| MarkdownRenderer.GoalWarnings | agent/memory/markdown_renderer.py:289-294 | the goal-tracking document shows the warning sub-heading exactly when the data carries warnings |
| MarkdownRenderer.OnlyLastWarns | agent/memory/markdown_renderer.py:181-296 | when only the last section can hold the warning sub-heading, the document holds it exactly when that section does |
| MarkdownRenderer.RenderGoalTracking | agent/memory/markdown_renderer.py:181-296 | no contract of its own: the `"\n"` join of the goal-tracking lines, whose five sections and warning sub-heading GoalSections and GoalWarnings state |
| MarkdownRenderer.SummaryBody | agent/memory/markdown_renderer.py:324-332 | the diet summary opens no section |
| MarkdownRenderer.FoodRow | agent/memory/markdown_renderer.py:339-340 | one table row per frequent food |
| MarkdownRenderer.FoodBody | agent/memory/markdown_renderer.py:335-343 | the frequent-food table opens no section |
| MarkdownRenderer.TrendLines | agent/memory/markdown_renderer.py:348-350 | two lines per trend, neither a section heading |
| MarkdownRenderer.TrendBody | agent/memory/markdown_renderer.py:346-353 | the trend body opens no section |
| MarkdownRenderer.AnalysisLines | agent/memory/markdown_renderer.py:358-362 | four lines per recent analysis, none a section heading |
| MarkdownRenderer.AnalysisBody | agent/memory/markdown_renderer.py:356-364 | the analysis body opens no section |
| MarkdownRenderer.NutritionSectionList | agent/memory/markdown_renderer.py:324-364 | every nutrition section body is free of `## ` lines |
| MarkdownRenderer.NutritionSections | agent/memory/markdown_renderer.py:301-366 | the nutrition document has exactly the sections 近期饮食摘要, 高频食物 (近30天), 营养趋势, 近期分析记录 in that order |
| MarkdownRenderer.NutritionListSizes | agent/memory/markdown_renderer.py:336-362 | a non-empty food list gives header, rule, one row per food and a blank line; at most five analyses are shown, four lines each |
| MarkdownRenderer.RenderNutrition | agent/memory/markdown_renderer.py:301-366 | no contract of its own: the `"\n"` join of the nutrition lines, whose four sections and list sizes NutritionSections and NutritionListSizes state |
| MarkdownRenderer.ChatPreferencesBody | agent/memory/markdown_renderer.py:394-401 | the chat-preference body opens no section |
| MarkdownRenderer.NumberedTopics | agent/memory/markdown_renderer.py:405-407 | one line per topic, none a section heading |
| MarkdownRenderer.TopicNumbering | agent/memory/markdown_renderer.py:406-407 | the k-th topic line carries the number k + 1 and the k-th topic |
| MarkdownRenderer.TopicBody | agent/memory/markdown_renderer.py:404-410 | the topic body opens no section |
| MarkdownRenderer.InteractionLines | agent/memory/markdown_renderer.py:415-420 | an interaction takes three lines, four exactly when it has key points |
| MarkdownRenderer.InteractionBody | agent/memory/markdown_renderer.py:413-423 | the interaction body opens no section |
| MarkdownRenderer.FeedbackBody | agent/memory/markdown_renderer.py:426-431 | the feedback body opens no section |
| MarkdownRenderer.ChatSectionList | agent/memory/markdown_renderer.py:394-431 | every chat section body is free of `## ` lines |
| MarkdownRenderer.ChatSections | agent/memory/markdown_renderer.py:371-433 | the chat document has exactly the sections 对话偏好, 常见问题主题, 近期交互摘要, 用户反馈记录 in that order |
| MarkdownRenderer.ChatRecentCapped | agent/memory/markdown_renderer.py:415-428 | at most five interactions (three or four lines each) and five feedback entries (one line each) are shown |
| MarkdownRenderer.RenderChat | agent/memory/markdown_renderer.py:371-433 | no contract of its own: the `"\n"` join of the chat lines, whose four sections and capped lists ChatSections and ChatRecentCapped state |
| MarkdownRenderer.RenderWorkspace | agent/memory/markdown_renderer.py:438-460 | ValueError exactly for an unknown workspace name; success exactly when the record is of the workspace's kind, and then the output is that workspace's renderer |
| SyncService.Allergies | agent/memory/sync_service.py:114-122 | one allergy per row with its name and reaction; the severity is the row's level, or moderate when the level is unset, and an out-of-range level raises (the whole sync then fails) |
| SyncService.Diseases | agent/memory/sync_service.py:124-137 | one disease per current row with its name and code; the status is 控制中 exactly when the severity level is 1, else 活跃 |
| SyncService.AvoidTexts | agent/memory/sync_service.py:557-558 | one avoidance entry per allergy |
| SyncService.MatchesMembers | agent/memory/sync_service.py:552-554 | the restrictions of one disease are exactly the table entries whose keyword occurs in its name |
| SyncService.DiseaseRestrictionsMembers | agent/memory/sync_service.py:551-554 | a disease restriction is present exactly when some disease name contains some keyword of the five-entry table |
| SyncService.AvoidTextsAt | agent/memory/sync_service.py:557-558 | the k-th avoidance entry names the k-th allergen |
| SyncService.AvoidTextsMembers | agent/memory/sync_service.py:557-558 | an avoidance entry is present exactly when some allergy names it |
| SyncService.RestrictionsMembers | agent/memory/sync_service.py:534-560 | a restriction is present exactly when it comes from a disease keyword match or from an allergy |
| SyncService.RestrictionsEndWithAvoidances | agent/memory/sync_service.py:550-560 | the allergy avoidances come last, one per allergy, in allergy order |
| SyncService.ExtractDietaryRestrictions | agent/memory/sync_service.py:534-560 | the nested loops produce exactly the restriction list specified above |
| SyncService.Restrictions | agent/memory/sync_service.py:534-560 | no contract of its own: the disease matches followed by one avoidance per allergy, whose members RestrictionsMembers and RestrictionsEndWithAvoidances state |
| SyncService.SharedDataOf | agent/memory/sync_service.py:110-164 | the shared record exists exactly when every allergy level and the activity level are valid; it carries the user, the timestamp, all allergies and current diseases, no medications, empty liked/disliked lists, the derived restrictions and default behaviour patterns |
| SyncService.SharedProfileDefaults | agent/memory/sync_service.py:111-158 | unset gender, birth date, height, weight and activity level fall back to 1, age 30, 170.0, 70.0 and light activity; set ones are kept |
| SyncService.ActiveGoalOf | agent/memory/sync_service.py:197-211 | an in-progress goal row becomes the active goal exactly when its type is one of the five; a target weight of 0 or none is dropped |
| SyncService.ProgressOf | agent/memory/sync_service.py:241-264 | weight progress exists exactly when there are weight records and a target weight; it spans the first and last record, its percentage lies in 0..100 and the remaining distance is non-negative |
| SyncService.TodayStatusOf | agent/memory/sync_service.py:266-293 | consumed plus remaining equals the daily target for each of calories, protein, carbs and fat; with no summary nothing is consumed, otherwise the summary totals (unset as 0) are |
| SyncService.GoalDataOf | agent/memory/sync_service.py:175-307 | the goal record fails exactly for an out-of-range goal type; otherwise it has the user, the timestamp, targets and BMR/TDEE, the active goal exactly when a goal row exists, and no milestones, suggestions or warnings |
| SyncService.GoalBaseline | agent/memory/sync_service.py:213-239 | BMR, TDEE and activity factor are computed from the profile with its defaults; the calorie adjustment is that of the goal type, maintain (0) without a goal, and the calorie target is TDEE plus the adjustment, rounded |
| SyncService.GoalTodayAndProgress | agent/memory/sync_service.py:241-293 | today's consumed plus remaining equals the targets; weight progress is present exactly when a goal with a target weight and weight records exist, with percentage in 0..100 |
| SyncService.InsertDesc | agent/memory/sync_service.py:385 | inserting adds exactly one element |
| SyncService.SortDesc | agent/memory/sync_service.py:385 | sorting keeps the length |
| SyncService.InsertDescPerm | agent/memory/sync_service.py:385 | inserting adds exactly the new element to the multiset |
| SyncService.InsertDescSorted | agent/memory/sync_service.py:385 | inserting into a descending list keeps it descending |
| SyncService.SortDescSpec | agent/memory/sync_service.py:385 | `sorted(..., reverse=True)` is descending by the key and a permutation of its input |
| SyncService.Entries | agent/memory/sync_service.py:385 | `.items()` lists every key once, in insertion order, with its value |
| SyncService.DietSummaryOf | agent/memory/sync_service.py:333-349 | no summaries give the default summary; the period is 7 days; regularity is 良好 exactly when there are none or at least five summaries, else 需改善 |
| SyncService.SumBounds | agent/memory/sync_service.py:344-347 | a sum of values in [lo, hi] lies between count·lo and count·hi |
| SyncService.StepBounds | agent/memory/sync_service.py:344-347 | adding one value in [lo, hi] keeps the running bound |
| SyncService.AverageBounds | agent/memory/sync_service.py:344-347 | a rounded average of values in [lo, hi] lies within 0.05 of that range |
| SyncService.LevelOf | agent/memory/sync_service.py:378-380 | a confidence maps to A, B or C |
| SyncService.CountRecord | agent/memory/sync_service.py:361-381 | counting a record keeps every key present in the counts |
| SyncService.FoodCounts | agent/memory/sync_service.py:360-381 | every counted name has its entry |
| SyncService.CountRecordStep | agent/memory/sync_service.py:361-381 | one record adds its non-empty name if new, raises its count by one, and keeps all health levels valid |
| SyncService.FoodCountsSpec | agent/memory/sync_service.py:360-381 | the counts hold exactly the non-empty names that occur, each with its number of occurrences |
| SyncService.ModeAmong | agent/memory/sync_service.py:388 | the chosen level occurs at least as often as every candidate |
| SyncService.Mode | agent/memory/sync_service.py:388 | `max(set(levels), key=levels.count)` is a most frequent level |
| SyncService.FrequentFoodOf | agent/memory/sync_service.py:385-394 | a frequent food keeps its name and count; its level is B with no levels, else one of its recorded levels |
| SyncService.TopEntries | agent/memory/sync_service.py:385 | the `[:n]` slice has at most n entries |
| SyncService.TopEntriesFrom | agent/memory/sync_service.py:385 | the top entries are in descending key order and each is a real entry of the dictionary |
| SyncService.TopEntriesComplete | agent/memory/sync_service.py:385 | an entry left out of the top n means the list is full and its key is no larger than the last one kept |
| SyncService.TopFoods | agent/memory/sync_service.py:385 | at most ten frequent foods |
| SyncService.TopFoodsFrom | agent/memory/sync_service.py:383-394 | frequent foods are in descending frequency, each with its true count and a level A, B or C |
| SyncService.TopFoodsComplete | agent/memory/sync_service.py:385 | a food left out means ten are shown and it is no more frequent than the tenth |
| SyncService.FrequentFoodsSpec | agent/memory/sync_service.py:351-394 | at most ten foods, most frequent first, each with its real number of occurrences; any food left out is no more frequent than the tenth |
| SyncService.MealTypeName | agent/memory/sync_service.py:402 | meal types 1..5 have their names, anything else is 未知 |
| SyncService.RecentAnalyses | agent/memory/sync_service.py:404-416 | at most one analysis per record |
| SyncService.AnalysisOf | agent/memory/sync_service.py:409-415 | an analysis carries the record's date, exactly one food (未识别 when the record has no name) and level A |
| SyncService.RecentAnalysesSpec | agent/memory/sync_service.py:404-416 | the list is empty exactly when no record has details; each analysis comes from a record with details, names one food and has level A |
| SyncService.NutritionDataOf | agent/memory/sync_service.py:418-426 | the nutrition record carries the user and timestamp, no trends, at most ten foods and five analyses |
| SyncService.TopicOf | agent/memory/sync_service.py:469-470 | a topic is never empty: an empty or missing title becomes 一般咨询 |
| SyncService.MessagesOf | agent/memory/sync_service.py:463-466 | at most three messages per session |
| SyncService.InteractionOf | agent/memory/sync_service.py:474-482 | a question is cut to 100 characters, with no key points and the session's topic |
| SyncService.CountSessionStep | agent/memory/sync_service.py:461-482 | a session with messages adds one to its topic's count; an interaction is added exactly while fewer than five are held |
| SyncService.TallyChat | agent/memory/sync_service.py:457-482 | no contract of its own: the tally after the session loop, whose topic counts and interactions TallyChatSpec states |
| SyncService.TallyChatSpec | agent/memory/sync_service.py:457-482 | the topic counts hold exactly the topics asked about, each with its number of sessions; there are min(asked sessions, 5) interactions |
| SyncService.FrequentTopics | agent/memory/sync_service.py:484-488 | at most five frequent topics |
| SyncService.FrequentTopicsComplete | agent/memory/sync_service.py:487 | a topic left out means five are shown and it was asked no more often than the fifth |
| SyncService.FrequentTopicsSpec | agent/memory/sync_service.py:457-488 | the frequent topics are in descending count, each with its real count; a topic left out was asked no more often than the fifth |
| SyncService.ChatDataOf | agent/memory/sync_service.py:490-498 | the chat record carries the user and timestamp, default preferences, no feedback, at most five topics and five interactions |
| SyncService.CountFoods | agent/memory/sync_service.py:360-381 | the counting loop produces exactly the specified counts |
| SyncService.CollectRecentAnalyses | agent/memory/sync_service.py:401-416 | the loop collects exactly the specified analyses |
| SyncService.TallyConversations | agent/memory/sync_service.py:457-482 | the loop produces exactly the specified topic counts and interactions |
| SyncService.Save | agent/memory/sync_service.py:168-169 | saving succeeds exactly when the store is writable, and then replaces that one workspace file |
| SyncService.SyncService.SyncSharedMemory | agent/memory/sync_service.py:83-173 | success exactly when the user's data builds and the store is writable; then shared.md holds the rendered record, otherwise no file changes |
| SyncService.SyncService.SyncGoalTracking | agent/memory/sync_service.py:175-316 | success exactly when the goal data builds and the store is writable; then goal_tracking.md holds the rendered record, otherwise no file changes |
| SyncService.SyncService.SyncNutritionWorkspace | agent/memory/sync_service.py:318-435 | success exactly when the store is writable; then nutrition.md holds the rendered record |
| SyncService.SyncService.SyncChatWorkspace | agent/memory/sync_service.py:437-507 | success exactly when the store is writable; then chat.md holds the rendered record |
| SyncService.SyncService.FullSync | agent/memory/sync_service.py:509-532 | all four syncs run in order whatever each returns: with a writable store nutrition.md and chat.md end as their renders, and shared.md and goal_tracking.md as theirs whenever their data build, every other file and every workspace whose data fail keeps its old content; a read-only store changes nothing; the result is true exactly when the shared and goal data build and the store is writable |
| SyncService.SyncProfileFiles | agent/memory/sync_service.py:519-520 | the shared and goal syncs each succeed as their own syncs do and leave their renders in place; only those two files may change |
| SyncService.SyncActivityFiles | agent/memory/sync_service.py:521-522 | the nutrition and chat syncs succeed exactly with a writable store and then leave their renders; only those two files may change |
| SyncService.SyncedPair | agent/memory/sync_service.py:519-522 | two syncs of different workspaces in a row each keep the file the other wrote, and together change only those two |
| SyncService.SyncsInTwoSteps | agent/memory/sync_service.py:519-522 | after the profile pair and the activity pair, every one of the four workspaces holds what its own sync left |
| SyncService.SyncShared | agent/memory/sync_service.py:83-173 | only shared.md may change, and it does exactly on success; on success shared.md holds the rendered record |
| SyncService.SyncGoal | agent/memory/sync_service.py:175-316 | only goal_tracking.md may change, and only on success; on success goal_tracking.md holds the rendered record |
| SyncService.SyncNutrition | agent/memory/sync_service.py:318-435 | only nutrition.md may change, and only on success; on success nutrition.md holds the rendered record |
| SyncService.SyncChat | agent/memory/sync_service.py:437-507 | only chat.md may change, and only on success; on success chat.md holds the rendered record |
| SyncService.SyncWorkspace | agent/memory/sync_service.py:83-507 | syncing any one workspace changes that file alone and succeeds exactly when its data builds and the store is writable |
| MemoryEvents.Names | agent/memory/memory_manager.py:207-213 | the keyword names of a call, in order |
| MemoryEvents.UnexpectedKeyword | agent/memory/memory_manager.py:207-213 | a call passing any keyword that `update_section` does not declare cannot bind (TypeError) |
| MemoryEvents.ContentCallBinds | agent/memory/memory_manager.py:207-213 | a call passing workspace, section and content binds |
| MemoryEvents.Raised | shared/tasks/memory_events.py:62-66 | only an `update_section` call or the goal recalculation can raise |
| MemoryEvents.CallUpdateSection | agent/memory/memory_manager.py:207-256 | a call raises exactly as specified; a raising call changes no file, and otherwise at most the named workspace changes |
| MemoryEvents.Perform | shared/tasks/memory_events.py:40-76 | after a raise every later step is skipped; otherwise the step is recorded unless it raises, and only the workspaces it touches may change |
| MemoryEvents.DataCallRaises | shared/tasks/memory_events.py:62-66 | the `data=` keyword used by the event handlers raises TypeError on every call |
| MemoryEvents.OnFoodRecordCreated | shared/tasks/memory_events.py:25-76 | as written, the handler stops with TypeError at its first `update_section` call: nothing is done and no file changes |
| MemoryEvents.OnWeightRecorded | shared/tasks/memory_events.py:79-126 | as written, TypeError at the first call: neither sync runs and no file changes |
| MemoryEvents.OnGoalChanged | shared/tasks/memory_events.py:129-189 | with a profile, recalculation raises exactly when weight, height or age is missing; without an error it recalculates (with a profile) and then syncs goal tracking; only goal_tracking.md may change |
| MemoryEvents.OnConversationEnded | shared/tasks/memory_events.py:192-244 | as written, TypeError at the first call: nothing is done and no file changes |
| MemoryEvents.OnProfileUpdated | shared/tasks/memory_events.py:247-283 | shared memory is always re-synced, goal tracking exactly when a calculation field (weight, height, age, activity_level, gender) was updated; only those files may change |
| MemoryEvents.OnSharedRowsUpdated | shared/tasks/memory_events.py:286-331 | an allergy or disease update re-syncs shared memory alone |
| MemoryEvents.OnFoodRecordCreatedWithContent | shared/tasks/memory_events.py:25-76 | with `content=` the food-record handler appends the analysis to the nutrition workspace and syncs goal tracking, touching only those two files |
| Scheduler.DbSession.Close | shared/tasks/scheduler.py:74-75 | the session is closed unless `close()` raises, when it stays as it was |
| Scheduler.Writable | shared/tasks/scheduler.py:52-66 | one writability flag per user store |
| Scheduler.Successes | shared/tasks/scheduler.py:52-66 | no more successes than users |
| Scheduler.SyncUser | shared/tasks/scheduler.py:56-62 | one user's sync succeeds exactly as the workspace sync does and changes only that workspace file |
| Scheduler.SyncUsers | shared/tasks/scheduler.py:52-66 | successes and errors add up to the number of users; the successes are exactly the users whose sync succeeds; each store changes only the job's workspace |
| Scheduler.Dedup | shared/tasks/scheduler.py:97 | `list(set(...))` over the goal rows' user ids never lengthens the list |
| Scheduler.DedupSpec | shared/tasks/scheduler.py:97 | `list(set(...))` keeps exactly the ids present, each once |
| Scheduler.RunBatchJob | shared/tasks/scheduler.py:31-219 | an exception from the imports or `SessionLocal()` escapes the job with no session, no counts and no file changed; an exception from `db.close()` escapes after the rest has run and leaves the session open; a failing query yields no counts; otherwise successes plus errors equal the users selected and successes are those whose sync succeeds; each store changes at most the job's workspace |
| Scheduler.TaskOf | shared/tasks/scheduler.py:305-312 | the four task names map to their workspaces, anything else to none |
| Scheduler.TaskNames | shared/tasks/scheduler.py:305-310 | every workspace has a task name |
| Scheduler.RunTaskNow | shared/tasks/scheduler.py:295-322 | true exactly for a known task name whose job raises nothing past its `try` (opening the session and closing it); false for an unknown name or an escaping exception; an unknown name or a failed opening changes no file, otherwise at most the workspace of that name changes |
| Scheduler.Ids | shared/tasks/scheduler.py:244-276 | the job ids in order |
| Scheduler.WithJobSpec | shared/tasks/scheduler.py:244-276 | adding a job with a new id appends it; with an existing id it replaces the first job of that id in place |
| Scheduler.Tasks | shared/tasks/scheduler.py:244-276 | the job tasks in order |
| Scheduler.ScheduleSpec | shared/tasks/scheduler.py:244-276 | the four jobs have distinct ids and sync each workspace exactly once |
| Scheduler.AsyncScheduler.AddJob | shared/tasks/scheduler.py:244-276 | the job list becomes the list with the job added or replaced by id |
| Scheduler.AsyncScheduler.Start | shared/tasks/scheduler.py:279 | the scheduler runs and keeps its jobs |
| Scheduler.AsyncScheduler.Shutdown | shared/tasks/scheduler.py:290 | the scheduler stops and keeps its jobs |
| Scheduler.SchedulerHost.Setup | shared/tasks/scheduler.py:222-282 | an existing scheduler is returned unchanged; otherwise a new one runs exactly the four jobs |
| Scheduler.SchedulerHost.Shutdown | shared/tasks/scheduler.py:285-292 | a running scheduler is stopped and the global is cleared |
| Orchestrator.Add | shared/services/agent_orchestrator.py:489-494 | appending an item extends exactly the list of its category |
| Orchestrator.ItemOf | shared/services/agent_orchestrator.py:487 | an item never contains `(`: it is cut at the first one |
| Orchestrator.ExtractPreferences | shared/services/agent_orchestrator.py:462-496 | the line loop returns no preferences for missing or empty memory, otherwise exactly the scan of its lines |
| Orchestrator.ScanFromAppend | shared/services/agent_orchestrator.py:477-494 | scanning two runs of lines is scanning the second from where the first left off |
| Orchestrator.ScanKeepsEarlier | shared/services/agent_orchestrator.py:477-494 | items already collected are kept, and later lines only append after them |
| Orchestrator.HeadingCloses | shared/services/agent_orchestrator.py:484-485 | a line that closes the current list splits the memory into two independent scans whose items are concatenated |
| Orchestrator.ItemsAreBullets | shared/services/agent_orchestrator.py:486-494 | every collected item comes from a `- ` bullet of the memory, contains no `(` and passes the placeholder filter |
| Orchestrator.NoHeadingNoItems | shared/services/agent_orchestrator.py:478-486 | a category whose heading never appears collects no item |
| Orchestrator.BulletIsNoHeading | shared/services/agent_orchestrator.py:478-486 | a bullet line without `#` opens and closes nothing |
| Orchestrator.PlainItem | shared/services/agent_orchestrator.py:487 | a bullet without `(` and without surrounding spaces yields its text |
| Orchestrator.OpensNoList | shared/services/agent_orchestrator.py:478-483 | a line without the heading characters opens no list |
| Orchestrator.AllergyHeading | shared/services/agent_orchestrator.py:478-479 | the rendered allergy heading opens the allergy list |
| Orchestrator.DiseaseHeading | shared/services/agent_orchestrator.py:480-481 | the rendered disease heading opens the disease list |
| Orchestrator.MedicationHeading | shared/services/agent_orchestrator.py:478-485 | the medication sub-heading leaves the current list open as written; the corrected reading closes it |
| Orchestrator.AllergyPlaceholder | shared/services/agent_orchestrator.py:486-487 | the rendered no-allergy placeholder bullet yields the item 无已知过敏原 |
| Orchestrator.AllergyPlaceholderKept | shared/services/agent_orchestrator.py:488 | 无已知过敏原 passes the `暂无`/`无` filter as written and is dropped by the corrected reading |
| Orchestrator.ParenItem | shared/services/agent_orchestrator.py:487 | a bullet `name (rest` yields the name |
| Orchestrator.MedicationBullet | shared/services/agent_orchestrator.py:486-487 | a rendered medication bullet yields the drug name and dose |
| Orchestrator.MedicationKept | shared/services/agent_orchestrator.py:488 | a medication item passes the filter |
| Orchestrator.PlaceholderBulletsKept | shared/services/agent_orchestrator.py:477-494 | as written, an allergy list showing only the placeholder yields the allergy 无已知过敏原 |
| Orchestrator.MedicationsReadAsDiseases | shared/services/agent_orchestrator.py:477-494 | as written, a medication under the medication sub-heading is collected as a disease |
| Orchestrator.StrictDropsPlaceholder | shared/services/agent_orchestrator.py:477-494 | the corrected reading yields no allergy for the placeholder list |
| Orchestrator.StrictClosesDiseases | shared/services/agent_orchestrator.py:477-494 | the corrected reading collects no disease from the medication list |
| Orchestrator.StrictNeverKeepsPlaceholders | shared/services/agent_orchestrator.py:477-494 | the corrected reading never collects a rendered placeholder, for any memory text |
| Orchestrator.DefaultGoalData | shared/services/agent_orchestrator.py:498-524 | the default targets are 2000 kcal with the default macros, nothing consumed, the whole target remaining, no suggestions or warnings |
| Orchestrator.DefaultBudgetAddsUp | shared/services/agent_orchestrator.py:498-524 | in the default data consumed plus remaining equals the target for every macro |
| Orchestrator.ConsumedMatches | shared/services/agent_orchestrator.py:289-294 | today's consumption read by the orchestrator equals the goal workspace's consumed values |
| Orchestrator.CallGoalAgent | shared/services/agent_orchestrator.py:233-317 | consumed plus remaining equals the target for every macro; a failed query or missing profile gives the default data; otherwise consumption is today's summary |
| Orchestrator.GoalDataFrom | shared/services/agent_orchestrator.py:282-313 | the goal data built from targets and consumption adds up |
| Orchestrator.WorkspaceGoal | agent/memory/sync_service.py:175-307 | the goal workspace built for the same rows has BMR/TDEE, targets and today's status |
| Orchestrator.GoalAgentMatchesWorkspace | shared/services/agent_orchestrator.py:255-288 | the orchestrator's BMR, TDEE and macro targets agree with those written to the goal workspace for the same rows |
| Orchestrator.GoalAgentBudgetMatchesWorkspace | shared/services/agent_orchestrator.py:289-300 | the orchestrator's consumed values agree with the goal workspace's |
| Orchestrator.MealOf | shared/services/agent_orchestrator.py:440-445 | a meal has the four macro keys, the given calories, the analysis macros when found and zero macros otherwise |
| Orchestrator.CalculateGoalImpact | shared/services/agent_orchestrator.py:427-460 | an impact exists exactly with non-empty targets holding calories and a calorie total the lookup finds (never by attribute on the dict); it fits the budget exactly when the remaining calories stay non-negative after the meal, and it carries the targets, the budget before the meal and the suggestions |
| Orchestrator.DefaultBudgetFits | shared/services/agent_orchestrator.py:427-460 | read by key, against the default data a meal fits exactly when it has at most 2000 kcal |
| Orchestrator.AttributeReadFindsNoCalories | shared/services/agent_orchestrator.py:437-438 | read by attribute, as written, no analysis ever gets a goal impact |
| Orchestrator.LastCompletedSpec | shared/services/agent_orchestrator.py:351-363 | the result is none exactly when no chunk is completed, else the data of the last completed chunk |
| Orchestrator.LastCompleted | shared/services/agent_orchestrator.py:351-363 | the stream loop keeps exactly the last completed chunk |
| Orchestrator.StreamResultSpec | shared/services/agent_orchestrator.py:364-371 | no completed chunk gives the empty result; an analysis always comes from a completed chunk |
| Orchestrator.NoFallbackAfterStream | shared/services/agent_orchestrator.py:319-376 | once the enhanced run streams, the fallback graph is never consulted |
| Orchestrator.BothRunsFail | shared/services/agent_orchestrator.py:373-425 | when both the enhanced and the original run raise, the result is empty |
| Orchestrator.FoodEventCallNeverBinds | shared/services/agent_orchestrator.py:544-550 | the call to the food-record event passes a keyword the handler does not declare, so it always raises and is swallowed |
| Orchestrator.TriggerMemoryUpdates | shared/services/agent_orchestrator.py:533-556 | an exception is caught exactly when there is an analysis: as written `.food_items` on the dict raises AttributeError; read by key the event call raises TypeError |
| Orchestrator.LoadUserMemory | shared/services/agent_orchestrator.py:224-231 | the loaded memory is the shared file's content, none when the file is absent |
| Orchestrator.AnalysisOf | shared/services/agent_orchestrator.py:52-128 | the status is completed exactly with an analysis; a goal context needs the key reading and an analysis with calories; the combined result carries no error |
| Orchestrator.MissingMemoryIsEmpty | shared/services/agent_orchestrator.py:97 | missing memory and empty memory give the same analysis |
| Orchestrator.StreamedAnalysisGetsNoGoalContext | shared/services/agent_orchestrator.py:108-113 | as written, the combined result never carries a goal context, whatever the goal branch and the agent return |
| Orchestrator.FailedGoalUsesDefault | shared/services/agent_orchestrator.py:88-95 | read by key, when the goal lookup fails the default goal data is used, so an analysed meal fits exactly when it has at most 2000 kcal |
| Orchestrator.AgentOrchestrator.GetClient | shared/services/agent_orchestrator.py:46-50 | the client is created once, for the service URL, and reused |
| Orchestrator.AgentOrchestrator.Run | shared/services/agent_orchestrator.py:338-371 | a streamed run yields the stream's result, a failed run its error; the client is created if needed |
| Orchestrator.AgentOrchestrator.CallNutritionAgent | shared/services/agent_orchestrator.py:319-425 | the result is the specified enhanced-then-original call |
| Orchestrator.AgentOrchestrator.AnalyzeFoodWithGoals | shared/services/agent_orchestrator.py:52-138 | the result is the specified combination of memory, goal data and nutrition analysis, read by attribute as written, so it carries no goal context |
| Orchestrator.AgentOrchestrator.EnsureUserMemory | shared/services/agent_orchestrator.py:526-531 | an existing shared file is left as it is; a missing one is created exactly when the shared sync succeeds; no other file changes |
| Orchestrator.AgentOrchestrator.GetDailyStatus | shared/services/agent_orchestrator.py:140-183 | the status is built from the goal agent's data; only the shared file may change |
| Orchestrator.DailyStatusAddsUp | shared/services/agent_orchestrator.py:140-176 | the daily status always succeeds and for every macro consumed plus remaining equals the target |
| Orchestrator.ChatMemoryContext | shared/services/agent_orchestrator.py:185-220 | the context is the shared memory and has_memory is true exactly when it exists |
| Orchestrator.OrchestratorHost.GetOrchestrator | shared/services/agent_orchestrator.py:560-565 | the first call creates the orchestrator, later calls return the same one |
| Orchestrator.SameInstance | shared/services/agent_orchestrator.py:560-565 | two calls return the same orchestrator |
| GoalNodes.Pow10 | agent/goal_tracking/nodes.py:350 | a power of ten is positive |
| GoalNodes.DecimalValue | agent/goal_tracking/nodes.py:350-353 | `float()` of digits and dots is non-negative when it parses |
| GoalNodes.DotlessDigits | agent/goal_tracking/nodes.py:350 | a decimal string without a dot is all digits |
| GoalNodes.DecimalOfNat | agent/goal_tracking/nodes.py:350-353 | the decimal rendering of a whole number parses back to that number |
| GoalNodes.TwoDotsRaise | agent/goal_tracking/nodes.py:350-354 | a filtered value with two dots does not parse (ValueError), which abandons the rest of the line |
| GoalNodes.SecondField | agent/goal_tracking/nodes.py:346-352 | `split(':')[1]` holds no colon |
| GoalNodes.Measure | agent/goal_tracking/nodes.py:349-353 | a measurement is non-negative; with no digit or dot left it is the default |
| GoalNodes.ApplyPart | agent/goal_tracking/nodes.py:342-353 | a part keeps the profile valid and the activity level unchanged; a 性别 part sets gender 1 exactly when it names 男, else 2 |
| GoalNodes.PartStep | agent/goal_tracking/nodes.py:341-354 | once a part has raised, later parts change nothing |
| GoalNodes.PartsFold | agent/goal_tracking/nodes.py:340-354 | the parts of a line keep the profile valid and leave the activity level alone |
| GoalNodes.StoppedStays | agent/goal_tracking/nodes.py:339-355 | after a part raises, the rest of the line is ignored and what was read before it is kept |
| GoalNodes.ActivityMarker | agent/goal_tracking/nodes.py:358-371 | a marker yields a level between 1 and 5 |
| GoalNodes.LineStep | agent/goal_tracking/nodes.py:334-371 | a memory line keeps the profile valid |
| GoalNodes.ProfileFold | agent/goal_tracking/nodes.py:320-373 | the parsed profile is always valid |
| GoalNodes.ProfileOf | agent/goal_tracking/nodes.py:320-373 | the profile read from any memory text is valid |
| GoalNodes.ApplyParts | agent/goal_tracking/nodes.py:338-354 | the parts loop of a basic-info line returns the profile the specified parts fold gives, keeping the updates made before a part that raises |
| GoalNodes.ExtractProfileFromMemory | agent/goal_tracking/nodes.py:320-373 | the line loop returns exactly the specified profile, which is valid |
| GoalNodes.NoProfileLinesGiveDefaults | agent/goal_tracking/nodes.py:328-332 | memory without a 身高 or 活动水平 line yields the default profile |
| GoalNodes.OtherLineKeepsProfile | agent/goal_tracking/nodes.py:338-358 | a line that is neither the basic-information nor the activity line changes nothing |
| GoalNodes.ParenMarker | agent/goal_tracking/nodes.py:360-369 | a line ending in `(d)` contains the marker `(e)` exactly when d = e |
| GoalNodes.ActivityNameFacts | agent/memory/markdown_renderer.py:87 | the rendered activity names hold no `(` and no 身 |
| GoalNodes.ActivityMarkerOf | agent/goal_tracking/nodes.py:358-371 | a line ending in `(d)` yields level d |
| GoalNodes.RenderedActivityRead | agent/goal_tracking/nodes.py:358-371 | the activity line of the shared memory reads back as the rendered level |
| GoalNodes.AgeField | agent/goal_tracking/nodes.py:346 | the second field of a rendered age part is its digits |
| GoalNodes.StripSpaced | agent/goal_tracking/nodes.py:342 | stripping removes the spaces the renderer puts around a part |
| GoalNodes.RenderedAgeRead | agent/goal_tracking/nodes.py:345-347 | the rendered age part reads back as that age |
| GoalNodes.MeasureOfNat | agent/goal_tracking/nodes.py:348-353 | a height or weight written as bare digits followed by its unit reads back as that number |
| GoalNodes.DecimalOfWholeFloat | agent/goal_tracking/nodes.py:350-353 | `float()` of a whole number in `str(float)` form, `n.0`, is `n` |
| GoalNodes.MeasureOfWholeFloat | agent/goal_tracking/nodes.py:348-353 | a whole-number height or weight as the renderer's f-string shows a float, `n.0` followed by the unit (`175.0cm`), reads back as that number |
| GoalNodes.FilterAppend | agent/goal_tracking/nodes.py:347-353 | filtering distributes over concatenation |
| GoalNodes.FilterNone | agent/goal_tracking/nodes.py:347-353 | filtering a string of rejected characters gives nothing |
| GoalNodes.FilterAll | agent/goal_tracking/nodes.py:347-353 | filtering a string of accepted characters keeps it |
| GoalNodes.ReplyStep | agent/goal_tracking/nodes.py:436-465 | a blank line changes nothing, and a line only ever appends suggestions or warnings |
| GoalNodes.ParseReply | agent/goal_tracking/nodes.py:425-470 | there is always at least one suggestion |
| GoalNodes.ReplyFoldNext | agent/goal_tracking/nodes.py:436 | reading one more line is one more step |
| GoalNodes.ParseSuggestionResponse | agent/goal_tracking/nodes.py:425-470 | the line loop returns exactly the specified reply |
| GoalNodes.ReadReplyLine | agent/goal_tracking/nodes.py:437-465 | one loop iteration is one specified step |
| GoalNodes.StepKeepsItems | agent/goal_tracking/nodes.py:453-461 | a step keeps every suggestion longer than five characters and every warning longer than three |
| GoalNodes.FoldKeepsItems | agent/goal_tracking/nodes.py:436-465 | the whole loop keeps those length bounds |
| GoalNodes.ParsedItemsAreLong | agent/goal_tracking/nodes.py:453-470 | every parsed suggestion is longer than five characters and every warning longer than three |
| GoalNodes.BlankLinesIgnored | agent/goal_tracking/nodes.py:437-439 | a blank line appended to the reply changes nothing |
| GoalNodes.LStripMarks | agent/goal_tracking/nodes.py:455-459 | `lstrip` removes exactly the leading list marks |
| GoalNodes.PlainReplyLine | agent/goal_tracking/nodes.py:442-450 | a line without 建, 警 or 总 is no section header |
| GoalNodes.ColonlessReplyOpensNothing | agent/goal_tracking/nodes.py:436-465 | as written, a reply without an ASCII colon collects no suggestion or warning |
| GoalNodes.ColonlessStep | agent/goal_tracking/nodes.py:437-465 | a colon-less line never opens the suggestion or warning section |
| GoalNodes.ColonlessReplyGivesFallback | agent/goal_tracking/nodes.py:467-470 | as written, a reply without an ASCII colon yields only the fallback advice |
| GoalNodes.AdviceHeader | agent/goal_tracking/nodes.py:239 | the prompt's 建议： header is a suggestion header when either colon counts, and has no ASCII colon |
| GoalNodes.WarningHeader | agent/goal_tracking/nodes.py:244 | the prompt's 警告（如有）： header is a warning header when either colon counts, and has no ASCII colon |
| GoalNodes.AdviceLine | agent/goal_tracking/nodes.py:240 | a numbered advice line yields its text |
| GoalNodes.WarningLine | agent/goal_tracking/nodes.py:245 | a dashed warning line yields its text |
| GoalNodes.FoldThrough | agent/goal_tracking/nodes.py:436 | the loop state after line i is the step from the state before it |
| GoalNodes.StepHeader | agent/goal_tracking/nodes.py:442-450 | a header line switches the section and collects nothing |
| GoalNodes.StepAdvice | agent/goal_tracking/nodes.py:453-457 | an advice line in the suggestion section appends its text |
| GoalNodes.StepWarning | agent/goal_tracking/nodes.py:458-461 | a warning line in the warning section appends its text |
| GoalNodes.ReadFourLines | agent/goal_tracking/nodes.py:425-470 | a reply of a suggestion header, one advice, a warning header and one warning yields exactly that advice and that warning |
| GoalNodes.PromptFormatLosesAdvice | agent/goal_tracking/nodes.py:238-245 | as written, a reply in the prompt's own format (full-width colons) loses its advice and warning and yields only the fallback |
| GoalNodes.ColonlessFourLines | agent/goal_tracking/nodes.py:436-470 | any four lines without an ASCII colon yield only the fallback |
| GoalNodes.PromptFormatReadWithEitherColon | agent/goal_tracking/nodes.py:238-245 | reading either colon, the prompt-format reply yields exactly its advice and warning |
| GoalTracking.MacroTargetsOf | agent/goal_tracking/nodes.py:136-154 | the calorie target is TDEE plus the first active goal's adjustment (maintain without one), rounded |
| GoalTracking.BudgetLeft | agent/goal_tracking/nodes.py:175-185 | each remaining macro is its target less what was eaten, nothing when no consumption is recorded |
| GoalTracking.ProgressAfter | agent/goal_tracking/nodes.py:187-203 | progress is recomputed exactly with an active goal that has a target weight and at least two weights, with percentage in 0..100 and the trend of the weight change; otherwise it is left as it was |
| GoalTracking.Bullets | agent/goal_tracking/nodes.py:297 | one `- ` bullet per suggestion |
| GoalTracking.SuggestionsTextLines | agent/goal_tracking/nodes.py:297 | the joined suggestions split back into exactly one bullet per suggestion |
| GoalTracking.BulletFlat | agent/goal_tracking/nodes.py:297 | a bullet of a one-line suggestion is one line |
| GoalTracking.StatusText | agent/goal_tracking/nodes.py:285-290 | no contract of its own: the six-line 今日状态 body, with 0 for a missing amount |
| GoalTracking.SavedGoals | agent/goal_tracking/nodes.py:276-299 | no contract of its own: the 今日状态 section replaced, then the suggestion section when there are suggestions; SaveToGoalsMd states the resulting file |
| GoalTracking.GoalState.constructor | agent/goal_tracking/nodes.py:39-85 | a fresh state holds the input goals, consumption and weights and nothing computed |
| GoalTracking.GoalState.LoadUserContext | agent/goal_tracking/nodes.py:39-85 | when setting up the configuration or the analysis model fails, only the error message "Failed to load user context: …" is set and nothing is read; otherwise both workspaces are read, the profile is parsed exactly when the shared memory has text, and it is valid, and the step becomes context_loaded |
| GoalTracking.GoalState.CalculateBmrTdee | agent/goal_tracking/nodes.py:88-123 | without a profile only the error is set; with one BMR and TDEE are computed from it |
| GoalTracking.GoalState.CalculateDailyTargets | agent/goal_tracking/nodes.py:126-162 | without a non-zero TDEE only the error is set; otherwise the calorie and macro targets are set |
| GoalTracking.GoalState.TrackTodayProgress | agent/goal_tracking/nodes.py:165-211 | without targets only the error is set; otherwise the remaining budget and the progress are updated |
| GoalTracking.GoalState.GenerateSuggestions | agent/goal_tracking/nodes.py:214-274 | no model gives the no-model advice; a failed call the failure advice and an error; a reply its parsed suggestions, warnings and summary; there is always a suggestion |
| GoalTracking.GoalState.SaveToGoalsMd | agent/goal_tracking/nodes.py:277-307 | the status section is rewritten and the suggestion section too when there are suggestions, and the goal workspace is no longer unreadable; an unwritable store keeps its files and unreadable flags; snapshots and the writable flag never change; the step is saved_to_md |
| GoalTracking.GoalState.FormatOutput | agent/goal_tracking/nodes.py:310-315 | only the step changes |
| EnhancedNodes.NameOf | agent/enhanced_nutrition/enhanced_nodes.py:308 | a name never contains `(`: it is cut at the first one |
| EnhancedNodes.FoodsOf | agent/enhanced_nutrition/enhanced_nodes.py:318-321 | no empty food name is collected |
| EnhancedNodes.FoodsOfSnoc | agent/enhanced_nutrition/enhanced_nodes.py:318-321 | one more comma part adds its stripped text exactly when it is non-empty |
| EnhancedNodes.AppendFoods | agent/enhanced_nutrition/enhanced_nodes.py:318-326 | the inner loop appends exactly the non-empty stripped comma parts |
| EnhancedNodes.ExtractPreferencesFromMemory | agent/enhanced_nutrition/enhanced_nodes.py:265-328 | the line loop returns exactly the specified preferences |
| EnhancedNodes.ReadPrefLine | agent/enhanced_nutrition/enhanced_nodes.py:280-326 | one pass of the line loop moves the section and the lists exactly as one step of the specified reading does |
| EnhancedNodes.FoodsOfOmits | agent/enhanced_nutrition/enhanced_nodes.py:318-321 | a character absent from every part is absent from every food |
| EnhancedNodes.FoodsPlain | agent/enhanced_nutrition/enhanced_nodes.py:308-321 | collected foods contain neither `,` nor `(` |
| EnhancedNodes.StepKeepsWellFormed | agent/enhanced_nutrition/enhanced_nodes.py:280-326 | one line keeps every collected item free of `(`, and every food non-empty and free of `,` (other items may be empty, as `- (x)` gives the empty string) |
| EnhancedNodes.ReadKeepsWellFormed | agent/enhanced_nutrition/enhanced_nodes.py:280-326 | the loop keeps that property |
| EnhancedNodes.PreferencesFromMemory | agent/enhanced_nutrition/enhanced_nodes.py:265-328 | the preferences extracted from any memory text are well formed: no item carries a `(`, and every food is non-empty and free of `,` |
| EnhancedNodes.PrefFromAppend | agent/enhanced_nutrition/enhanced_nodes.py:280 | reading two runs of lines is reading the second from where the first left off |
| EnhancedNodes.CollectConcat | agent/enhanced_nutrition/enhanced_nodes.py:310-326 | collecting an item only appends to the later part |
| EnhancedNodes.StepConcat | agent/enhanced_nutrition/enhanced_nodes.py:280-326 | a line's effect does not depend on what was collected before |
| EnhancedNodes.PrefFromKeepsEarlier | agent/enhanced_nutrition/enhanced_nodes.py:280-326 | items already collected are kept, later lines only append |
| EnhancedNodes.UnknownHeadingCloses | agent/enhanced_nutrition/enhanced_nodes.py:298-299 | an unknown `## ` heading splits the memory into two independent reads whose items are concatenated |
| EnhancedNodes.Spaced | agent/memory/markdown_renderer.py:130 | each food preceded by a space |
| EnhancedNodes.JoinSpaced | agent/memory/markdown_renderer.py:130 | joining with `", "` is joining the spaced foods with `","` |
| EnhancedNodes.CommaSpaceJoin | agent/memory/markdown_renderer.py:130 | the rendered food list splits at commas into the first food and the spaced rest |
| EnhancedNodes.StripSpaced | agent/enhanced_nutrition/enhanced_nodes.py:319 | stripping removes the space after a comma |
| EnhancedNodes.FoodsOfSpaced | agent/enhanced_nutrition/enhanced_nodes.py:318-321 | the spaced foods are read back unchanged |
| EnhancedNodes.FoodsRoundTrip | agent/enhanced_nutrition/enhanced_nodes.py:318-321 | a food list rendered with `", "` is split back into exactly the same foods |
| EnhancedNodes.JoinEnds | agent/memory/markdown_renderer.py:130 | a join starts with its first element and ends with its last |
| EnhancedNodes.NoHeadingText | agent/enhanced_nutrition/enhanced_nodes.py:284-299 | a bullet line is no heading |
| EnhancedNodes.KeepsSection | agent/enhanced_nutrition/enhanced_nodes.py:284-299 | a non-heading line keeps the current section |
| EnhancedNodes.FoodLineRead | agent/enhanced_nutrition/enhanced_nodes.py:302-326 | a rendered liked or disliked bullet appends exactly its foods to that list |
| EnhancedNodes.LikedHeadingRead | agent/enhanced_nutrition/enhanced_nodes.py:292-293 | the liked-food sub-heading opens the liked list |
| EnhancedNodes.EmptyFoodsRead | agent/enhanced_nutrition/enhanced_nodes.py:304-305 | the renderer's `- 暂无记录` placeholder bullet changes nothing: no section moves and no item is collected |
| EnhancedNodes.BlankLineRead | agent/enhanced_nutrition/enhanced_nodes.py:282-283 | a blank line changes nothing |
| EnhancedNodes.TextsOfThree | agent/memory/markdown_renderer.py:127-132 | the texts of a three-line sub-section |
| EnhancedNodes.ReadThreeLines | agent/enhanced_nutrition/enhanced_nodes.py:280 | reading three lines is three steps |
| EnhancedNodes.LikedFoodsRoundTrip | agent/enhanced_nutrition/enhanced_nodes.py:265-328 | the liked-food sub-section the renderer writes is read back as exactly its foods |
| EnhancedNodes.Merged | agent/enhanced_nutrition/enhanced_nodes.py:110-113 | the merge keeps every given key, takes the five extracted lists over them and leaves other keys as given |
| EnhancedNodes.MergedAllergies | agent/enhanced_nutrition/enhanced_nodes.py:110-113 | after the merge the allergies are the extracted ones and any other key is as given |
| EnhancedNodes.HealthGrade | agent/enhanced_nutrition/enhanced_nodes.py:242-243 | a grade is one letter A..E: level 5 is A down to level 1 E, and anything else C |
| EnhancedNodes.HealthGradeOrder | agent/enhanced_nutrition/enhanced_nodes.py:242-243 | on levels 1..5 the grade is injective, inverted by GradeLevel, and a higher level has an earlier letter |
| EnhancedNodes.HeadingLineFlat | agent/enhanced_nutrition/enhanced_nodes.py:245 | the record heading is one line |
| EnhancedNodes.FoodLineFlat | agent/enhanced_nutrition/enhanced_nodes.py:241-246 | the food line is one line for one-line foods |
| EnhancedNodes.RecordReadBack | agent/enhanced_nutrition/enhanced_nodes.py:241-248 | the record splits into exactly its four lines, and its food line reads back as the analysed foods |
| EnhancedNodes.PrefsAfterLoad | agent/enhanced_nutrition/enhanced_nodes.py:104-113 | preferences with allergies are kept; otherwise the extracted allergies replace them, every given key stays, and extraction is still needed exactly when the memory lists no allergy |
| EnhancedNodes.PrefsLoadIdempotent | agent/enhanced_nutrition/enhanced_nodes.py:104-113 | loading the same memory twice gives the same preferences as once |
| EnhancedNodes.EnhancedState.constructor | agent/enhanced_nutrition/enhanced_nodes.py:53-72 | the state holds the input user, preferences and analysis and nothing loaded |
| EnhancedNodes.EnhancedState.LoadSharedMemory | agent/enhanced_nutrition/enhanced_nodes.py:83-128 | with a user, non-empty workspaces become the contexts and preferences are re-extracted as specified; the step is memory_loaded |
| EnhancedNodes.EnhancedState.GenerateAdviceWithContext | agent/enhanced_nutrition/enhanced_nodes.py:131-219 | no analysis sets only the error; structured advice is stored; a failed structured call followed by a plain reply stores the fixed fallback advice; two failures set the error and leave the step |
| EnhancedNodes.EnhancedState.SaveToNutritionMd | agent/enhanced_nutrition/enhanced_nodes.py:222-260 | with a user, an analysis and a writable store the record is appended to the 近期分析记录 section and the nutrition workspace is no longer unreadable; otherwise no file and no unreadable flag changes; snapshots and the writable flag never change; the step is saved_to_md |

## Left out

- File I/O (aiofiles, `Path`, `mkdir`, `iterdir`): one user's directory is the `files` map of `MemoryStore.MemoryManager`, with a set of unreadable workspaces standing for read errors; other users' directories appear only as the list of directory names `get_all_user_ids` scans.
- PyYAML `safe_load`/`dump` and Python's `str(float)`: abstract functions in `Foreign.Collaborators`; a failed `safe_load` is `None`.
- Binary floating point: quantities are exact `real` values and `round` is round-half-even on them, so results that depend on the binary representation of a float are not captured.
- The backslash-escape processing that `re.sub` applies to its replacement template: section content is inserted literally.
- Database queries (SQLAlchemy) in the sync service, the event handlers, the scheduler and the orchestrator: the rows arrive as sequences in `SyncService.Database`; query filters become the caller's choice of rows.
- SyncService.ModeAmong: `max(set(levels), key=levels.count)` (agent/memory/sync_service.py:388) walks a set of strings in hash order, which `PYTHONHASHSEED` varies from run to run, so when two health levels tie the source's choice is not determined; the model takes the first-listed level, and `SyncService.FrequentFoodOf`, `SyncService.SyncNutritionWorkspace` and `SyncService.FullSync` inherit that choice.
- LangGraph assistants, threads and streaming and every LLM call: fallible opaque outcomes passed in as parameters; prompt texts and the model set-up in `enhanced_state_init` are not modelled.
- `analysis.macronutrients` and the other contents of the nutrition agent's answer beyond what the merge and the goal impact read.
- `asyncio.gather`, `create_task` and `fire_and_forget`: the concurrent branches run in sequence with independent outcomes; the event-loop scheduling of `fire_and_forget` is not modelled.
- APScheduler triggers and cron times in `setup_scheduler`: only the singleton and the job count are modelled.
- Logging: log calls have no effect in the model.
- Clocks: `datetime.now()` and `date.today()` are parameters; one `now` stands for both clocks within one call.
- `current_step` in the enhanced-nutrition state: only the steps its modelled nodes set are distinguished; any other value is `OtherStep`.
- `except` branches that no modelled step can reach (a raise after a check that excludes it) are not modelled.
- Digits: `int()` is modelled for ASCII digits with an optional sign and single underscores between digit groups; Unicode digits are not.
- A `user_preferences` entry of `None` (which makes the source raise `TypeError`) is not modelled: preferences are either absent or a map.
- `GoalTracking.GoalState.constructor`: the active goals, today's consumption and the weight history are constructor parameters: the node state declares them (agent/goal_tracking/states.py:32, 35, 39), but the input schema GoalTrackingInput (agent/goal_tracking/states.py:62-70) leaves them out and no node sets them, so they come from whoever builds the state.
- `agent/utils/sturcts.py` is not part of this model: `NutritionAdvice` is a record of four string lists.
- The concrete one-line form of the snapshot timestamp is not proved; its properties are stated over any timestamp string.
- Nutrition trends and milestones are empty, exactly as the source leaves them.
- Pydantic's keeping of an `int` default in a `float` field: the `= 0` defaults of `calorie_adjustment`, `progress_percentage`, the eight `TodayStatus` amounts and the four `DietSummary` averages (agent/memory/schemas.py:138, 149, 154-161, 202-205) stay the int `0` and print as `0`, while the model holds every such field as a `real` and prints it with the float formatter (`str(0.0)`), so a defaulted record such as `DietSummary()` renders `0.0` where the source renders `0`; the same holds for the `else 0` calories of a recent analysis (agent/memory/sync_service.py:414).
- The routers, the graph wiring in `goal_agent.py`/`enhanced_agent.py`, the `states.py` files and prompt constants: no behaviour beyond what the modelled nodes do.

## Findings

| source | as written | input that shows it | evidently intended | confidence | as-written member | corrected member |
|---|---|---|---|---|---|---|
| shared/tasks/memory_events.py:62-66 | the handlers call `update_section(..., data=...)`, but `update_section` takes `content` and `replace`, so every such call raises `TypeError`; the handler's `except` swallows it and the syncs after it never run | any food record: `on_food_record_created` writes nothing and skips the goal sync | append the analysis with `content=` and then sync goal tracking | not executed | MemoryEvents.DataCallRaises | MemoryEvents.OnFoodRecordCreatedWithContent |
| shared/services/agent_orchestrator.py:477-494 | `_extract_preferences` drops only items containing 暂无 or equal to 无, so the renderer's placeholder bullet is read as an allergy | the lines `### 过敏原`, `- 无已知过敏原` give the allergy 无已知过敏原 | the placeholders the renderer writes for empty lists are not preferences | not executed | Orchestrator.PlaceholderBulletsKept | Orchestrator.StrictNeverKeepsPlaceholders |
| shared/services/agent_orchestrator.py:477-494 | a `### ` heading other than the three it knows does not close the current list, so the medication list that follows the disease list is read as diseases | the lines `### 疾病/医疗状况`, `### 用药情况`, `- 二甲双胍 500mg (每日两次)` give the disease 二甲双胍 500mg | any other sub-heading ends the current list | not executed | Orchestrator.MedicationsReadAsDiseases | Orchestrator.StrictClosesDiseases |
| agent/goal_tracking/nodes.py:436-470 | `_parse_suggestion_response` recognises section headers only with an ASCII `:`, while the prompt at lines 238-245 asks for the full-width `：` | the reply `建议：`, `1. 多吃新鲜蔬菜水果`, `警告（如有）：`, `- 蛋白质摄入不足` yields only the fallback advice and no warning | headers with either colon open their section | not executed | GoalNodes.PromptFormatLosesAdvice | GoalNodes.PromptFormatReadWithEitherColon |
| shared/services/agent_orchestrator.py:427-445 | the analysis handed back by the agent stream is the JSON dict of the graph state (:361-368, :411-418), but `_calculate_goal_impact` asks `hasattr(nutrition, 'total_calories')`, which a dict never satisfies, so the goal impact is always `None`; `_trigger_memory_updates` likewise reads `.food_items` (:547) and raises `AttributeError` | any completed analysis, e.g. `{"total_calories": 500}` against the 2000 kcal default, gets no goal context | read `total_calories` and the macronutrients by key | not executed | Orchestrator.StreamedAnalysisGetsNoGoalContext | Orchestrator.FailedGoalUsesDefault |
