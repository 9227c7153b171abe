# auto_history_pipeline_timecode — a verified model of the script pipeline

The script `auto_history_pipeline_timecode.py` turns a history topic into three
narration scripts and a one-minute, time-coded cut of the short one:

- `long`: an in-depth narrative.
- `from_summary`: the encyclopedia summary retold.
- `short`: a hook, three points and a call to action.

Each script comes from an external text generator when one is available and
the call succeeds. Otherwise it comes from a deterministic local synthesizer
that slices the summary into sentences and fills a fixed template. The short
script is then cut into five slots on a fixed 8/15/15/15/7-second schedule.

This project models that logic in Dafny and proves what it guarantees.
Modules, in dependency order:

| module | file | models |
|---|---|---|
| `Text` | `text.dfy` | Python's `str.strip`, `str.split(c)`, `str.join`, one-character `str.replace`, `str.startswith`, slicing and `str.format` with one placeholder; the `[p.strip() for p in ps if p.strip()]` pattern (`Clean`); the sentence split (`Sentences`) |
| `Prompts` | `prompts.dfy` | the prompt catalog: 3 variants × 2 languages, looked up by `'vi' if lang.startswith('vi') else 'en'` |
| `Fallback` | `fallback.dfy` | `local_fallback_formatter_long`, `_fromsummary` and `_short` |
| `Segmenter` | `segmenter.dfy` | `split_script_to_segments`: its loops as methods, proved against specification functions |
| `Composition` | `composition.dfy` | what the segmenter makes of the synthesized short script |
| `Generation` | `generation.dfy` | `call_openai`'s post-processing and `generate_three_scripts` |
| `Pipeline` | `pipeline.dfy` | `process_topic`, the `safe_name` file names, the `--topics` parse and the fetch-failure placeholder |

Whitespace is Python's own `str.isspace()` table, written out in
`Text.IsSpace`: U+0009–U+000D, U+001C–U+001F, U+0020, U+0085, U+00A0, U+1680,
U+2000–U+200A, U+2028, U+2029, U+202F, U+205F and U+3000.

External effects become inputs:

- The encyclopedia lookup is a `Fetch` value: `Fetched(summary)` or `FetchError(reason)`.
- The text generator is a function `Service` from variant and prompt to an
  `Outcome`: `Ok(raw)` or `Fail`. `Fail` stands for any exception the call raises.
- The capability test `OPENAI_AVAILABLE and os.getenv("OPENAI_API_KEY")` is a boolean `capable`.

Some behaviours of the code are easy to misread; the model states them as the code has them:

- The long script's middle is sentences 1–5 joined by a single space (line 132), not by ". ".
  `Fallback.LongResplit` proves the consequence: re-splitting the long script yields the
  middle as ONE sentence.
- `from_summary` joins its six sentences with a single space (lines 144, 146), not with ". ".
- The English attribution is `" Sources: Wikipedia."`, plural (line 146).
- The default intro (line 131) and the default first point (line 151) are Vietnamese in both languages.
- With exactly two non-empty lines, the segmenter uses the second line both as the only
  middle line and as the call to action (lines 169–170). It does not treat it as a call to
  action with no middle. See `Segmenter.MiddleOf`.
- A script is not always non-empty. The synthesizers always produce text (`Generation.FallbackFor`).
  A successful call whose answer is empty or all whitespace is kept as `""`, because line 126 only
  strips it (`Generation.BlankAnswerKept`).

## Model

| member | source | states |
|---|---|---|
| Text.Strip | auto_history_pipeline_timecode.py:130 | `s.strip()` is `s` minus a leading and a trailing run of whitespace; the result neither starts nor ends with whitespace |
| Text.StripUnique | auto_history_pipeline_timecode.py:130 | strip has exactly one answer: whitespace + stripped core + whitespace strips to that core |
| Text.StripIdempotent | auto_history_pipeline_timecode.py:130 | stripping twice is stripping once |
| Text.Split | auto_history_pipeline_timecode.py:130 | `s.split(c)` has at least one piece and no piece contains `c` |
| Text.JoinSplit | auto_history_pipeline_timecode.py:167 | joining the pieces of `s.split(c)` with `c` gives `s` back |
| Text.JoinAvoids | auto_history_pipeline_timecode.py:132 | a join of items that lack a character, with a separator that lacks it, lacks it too |
| Text.StartsWithAppend | auto_history_pipeline_timecode.py:193 | `(a + b).startswith(a)` holds for every `a` and `b` |
| Text.SplitJoin | auto_history_pipeline_timecode.py:167 | splitting a `c`-join of one or more `c`-free pieces gives the pieces back |
| Text.SplitConcat | auto_history_pipeline_timecode.py:167 | splitting `a + c + b` is the pieces of `a` followed by the pieces of `b` |
| Text.ReplaceChar | auto_history_pipeline_timecode.py:130 | `replace` with one character changes exactly the occurrences of that character and keeps the length |
| Text.Take | auto_history_pipeline_timecode.py:142 | `s[:n]` has `min(n, len(s))` items and is a prefix of `s` |
| Text.Slice | auto_history_pipeline_timecode.py:132 | `s[lo:hi]` has `min(hi, len(s)) - lo` items (none when that is not positive) and item k is `s[lo + k]` |
| Text.Clean | auto_history_pipeline_timecode.py:130 | the comprehension keeps at most as many items as it reads |
| Text.CleanWellFormed | auto_history_pipeline_timecode.py:130 | every kept item is non-empty and already stripped |
| Text.CleanConcat | auto_history_pipeline_timecode.py:172-176 | cleaning a concatenation is concatenating the cleanings |
| Text.CleanIdempotent | auto_history_pipeline_timecode.py:130 | cleaning a cleaned list changes nothing |
| Text.CleanSplitJoinFrom | auto_history_pipeline_timecode.py:278 | non-empty, stripped, `c`-free items joined by `c` plus whitespace split and clean back to the same items |
| Text.Sentences | auto_history_pipeline_timecode.py:130 | the sentence split of lines 130, 141 and 150: every sentence is non-empty, stripped and free of '.' and newlines |
| Text.SentencesOfJoined | auto_history_pipeline_timecode.py:130 | a summary written "s0. s1. … sn" (with or without a final '.') splits into exactly s0 … sn |
| Text.JoinSpaceIsSentence | auto_history_pipeline_timecode.py:132 | a space-join of sentences is empty exactly when there are none, and otherwise is one sentence |
| Text.Format | auto_history_pipeline_timecode.py:198 | filling a template puts the value verbatim between the text before and after the placeholder |
| Text.Unformat | auto_history_pipeline_timecode.py:198 | a value read out of a filled template fills it back to the same text |
| Text.FormatRoundTrip | auto_history_pipeline_timecode.py:198 | reading the value back out of a filled template gives that value |
| Prompts.LocaleOf | auto_history_pipeline_timecode.py:193 | the catalog language is Vietnamese exactly when `lang` starts with "vi", English otherwise |
| Prompts.Prompt | auto_history_pipeline_timecode.py:198 | the prompt of a variant is its template with the topic (long, short) or the summary (from_summary) recoverable verbatim |
| Prompts.PromptByLocale | auto_history_pipeline_timecode.py:193 | two language codes that agree on the "vi" test get the same prompt |
| Fallback.LongHead | auto_history_pipeline_timecode.py:131-133 | the long script's head opens with the first sentence (or the default intro) and ". ", and closes with ". " and the seventh sentence (or nothing) |
| Fallback.FormatLong | auto_history_pipeline_timecode.py:128-137 | the long script always ends with ". " and the call to action of its language |
| Fallback.LongCtaIsSentence | auto_history_pipeline_timecode.py:134-137 | both long calls to action, without their final '.', are single sentences |
| Fallback.LongWithoutSentences | auto_history_pipeline_timecode.py:131-137 | with no sentence the script is "{topic} là một chủ đề lịch sử thú vị." then ". . . " then the call to action |
| Fallback.LongReadsFirstSeven | auto_history_pipeline_timecode.py:130-133 | summaries that agree on their first seven sentences give the same long script |
| Fallback.LongResplit | auto_history_pipeline_timecode.py:130-137 | re-splitting the long script gives the intro, the middle as one sentence when there is one, sentence 6 when present, and the call to action |
| Fallback.LongOfSentences | auto_history_pipeline_timecode.py:130-137 | for "s0. … sn." with n ≥ 6 the script is s0 + ". " + (s1 … s5 joined by spaces) + ". " + s6 + ". " + call to action, and s7 onwards are dropped |
| Fallback.FormatFromSummary | auto_history_pipeline_timecode.py:139-146 | the from_summary script always ends with " Nguồn: Wikipedia." for "vi…" and " Sources: Wikipedia." otherwise |
| Fallback.FromSummaryWithoutSentences | auto_history_pipeline_timecode.py:141-146 | a summary without sentences, the empty one included, yields exactly the attribution |
| Fallback.FromSummaryReadsFirstSix | auto_history_pipeline_timecode.py:141-142 | summaries that agree on their first six sentences give the same script; the topic is not read at all |
| Fallback.FromSummaryOfSentences | auto_history_pipeline_timecode.py:139-146 | for "s0. … sn." the script is the first six sentences joined by single spaces, then the attribution |
| Fallback.ShortPoints | auto_history_pipeline_timecode.py:150-153 | there are three points and the first is never empty |
| Fallback.ShortPointsOfSentences | auto_history_pipeline_timecode.py:150-153 | for "s0. s1. … sn." the points are s0 (or the default first point), s1 (or "") and s2 (or "") |
| Fallback.ShortPointsWellFormed | auto_history_pipeline_timecode.py:150-153 | p1 is sentence 0 or, without sentences, "{topic} có nhiều điều thú vị."; p2 is sentence 1 and is "" exactly when there are fewer than two sentences; p3 is sentence 2 and is "" exactly when there are fewer than three |
| Fallback.ShortBody | auto_history_pipeline_timecode.py:156 | the body opens with the first labelled point, closes with the third, and is one line when the points hold no newline |
| Fallback.FormatShort | auto_history_pipeline_timecode.py:154-163 | the short script starts with its hook "Bạn có biết về {topic}?" / "Did you know about {topic}?" and ends with its call to action |
| Segmenter.NamesDistinct | auto_history_pipeline_timecode.py:180-183 | different roles are stored under different names |
| Segmenter.PadTo | auto_history_pipeline_timecode.py:177-178 | padding keeps the list as its prefix, fills with "" and reaches exactly the target length |
| Segmenter.PointsOf | auto_history_pipeline_timecode.py:171-178 | exactly three points: piece k of the middle lines when there is one, "" otherwise |
| Segmenter.PointSentencesConcat | auto_history_pipeline_timecode.py:172-176 | the pieces of concatenated middle lines are the concatenated pieces, in line order and then piece order |
| Segmenter.PointSentencesWellFormed | auto_history_pipeline_timecode.py:173 | every point piece is non-empty, stripped and free of '.' |
| Segmenter.TimedSpec | auto_history_pipeline_timecode.py:184-188 | timing keeps roles, texts and durations, starts at `cur`, chains each start to the previous end and makes each end its start plus its duration |
| Segmenter.SegmentsOf | auto_history_pipeline_timecode.py:166-189 | for every script: five segments hook, point1, point2, point3, cta lasting 8, 15, 15, 15, 7 s, starting at 0, 8, 23, 38, 53 and ending at 60 |
| Segmenter.Texts | auto_history_pipeline_timecode.py:167-183 | the hook is `HookOf(lines)`, the call to action is `CtaOf(lines)`, the points are the first three pieces of the middle lines padded with "" |
| Segmenter.HookOf | auto_history_pipeline_timecode.py:168 | the hook is the first line, "" when there is none |
| Segmenter.MiddleOf | auto_history_pipeline_timecode.py:169 | with ≥ 3 lines the lines are the hook, the middle and the call to action; with 2 the middle is the call to action alone; with ≤ 1 it is empty |
| Segmenter.CtaOf | auto_history_pipeline_timecode.py:170 | with ≥ 2 lines the call to action is the last line; with ≤ 1 it is "" |
| Segmenter.LinesWellFormed | auto_history_pipeline_timecode.py:167 | every line of the script is non-empty, stripped and holds no newline |
| Segmenter.PointSentencesLast | auto_history_pipeline_timecode.py:172-176 | the pieces of the last middle line come after all pieces of the lines before it |
| Segmenter.SlotsShape | auto_history_pipeline_timecode.py:179-183 | the five slots are hook, point1, point2, point3, cta, of 8, 15, 15, 15 and 7 seconds |
| Segmenter.SlotTexts | auto_history_pipeline_timecode.py:179-183 | the five slots carry the hook, the three points in order and the call to action |
| Segmenter.CollectPoints | auto_history_pipeline_timecode.py:171-178 | the nested collecting loops and the padding loop compute `PointsOf(middle)` |
| Segmenter.AppendSlots | auto_history_pipeline_timecode.py:179-183 | the five appends build the hook, point1–point3 and cta slots with 8, 15, 15, 15 and 7 s |
| Segmenter.AssignTimes | auto_history_pipeline_timecode.py:184-188 | the in-place timing loop threading `cur` computes `Timed(slots, 0)` |
| Segmenter.SplitScriptToSegments | auto_history_pipeline_timecode.py:166-189 | the whole procedure returns `SegmentsOf(script)`, so its schedule and `Texts` hold of what it returns; `lang` is accepted and never read |
| Composition.TagFacts | auto_history_pipeline_timecode.py:156 | each point tag ("Ý 1:" … / "Point 1:" …) is non-empty, stripped and holds no '.' or newline |
| Composition.HookFacts | auto_history_pipeline_timecode.py:155 | for a newline-free topic the hook is non-empty, stripped and one line |
| Composition.CtaFacts | auto_history_pipeline_timecode.py:157 | the short call to action of either language is non-empty, stripped and one line |
| Composition.ClauseFacts | auto_history_pipeline_timecode.py:156 | a clause "tag point." starts with its tag's first character, ends with '.' and is one line when tag and point are |
| Composition.ShortLines | auto_history_pipeline_timecode.py:158 | for a topic without newlines the short script has exactly three lines: hook, body, call to action |
| Composition.ShortBodyPieces | auto_history_pipeline_timecode.py:156 | for a topic without '.' the body line splits into its three labelled points; a first point's own final '.' adds no piece |
| Composition.ShortScriptSegments | auto_history_pipeline_timecode.py:148-189 | segmenting the synthesized short script gives its hook, "{tag 1} {first point}", the labelled points 2 and 3, and its call to action |
| Composition.ShortPointsTagged | auto_history_pipeline_timecode.py:148-189 | each point segment of the synthesized short script starts with its tag |
| Composition.EnglishShortSegments | auto_history_pipeline_timecode.py:159-163 | in English: hook "Did you know about {topic}?", call to action "Like and subscribe for more.", points starting "Point 1:", "Point 2:", "Point 3:" |
| Generation.Call | auto_history_pipeline_timecode.py:126 | a successful call returns the stripped answer; a failed one stays a failure |
| Generation.GenerateOne | auto_history_pipeline_timecode.py:196-203 | one try block yields the stripped answer when capable and the call succeeds, the variant's synthesizer otherwise |
| Generation.GenerateThreeScripts | auto_history_pipeline_timecode.py:192-222 | all three keys are set, each to its variant's script, whatever each call answers or raises |
| Generation.FallbackFor | auto_history_pipeline_timecode.py:128-163 | every synthesizer's output is non-empty, the long one ends with its call to action, from_summary with its attribution, and the short one starts with its hook and ends with its call to action |
| Generation.ScriptFor | auto_history_pipeline_timecode.py:196-221 | a variant's script is the stripped answer when capable and the call succeeds, its synthesizer's output otherwise (without the capability or after a failure) |
| Generation.FailureIsolation | auto_history_pipeline_timecode.py:194-221 | a failure for one variant sends that variant to its synthesizer and leaves the other two as they were |
| Generation.BlankAnswerKept | auto_history_pipeline_timecode.py:126 | an answer of whitespace only is kept as "" and does not fall back |
| Generation.AnswerTaken | auto_history_pipeline_timecode.py:126 | an answer is taken as it is apart from its surrounding whitespace |
| Generation.PromptCarriesSubject | auto_history_pipeline_timecode.py:198 | each prompt carries the topic (long, short) or the summary (from_summary) verbatim |
| Pipeline.SafeName | auto_history_pipeline_timecode.py:227 | every ' ' and '/' becomes '_', nothing else changes, the length is kept |
| Pipeline.SafeNameKeeps | auto_history_pipeline_timecode.py:227 | a topic without ' ' and '/' is its own safe name |
| Pipeline.SafeNameIdempotent | auto_history_pipeline_timecode.py:227 | making a name safe twice is making it safe once |
| Pipeline.SafeNameMerges | auto_history_pipeline_timecode.py:227 | topics differing only by ' ', '/' and '_' at the same places share their files |
| Pipeline.TextFileName | auto_history_pipeline_timecode.py:228 | the text file is "script_" + safe name + ".txt" |
| Pipeline.JsonFileName | auto_history_pipeline_timecode.py:229 | the metadata file is "script_" + safe name + ".json" |
| Pipeline.FileNamesBySafeName | auto_history_pipeline_timecode.py:227-229 | two topics share a file exactly when they share a safe name |
| Pipeline.FileNamesDiffer | auto_history_pipeline_timecode.py:228-229 | a topic's two files never coincide |
| Pipeline.ParseTopics | auto_history_pipeline_timecode.py:278 | every parsed topic is non-empty, stripped and free of ',' |
| Pipeline.ParseTopicsOfJoined | auto_history_pipeline_timecode.py:278 | such topics joined by ',' followed by one fixed whitespace pad parse back into the same list; whitespace before a comma or around the whole list is not covered |
| Pipeline.ParseTopicsStable | auto_history_pipeline_timecode.py:278 | joining a parsed list with ',' and parsing it again gives the same list |
| Pipeline.SummaryOf | auto_history_pipeline_timecode.py:231-236 | on a lookup failure the summary is "[Không lấy được Wikipedia. Lý do: " + reason + "]" |
| Pipeline.DiagnosticCarriesReason | auto_history_pipeline_timecode.py:235 | the failure reason reads back out of the placeholder verbatim |
| Pipeline.ProcessTopic | auto_history_pipeline_timecode.py:225-240 | the two file names, the settled summary, all three scripts and the segments of the short one, as the `meta` record built at lines 260–266 and written at line 268 |
| Pipeline.OfflineEnglishSegments | auto_history_pipeline_timecode.py:238-240 | offline, in English, the saved segments open with "Did you know about {topic}?", close with "Like and subscribe for more." and carry "Point 1:" to "Point 3:" |

## Left out

- The encyclopedia lookup (lines 105–111) and its import flag (lines 33–37) are network and library calls. They become the `Fetch` input. The page content `full`, which nothing reads, is not modelled.
- The chat-completion request (lines 113–125), its environment-variable read and the import flag (lines 39–43) are a foreign network call. They become the `Service` function and the `capable` boolean.
- Directory creation, the text and JSON files and `json.dump` (lines 226, 242–268) are I/O and serialization. `ProcessTopic` returns the record that would be saved instead. The line format of the text file is not modelled.
- `os.path.join(out_folder, …)` (lines 228–229) is path handling. The file names are modelled without the folder.
- The argument parser, printing and the per-topic loop of `main` (lines 271–283), and the stdout/stderr reconfiguration (lines 26–30), are process plumbing. Only the topic-list comprehension (line 278) is modelled.
- `use_ai` / `--no_ai` (lines 225, 276, 281) is accepted and never consulted. `ProcessTopic` takes `useAi` and ignores it. Likewise `split_script_to_segments`'s `lang` (line 166): `SplitScriptToSegments` takes it and ignores it.
- Generation.GenerateThreeScripts: every call to the generator is taken to return, with an answer or an exception. The request sets no time-out (lines 120–125), so a call that never returns would block the script; `Service` is a total function and cannot express that.
- Prompts.Catalog: the prompt prose (lines 46–102) is replaced by short stand-ins. Each keeps its single placeholder, and the quotes or blank lines around it.
- Generation.Call: an answer whose content is missing makes `strip` raise. That case is covered by `Fail`, not by a separate outcome.
- Python's dictionary updates (lines 194–221) and in-place `start`/`end` writes (lines 185–188) are modelled with Dafny's immutable `map` and `seq`, reassigned step by step. Aliasing of the dictionaries is not modelled.
