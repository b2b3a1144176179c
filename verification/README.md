# Agentic storyboard: a verified model of the client state logic and the pipeline endpoint

The storyboard studio turns a product script into a storyboard. A storyboard holds:

- scenes, each with a duration;
- a video plan, whose timeline has one entry per scene with a start and an end;
- a voice plan;
- one publishing plan per social platform.

This project models the parts of the app that decide what a storyboard becomes after each user action:

- **Page** (`app/page.tsx`): the page's three edit reducers.
  - A scene edit merges fields into the matching scenes.
  - A duration edit sets one scene's duration, then lays out the whole timeline again as a running sum.
  - A social edit merges fields into the plans of one platform.
- **PipelineRoute** (`app/api/pipeline/route.ts`): the `POST /api/pipeline` endpoint.
  - It validates the script using JavaScript's `trim`.
  - It fills absent fields with defaults.
  - It hands the payload to the storyboard compiler.
- **PipelineForm** (`components/pipeline-form.tsx`): the authoring form's initial state, its platform toggle and the body it submits.
- **VideoPreview** (`components/video-preview.tsx`):
  - the order in which the preview plays the scenes;
  - how the active index advances;
  - how long each scene stays on screen.
- **SocialPlanner** (`components/social-planner.tsx`):
  - the publish and schedule actions, which set a status and prepend to the activity log;
  - the caption edit.
- **PipelineTimeline** (`components/pipeline-timeline.tsx`): when the timeline panel renders, and the bounds of its duration slider.

Shared pieces:

- The records live in `Types` (`types.dfy`).
- The timeline layout fold and its properties live in `Timeline` (`timeline.dfy`). The duration reducer relies on it; the preview uses only its id-uniqueness predicate and its duration sum.

Some collaborators are not part of this model:

- the storyboard compiler (`AgentPipeline.process`);
- the platform display-name helper (`formatPlatformName`);
- the social endpoint.

Each one is a parameter: a function argument, or a datatype of its possible answers. Every property is proved for all of them.

In two places the code does something other than what one might expect, and the model follows the code:

- **Unknown timeline entries.** One would expect a duration edit to drop a timeline entry whose scene no longer exists. The code keeps the entry and gives it its previous length, `end - start`.
- **Posted status.** One would expect `posted` to be a final status. The client sets the status from the action alone, so a scheduling request that the endpoint accepts turns a posted plan back into a scheduled one (`SocialPlanner.ScheduleAfterPostReverts`).

## Model

| member | source | states |
|---|---|---|
| Timeline.FindScene | app/page.tsx:60 | the scene found carries the id and comes from the list |
| Timeline.FindSceneFirst | app/page.tsx:60 | `find` returns the first scene with the id, not a later one |
| Timeline.FindSceneAbsent | app/page.tsx:60 | with no scene carrying the id, nothing is found |
| Timeline.Runtime | app/page.tsx:60-61 | the runtime `scene?.durationSec ?? entry.end - entry.start` is either the entry's previous length or the duration of a scene carrying the entry's id |
| Timeline.RuntimeCases | app/page.tsx:60-61 | an entry's runtime is the first matching scene's duration, or the entry's previous length when no scene matches |
| Timeline.LayoutFrom | app/page.tsx:59-65 | the re-layout yields exactly one entry per old entry |
| Timeline.LayoutShape | app/page.tsx:57-65 | the re-laid timeline keeps the entry order and ids, starts at the cursor, is contiguous, gives each entry its runtime, and ends at cursor plus the runtime sum |
| Timeline.RelayoutLoop | app/page.tsx:57-68 | the client's cursor loop yields the fold's entries, and its final cursor is the sum of all runtimes |
| Timeline.LoopStep | app/page.tsx:58-64 | one iteration keeps the loop invariant: the entries laid so far plus the fold of the rest make up the whole layout, and the cursor plus the remaining runtimes make up the total |
| Timeline.LayoutStep | app/page.tsx:59-64 | one loop iteration emits `[cursor, cursor + runtime)` and advances the cursor by the runtime |
| Timeline.LayoutStartIsPrefixSum | app/page.tsx:58-63 | entry i starts at the sum of the runtimes of the entries before it |
| Timeline.LayoutSpan | app/page.tsx:59-68 | the re-laid entry lengths add up to the stored total |
| Timeline.LayoutIdempotent | app/page.tsx:57-65 | laying out an already laid-out timeline again changes nothing |
| Timeline.LayoutPrefixAgrees | app/page.tsx:58-64 | entries before the first change in runtime come out identical |
| Timeline.SumRuntimesByPosition | app/page.tsx:61-63 | when runtimes match given durations position by position, the total is their sum |
| Timeline.TimelineOfScenesSumsDurations | app/page.tsx:59-68 | a timeline listing the distinct scene ids in order totals the sum of the scene durations |
| Page.MergeScene | app/page.tsx:48 | the spread `{ ...scene, ...updates }`: each supplied field overrides the scene's, each absent field keeps it |
| Page.MergePlan | app/page.tsx:79 | the spread `{ ...plan, ...updates }`: each supplied field overrides the plan's, each absent field keeps it |
| Page.UpdateScenes | app/page.tsx:48 | scenes with the id receive the merged edit; all other scenes are unchanged |
| Page.SetDuration | app/page.tsx:56 | only `durationSec` changes, and only on scenes with the id; ids and all other fields are kept |
| Page.UpdatePlans | app/page.tsx:78-80 | plans of the platform receive the merged edit; all other plans are unchanged |
| Page.UpdateScene | app/page.tsx:45-51 | no storyboard stays absent; otherwise only the matching scenes change, and the timeline is not re-laid even when the edit changes a duration |
| Page.SceneEditIdempotent | app/page.tsx:45-51 | repeating the same scene edit changes nothing more, even when the edit renames the scene |
| Page.UpdateSocial | app/page.tsx:75-83 | no storyboard stays absent; otherwise only the distribution changes, one plan per matching platform |
| Page.SocialEditIdempotent | app/page.tsx:75-83 | repeating the same plan edit changes nothing more, even when the edit renames the platform |
| Page.UpdateDuration | app/page.tsx:53-73 | no storyboard stays absent; otherwise voice, distribution and aspect ratio are kept, the scenes get the new duration, and the timeline keeps its length |
| Page.DurationEditRelayout | app/page.tsx:53-73 | after a duration edit the timeline starts at 0 and is contiguous; it keeps every entry's id in place; an edited scene's entries last the new duration; the total equals the sum of lengths and the last end |
| Timeline.FindSceneFirstExists | app/page.tsx:60 | when some scene carries the id, `find` succeeds |
| Page.TotalIsSceneSum | app/page.tsx:53-73 | on a timeline listing the distinct scene ids in scene order, a duration edit stores as total the sum of the edited scene durations |
| Page.DurationEditIdempotent | app/page.tsx:53-73 | repeating the same duration edit changes nothing more |
| Page.RuntimeUnaffected | app/page.tsx:56-61 | the edit leaves the runtime of every other scene's entries unchanged |
| Page.DurationEditKeepsEarlierEntries | app/page.tsx:56-65 | on an already consistent timeline, entries before the edited scene's first entry do not move |
| Page.DurationEditExample | app/page.tsx:53-73 | three 5 s scenes with the second raised to 8 s become 0-5, 5-13, 13-18 with a total of 18 |
| Page.LayoutOfFiveEightFive | app/page.tsx:58-65 | three entries with runtimes 5, 8 and 5 are laid out at 0-5, 5-13 and 13-18, for a total of 18 |
| PipelineRoute.LeadingWhitespace | app/api/pipeline/route.ts:10 | the count of leading characters that `trim` strips; the next character is not whitespace |
| PipelineRoute.ContentEnd | app/api/pipeline/route.ts:10 | where the trailing whitespace that `trim` strips begins; the character before it is not whitespace |
| PipelineRoute.Trim | app/api/pipeline/route.ts:10 | `trim()` yields a contiguous piece of the string that neither starts nor ends with whitespace, with only whitespace cut off on either side |
| PipelineRoute.ScriptMissing | app/api/pipeline/route.ts:10 | the guard against a missing or blank script holds exactly when the script is absent or all whitespace, the empty string included |
| PipelineRoute.TrimEmptyIffAllWhitespace | app/api/pipeline/route.ts:10 | `trim()` is empty exactly when every character is ECMAScript whitespace |
| PipelineRoute.Payload | app/api/pipeline/route.ts:14-20 | the script passes untrimmed; each other field is kept when present, an empty platform list included, and defaulted only when absent |
| PipelineRoute.Post | app/api/pipeline/route.ts:7-29 | a blank or missing script gives 400; an unreadable or null body, or a throwing compiler, gives 500; otherwise the reply is the compiler's storyboard |
| PipelineRoute.RejectionIgnoresCompiler | app/api/pipeline/route.ts:10-12 | a rejected request never reaches the compiler: the reply does not depend on it |
| PipelineForm.InitialForm | components/pipeline-form.tsx:37-42 | the form starts with YouTube and Instagram, cinematic, warm narrator, 16:9, an empty script and sample mode off, each a listed option |
| PipelineForm.RemoveAll | components/pipeline-form.tsx:52 | the filter removes every occurrence of the platform and keeps the count of every other platform |
| PipelineForm.RemoveAllDistributes | components/pipeline-form.tsx:52 | filtering keeps the relative order of the remaining platforms |
| PipelineForm.RemoveAbsent | components/pipeline-form.tsx:52 | filtering out an absent platform changes nothing |
| PipelineForm.Toggle | components/pipeline-form.tsx:50-54 | membership flips; an unlisted platform is appended last; a listed one is filtered out, the rest keeping their order; every other platform's count is kept |
| PipelineForm.ToggleTwiceRestores | components/pipeline-form.tsx:50-54 | toggling an unlisted platform twice restores the list |
| PipelineForm.ToggleTwiceMovesToEnd | components/pipeline-form.tsx:50-54 | toggling a listed platform twice moves a single copy of it to the end |
| PipelineForm.RemoveAllKeepsNoDuplicates | components/pipeline-form.tsx:52 | filtering a duplicate-free list leaves it duplicate-free |
| PipelineForm.ToggleKeepsNoDuplicates | components/pipeline-form.tsx:50-54 | toggling never creates a duplicate platform |
| PipelineForm.SubmittedScript | components/pipeline-form.tsx:46 | sample mode submits the sample script, otherwise the typed script |
| PipelineForm.SubmitBody | components/pipeline-form.tsx:46-47 | the submitted body carries the chosen script and every form field, so the endpoint's payload is exactly the form's values with no default filled in |
| PipelineForm.SampleScriptNotBlank | components/pipeline-form.tsx:187-193 | the sample script is not blank |
| PipelineForm.SubmissionReachesCompiler | components/pipeline-form.tsx:44-48 | a non-blank form submission reaches the compiler with the form's own values; no endpoint default applies |
| PipelineForm.BlankTypedScriptRefused | components/pipeline-form.tsx:44-48 | a blank typed script outside sample mode is refused with 400 |
| VideoPreview.LookupLast | components/video-preview.tsx:19 | the `fromEntries` lookup finds the last scene with the id, or nothing exactly when no scene has it |
| VideoPreview.LookupLastIsLast | components/video-preview.tsx:19 | with several scenes carrying the id, the lookup yields the last of them, as later `fromEntries` pairs overwrite earlier ones |
| VideoPreview.LookupLastUnique | components/video-preview.tsx:19 | with distinct ids, the lookup finds that id's scene |
| VideoPreview.Project | components/video-preview.tsx:20-22 | the projection is no longer than the timeline, contains only known scenes, and is as long as the timeline exactly when every id is known |
| VideoPreview.ProjectDistributes | components/video-preview.tsx:20-22 | the projection follows the timeline order entry by entry |
| VideoPreview.ProjectSingle | components/video-preview.tsx:21-22 | an entry shows its scene, or nothing when its id is unknown |
| VideoPreview.ProjectIgnoresTiming | components/video-preview.tsx:20-21 | only the entries' ids affect the order; starts and ends do not |
| VideoPreview.ProjectOwnTimeline | components/video-preview.tsx:17-23 | a timeline of the distinct scene ids in scene order plays the scenes as given |
| VideoPreview.ProjectPrefix | components/video-preview.tsx:20-22 | matching leading entries project onto the matching leading scenes |
| VideoPreview.OrderedScenes | components/video-preview.tsx:17-23 | without a plan the scenes play as given; with a plan the result is the projection of the plan's timeline: one scene per entry whose id is known, in timeline order, never more scenes than entries |
| VideoPreview.NextIndex | components/video-preview.tsx:33 | the next index is always in range; it steps forward by one and wraps to 0 after the last scene |
| VideoPreview.AdvanceWithinCycle | components/video-preview.tsx:32-34 | within one round of ticks the index moves one scene per tick, wrapping once |
| VideoPreview.FullCycle | components/video-preview.tsx:32-34 | as many ticks as there are scenes bring the index back |
| VideoPreview.DwellMs | components/video-preview.tsx:34 | a scene stays its duration times 1000 ms; an out-of-range index or zero duration gives 5000 ms |
| VideoPreview.LoopTakesSummedDurations | components/video-preview.tsx:32-34 | when every duration is positive, one full loop of the preview lasts 1000 times the summed scene durations, in milliseconds |
| VideoPreview.Schedule | components/video-preview.tsx:25-41 | no timer exactly when there are no scenes; otherwise the timer waits the active scene's dwell time and then moves to `(active + 1) % n`, the index `NextIndex` gives and `AdvanceBy`/`FullCycle` iterate |
| SocialPlanner.ActionStatus | components/social-planner.tsx:30 | publishing now posts and scheduling schedules; never draft |
| SocialPlanner.LogLine | components/social-planner.tsx:32-34 | a log line starts with the platform's display name and ` · `, carries `Failed: ` next only for a failure, and ends with the endpoint's detail or error |
| SocialPlanner.TriggerAction | components/social-planner.tsx:20-39 | success sets the status of that platform's plans and prepends the detail line; failure prepends the error line and leaves plans alone; a throw changes nothing |
| SocialPlanner.EditCaption | components/social-planner.tsx:74 | only the caption of that platform's plans changes |
| SocialPlanner.CaptionLastEditWins | components/social-planner.tsx:74 | consecutive caption edits keep only the last text |
| SocialPlanner.CaptionEditCommutesWithAction | components/social-planner.tsx:29-34 | a status action and a caption edit on the same platform commute |
| SocialPlanner.ScheduleAfterPostReverts | components/social-planner.tsx:29-31 | an accepted scheduling request turns a posted plan back into a scheduled one |
| SocialPlanner.LogIsNewestFirst | components/social-planner.tsx:32-34 | after any series of actions the log holds one line per answered action, newest first, ahead of the earlier log |
| PipelineTimeline.MaxDuration | components/pipeline-timeline.tsx:17 | the longest duration is at least every duration and is one of them |
| PipelineTimeline.SliderFor | components/pipeline-timeline.tsx:13-42 | no slider exactly without a plan or scenes; otherwise min 4, step 1, and a max of at least 10 that is 10 or a duration plus 4, and clears every duration by at least 4 |
| PipelineTimeline.SliderMaxAboveEveryDuration | components/pipeline-timeline.tsx:40 | every current duration is strictly below the slider's max |

## Left out

- The storyboard compiler (`lib/pipeline`) is not part of this model. It appears only as the parameter `process`, which returns a storyboard or throws.
- The social endpoint (`app/api/social/route.ts`) and its simulators (`lib/social`) are not part of this model. The planner sees only their answer: success with a detail, failure with an error, or an exception.
- `formatPlatformName` (`lib/utils`) is the parameter `name`.
- React itself is not modelled: rendering, hooks, effects, `fetch` and timers. The loading flags, the `finally` that clears them, and the interval clearing are not modelled either. They change no modelled data.
- The voice panel, scene board and layout components are outside the modelled core.
- The generate handler of `app/page.tsx`, which sends the form's body and stores the reply, is not modelled. It is I/O.
- `formatSeconds`, `toLocaleString` and the rest of the display formatting are not modelled. They do not affect state.
- PipelineRoute.Post: a script that is not a string is not modelled. A truthy one such as `5`, `true`, `[]` or `{}` makes `body.script.trim()` throw, so the route answers 500 "Failed to run pipeline."; a falsy one such as `0` or `false` gets 400.
- PipelineRoute.Payload: the other fields of the wrong JSON type, such as a string as the platform list, are not modelled. The route passes them through unchecked. Enum values (mood, persona, ratio) are not checked against their lists either, and the model does not check them either.
- PipelineRoute.Post: a body that is valid JSON but not an object, such as a number, reads as having no script, so it falls under the 400 case.
- Page.UpdateScene: spreading a supplied `undefined` field in `{ ...scene, ...updates }` is not modelled. A supplied field is always a value.
- VideoPreview.LookupLast: `Object.fromEntries` lookups of inherited names such as `constructor` or `__proto__` are not modelled. Ids are treated as plain keys.
- Page.UpdateDuration: durations, runtimes, the cursor, the entries' `start` and `end` and `totalDurationSec` are modelled as mathematical integers, not JavaScript doubles. The same holds for Timeline.LayoutFrom, Timeline.RelayoutLoop, Timeline.LayoutShape, Timeline.LayoutIdempotent and Page.DurationEditRelayout. With fractional durations, floating-point rounding would break the equalities they state: runtimes 0.1 then 0.2 give a second entry ending at 0.30000000000000004, whose `end - start` is not 0.2. The slider only produces whole seconds, so edits keep durations integral.
- VideoPreview.DwellMs: JavaScript numbers are modelled as mathematical integers. Durations that are `NaN`, fractional or too large are out of scope.
- Types: the storyboard records carry only the fields the modelled code reads or writes. Other fields of the `lib/types` records are left out.
- The plan guard `if (!plans.length) return null` is not modelled. It only stops the planner from rendering, and `TriggerAction` on an empty list leaves the plans empty.
