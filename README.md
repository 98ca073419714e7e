# StudyFlow rule sets in Dafny

StudyFlow is a gamified study app. This project models the small rule sets inside it and proves what they promise. There are three groups.

- **The task-similarity graph** (`frontend/src/utils/graphUtils.js`):
  - `NLPUtils`: keyword extraction (lowercase, strip non-word characters, split on whitespace, then filter by length, stop words and digits), the Jaccard similarity of two titles, and topics shared by several titles;
  - `GraphDataGenerator`: one node per task, a link between every two tasks that are similar enough, and in the clustered variant one node per shared topic with links from the tasks that mention it;
  - `GraphInteractions`: neighbourhood lookup, search filtering and graph statistics.
- **The backend progression**:
  - the arena's XP-to-level formula and its level 1..10 × iron..platinum mastery ladder (`backend/apps/arena/models.py`);
  - the topic-key normalisation and the "XP always, mastery only when passed" rule of the arena views;
  - the journey curriculum and its lookup (`backend/apps/journey/curriculum.py`);
  - the start and completion of journey levels (`backend/apps/journey/views.py`).
- **The front-end state rules**:
  - the task list of `useTasks` (fetch, prepend, toggle, delete);
  - the AI task dialog's mode machine and description assembly (`AddTaskModal`);
  - the login streak, progress figures and greeting of `HomeDashboard`;
  - the step machine of `OnboardingTutorial`;
  - the scroll-hysteresis rule and tabs of `Navigation`;
  - the lock, current and click rules of `JourneyMap`.

## Form of the model

Each source file keeps its own form:

- Code that updates state in place becomes a class whose methods change fields. This covers the Django rows `PlayerProfile`, `TopicMastery` and `UserJourney`, the `useTasks` provider, the dialog, the tutorial and the navigation bar. Each such method is proved against a function of the old state (`ensures State() == Next(old(State()), …)`). The properties are proved as lemmas about that function.
- Loops stay loops:
  - the nested pair scan of `tasksToGraphData`;
  - the counting loops of `findCommonTopics`. There are two of these. `NlpUtils.FindCommonTopicsAsWritten` counts into a plain object, as the source does, and the clustered graph uses it. `NlpUtils.FindCommonTopics` counts into a map, as evidently intended (see "## Findings"), and `GraphDataGenerator.IntendedClusteredGraphOf` is built on its topics. Both still count keyword occurrences, as the loops do; topics counted by task, as the comment at graphUtils.js:52 describes, are `NlpUtils.TaskTopics`;
  - the `forEach` of `getConnectedNodes`;
  - the topic loops of the clustered graph.
- The pure pipelines are functions: keyword extraction, similarity, filtering, statistics, the curriculum lookup and the map predicates.

What the outside world provides becomes a parameter:

- the answers of the HTTP API, of the quiz generator and of the task analyser (`Reply<T>`: a value, or a failure);
- today's date (a day number) and the hour;
- the browser's `localStorage` (a map of `Value`s held by a `LocalStorage` object);
- the scroll position.

The graph builder takes its text analysis as a parameter `nlp`. The application's analysis is `NlpUtils.Similarity` and `NlpUtils.KeywordSet` (`GraphDataGenerator.Application`). The graph properties hold for any analysis, and the link ranges hold for any similarity in [0, 1].

Three behaviours come from how the files fit together, and the model keeps them as they are:

- `AddTaskModal` builds a rich description and calls `onAddTask(title, fullDescription)`, but `useTasks.addTask` takes only the title. `AddTaskModal.Dialog.HandleFinalSave` returns the description, while the request it posts is `AddRequest(title)`, which has no description.
- The backend `Task` model (backend/apps/dashboard/models.py:15) has a `status` field and no `completed` field. The serializer is not part of this model, so a `completed` property on the records is most likely absent. The dashboard (HomeDashboard.jsx:57-58) and the graph read `task.completed`, so progress would most likely read 0 % and every task node be "pending". `TasksStore.TaskRecord.completed` is kept as an independent flag, false when the record leaves it out.
- `getConnectedNodes` adds the other end of every link touching the node, so a self-link puts the node in its own neighbourhood even when `includeSelf` is false (`GraphInteractions.SelfLinkIncludesSelf`).

## Model

| member | source | states |
|---|---|---|
| NlpUtils.NormalizeChars | frontend/src/utils/graphUtils.js:18-19 | After lowercasing, the replace leaves only lowercase word characters and whitespace |
| NlpUtils.WordsPartition | frontend/src/utils/graphUtils.js:20 | The split gives non-empty whitespace-free words which, joined, give the text's non-space characters |
| NlpUtils.ExtractKeywords | frontend/src/utils/graphUtils.js:9-26 | Empty text gives no keywords. The keywords are the words of the normalised text at exactly the positions whose word passes the filter, in increasing position order, so order and repetitions are kept. Each passing word is kept as often as it occurs, and no other word ever is |
| NlpUtils.KeywordPositions | frontend/src/utils/graphUtils.js:21-25 | The positions, in increasing order, at or after a start, whose word passes the filter: every listed position passes, and every passing position is listed |
| NlpUtils.KeywordShape | frontend/src/utils/graphUtils.js:17-25 | Every keyword is longer than 2 characters, not a stop word, digit-free, and made only of a-z and `_` |
| NlpUtils.SingleKeyword | frontend/src/utils/graphUtils.js:9-26 | A lowercase word that passes the filter extracts to exactly itself |
| NlpUtils.Jaccard | frontend/src/utils/graphUtils.js:33-38 | The index lies in [0, 1]; it is positive iff the sets intersect; it is 1 iff the sets are equal and non-empty |
| NlpUtils.Similarity | frontend/src/utils/graphUtils.js:29-39 | The similarity lies in [0, 1]; it is 1 iff the keyword sets are equal and non-empty; it is positive iff the titles share a keyword |
| NlpUtils.SimilaritySymmetric | frontend/src/utils/graphUtils.js:29-38 | The similarity does not depend on the order of the titles |
| NlpUtils.SimilaritySelf | frontend/src/utils/graphUtils.js:29-38 | A title is at similarity 1 from itself when it has a keyword, and at 0 when it has none |
| Common.FirstSeen | frontend/src/utils/graphUtils.js:53 | The distinct elements of a sequence, each once, ordered by first occurrence, as a plain object enumerates its string keys |
| NlpUtils.Entries | frontend/src/utils/graphUtils.js:43-53 | Every keyword occurring in the titles has exactly one entry. Each entry's count is the keyword's number of occurrences. Entries come in the order of each keyword's first occurrence |
| NlpUtils.Frequent | frontend/src/utils/graphUtils.js:54 | Keeps exactly the entries with a count of at least 2, each as often as before |
| NlpUtils.SortByCountStable | frontend/src/utils/graphUtils.js:55 | The sort is non-increasing in count and a permutation; entries of equal count keep their relative order (stable) |
| NlpUtils.CountKeywords | frontend/src/utils/graphUtils.js:47-49 | The inner loop leaves the frequency table up to date: keys in insertion order, each with its occurrence count |
| NlpUtils.CountAllKeywords | frontend/src/utils/graphUtils.js:43-50 | The outer loop leaves the table up to date with every keyword occurrence of every title, in order |
| NlpUtils.FindCommonTopics | frontend/src/utils/graphUtils.js:42-57 | The counting loops return exactly `CommonTopics` of the titles (counting in a map) |
| NlpUtils.CommonTopicsMembers | frontend/src/utils/graphUtils.js:42-56 | A keyword is a topic iff it occurs at least twice over all titles, repetitions within one title included |
| NlpUtils.CommonTopicsOrder | frontend/src/utils/graphUtils.js:53-56 | Topics are distinct and in non-increasing order of occurrences; ties keep first-seen order |
| NlpUtils.CommonTopicsAsWrittenMembers | frontend/src/utils/graphUtils.js:43-56 | Counting in a plain `{}` as written, the topics are the keywords occurring twice except `constructor` and `__proto__` |
| NlpUtils.FindCommonTopicsAsWritten | frontend/src/utils/graphUtils.js:42-57 | The counting loops, followed by the plain object's enumeration, return exactly `CommonTopicsAsWritten` of the titles |
| NlpUtils.InheritedNeverReported | frontend/src/utils/graphUtils.js:43-48 | A keyword named after an inherited property that occurs at least twice is a topic by intention but never as written |
| NlpUtils.ConstructorNeverReported | frontend/src/utils/graphUtils.js:43-48 | Two titles "constructor": the intended topics hold `constructor`, the as-written ones do not |
| NlpUtils.InheritedTopics | frontend/src/utils/graphUtils.js:42-57 | When the only keyword occurrences are two of one inherited name, the intended topics are that name alone, and as written there are none |
| NlpUtils.TwiceKeyword | frontend/src/utils/graphUtils.js:9-26 | A lowercase keyword written twice with a space between extracts to two occurrences of itself: repetitions within a title are kept |
| NlpUtils.RepeatedInOnlyTitle | frontend/src/utils/graphUtils.js:45-54 | A keyword occurring twice in the only title is a topic, as written and with the object counting corrected, but not when tasks are counted |
| NlpUtils.RepeatWithinOneTitle | frontend/src/utils/graphUtils.js:45-54 | A single task titled "react react" yields the topic `react` as written, contrary to the comment at line 52 |
| NlpUtils.DistinctEachCount | frontend/src/utils/graphUtils.js:45-50 | Counting each title's distinct keywords, a keyword's count is the number of titles that contain it |
| NlpUtils.TaskTopicsMembers | frontend/src/utils/graphUtils.js:52-56 | Counted by task, as the comment at line 52 intends, a keyword is a topic iff at least two titles contain it |
| NlpUtils.OnlyTitleOnce | frontend/src/utils/graphUtils.js:52-56 | Counted by task, a single title never yields a topic |
| GraphDataGenerator.ApplicationBounded | frontend/src/utils/graphUtils.js:29-38 | The application's similarity lies in [0, 1] for every pair of titles |
| GraphDataGenerator.TaskNodesSpec | frontend/src/utils/graphUtils.js:123-133 | One node per task, in task order, with its id, title and completion; val 3 and group completed iff completed, otherwise 5 and pending |
| GraphDataGenerator.LinkedPairsSpec | frontend/src/utils/graphUtils.js:139-164 | The scanned pairs are exactly the index pairs i < j whose similarity reaches the threshold, each once, in increasing order |
| GraphDataGenerator.SimilarityLinksSpec | frontend/src/utils/graphUtils.js:139-158 | A link exists iff it joins tasks i < j whose similarity reaches the threshold; value = strength = similarity and width = 1 + 2·similarity |
| GraphDataGenerator.SimilarityLinkRange | frontend/src/utils/graphUtils.js:149-157 | With a similarity in [0, 1], every link value lies between the threshold and 1, and every width lies in [1, 3] |
| GraphDataGenerator.SimilarityLinksUnique | frontend/src/utils/graphUtils.js:139-161 | With distinct task ids, no link joins a task to itself and no two links join the same pair |
| GraphDataGenerator.LinkRow | frontend/src/utils/graphUtils.js:140-163 | The inner loop adds exactly the similar pairs (i, j > i) of row i and their links, in order |
| GraphDataGenerator.TasksToGraphData | frontend/src/utils/graphUtils.js:117-167 | The nested loops build exactly the specified graph; no tasks give no nodes and no links |
| GraphDataGenerator.GraphEndpointsClosed | frontend/src/utils/graphUtils.js:123-166 | Every link's endpoints are ids of nodes of the graph |
| GraphDataGenerator.TopicIdInjective | frontend/src/utils/graphUtils.js:176 | Different topics get different `topic-` ids |
| GraphDataGenerator.LinkTaskToTopics | frontend/src/utils/graphUtils.js:186-199 | The inner loop links a task to exactly the topics among its keywords |
| GraphDataGenerator.AddTopics | frontend/src/utils/graphUtils.js:174-205 | Appends the topic nodes and the task-to-topic links to the base graph |
| GraphDataGenerator.TasksToClusteredGraphData | frontend/src/utils/graphUtils.js:170-206 | Builds exactly the base graph extended with the topics that `findCommonTopics` returns as written, counting into a plain object |
| GraphDataGenerator.WithTopicsSpec | frontend/src/utils/graphUtils.js:170-205 | The base nodes and links come first, unchanged; then one `topic-t` node per topic; a task links to `topic-t` (value 0.5) iff t is a topic among its keywords |
| GraphDataGenerator.ClusteredGraphSpec | frontend/src/utils/graphUtils.js:170-205 | The base nodes and links come first, unchanged. The topics are the keywords occurring at least twice other than `constructor` and `__proto__`. One `topic-t` node (title t, val 8, group topic) follows per topic, in topic order. A task links to `topic-t` iff t is such a topic among its keywords |
| GraphDataGenerator.ClusteredEndpointsClosed | frontend/src/utils/graphUtils.js:170-205 | Every link of the base graph, of the clustered graph as written and of the intended clustered graph ends at nodes of that graph |
| GraphDataGenerator.InheritedClusterMissing | frontend/src/utils/graphUtils.js:170-182 | If two occurrences of one inherited name are the only keywords, the graph as written has no topic node, while the intended graph has one |
| GraphDataGenerator.ConstructorClusterMissing | frontend/src/utils/graphUtils.js:170-182 | Two tasks titled "constructor" give 2 nodes as written, and 3 (with `topic-constructor`) as intended |
| GraphDataGenerator.PairsBeforeLength | frontend/src/utils/graphUtils.js:139-164 | The scan yields at most n(n-1)/2 links |
| GraphInteractions.Resolve | frontend/src/utils/graphUtils.js:261-262 | `x.id \|\| x` keeps the endpoint's id, and yields the node object itself exactly for a node with a falsy id |
| GraphInteractions.ConnectedNodesSpec | frontend/src/utils/graphUtils.js:228-241 | The result has no repeats and holds the node iff `includeSelf`, plus the other end of every link touching the node |
| GraphInteractions.SelfLinkIncludesSelf | frontend/src/utils/graphUtils.js:232-238 | A self-link puts the node in its neighbourhood even without `includeSelf` |
| GraphInteractions.ConnectedNodesUndirected | frontend/src/utils/graphUtils.js:232-239 | Reversing every link gives the same neighbours |
| GraphInteractions.GetConnectedNodes | frontend/src/utils/graphUtils.js:228-242 | The `forEach` over links returns exactly `ConnectedNodes`, in insertion order |
| GraphInteractions.FilterGraphData | frontend/src/utils/graphUtils.js:245-284 | An empty search term returns the graph unchanged |
| GraphInteractions.FilterGraphDataSpec | frontend/src/utils/graphUtils.js:245-284 | A node is kept iff it matches the term or neighbours a match; every match is kept; a link is kept iff both ends are kept; kept items keep their multiplicity |
| GraphInteractions.FilterGraphDataIdempotent | frontend/src/utils/graphUtils.js:245-284 | Filtering twice by the same term is filtering once |
| GraphInteractions.FilterKeepsEndpointsClosed | frontend/src/utils/graphUtils.js:273-281 | If every link ends at nodes of the graph, the filtered graph keeps that property |
| GraphInteractions.CalculateGraphStats | frontend/src/utils/graphUtils.js:287-298 | The totals are the numbers of nodes and links. The completed count is the number of positions holding a completed node, and the topic count the number holding a topic node. Both are at most the total. The ratios are non-negative |
| GraphInteractions.CompletedAndTopics | frontend/src/utils/graphUtils.js:291-292 | The completed count plus the topic count is at most the number of nodes |
| GraphInteractions.ClusteredGraphStats | frontend/src/utils/graphUtils.js:287-292 | For the clustered graph as built: nodes = tasks + topics as written, completed nodes = completed tasks, topic nodes = topics as written |
| GraphInteractions.GraphConnectivity | frontend/src/utils/graphUtils.js:294 | The connectivity of the base (unclustered) graph lies in [0, 1] |
| ArenaModels.LevelForXp | backend/apps/arena/models.py:17 | The level is the unique L with (L-1)·1000 ≤ xp < L·1000 (floor division); non-negative XP gives level ≥ 1 |
| ArenaModels.LevelForXpMonotone | backend/apps/arena/models.py:17 | More XP never gives a lower level |
| ArenaModels.AddedXp | backend/apps/arena/models.py:14-17 | xp grows by the amount, quizzes played by exactly one, and the level is recomputed from the new xp |
| ArenaModels.PlayerProfile.constructor | backend/apps/arena/models.py:8-10 | A new profile has 0 XP, level 1, 0 quizzes |
| ArenaModels.PlayerProfile.AddXp | backend/apps/arena/models.py:14-18 | `add_xp` updates the fields in place as `AddedXp` says, keeping the level consistent with the XP |
| ArenaModels.TierIndex | backend/apps/arena/models.py:65-66 | `tiers.index` finds a tier iff it is on the list, at its position |
| ArenaModels.LevelUpOutcome | backend/apps/arena/models.py:54-74 | Platinum 10 → (False, "Maxed"), unchanged; level < 10 → +1, "Level Up"; level ≥ 10 below platinum → next tier at level 1, "Tier Up: t"; platinum > 10 → "Erro"; unknown tier raises |
| ArenaModels.LevelUpClimbs | backend/apps/arena/models.py:54-74 | On the ladder, `level_up` stays on it, never lowers the tier, climbs one rank below the top (49), and answers "Maxed" exactly at the top, changing nothing |
| ArenaModels.ClimbFromDefault | backend/apps/arena/models.py:36-74 | From the defaults (iron, 1), k successful calls reach rank k |
| ArenaModels.MaxedAfter49 | backend/apps/arena/models.py:36-74 | From the defaults, exactly 49 calls succeed and reach platinum 10; the next answers "Maxed" |
| ArenaModels.TopicMastery.constructor | backend/apps/arena/models.py:36-37 | A new mastery row is iron, level 1, for its topic |
| ArenaModels.TopicMastery.XpForNextLevel | backend/apps/arena/models.py:46-52 | 100 · level, at least 100 from level 1 |
| ArenaModels.TopicMastery.LevelUp | backend/apps/arena/models.py:54-74 | `level_up` updates the row in place and answers as `LevelUpOutcome` says |
| Curriculum.FindLevel | backend/apps/journey/curriculum.py:85-87 | Finds a level with the id, from the world's levels, iff one has it |
| Curriculum.Lookup | backend/apps/journey/curriculum.py:83-91 | A regular answer is a level of a world with the id; a boss answer is a world's boss with the id; nothing iff no level or boss has the id |
| Curriculum.LookupComplete | backend/apps/journey/curriculum.py:83-90 | With distinct ids, every level of a world is found as that level and world, and its boss as that boss |
| Curriculum.SagaIdsDistinct | backend/apps/journey/curriculum.py:3-76 | The curriculum has 27 ids, all distinct |
| Curriculum.SagaShape | backend/apps/journey/curriculum.py:3-76 | Three worlds with 9, 8 and 7 levels; every boss is "hard" |
| Curriculum.GetLevelDataSpec | backend/apps/journey/curriculum.py:78-91 | `get_level_data` gives (level, world, False) for a level id, (boss, world, True) for a boss id, and nothing exactly for an unknown id |
| JourneyViews.UserJourney.constructor | backend/apps/journey/models.py:8-16 | A new journey is at world 0, level 0, with nothing completed |
| JourneyViews.Complete | backend/apps/journey/views.py:79-116 | Not passed → "not completed", unchanged; unknown level → 400, unchanged; a first clear iff passed, found and new, and then the id is appended |
| JourneyViews.CompleteLevelSpec | backend/apps/journey/views.py:90-123 | A boss's first clear moves to the next world at level 0 for 500 XP; a regular first clear moves one level on for 150 XP; a repeat clear gains 0 and changes nothing |
| JourneyViews.CompleteLevelKeepsDistinct | backend/apps/journey/views.py:90-93 | `completed_levels` never gains a duplicate, and gains only the cleared id |
| JourneyViews.ApplyCompletion | backend/apps/journey/views.py:84-116 | Updates the journey in place as `Complete` says; the profile gets the reward through `add_xp` on a first clear only |
| JourneyViews.CompleteLevel | backend/apps/journey/views.py:75-123 | `CompleteLevelView.post`: the same, for the curriculum's answer |
| JourneyViews.StartLevelSpec | backend/apps/journey/views.py:34-65 | 404 iff the id is unknown; "hard" iff a boss; the prompt names the upper-cased role and the topic; the metadata echoes the id, whether it is a boss, and the world id |
| JourneyViews.UnknownRefused | backend/apps/journey/views.py:36-37 | An id the lookup does not find is refused by both views, and progress is unchanged |
| JourneyViews.UnknownLevelRefused | backend/apps/journey/views.py:84-87 | An id outside the curriculum gives 404 to start and 400 to complete, with progress unchanged |
| JourneyMap.LevelButtonOf | frontend/src/components/journey/JourneyMap.jsx:49-66 | Completed iff the id is cleared; current iff world and level index match; locked iff neither; disabled iff locked or world locked; click plays the id iff not disabled |
| JourneyMap.BossButtonOf | frontend/src/components/journey/JourneyMap.jsx:87-93 | The boss is beaten iff its id is cleared, and clickable iff its world is not locked |
| JourneyMap.SectionOf | frontend/src/components/journey/JourneyMap.jsx:49-84 | One level button per level, in order |
| JourneyMap.MapOf | frontend/src/components/journey/JourneyMap.jsx:28-30 | One section per world, in order |
| JourneyMap.AtMostOneCurrent | frontend/src/components/journey/JourneyMap.jsx:29-53 | At most one level of the whole map is current: the progress's world and level |
| JourneyMap.ClickSpec | frontend/src/components/journey/JourneyMap.jsx:62-88 | A level click plays it iff neither it nor its world is locked; the boss plays iff its world is not locked |
| JourneyMap.CompleteLevelNeverLocks | frontend/src/components/journey/JourneyMap.jsx:29-30 | Completing a level never moves back a world, never forgets a cleared id, never relocks a world |
| JourneyMap.ClearCurrentAdvances | frontend/src/components/journey/JourneyMap.jsx:51-54 | Clearing the current level marks it completed and unlocked and makes the next level of the world current |
| JourneyMap.SkippedLevelStaysLocked | frontend/src/components/journey/JourneyMap.jsx:51-66 | A never-cleared level of an earlier world is locked and stays locked, unplayable, whatever else is completed |
| ArenaViews.SkipSpaces | backend/apps/arena/views.py:16 | Drops exactly the leading Python whitespace |
| ArenaViews.DropTrailing | backend/apps/arena/views.py:16 | Drops exactly the trailing Python whitespace |
| ArenaViews.TakeWord | backend/apps/arena/views.py:16 | Takes the longest whitespace-free prefix |
| ArenaViews.FirstWordSplit | backend/apps/arena/views.py:16 | `split()` starts with the first word of the text |
| ArenaViews.TopicKeySpec | backend/apps/arena/views.py:14-16 | The key is missing (the `IndexError`) iff the topic is blank; otherwise it is the lowercased first word |
| ArenaViews.TopicKeyDefault | backend/apps/arena/views.py:14-16 | A missing topic gives the key "geral" |
| ArenaViews.KeyOfFirstWord | backend/apps/arena/views.py:16 | The key of a text is its first word, lowercased |
| ArenaViews.KeyShape | backend/apps/arena/views.py:16 | A key is a non-empty whitespace-free word with no upper-case ASCII letter |
| ArenaViews.RowOf | backend/apps/arena/views.py:19-23 | `get_or_create` gives the existing row, or the defaults |
| ArenaViews.QuizCall | backend/apps/arena/views.py:14-29 | The generator is called iff a key exists, with the raw topic ("Geral" when missing) |
| ArenaViews.QuizOutcome | backend/apps/arena/views.py:16-40 | No key → error, rows unchanged; otherwise the key's row is created; a failed generator answers 500 without status; a quiz carries the key, level and tier |
| ArenaViews.CreateRowKeepsLadder | backend/apps/arena/views.py:19-23 | Creating the row changes no existing row and keeps all rows on the ladder |
| ArenaViews.GenerateQuizKeepsLadder | backend/apps/arena/views.py:19-38 | Starting a quiz changes no existing row, keeps every row on the ladder, and reports a status on it |
| ArenaViews.GenerateQuiz | backend/apps/arena/views.py:13-40 | The view updates the table in place as `GenerateQuizOutcome` says |
| ArenaViews.SubmitOutcome | backend/apps/arena/views.py:46-72 | An invalid payload → 400, nothing changes; a valid one adds the XP; not passed → empty mastery update, rows unchanged |
| ArenaViews.SubmitXpAlways | backend/apps/arena/views.py:54-55 | The profile after a submission does not depend on `passed`; its XP grows by the XP gained |
| ArenaViews.SubmitPassedClimbs | backend/apps/arena/views.py:58-66 | A pass runs one `level_up` on the topic's row only and reports its new level, tier and event |
| ArenaViews.SubmitScore | backend/apps/arena/views.py:46-72 | The view updates the profile and the table in place as `SubmitOutcome` says |
| TasksStore.ToggledStatus | frontend/src/hooks/useTasks.jsx:59 | "pending" iff the status was "completed"; "completed" from anything else |
| TasksStore.Find | frontend/src/hooks/useTasks.jsx:54 | Nothing iff no entry has the id; otherwise the first entry with the id |
| TasksStore.ReplaceSpec | frontend/src/hooks/useTasks.jsx:68 | Same length; each entry with the id becomes the server's record, every other entry is unchanged |
| TasksStore.RemoveSpec | frontend/src/hooks/useTasks.jsx:78 | Keeps exactly the entries with another id; a list without the id is unchanged |
| TasksStore.RemoveAppend | frontend/src/hooks/useTasks.jsx:78 | Removal works piecewise, so the rest keep their relative order |
| TasksStore.RemoveIdempotent | frontend/src/hooks/useTasks.jsx:78 | Deleting twice is deleting once |
| TasksStore.TasksProvider.constructor | frontend/src/hooks/useTasks.jsx:15-16 | The list starts empty and not loading |
| TasksStore.TasksProvider.FetchTasks | frontend/src/hooks/useTasks.jsx:19-35 | No token → nothing happens; otherwise the list becomes `results` or the bare body, unchanged on failure, and loading ends |
| TasksStore.TasksProvider.AddTask | frontend/src/hooks/useTasks.jsx:38-50 | Posts the title as "pending"; the returned record goes in front of the unchanged list; a failure is rethrown and changes nothing |
| TasksStore.TasksProvider.ToggleTask | frontend/src/hooks/useTasks.jsx:53-72 | An unknown id sends nothing; otherwise the toggled status is sent and the reply replaces the entries with the id; a failure changes nothing |
| TasksStore.TasksProvider.DeleteTask | frontend/src/hooks/useTasks.jsx:75-82 | A confirmed delete removes every entry with the id; a failure changes nothing |
| AddTaskModal.FullDescriptionSpec | frontend/src/components/tasks/AddTaskModal.jsx:45-58 | The description opens with the five initial fields iff there is an analysis, ends with the deep part iff there is a deep one, and is empty iff neither |
| AddTaskModal.NextSpec | frontend/src/components/tasks/AddTaskModal.jsx:17-70 | Blank-title analyse changes nothing; analyse → thinking → result with aiData, or back to input; failed deep dive → result with aiData kept; save resets; consistency kept |
| AddTaskModal.RunConsistent | frontend/src/components/tasks/AddTaskModal.jsx:17-41 | Any run the rendered buttons allow keeps every result mode backed by its analysis |
| AddTaskModal.Dialog.constructor | frontend/src/components/tasks/AddTaskModal.jsx:10-15 | Empty title, mode input, no analyses |
| AddTaskModal.Dialog.HandleAnalyze | frontend/src/components/tasks/AddTaskModal.jsx:17-19 | Sends the title iff it is not blank, and steps the mode as `Next` says |
| AddTaskModal.Dialog.AnalyzeSettle | frontend/src/components/tasks/AddTaskModal.jsx:20-27 | The analysis settles as `Next` says |
| AddTaskModal.Dialog.HandleDeepDive | frontend/src/components/tasks/AddTaskModal.jsx:30-33 | Sends the title and enters deep_thinking |
| AddTaskModal.Dialog.DeepDiveSettle | frontend/src/components/tasks/AddTaskModal.jsx:32-40 | The deep analysis settles as `Next` says |
| AddTaskModal.Dialog.HandleFinalSave | frontend/src/components/tasks/AddTaskModal.jsx:43-71 | Builds the description, posts only the title; on success the record is prepended, the dialog reset and closed once; on failure nothing changes |
| HomeDashboard.ParseIntDecimal | frontend/src/components/dashboard/HomeDashboard.jsx:29 | `parseInt` skips leading whitespace and reads an optional sign, then the longest run of decimal digits, ignoring what follows (a `0x` prefix switches to base 16) |
| HomeDashboard.ParseIntPrefixes | frontend/src/components/dashboard/HomeDashboard.jsx:29 | "12abc" reads 12, " 7" reads 7, "3.5" reads 3, "-4 days" reads -4 |
| HomeDashboard.StoredStreak | frontend/src/components/dashboard/HomeDashboard.jsx:29 | An absent or empty entry reads 0; a stored integer reads back as itself; other text reads as `parseInt` reads it (`ParseIntDecimal`) |
| HomeDashboard.StreakTextRoundTrip | frontend/src/components/dashboard/HomeDashboard.jsx:29-45 | What is written as the streak reads back as the same streak |
| HomeDashboard.StreakOutcome | frontend/src/components/dashboard/HomeDashboard.jsx:26-49 | Same day → stored streak, nothing written; yesterday → stored + 1; otherwise 1; a new day writes the date and the streak |
| HomeDashboard.StreakRecordsVisit | frontend/src/components/dashboard/HomeDashboard.jsx:43-45 | Other keys are untouched; a new day's visit is recorded with the streak shown |
| HomeDashboard.StreakSameDayTwice | frontend/src/components/dashboard/HomeDashboard.jsx:31 | A second visit the same day shows the same streak and writes nothing |
| HomeDashboard.ConsecutiveVisits | frontend/src/components/dashboard/HomeDashboard.jsx:31-45 | Visits on k+1 consecutive days after a break give a streak of k+1 |
| HomeDashboard.CalculateStreak | frontend/src/components/dashboard/HomeDashboard.jsx:26-49 | Reads and writes the storage in place as `StreakOutcome` says |
| HomeDashboard.CompletedCount | frontend/src/components/dashboard/HomeDashboard.jsx:57 | The number of positions holding a completed task; at most the total, and equal to it iff every task is completed |
| HomeDashboard.NextTask | frontend/src/components/dashboard/HomeDashboard.jsx:58 | Nothing iff every task is completed; otherwise the first uncompleted task |
| HomeDashboard.ProgressPercent | frontend/src/components/dashboard/HomeDashboard.jsx:59 | 0 for no tasks; otherwise 100·completed/total rounded half up; always in [0, 100], and 100 iff at least 99.5 % are done |
| HomeDashboard.StatsOf | frontend/src/components/dashboard/HomeDashboard.jsx:55-62 | The completed figure counts the completed tasks; no next task iff all are completed; all completed gives 100 %; no tasks gives 0 % |
| HomeDashboard.Greeting | frontend/src/components/dashboard/HomeDashboard.jsx:64-69 | "Bom dia" iff hour < 12, "Boa tarde" iff 12 ≤ hour < 18, "Boa noite" iff hour ≥ 18 |
| Onboarding.Mounted | frontend/src/components/tutorial/OnboardingTutorial.jsx:12-18 | The tour opens iff the flag is not stored, on step 0 |
| Onboarding.Closed | frontend/src/components/tutorial/OnboardingTutorial.jsx:59-62 | Closing stores the flag, keeps the step and every other key |
| Onboarding.Act | frontend/src/components/tutorial/OnboardingTutorial.jsx:64-80 | Next below the last step adds one; Next on the last step and Skip close; Prev subtracts one above step 0 and does nothing at 0 |
| Onboarding.ActKeepsValid | frontend/src/components/tutorial/OnboardingTutorial.jsx:64-80 | Every button keeps the step in 0..5 and moves at most one step, or closes with the flag stored |
| Onboarding.RunKeepsValid | frontend/src/components/tutorial/OnboardingTutorial.jsx:59-80 | Any button sequence keeps the step in 0..5, and a stored flag stays stored |
| Onboarding.NextThroughTour | frontend/src/components/tutorial/OnboardingTutorial.jsx:64-70 | Next k times reaches step k; six presses close the tour on step 5, and it no longer opens |
| Onboarding.PrevUndoesNext | frontend/src/components/tutorial/OnboardingTutorial.jsx:64-76 | Below the last step, Prev undoes Next |
| Onboarding.NextCaption | frontend/src/components/tutorial/OnboardingTutorial.jsx:162 | "Começar!" iff on the last step |
| Onboarding.ButtonsShown | frontend/src/components/tutorial/OnboardingTutorial.jsx:149-168 | Of the footer buttons: Back shown iff Prev moves; the skip link hidden iff Next closes iff the caption is "Começar!". The close control and the backdrop, present on every step, skip (lines 98 and 122) |
| Onboarding.Tutorial.constructor | frontend/src/components/tutorial/OnboardingTutorial.jsx:9-10 | Closed, on step 0 |
| Onboarding.Tutorial.Mount | frontend/src/components/tutorial/OnboardingTutorial.jsx:12-18 | Opens iff the flag is not stored; the step is unchanged |
| Onboarding.Tutorial.HandleClose | frontend/src/components/tutorial/OnboardingTutorial.jsx:59-62 | Updates the state and storage as `Closed` says |
| Onboarding.Tutorial.HandleNext | frontend/src/components/tutorial/OnboardingTutorial.jsx:64-70 | As `Act(Next)` says |
| Onboarding.Tutorial.HandlePrev | frontend/src/components/tutorial/OnboardingTutorial.jsx:72-76 | As `Act(Prev)` says |
| Onboarding.Tutorial.HandleSkip | frontend/src/components/tutorial/OnboardingTutorial.jsx:78-80 | As `Act(Skip)` says |
| Navigation.Scrolled | frontend/src/components/layout/Navigation.jsx:37-43 | Down > 10 px beyond 50 hides; up > 10 px or above 50 shows; otherwise unchanged; the position is remembered |
| Navigation.HidesShowsExclusive | frontend/src/components/layout/Navigation.jsx:37-40 | The hide and show conditions never hold together |
| Navigation.SmallMovesKeepVisibility | frontend/src/components/layout/Navigation.jsx:37-43 | Moves of at most 10 px below the top zone never change visibility |
| Navigation.TopZoneShows | frontend/src/components/layout/Navigation.jsx:39-40 | A frame above y = 50 always shows the bar |
| Navigation.ShouldShow | frontend/src/components/layout/Navigation.jsx:79 | Drawn iff both the local and the context flag are set |
| Navigation.NavBar.constructor | frontend/src/components/layout/Navigation.jsx:14-15 | Visible, at position 0 |
| Navigation.NavBar.HandleScroll | frontend/src/components/layout/Navigation.jsx:35-43 | The frame callback updates the state as `Scrolled` says |
| Navigation.TabPathsDistinct | frontend/src/components/layout/Navigation.jsx:72-77 | The four tab paths are distinct |
| Navigation.AtMostOneActive | frontend/src/components/layout/Navigation.jsx:101-108 | At most one tab is active, and after clicking a tab exactly that one is |

## Left out

- `GraphLayout`, `ForceSimulation` and `generateSampleGraphData` (frontend/src/utils/graphUtils.js:61-112, 209-222, 302-342): floating-point trigonometry and physics over simulation nodes, and a constant demo call.
- The node and link colours are left out: the rgba strings (graphUtils.js:156, 194) are float formatting. The node field `createdAt` (graphUtils.js:128) is left out as well: nothing reads it.
- NlpUtils.Similarity: computed as an exact rational, not an IEEE double. Links whose similarity is within rounding of the threshold may differ.
- GraphInteractions.CalculateGraphStats: `averageConnections` and `connectivity` are exact rationals; only their sign and the [0, 1] bound of connectivity are stated.
- HomeDashboard.ProgressPercent: `Math.round((completed / total) * 100)` is computed exactly. Double rounding of the quotient can move a value sitting on a .5 boundary.
- Lower- and upper-casing are ASCII only. The non-ASCII letters JavaScript and Python would case-map are kept as they are.
- NlpUtils.ExtractKeywords: JavaScript's `toLowerCase` maps a few non-ASCII characters to ASCII letters, which `\w` then keeps: the Kelvin sign U+212A becomes `k`, and U+0130 becomes `i` followed by a combining dot. The model's ASCII lowercasing leaves them as they are, and the strip then deletes them. So "\u212Aubernetes" gives the keyword `kubernetes` in the application and `ubernetes` here.
- NlpUtils.NormalizeChars: states the character classes after ASCII lowercasing only, for the reason above.
- GraphDataGenerator.TasksToGraphData and GraphDataGenerator.TasksToClusteredGraphData: the default thresholds (0.3 for `tasksToGraphData`, 0.2 for `tasksToClusteredGraphData`) are not modelled. The threshold is always a parameter, because the graph view (frontend/src/components/neural/NeuralGraph.jsx:23-24) always passes one: 0.1 or 0.2.
- GraphDataGenerator: the graph builder is proved for any text analysis `nlp`. The application instance is `Application`, whose similarity is proved to lie in [0, 1].
- Persistence (`save()`, `get_or_create`, `Meta.ordering`) is modelled as plain state updates. Integer fields are unbounded integers, so database column widths are not modelled.
- The quiz generator, the task analyser and the HTTP API are called code. Their answers are parameters, a value or a failure, and `ArenaViews.QuizOutcome` does not look inside the generated quiz.
- `GameResultSerializer` validation is abstracted to a payload that is valid (topic, XP gained, passed) or not. Its field rules are not part of this model.
- ArenaViews.SubmitScore: the submitted topic is used as given, not normalised, as the view does. It may therefore update a different row than `GenerateQuiz` created.
- `MyMasteryListView`, `LeaderboardView`, `__str__` and the profile-creation signal are listings and wiring with no rules.
- Async interleaving is not modelled: two handlers whose awaits overlap, and the React batching of state updates. Each handler is taken as running to completion once its request settles.
- The `isLoading` flag is modelled only at the ends of `fetchTasks`.
- OnboardingTutorial: the one-second `setTimeout` before opening is not modelled; the tour opens on mount. The content of the six steps is rendering.
- Navigation: the `requestAnimationFrame` ticking coalesces scroll events, and each processed frame is one `HandleScroll`. `window.scrollY` is taken as a whole number of pixels; the fractional offsets a zoomed or high-density display reports are not modelled. The resize listener (`isMobile`), the interaction-driven `hideNavbarTemporarily`, the context flag's timers and `navigate` are left out. The context flag is a parameter of `ShouldShow`.
- NlpUtils.ExtractKeywords, GraphDataGenerator.TasksToGraphData, GraphDataGenerator.TasksToClusteredGraphData: absent arguments are not modelled, since the types are a `string` and a `seq<Task>`. In the source, `extractKeywords` returns `[]` for undefined or null text, `tasksToGraphData` returns an empty graph for null tasks, and `tasksToClusteredGraphData` with null tasks throws inside `findCommonTopics`. No caller passes them: the graph view always passes the task array (frontend/src/components/neural/NeuralGraph.jsx:23-24), and a task's title is a required field (backend/apps/dashboard/models.py:9).
- GraphInteractions.GetConnectedNodes: the default `includeSelf = true` is not modelled; `includeSelf` is always a parameter.
- HomeDashboard: dates are day numbers and `toDateString` is not modelled. A stored day reads as `NaN` (its text starts with the weekday), and `NaN` stays `NaN` on increment.
- HomeDashboard.StoredStreak: `parseInt` is modelled on exact integers. Digit runs beyond double precision are not rounded.
- JourneyMap: drawing and animation are left out; only the flags computed for each button are modelled.
- StartLevelView: the generator's answer is not modelled; the model returns the request made and the `journey_meta` attached.

## Findings

| source | as written | input that shows it | evidently intended | confidence | as-written member | corrected member |
|---|---|---|---|---|---|---|
| frontend/src/utils/graphUtils.js:43-50 | `findCommonTopics` counts into a plain object `{}`. For the keyword `constructor`, the first read gives the inherited `Object` function, so `+ 1` concatenates a string, which then fails `count >= 2`. For `__proto__` the first read gives `Object.prototype`, which `|| 0` keeps, so `+ 1` gives the string `[object Object]1`; the `__proto__` setter ignores a value that is not an object, so the key never becomes an own property. Neither word is ever a topic. | two tasks titled "constructor" | every keyword appearing in at least two titles is a topic, so `constructor` is one here | high (not executed) | NlpUtils.FindCommonTopicsAsWritten, NlpUtils.ConstructorNeverReported, GraphDataGenerator.ConstructorClusterMissing | NlpUtils.FindCommonTopics, NlpUtils.CommonTopicsMembers |
| frontend/src/utils/graphUtils.js:45-54 | The comment at line 52 promises topics "that appear in at least 2 tasks", but the loops count keyword occurrences, and `extractKeywords` keeps a keyword repeated within one title. A keyword repeated in a single title becomes a topic, and the clustered graph gives it a topic node linked to one task. | one task titled "react react" | a keyword is a topic iff at least two titles contain it | high (not executed) | NlpUtils.RepeatWithinOneTitle, NlpUtils.RepeatedInOnlyTitle | NlpUtils.TaskTopics, NlpUtils.TaskTopicsMembers, NlpUtils.OnlyTitleOnce |
