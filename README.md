# Wellsy wellness app — a Dafny model of its core

Wellsy is a student wellness app. It has an Express/PostgreSQL backend and two React
front ends: a routed app under `frontend/src` and a standalone dashboard under
`components`. This project models the parts of both that carry rules:

- **Backend challenges.** The schema's table constraints (`Schema`). The challenge
  routes over the `user_challenges` table (`ChallengeStore`): listing, joining with a
  seven-day window, and setting progress with a recomputed status.
- **Dashboard challenges page** (`ChallengeBoard`). One-day progress steps, joining
  through a modal, and category colours.
- **Routed app's challenges page** (`ChallengeTracker`). Starting, completing and
  removing challenges, plus the "joined" test.
- **Games page.** The word-search generator, which works in place on a 10 x 10 array
  (`WordGrid`). The game session and its scoring (`Game`).
- **Resources pages.** The search and category filters of both resources pages, and
  the category list (`ResourceSearch`, `CampusResources`, with `Text` for
  `toLowerCase`/`includes`).
- **Insights page** (`Insights`). The most frequent activity, the per-activity impact
  tally and the active-challenge count.
- **Dashboard** (`WellnessDashboard`) and **weekly mood chart** (`MoodChart`). The
  emoji lookups, the weekday slot, submitting the daily entry, and the chart's bars
  and legend.
- **Routed app's top-level component** (`AppShell`). The challenge-id list, its
  mirror in browser storage, login and logout, and the route table.

**How the model is built:**

- Components whose handlers update state become classes. Their fields are the state
  variables, and each handler is a method whose `ensures` gives the whole new state.
- Pure helpers become functions. What the source promises about them is proved as
  lemmas.
- Things the model does not compute become parameters: the authenticated user's id,
  clock readings (integer milliseconds), random draws, and the results of network
  fetches.

**Behaviour of the source worth noting:**

- Joining a challenge that does not exist fails on the foreign key.
- The progress update recomputes the status on every write. So lowering progress
  turns a completed membership back to active.
- A failed insert still uses up a SERIAL value.

## Model

| member | source | states |
|---|---|---|
| Text.LowerChar | frontend/src/components/ResourcesPage.jsx:32-33 | `toLowerCase` on one character: A–Z move to a–z, every other character is kept |
| Text.ToLower | frontend/src/components/ResourcesPage.jsx:32-33 | lowercasing keeps the length and lowercases each position |
| Text.ToLowerIdempotent | frontend/src/components/ResourcesPage.jsx:32-33 | lowercasing twice is lowercasing once |
| Text.IncludesIff | frontend/src/components/ResourcesPage.jsx:32-33 | `includes` holds exactly when the query occurs at some index of the text |
| Text.IncludesEmpty | frontend/src/components/ResourcesPage.jsx:32-35 | the empty query is included in every text |
| Seqs.FirstIndex | frontend/src/components/ResourcesPage.jsx:18 | the first position of an element: it holds the element and no earlier one does |
| Seqs.FirstIndexOfPrefix | frontend/src/components/ResourcesPage.jsx:18 | the first position of an element in a prefix is its first position in the whole list |
| Seqs.Dedup | frontend/src/components/ResourcesPage.jsx:18 | the deduplicated list is no longer than the input and holds exactly its elements |
| Seqs.DedupCorrect | frontend/src/components/ResourcesPage.jsx:18 | `[...new Set(xs)]` has no duplicates, holds exactly the elements of xs, and keeps first-occurrence order |
| ResourceSearch.FilterResources | frontend/src/components/ResourcesPage.jsx:31-36 | a resource is listed iff (title or description contains the query, ignoring case) and (category is 'all' or the selected one); the result is an order-preserving subsequence that keeps every copy of a listed resource and no other |
| ResourceSearch.EmptyQueryShowsAll | frontend/src/components/ResourcesPage.jsx:32-35 | an empty query with 'all' lists every resource |
| ResourceSearch.FilterIdempotent | frontend/src/components/ResourcesPage.jsx:31-36 | filtering the result again with the same query and category changes nothing |
| ResourceSearch.CategorySelected | frontend/src/components/ResourcesPage.jsx:34 | with a specific category selected, every listed resource has it |
| ResourceSearch.UniqueCategories | frontend/src/components/ResourcesPage.jsx:18 | the category list has each category of the resources exactly once and nothing else |
| CampusResources.FilterCatalog | components/ResourcesPage.jsx:68-73 | category test first, then the case-insensitive search; the result is exactly the matching resources, in list order |
| CampusResources.FilteredResources | components/ResourcesPage.jsx:7-59 | the same filter over the fixed five-resource list |
| CampusResources.AgreesWithSearchPage | components/ResourcesPage.jsx:68-73 | on every list, this page's filter and the routed app's filter give the same result |
| CampusResources.FilterCatalogKeepsCopies | components/ResourcesPage.jsx:68-73 | a matching resource is listed as often as the list holds it, any other not at all |
| CampusResources.MentalHealthListing | components/ResourcesPage.jsx:68-73 | an empty search with 'mental-health' lists resources 1 and 3, in that order |
| CampusResources.QueryIgnoresCase | components/ResourcesPage.jsx:70-71 | the query 'FITNESS' finds 'Fitness Center' |
| Schema.Varchar | backend/scripts/init-db.js:15-17 | a string fits a VARCHAR(n) column as is when it has at most n characters, cut to n when the excess is all spaces, and is refused iff some excess character is not a space |
| Schema.VarcharExcess | backend/scripts/init-db.js:15-17 | one trailing space past the limit is trimmed; one other character past it is refused |
| Schema.StoredUser | backend/scripts/init-db.js:13-19 | the stored user row exists iff all three VARCHAR(255) values fit, and carries their trimmed forms |
| Schema.InsertUser | backend/scripts/init-db.js:13-19 | a user insert succeeds iff the three VARCHAR(255) values fit and id, (trimmed) username and email are all new; the table grows by the stored row and stays unique; an over-long value is refused as too long |
| Schema.InsertMoodEntry | backend/scripts/init-db.js:22-29 | succeeds iff both levels are in 1..5 and the user reference is NULL or exists; the CHECKs keep holding |
| Schema.InsertActivity | backend/scripts/init-db.js:32-40 | succeeds iff the name fits VARCHAR(255), a present mood is in 1..5 and the user reference holds; the stored row has the trimmed name and the CHECK keeps holding |
| Schema.AtMostOneRowPerKey | backend/scripts/init-db.js:61 | under UNIQUE(user_id, challenge_id) a pair has at most one row, and exactly one iff some row has it |
| ChallengeStore.DeriveStatus | backend/routes/challenges.js:65-71 | the CASE: 'completed' iff progress ≥ total_days; a missing challenge (NULL subquery) gives 'active' |
| ChallengeStore.StatusIsThreshold | backend/routes/challenges.js:65-71 | status is 'completed' iff progress ≥ total_days: total-1 is active, total and total+1 are completed |
| ChallengeStore.FindChallenge | backend/routes/challenges.js:66-69 | the challenge with the id, or none when no challenge has it |
| ChallengeStore.UpdateRows | backend/routes/challenges.js:62-76 | the UPDATE keeps the row count and every row's id and key, so UNIQUE(user_id, challenge_id) keeps holding |
| ChallengeStore.UpdateIdempotent | backend/routes/challenges.js:62-64 | progress is set to an absolute value, so repeating an update changes nothing further |
| ChallengeStore.UpdateTouchesOnlyItsRow | backend/routes/challenges.js:62-76 | only rows with the (user, challenge) key change, getting the new progress and its derived status; other rows and the row count stay |
| ChallengeStore.UpdateWithoutRow | backend/routes/challenges.js:73 | with no row for the key the UPDATE changes nothing |
| ChallengeStore.ActiveView | backend/routes/challenges.js:18-29 | the active listing holds exactly the caller's memberships with status 'active' whose challenge exists, each joined with that challenge |
| ChallengeStore.MembershipStore.ListChallenges | backend/routes/challenges.js:6-9 | `GET /` returns the whole catalog |
| ChallengeStore.MembershipStore.ListActive | backend/routes/challenges.js:16-30 | the loop over the table returns exactly the active view |
| ChallengeStore.MembershipStore.Join | backend/routes/challenges.js:37-54 | creates a row iff the pair is new and both references exist; the row has progress 0, status 'active', end = join time + 7 days; a second join fails on the unique key and leaves one row; the constraints keep holding |
| ChallengeStore.MembershipStore.UpdateProgress | backend/routes/challenges.js:57-86 | a progress outside PostgreSQL's INTEGER range answers 500 and changes nothing; otherwise the table becomes the UPDATE's result, 404 iff the caller has no membership in the challenge (nothing changes), and the returned row's status is 'completed' iff progress ≥ total_days; every stored progress stays in range |
| ChallengeStore.JoinScenario | backend/routes/challenges.js:37-86 | join, join, update to the total, join again: the second join of a pair conflicts, one row remains, and only the other challenge is listed active |
| ChallengeBoard.Step | components/ChallengesPage.jsx:47-56 | a card keeps its id and total; it changes only when it has the id, then by exactly one day; a card within its total stays within it |
| ChallengeBoard.StepAll | components/ChallengesPage.jsx:46-58 | the list keeps its length, ids and order, and no card's progress overtakes its total |
| ChallengeBoard.StepChangesOnlyItsCard | components/ChallengesPage.jsx:46-57 | a step raises only the card with the id, only when progress < total, by exactly one; status is 'completed' iff the new progress equals the total; other cards and the length are unchanged |
| ChallengeBoard.ActiveCards | components/ChallengesPage.jsx:102 | the active grid shows exactly the cards with status 'active', in order, each as often as the list holds it |
| ChallengeBoard.JoinedCard | components/ChallengesPage.jsx:65-76 | the appended card has the new id, progress 0, status 'active', starts now and ends 7 days later, and keeps the template's title, description, category, total and reward |
| ChallengeBoard.CategoryColor | components/ChallengesPage.jsx:80-91 | one of four colours, gray exactly for a category other than mindfulness, mental and physical |
| ChallengeBoard.CategoryColors | components/ChallengesPage.jsx:80-91 | mindfulness → green, mental → blue, physical → amber, anything else → gray |
| ChallengeBoard.SampleCards | components/ChallengesPage.jsx:4-41 | three active cards with ids 1 to 3, each partway through (0 < progress < total), started `progress` days ago and ending `total` days after its start |
| ChallengeBoard.ChallengeBoard.constructor | components/ChallengesPage.jsx:4-44 | the cards are exactly the three sample cards (meditation 5/7, gratitude journal 2/7, exercise 3/5, with their texts, categories, rewards and dates); no modal open, nothing selected |
| ChallengeBoard.ChallengeBoard.HandleProgressUpdate | components/ChallengesPage.jsx:46-58 | the card list becomes the stepped list; modal state unchanged |
| ChallengeBoard.ChallengeBoard.HandleJoinChallenge | components/ChallengesPage.jsx:60-63 | remembers the chosen card and opens the modal |
| ChallengeBoard.ChallengeBoard.ConfirmJoinChallenge | components/ChallengesPage.jsx:65-78 | appends one copy of the chosen card with a fresh id, progress 0, 'active' and a 7-day window, without checking for an earlier copy; closes the modal |
| ChallengeBoard.ChallengeBoard.CancelJoin | components/ChallengesPage.jsx:202 | closes the modal and changes nothing else |
| ChallengeBoard.JoinedCardIsListed | components/ChallengesPage.jsx:65-76 | a joined card shows in the active grid, after the cards listed before |
| ChallengeTracker.Find | frontend/src/components/ChallengesPage.jsx:109 | `find`: the first catalog entry with the id, or none iff no entry has it |
| ChallengeTracker.Started | frontend/src/components/ChallengesPage.jsx:116-122 | the new entry carries the catalog challenge, status 'active', progress 0, the duration as days remaining, the start time and no completion time |
| ChallengeTracker.CompleteAll | frontend/src/components/ChallengesPage.jsx:140-150 | the list keeps its length and ids, and each entry with the id is 'completed' at the given time |
| ChallengeTracker.IsChallengeJoined | frontend/src/components/ChallengesPage.jsx:185-187 | an id is joined iff at least one started entry carries it |
| ChallengeTracker.RemoveAll | frontend/src/components/ChallengesPage.jsx:166-168 | removal keeps exactly the entries with another id, in order, each as often as before |
| ChallengeTracker.CompletedChallenges | frontend/src/components/ChallengesPage.jsx:330-333 | the completed section lists exactly the entries with status 'completed', in order, each as often as the list holds it |
| ChallengeTracker.CompleteAllChangesOnlyTheId | frontend/src/components/ChallengesPage.jsx:140-150 | completing marks every entry with the id 'completed' with progress 100 and keeps its other fields; other entries and the length are unchanged |
| ChallengeTracker.CompletedAreListed | frontend/src/components/ChallengesPage.jsx:140-150 | after completing, the id's entries are in the completed section and the joined ids are the same |
| ChallengeTracker.StartAppends | frontend/src/components/ChallengesPage.jsx:116-126 | a start appends one entry, so the id is joined, and a second start adds a second entry |
| ChallengeTracker.RemoveUnjoins | frontend/src/components/ChallengesPage.jsx:166-168 | after removal the id is not joined; every other id keeps its joined status |
| ChallengeTracker.GuardedStartKeepsIdsDistinct | frontend/src/components/ChallengesPage.jsx:185-187 | a start of an id that is not joined, as the Start button allows, keeps the ids distinct |
| ChallengeTracker.ChallengeTracker.constructor | frontend/src/components/ChallengesPage.jsx:5-9 | empty catalog and list, no active challenge, no message |
| ChallengeTracker.ChallengeTracker.LoadCatalog | frontend/src/components/ChallengesPage.jsx:47-86 | an empty catalog is replaced by the four mock challenges |
| ChallengeTracker.ChallengeTracker.HandleStartChallenge | frontend/src/components/ChallengesPage.jsx:106-135 | an unknown id only sets the error message; a catalog id appends an 'active' entry with progress 0 and days remaining = duration, which becomes the active challenge |
| ChallengeTracker.ChallengeTracker.HandleCompleteChallenge | frontend/src/components/ChallengesPage.jsx:137-161 | the list becomes the completed list; no active challenge; success message |
| ChallengeTracker.ChallengeTracker.HandleRemoveChallenge | frontend/src/components/ChallengesPage.jsx:163-183 | the list loses the id's entries; the active challenge is cleared only when it has the id |
| ChallengeTracker.ChallengeTracker.ClearLocalStorage | frontend/src/components/ChallengesPage.jsx:190-197 | catalog and list become empty and there is no active challenge |
| WordGrid.CanPlaceWord | frontend/src/components/Game.jsx:114-124 | true iff the word stays inside the grid (col + length ≤ 10 across, row + length ≤ 10 down) and every cell on its line is empty or holds the same letter |
| WordGrid.PlaceWord | frontend/src/components/Game.jsx:126-132 | the word reads out along its line; cells off the line are unchanged; after a conflict-free check no earlier letter is lost |
| WordGrid.PlaceAtFirstFit | frontend/src/components/Game.jsx:87-98 | places the word at the first draw that passes the check (every earlier draw runs off the grid or conflicts), keeping every earlier letter; when no draw passes, the grid is unchanged and no draw would have fit |
| WordGrid.PlaceWords | frontend/src/components/Game.jsx:86-98 | every word placed reads out at one of its draws, every letter lies on a placed word's line, all words are placed or else the next word fits at none of its draws |
| WordGrid.FillEmptyCells | frontend/src/components/Game.jsx:101-108 | afterwards no cell is empty, each formerly empty cell holds its drawn letter in A–Z, and every placed letter is untouched |
| WordGrid.GenerateWordSearch | frontend/src/components/Game.jsx:82-112 | a fresh 10 x 10 grid of capital letters: the grid of placed words (exactly those words, each at one of its draws; short of all eight only when the next word fits at none of its draws) with every empty cell given its drawn letter |
| Game.CellText | frontend/src/components/Game.jsx:156-157 | a clicked cell is truthy exactly when it holds a letter, and then it is that one letter |
| Game.FoundLettersBounded | frontend/src/components/Game.jsx:153-161 | distinct one-letter finds number at most 26, so the word search scores at most 390 |
| Game.NoWordEverHighlighted | frontend/src/components/Game.jsx:239-247 | since clicks record single letters, no wellness word is ever shown as found |
| Game.NewWordSearch | frontend/src/components/Game.jsx:77-78 | the rows the word search stores: 10 x 10 capitals, each placed word reading out, equal to the grid of placed words filled with the drawn letters, and short of all words only when the next fits nowhere |
| Game.GameSession.constructor | frontend/src/components/Game.jsx:4-10 | no game, score 0, empty lists, question 0 |
| Game.GameSession.StartGame | frontend/src/components/Game.jsx:66-80 | the score resets; matching takes the shuffled cards, the quiz starts at question 0; the word search gets a new 10 x 10 grid of capital letters: the placed wellness words, each reading out at one of its draws and all eight unless the next fits at none of its draws, with the other cells filled from the letter draws, and no finds; other games' state is kept; the session invariant holds |
| Game.GameSession.HandleMatchingClick | frontend/src/components/Game.jsx:134-140 | marks that card matched and adds 10 every time, even for a card already matched |
| Game.GameSession.HandleQuizAnswer | frontend/src/components/Game.jsx:142-151 | adds 20 iff the answer is correct; moves to the next question, or after the last ends the game keeping the score |
| Game.GameSession.HandleWordSearchClick | frontend/src/components/Game.jsx:153-161 | records the cell's letter and adds 15 only when the cell is non-empty and the letter is new; finds stay distinct and at most 26 |
| Game.GameSession.EndGame | frontend/src/components/Game.jsx:163-165 | only the current game is cleared |
| Insights.Occurrences | components/InsightsPage.jsx:10-13 | a name's count is at most the number of activities and positive iff the name was logged |
| Insights.MoodTotal | components/InsightsPage.jsx:73-79 | a name never logged totals 0; with 1..5 moods the total lies between the count and five times the count |
| Insights.CountByName | components/InsightsPage.jsx:10-13 | the tally loop gives each name its number of activities, with names in order of first appearance |
| Insights.ImpactByName | components/InsightsPage.jsx:73-79 | each name's entry is (sum of its activities' moods, number of its activities), names in order of first appearance |
| Insights.CountsSumToLength | components/InsightsPage.jsx:73-79 | the counts over all names add up to the number of activities |
| Insights.FirstMaxIndex | components/InsightsPage.jsx:14 | the head of the stable descending sort: a key with maximal count, and every earlier key has a smaller count |
| Insights.CountMap | components/InsightsPage.jsx:10-13 | each key of the tally maps to its number of occurrences |
| Insights.TopName | components/InsightsPage.jsx:14 | the head of the sorted entries is a key of the tally |
| Insights.MostFrequentActivity | components/InsightsPage.jsx:9-15 | 'No activities' for no activities, and otherwise either that fallback or a logged name |
| Insights.MostFrequentOfNothing | components/InsightsPage.jsx:14 | with no activities the answer is 'No activities' |
| Insights.MostFrequentIsMaximal | components/InsightsPage.jsx:9-15 | for any non-empty list, the head of the sorted tally is a logged name occurring at least as often as every other name, and the answer is that name unless it is the empty (falsy) name |
| Insights.MostFrequentBreaksTiesByFirstSeen | components/InsightsPage.jsx:14 | for any non-empty list, every name first seen before the head of the sorted tally occurs strictly less often, so ties go to the name seen first |
| Insights.TieGoesToFirstSeen | components/InsightsPage.jsx:14 | two walks and two meals, walk logged first: the answer is 'Walk' |
| Insights.ActiveCount | components/InsightsPage.jsx:62 | the number of challenges not completed: at most the list length, equal to it iff none is completed, 0 iff all are |
| MoodChart.MoodEmoji | components/WeeklyMoodChart.jsx:6-9 | levels 1..5 map to their face; the neutral face shows exactly for 3 and for levels outside 1..5 |
| MoodChart.MoodEmojiDistinguishesLevels | components/WeeklyMoodChart.jsx:6-9 | different levels in 1..5 show different faces |
| MoodChart.BarHeight | components/WeeklyMoodChart.jsx:20 | values 1..5 give heights 20..100 in multiples of 20; values above 5 overflow 100% and values of 0 or less give no bar |
| MoodChart.BarHeightSteps | components/WeeklyMoodChart.jsx:20 | 0 gives 0 and each step of the value adds exactly 20 percent (so 6 gives 120%) |
| MoodChart.BarHeightMonotone | components/WeeklyMoodChart.jsx:20 | a higher value never gets a lower bar |
| MoodChart.DayLabel | components/WeeklyMoodChart.jsx:4 | a label exists exactly for indexes 0..6 |
| MoodChart.Bars | components/WeeklyMoodChart.jsx:15-29 | bar i has the height and face of value i and the label of index i |
| MoodChart.WeekIsFullyLabelled | components/WeeklyMoodChart.jsx:27 | a seven-entry week is labelled Mon to Sun, with no bar unlabelled |
| MoodChart.LegendLabel | components/WeeklyMoodChart.jsx:39-42 | 'Excellent' exactly for values other than 1..4 |
| MoodChart.Legend | components/WeeklyMoodChart.jsx:35-46 | the five legend entries pair each level's face with its label |
| MoodChart.LegendReadsInOrder | components/WeeklyMoodChart.jsx:35-46 | the legend reads Very Bad, Bad, Neutral, Good, Excellent with their faces |
| WellnessDashboard.MoodEmoji | components/SmartCampusWellness.jsx:31-34 | levels 1..5 map to emojis[level-1], everything else to the neutral face |
| WellnessDashboard.EmojiAgreesWithChart | components/SmartCampusWellness.jsx:31-34 | the dashboard and the chart show the same face for every level |
| WellnessDashboard.WeekdaySlot | components/SmartCampusWellness.jsx:47-48 | Sunday (0) goes to slot 6 and day d to slot d-1; the slot is in 0..6 and follows the day |
| WellnessDashboard.WeekdaySlotInjective | components/SmartCampusWellness.jsx:47-48 | different weekdays get different slots |
| WellnessDashboard.SlotMatchesChartLabel | components/SmartCampusWellness.jsx:47-48 | the slot of each weekday carries that weekday's label in the chart |
| WellnessDashboard.RecordMood | components/SmartCampusWellness.jsx:46-49 | the week keeps 7 entries; the day's slot gets the mood and the other six are unchanged |
| WellnessDashboard.RecordMoodOverwrites | components/SmartCampusWellness.jsx:46-49 | submitting twice on one day keeps only the later mood |
| WellnessDashboard.SubmittedMoodIsCharted | components/SmartCampusWellness.jsx:44-62 | after a submit, the chart bar under the day's name shows the submitted mood's height and face |
| WellnessDashboard.Dashboard.constructor | components/SmartCampusWellness.jsx:9-28 | mood 3, stress 2, streak 5, the activities Study/2, Exercise/4, Social Time/5, Sleep/3 (id and mood), the week [3,4,2,3,5,4,3], an empty entry dated today |
| WellnessDashboard.Dashboard.AddActivity | components/SmartCampusWellness.jsx:36-42 | the activity is appended to the log and to today's entry; nothing else changes |
| WellnessDashboard.Dashboard.SetMood | components/SmartCampusWellness.jsx:140-143 | sets the mood and the entry's mood |
| WellnessDashboard.Dashboard.SetStressLevel | components/SmartCampusWellness.jsx:228-231 | sets the stress level and the entry's stress level |
| WellnessDashboard.Dashboard.SetNotes | components/SmartCampusWellness.jsx:257 | sets the entry's notes |
| WellnessDashboard.Dashboard.SubmitDailyEntry | components/SmartCampusWellness.jsx:44-62 | the week gets the mood in the day's slot only, the entry is reset keeping mood and stress, and the streak grows by exactly 1 |
| AppShell.ChallengeUpdate | frontend/src/App.jsx:53-66 | 'add' appends without deduplicating, 'remove' keeps exactly the other ids in order with their multiplicities, any other action changes nothing |
| AppShell.Without | frontend/src/App.jsx:61 | the filter keeps exactly the other ids, in order, each as often as before |
| AppShell.RemoveUndoesAdd | frontend/src/App.jsx:53-66 | removing an id right after adding it gives what removing it alone gives |
| AppShell.AddKeepsDuplicates | frontend/src/App.jsx:54-55 | adding an id already listed lists it twice |
| AppShell.PersistChallenges | frontend/src/App.jsx:45-51 | the list is stored iff it is non-empty, otherwise its key is removed; other keys are untouched |
| AppShell.PersistUser | frontend/src/App.jsx:37-43 | the user is stored iff signed in, otherwise its key is removed; other keys are untouched |
| AppShell.PersistThenLoad | frontend/src/App.jsx:19-51 | what the storage effects write, the mount effect reads back: the same user, and the same list unless it was empty |
| AppShell.StripTrailingSlashes | frontend/src/App.jsx:113-144 | the location without its trailing slashes: a prefix of it, not ending in '/', with only slashes cut |
| AppShell.Normalize | frontend/src/App.jsx:113-144 | the form the router compares: non-empty, and ending in '/' only for the root |
| AppShell.Route | frontend/src/App.jsx:113-144 | on the location compared without case and trailing slashes: '/' redirects to /dashboard or /login; protected paths render iff signed in and otherwise redirect to /login; /login and /register render iff signed out and otherwise redirect to /dashboard; a rendered page is the component of its path; unknown paths match nothing |
| AppShell.TrailingSlashIgnored | frontend/src/App.jsx:113-144 | a trailing slash never changes what a location renders |
| AppShell.CaseIgnored | frontend/src/App.jsx:113-144 | lowercasing a location never changes what it renders |
| AppShell.MixedCaseWithSlashRenders | frontend/src/App.jsx:125-128 | '/Dashboard/' renders the dashboard for a signed-in user |
| AppShell.RedirectsLandOnAPage | frontend/src/App.jsx:113-144 | every redirect lands on a rendered page in one step |
| AppShell.App.constructor | frontend/src/App.jsx:14-17 | no user, no ids, signed out, loading |
| AppShell.App.Mount | frontend/src/App.jsx:19-51 | a stored user signs in, a stored list is taken over, loading ends, and storage mirrors the state |
| AppShell.App.HandleChallengeUpdate | frontend/src/App.jsx:53-66 | the list becomes the updated list and storage is resynchronised; the user is kept |
| AppShell.App.HandleLogin | frontend/src/App.jsx:68-78 | signs the user in; a successful fetch replaces the list, a failed one keeps it; storage mirrors the state |
| AppShell.App.HandleLogout | frontend/src/App.jsx:80-85 | user null, signed out, empty list, storage cleared |
| AppShell.App.HandleStorageChange | frontend/src/App.jsx:88-97 | another tab's change of the list replaces it (a removed key reads as empty); other keys are ignored |

## Left out

- Network and server plumbing are not modelled: the pg client, server bootstrap, the
  auth middleware (the user id is an argument), and the axios calls of the routed pages
  (their results are parameters).
- The mood, activities and resources routes are not modelled. Their only logic is
  database-side aggregation or ILIKE matching.
- Floating point is not modelled: `calculateAverageMood`, `toFixed`, the impact bar
  width and average, and `hours` columns and fields.
- Browser side effects are not modelled: `setTimeout` clearing of messages,
  `CustomEvent` dispatch, `window.open`, the report download, and the routed
  challenges page's own storage effects and `onChallengeUpdate` callback.
- Rendering and styling are not modelled. The Start/Remove button guard appears only
  as the predicate `ChallengeTracker.ChallengeTracker.StartEnabled`.
- Time is integer milliseconds. `setDate(getDate() + 7)` is modelled as 7 × 24 hours,
  so a daylight-saving change inside the week is not modelled. ISO date strings are
  parameters.
- Text.ToLower: only ASCII A–Z are lowercased. JavaScript's full Unicode case mapping
  is not modelled.
- Game.GameSession.StartGame: the shuffle is any reordering of the mood cards. The bias
  of sorting with a random comparator is not modelled.
- WordGrid.GenerateWordSearch: the `while (!placed)` loop has no termination
  guarantee, so each word is tried over a finite list of draws. If none fits, the model
  stops placing words and reports it; the source would keep drawing.
- Insights.CountByName: keys are kept in insertion order. JavaScript lists
  integer-like object keys (such as "42") first, in ascending order, and that ordering
  is not modelled. The same holds for Insights.ImpactByName and
  Insights.MostFrequentActivity. Names that are already properties of every plain
  object (such as "constructor", "toString" or "__proto__") are also not modelled:
  there the source's `acc[name] || 0` starts from the inherited function, so the
  count becomes a string and the sort compares NaN, or the assignment to "__proto__"
  does not create a key. The model treats them like any other name.
- Insights.ImpactByName: a name such as "constructor", "toString" or "__proto__" finds
  an inherited property in `impacts[name]`, so the source skips the
  `{ total: 0, count: 0 }` initialisation and adds to that value instead. The model
  gives these names their true sum and count, as for any other name.
- ResourceSearch.FilterResources: every resource is taken to have a title, a
  description and a category. A NULL column arrives as `null`, and then
  `toLowerCase()` throws a TypeError that the model does not represent. A NULL
  category would also enter the category list as `null`; ResourceSearch.UniqueCategories
  does not cover that value either.
- ChallengeStore.MembershipStore.UpdateProgress: progress is an integer. A fractional
  value such as 2.5, or a non-numeric one, is not a valid INTEGER parameter, and that
  error path is not modelled.
- AppShell.Route: the location is compared after ASCII lowercasing and with trailing
  slashes removed. Percent-decoding, repeated inner slashes and non-ASCII case folding
  in the router's matching are not modelled.
- Schema: the VARCHAR limits are checked only on the inserts the model performs,
  which are users and activities. Challenge and resource rows come from the seed
  script, which is not modelled.
- ChallengeStore.MembershipStore.Join: a failed insert reports the violated
  constraint's name rather than PostgreSQL's full message text.
- Concurrent requests are not modelled.
- NULL progress and non-numeric route parameters are not modelled.
- AppShell.App.Mount: a stored user is taken to be a user object. A stored literal
  `null` cannot be written by the app and is not modelled.
- The database seeding loops and the `created_at` timestamps are not modelled.
