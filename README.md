# Coffee-brewing companion: a verified model of its core

This project models the state-changing core of a React Native coffee app in Dafny and proves properties about that model. The core has five parts:

- **Guided brewing session** (`BrewingGuide`, `TimeFormat`). This is the screen that walks the user through six hard-coded brewing steps. Its state is:
  - the current step index;
  - an elapsed-seconds timer;
  - the running and paused flags;
  - per-step completion flags.

  The state is changed by the start, pause, next/skip, previous and complete handlers and by a one-second tick. The screen also derives:
  - the "mm:ss" timer text;
  - the progress percentage;
  - the next-step hint;
  - the brewing record handed to the tasting screen on completion.

  Each transition is a function on a `Session` value. The class `BrewingGuideSession` holds the same fields as mutable state, and each of its methods is proved to move the state by the matching function while keeping the session invariant.
- **Recipe list filter** (`Recipes`). A category tab ('全部', '手冲', '意式', '特调', '冰饮') restricts the recipes by equipment type. A non-empty search text then keeps the recipes whose lower-cased name contains the lower-cased text.
- **Persistence service** (`Storage`). This is a key-value store with five fixed keys, each holding a JSON value. Three of the keys hold record lists (brewing records, tasting records, coffee beans), and each list supports append, update-by-id and delete-by-id. The service also handles user data, preferences, and export and import of everything.
  - The class `AsyncStorageService` holds the store as a `map<string, Json>`.
  - Every writing method is proved to produce exactly the outcome and store given by a specification function (`AppendSpec`, `ReplaceSpec`, `DeleteSpec`, `PreferenceSpec`, `Imported`).
  - The promised properties are lemmas about those functions.
- **Mock AI helpers** (`MockAI`). These are the two deterministic helpers:
  - brewing recommendations chosen by thresholds on a flavour profile;
  - a one-sentence flavour description built clause by clause.

  Both are methods that build their list step by step, proved equal to a specification function.
- **Tasting-record form** (`TastingForm`). The form holds photos, an overall score, an eight-field flavour wheel, six professional scores, notes and tags. Each handler replaces one field, and saving builds a `TastingRecord`. The class `TastingRecordForm` keeps the tags free of duplicates and the six score aspects present.

Shared pieces:
- `Types` holds the value types: step, method, parameters, records, flavour profile and flavour wheel.
- `Seqs` holds `filter`, `join` and order-preserving subsequences.

Two points about the guided session shape the model:
- The screen has no run-state machine. It keeps two booleans, `isRunning` and `isPaused`, and its handlers have no guards:
  - pause flips its flag in any state, even before the first start;
  - start keeps the timer, so starting again resumes rather than restarts;
  - "next" on the last step only stops the run, and pressing it again does the same;
  - after completion the steps can still be navigated and the session started again.

  The model states that behaviour (`Start`, `Pause`, `NextStep`, `StartKeepsProgress`, `PauseIsInvolution`, `NextStepAtLast`).
- The completion flags are created with the recipe's step count but indexed by the six guide steps. They are therefore a map from index to flag. An unwritten index is "not completed", as an `undefined` array slot reads in the source.

## Model

| member | source | states |
|---|---|---|
| BrewingGuide.GuideSteps | src/screens/BrewingGuide/index.tsx:37-84 | The guide always has six steps, whatever the recipe. |
| BrewingGuide.FalseFlags | src/screens/BrewingGuide/index.tsx:32-34 | The initial flags have an entry for every index below the recipe's step count, and every entry is false. |
| BrewingGuide.InitialInv | src/screens/BrewingGuide/index.tsx:28-34 | The initial session (step 0, timer 0, stopped, unpaused, all flags false) satisfies the session invariant, and no step is completed. |
| BrewingGuide.Start | src/screens/BrewingGuide/index.tsx:108-111 | Start leaves the session running and unpaused, and keeps the step, the timer and the flags. |
| BrewingGuide.Pause | src/screens/BrewingGuide/index.tsx:113-115 | Pause negates the paused flag, keeps the running flag, and changes nothing else. |
| BrewingGuide.Complete | src/screens/BrewingGuide/index.tsx:135-136 | Completing stops the run and changes nothing else. |
| BrewingGuide.TickSession | src/screens/BrewingGuide/index.tsx:87-95 | A tick advances the timer by at most one second. It advances exactly when running and not paused, and nothing but the timer changes. |
| BrewingGuide.NextStep | src/screens/BrewingGuide/index.tsx:117-127 | Before the last step, "next" moves one step on, marks the old step completed and keeps the run flag. On the last step it keeps the step and the flags and stops the run. The timer and the paused flag never change. |
| BrewingGuide.PreviousStep | src/screens/BrewingGuide/index.tsx:129-133 | "Previous" moves back one step, or stays on step 0. It keeps the flags, the timer and both run flags. |
| BrewingGuide.PrimaryButton | src/screens/BrewingGuide/index.tsx:300-306 | On a stopped session the button starts it unpaused. On a running one it flips the paused flag and keeps it running. The step and the timer are kept. |
| BrewingGuide.NextStepAdvances | src/screens/BrewingGuide/index.tsx:117-122 | Before the last step, "next" marks the current step completed and moves on exactly one step. It leaves every other flag, the timer and both run flags unchanged. |
| BrewingGuide.NextStepAtLast | src/screens/BrewingGuide/index.tsx:117-136 | On the last step, "next" keeps the step, the flags, the timer and the paused flag, and stops the run. Pressing it again changes nothing more. |
| BrewingGuide.PreviousStepEffect | src/screens/BrewingGuide/index.tsx:129-133 | "Previous" goes back one step only from a step after the first; on step 0 the session is unchanged. It never touches a flag, the timer or the run flags. |
| BrewingGuide.StartKeepsProgress | src/screens/BrewingGuide/index.tsx:108-111 | Start sets running and clears paused. It does not reset the timer, the step or the flags. |
| BrewingGuide.PauseIsInvolution | src/screens/BrewingGuide/index.tsx:113-115 | Pause flips the paused flag whether or not the session runs, and changes nothing else. Pausing twice is the identity. |
| BrewingGuide.TickEffect | src/screens/BrewingGuide/index.tsx:87-95 | A tick adds exactly one second when running and not paused, and leaves the session unchanged otherwise. |
| BrewingGuide.ApplyPreservesInv | src/screens/BrewingGuide/index.tsx:87-136 | Every handler and the tick preserve the invariant. The invariant says: the step is in range; every earlier step is completed; the completed steps form a prefix that excludes the last step; the skip handler's timer value never runs ahead of the timer. The timer never decreases, and only a tick changes it, by at most one. |
| BrewingGuide.RunPreservesInv | src/screens/BrewingGuide/index.tsx:87-136 | Any sequence of presses and ticks from a valid session keeps the invariant and never makes the timer go back. |
| BrewingGuide.AdvanceMovesOn | src/screens/BrewingGuide/index.tsx:117-127 | k presses of "next" that stay inside the guide move exactly k steps on and leave every step before the new one completed. They keep the timer and the run flags. |
| BrewingGuide.WalkThroughGuide | src/screens/BrewingGuide/index.tsx:117-136 | From step 0, n-1 presses of "next" reach the last step with all earlier steps completed. One more press stops the run there. |
| BrewingGuide.Progress | src/screens/BrewingGuide/index.tsx:176 | The progress is positive, and progress times the step count equals 100 times the number of steps reached. |
| BrewingGuide.ProgressBounds | src/screens/BrewingGuide/index.tsx:176 | Progress lies in (0, 100], and equals 100 exactly on the last step. |
| BrewingGuide.NextStepHint | src/screens/BrewingGuide/index.tsx:261-265 | A hint is shown exactly when a step follows the current one, and it is one of the guide's steps. |
| BrewingGuide.NextStepHintAnnouncesNext | src/screens/BrewingGuide/index.tsx:261-265 | The hint exists exactly when the step is not the last, and it names the step that "next" moves to. Without a hint, "next" stops the run. |
| BrewingGuide.RecordOnComplete | src/screens/BrewingGuide/index.tsx:147-160 | The record made on completion reports the current timer as its time, for user 'user1' with empty notes. |
| BrewingGuide.RecordOnSkipAsWritten | src/screens/BrewingGuide/index.tsx:117-127 | The record made through "skip" as written reports the timer value captured with the skip handler. It differs from the completion record only in that time. |
| BrewingGuide.RecordOnCompleteFields | src/screens/BrewingGuide/index.tsx:147-156 | The completion record has actualTime equal to the timer and yield equal to the recipe's water amount. It carries the recipe's and bean's ids and the recipe parameters, with rating 0. |
| BrewingGuide.SkipRecordIsStale | src/screens/BrewingGuide/index.tsx:117-167 | A concrete run: start, reach the last step, wait three seconds, then press "skip". The record as written reports 0 seconds while the timer shows 3; the corrected record reports 3. |
| BrewingGuide.BrewingGuideSession.constructor | src/screens/BrewingGuide/index.tsx:28-37 | The new session is the initial state sized by the recipe's steps, uses the six guide steps, and is valid. |
| BrewingGuide.BrewingGuideSession.HandleStart | src/screens/BrewingGuide/index.tsx:108-111 | The new state is `Start` of the old one, and the session stays valid. |
| BrewingGuide.BrewingGuideSession.HandlePause | src/screens/BrewingGuide/index.tsx:113-115 | The new state is `Pause` of the old one, and the session stays valid. |
| BrewingGuide.BrewingGuideSession.HandleComplete | src/screens/BrewingGuide/index.tsx:135-136 | Completing only stops the run, and the session stays valid. |
| BrewingGuide.BrewingGuideSession.HandleNextStep | src/screens/BrewingGuide/index.tsx:117-127 | The new state is `NextStep` of the old one, and the session stays valid. |
| BrewingGuide.BrewingGuideSession.HandlePreviousStep | src/screens/BrewingGuide/index.tsx:129-133 | The new state is `PreviousStep` of the old one, and the session stays valid. |
| BrewingGuide.BrewingGuideSession.PressPrimaryButton | src/screens/BrewingGuide/index.tsx:300-305 | The primary button starts a stopped session and pauses or resumes a running one. |
| BrewingGuide.BrewingGuideSession.Tick | src/screens/BrewingGuide/index.tsx:87-95 | The new state is `TickSession` of the old one, and the session stays valid. |
| BrewingGuide.BrewingGuideSession.RecordNow | src/screens/BrewingGuide/index.tsx:147-160 | The record for the tasting screen reports the timer's elapsed time, the recipe's water amount as yield, the recipe's and bean's ids, user 'user1', rating 0 and empty notes. |
| BrewingGuide.BrewingGuideSession.ElapsedText | src/screens/BrewingGuide/index.tsx:207 | The header's timer text reads back to the current timer value. |
| TimeFormat.Decimal | src/screens/BrewingGuide/index.tsx:172 | `toString` of a non-negative number is a non-empty digit string. It has one digit exactly below 10, and at most two below 100. |
| TimeFormat.PadStart2 | src/screens/BrewingGuide/index.tsx:172 | Padding gives at least two characters and keeps a digit string a digit string. |
| TimeFormat.FormatTime | src/screens/BrewingGuide/index.tsx:169-173 | The text has ':' before the last two characters. Below 6000 seconds it has exactly five characters. |
| TimeFormat.DecimalValue | src/screens/BrewingGuide/index.tsx:172 | The digits produced for n denote n. |
| TimeFormat.PadStart2Value | src/screens/BrewingGuide/index.tsx:172 | Zero-padding does not change the value of a digit string. |
| TimeFormat.FormatTimeRoundTrip | src/screens/BrewingGuide/index.tsx:169-173 | The minutes field is seconds / 60 and the seconds field is seconds % 60, so the text parses back to the input, for every input. |
| Recipes.MatchesCategory | src/screens/Recipes/index.tsx:138-149 | Any tab other than '手冲', '意式' and '特调' (so '全部', '冰饮' and unknown tabs) lets every recipe through. |
| Recipes.TabsPartitionRecipes | src/screens/Recipes/index.tsx:140-149 | Every recipe passes exactly one of the three restricting tabs '手冲', '意式' and '特调'. |
| Recipes.ToLower | src/screens/Recipes/index.tsx:156 | The lower-cased text has the same length and no upper-case ASCII letter. Each upper-case letter becomes its lower-case partner (code + 32), every other character is kept, and text without upper-case letters comes back unchanged. |
| Recipes.ToLowerIdempotent | src/screens/Recipes/index.tsx:156 | Lower-casing twice is lower-casing once, so the search compares names and text without regard to case. |
| Recipes.FilterRecipes | src/screens/Recipes/index.tsx:134-161 | The filtered list is never longer than the input. Every listed recipe comes from the input and passes the selected tab, and '全部' with an empty search shows the whole list. |
| Recipes.FilterRecipesIsOneFilter | src/screens/Recipes/index.tsx:134-161 | The two chained filters equal one filter by the combined condition. |
| Recipes.FilteredIsSubsequence | src/screens/Recipes/index.tsx:134-161 | The result is an order-preserving subsequence of the recipes. |
| Recipes.FilteredMembership | src/screens/Recipes/index.tsx:134-161 | A recipe is listed if and only if it is in the input and passes the tab and the search. |
| Recipes.CategoryTabs | src/screens/Recipes/index.tsx:138-146 | With no search text: '手冲' lists exactly the Pour Over recipes; '意式' exactly the Espresso ones; '特调' exactly those of any other type. |
| Recipes.UnrestrictedTabs | src/screens/Recipes/index.tsx:135-151 | '全部', '冰饮' and any other tab apply no restriction. With no search text, the list is the input unchanged. |
| Recipes.SearchOnly | src/screens/Recipes/index.tsx:153-158 | On '全部', a non-empty search lists exactly the recipes whose lower-cased name contains the lower-cased text. |
| Recipes.SearchFindsOwnName | src/screens/Recipes/index.tsx:134-158 | On any tab the recipe passes ('全部' included), searching for the recipe's own name lists it. |
| Recipes.FilterIsIdempotent | src/screens/Recipes/index.tsx:134-161 | Filtering the result again with the same tab and text changes nothing. |
| Storage.KeysDistinct | src/services/storage/AsyncStorageService.ts:4-8 | The five storage keys are pairwise distinct. |
| Storage.Truthy | src/services/storage/AsyncStorageService.ts:64 | The `\|\|` and `if` tests: every array and object, even an empty one, is truthy, and `null` is not. |
| Storage.HasId | src/services/storage/AsyncStorageService.ts:75 | `record.id === id` holds only on an object; an `id` that is not a string never matches, since `===` does not convert. |
| Storage.ListOrEmpty | src/services/storage/AsyncStorageService.ts:64 | `\|\| []`: a falsy stored value reads as the empty list and an array as its items. Any other truthy value makes the list operation fail. |
| Storage.RemoveIdKeepsOthers | src/services/storage/AsyncStorageService.ts:83-87 | Deleting by id keeps the other records in order. A record survives if and only if it was there and lacks the id. |
| Storage.RemoveIdIdempotent | src/services/storage/AsyncStorageService.ts:83-87 | Deleting twice is deleting once, and deleting an id no record has returns the list unchanged. |
| Storage.FindIndex | src/services/storage/AsyncStorageService.ts:75 | `findIndex` returns the first index with the id, or -1 exactly when no record has it. |
| Storage.FilterOutId | src/services/storage/AsyncStorageService.ts:85 | The element-by-element filter equals deletion by id. |
| Storage.AsyncStorageService.SetItem | src/services/storage/AsyncStorageService.ts:11-19 | The key is bound to the value, and no other key changes. |
| Storage.AsyncStorageService.GetItem | src/services/storage/AsyncStorageService.ts:21-29 | It returns the stored value, or null for an absent key. |
| Storage.AsyncStorageService.RemoveItem | src/services/storage/AsyncStorageService.ts:31-38 | Only that key is removed. |
| Storage.AsyncStorageService.Clear | src/services/storage/AsyncStorageService.ts:40-47 | The store becomes empty. |
| Storage.AsyncStorageService.SaveUserData | src/services/storage/AsyncStorageService.ts:50-52 | Only the user-data key is written. |
| Storage.AsyncStorageService.GetUserData | src/services/storage/AsyncStorageService.ts:54-56 | It returns the stored user data, or null. |
| Storage.AsyncStorageService.ClearUserData | src/services/storage/AsyncStorageService.ts:58-60 | Only the user-data key is removed. |
| Storage.AsyncStorageService.ReadList | src/services/storage/AsyncStorageService.ts:64 | The list read is the stored list, the empty list, or a failure, as `ListAt` says. |
| Storage.AsyncStorageService.AppendRecord | src/services/storage/AsyncStorageService.ts:63-67 | The outcome and the new store are exactly `AppendSpec` of the old store. |
| Storage.AsyncStorageService.ReplaceRecord | src/services/storage/AsyncStorageService.ts:73-81 | The outcome and the new store are exactly `ReplaceSpec` of the old store. |
| Storage.AsyncStorageService.DeleteRecords | src/services/storage/AsyncStorageService.ts:83-87 | The outcome and the new store are exactly `DeleteSpec` of the old store. |
| Storage.AsyncStorageService.SaveBrewingRecord | src/services/storage/AsyncStorageService.ts:63-67 | Appends to the brewing-record list, as `AppendSpec` says. |
| Storage.AsyncStorageService.GetBrewingRecords | src/services/storage/AsyncStorageService.ts:69-71 | It returns the stored brewing records, or null. |
| Storage.AsyncStorageService.UpdateBrewingRecord | src/services/storage/AsyncStorageService.ts:73-81 | Replaces by id in the brewing-record list, or fails with "Brewing record not found", as `ReplaceSpec` says. |
| Storage.AsyncStorageService.DeleteBrewingRecord | src/services/storage/AsyncStorageService.ts:83-87 | Deletes by id from the brewing-record list, as `DeleteSpec` says. |
| Storage.AsyncStorageService.SaveTastingRecord | src/services/storage/AsyncStorageService.ts:90-94 | Appends to the tasting-record list, as `AppendSpec` says. |
| Storage.AsyncStorageService.GetTastingRecords | src/services/storage/AsyncStorageService.ts:96-98 | It returns the stored tasting records, or null. |
| Storage.AsyncStorageService.UpdateTastingRecord | src/services/storage/AsyncStorageService.ts:100-108 | Replaces by id in the tasting-record list, or fails with "Tasting record not found". |
| Storage.AsyncStorageService.DeleteTastingRecord | src/services/storage/AsyncStorageService.ts:110-114 | Deletes by id from the tasting-record list. |
| Storage.AsyncStorageService.SaveCoffeeBean | src/services/storage/AsyncStorageService.ts:117-121 | Appends to the coffee-bean list. |
| Storage.AsyncStorageService.GetCoffeeBeans | src/services/storage/AsyncStorageService.ts:123-125 | It returns the stored beans, or null. |
| Storage.AsyncStorageService.UpdateCoffeeBean | src/services/storage/AsyncStorageService.ts:127-135 | Replaces by id in the coffee-bean list, or fails with "Coffee bean not found". |
| Storage.AsyncStorageService.DeleteCoffeeBean | src/services/storage/AsyncStorageService.ts:137-141 | Deletes by id from the coffee-bean list. |
| Storage.AsyncStorageService.SaveUserPreferences | src/services/storage/AsyncStorageService.ts:144-146 | Only the preferences key is written. |
| Storage.AsyncStorageService.GetUserPreferences | src/services/storage/AsyncStorageService.ts:148-150 | It returns the stored preferences, or null. |
| Storage.AsyncStorageService.UpdateUserPreference | src/services/storage/AsyncStorageService.ts:152-156 | The outcome and the new store are exactly `PreferenceSpec` of the old store. Absent or falsy preferences start from `{}`. |
| Storage.AsyncStorageService.ExportAllData | src/services/storage/AsyncStorageService.ts:159-174 | The export holds exactly the five sections and the export date. Each section is the value stored under its key, or null when the key is absent. |
| Storage.AsyncStorageService.ImportAllData | src/services/storage/AsyncStorageService.ts:176-187 | The new store is `Imported` of the old store and the data. |
| Storage.ReplaceFirst | src/services/storage/AsyncStorageService.ts:75-77 | A successful replacement keeps the list length and contains the updated record. |
| Storage.AppendSpec | src/services/storage/AsyncStorageService.ts:63-67 | A failed save writes nothing and happens only when the stored value is not a list. A successful save leaves a list under the key whose last record is the new one. No key other than its own is added. |
| Storage.ReplaceSpec | src/services/storage/AsyncStorageService.ts:73-81 | A failed update writes nothing. A successful update leaves a list of the old length that contains the updated record. No key other than its own is added. |
| Storage.DeleteSpec | src/services/storage/AsyncStorageService.ts:83-87 | A failed delete writes nothing. A successful delete leaves a list no longer than before, with no record carrying the id. No key other than its own is added. |
| Storage.PreferenceSpec | src/services/storage/AsyncStorageService.ts:152-156 | Setting a preference fails, and writes nothing, exactly when the stored preferences are truthy but not an object. Otherwise the stored preferences object holds the value under the key. |
| Storage.Exported | src/services/storage/AsyncStorageService.ts:159-174 | The export has exactly the five section names and `exportDate`. The date is the one given, and each section equals what `getItem` returns for its key: the stored value, or null when absent. |
| Storage.Imported | src/services/storage/AsyncStorageService.ts:176-187 | Importing never removes a key and adds at most the five. Importing an empty object changes nothing. |
| Storage.ReplaceFirstAt | src/services/storage/AsyncStorageService.ts:75-77 | When `index` is the first position with the id, the update writes exactly that position. |
| Storage.ReplaceFirstAbsent | src/services/storage/AsyncStorageService.ts:75-80 | With no record carrying the id, the update finds nothing. |
| Storage.ReplaceFirstSpec | src/services/storage/AsyncStorageService.ts:73-81 | An update by id succeeds if and only if some record has the id. It then keeps the length and replaces only the first record with the id; every other position is unchanged. |
| Storage.WritesOnlyOwnKey | src/services/storage/AsyncStorageService.ts:63-156 | Append, update, delete and preference updates either fail and leave the store as it was, or change no key but their own. |
| Storage.AbsentIsEmpty | src/services/storage/AsyncStorageService.ts:21-25 | An absent key reads as null, its list as empty, and the first save stores a one-record list. |
| Storage.AppendAddsAtEnd | src/services/storage/AsyncStorageService.ts:63-67 | Saving sets the list to the old list plus the record at the end. |
| Storage.UpdateOutcome | src/services/storage/AsyncStorageService.ts:73-81 | An update of an id no record has fails with "not found" and leaves the store unchanged, and only then. A successful update keeps the list length. |
| Storage.DeleteOutcome | src/services/storage/AsyncStorageService.ts:83-87 | Deleting succeeds on a readable list and leaves the list without the id, with the rest in order. Deleting again changes nothing. |
| Storage.PreferenceSetsOneField | src/services/storage/AsyncStorageService.ts:152-156 | Setting one preference sets that field and leaves every other preference field as it was. |
| Storage.ImportedKeepsOtherKeys | src/services/storage/AsyncStorageService.ts:176-187 | Importing leaves every key other than the five as it was: present with the same value, or absent. |
| Storage.ImportedSections | src/services/storage/AsyncStorageService.ts:176-187 | Importing touches only the five keys. For each of userData, brewingRecords, tastingRecords, coffeeBeans and userPreferences, a truthy section overwrites its key and a missing or falsy section keeps the stored value. |
| Storage.ImportExportRoundTrip | src/services/storage/AsyncStorageService.ts:159-187 | Importing what was just exported leaves the store exactly as it was. |
| Storage.AppendThenDelete | src/services/storage/AsyncStorageService.ts:63-87 | Saving a record and then deleting its id gives the same list as deleting the id from the original list. |
| MockAI.GenerateBrewingRecommendations | src/services/ai/MockAIService.ts:90-139 | The list built by pushes equals `Recommendations` of the profile. |
| MockAI.Recommendations | src/services/ai/MockAIService.ts:90-139 | The list is never empty and has at most two entries, the V60 entry first. |
| MockAI.RecommendationsShape | src/services/ai/MockAIService.ts:91-138 | There are one or two entries, and two exactly when body > 3. The first is the Pour Over V60 with id '1', brewed at 90 degrees when acidity > 3 and at 92 otherwise. The second is the French Press with id '2' at 95 degrees. |
| MockAI.RecommendationsDependOnAcidityAndBody | src/services/ai/MockAIService.ts:90-139 | Two profiles on the same side of both thresholds get the same recommendations. |
| MockAI.AromaNames | src/services/ai/MockAIService.ts:231 | Mapping the notes to their names keeps the length and the order. |
| MockAI.AromaClause | src/services/ai/MockAIService.ts:230-233 | The aroma clause starts with '能' and so differs from every fixed clause. |
| MockAI.GenerateFlavorDescription | src/services/ai/MockAIService.ts:222-251 | The sentence built by pushes equals `Description` of the profile. |
| MockAI.Balanced | src/services/ai/MockAIService.ts:245-248 | The balance test holds whenever acidity, sweetness and body all exceed 3, and only when at least one of them does. |
| MockAI.FlavorClauses | src/services/ai/MockAIService.ts:222-248 | There is at least one clause (the body clause) and at most five. |
| MockAI.Description | src/services/ai/MockAIService.ts:250 | The sentence has at least two characters and its last one is '。'. |
| MockAI.BalancedInIntegers | src/services/ai/MockAIService.ts:245-248 | The real-valued mean test (a+s+b)/3 > 3.5 holds exactly when 2(a+s+b) > 21. |
| MockAI.ClausePresence | src/services/ai/MockAIService.ts:226-248 | Each clause appears if and only if its condition holds. Exactly one of '醇厚度适中' and '口感清爽' appears, chosen by body > 3. |
| MockAI.ClauseOrder | src/services/ai/MockAIService.ts:239-248 | The body clause is last, or directly before the balance clause, which is then last. |
| MockAI.DescriptionEnding | src/services/ai/MockAIService.ts:245-250 | The sentence always ends with '。'. It ends with '，整体平衡度不错。' when balanced, and with the body clause and '。' otherwise. |
| MockAI.AromaClauseListsNames | src/services/ai/MockAIService.ts:230-233 | The joined aroma names are the earlier names, '、', and the last note's name, in the profile's order. |
| MockAI.PlainProfile | src/services/ai/MockAIService.ts:222-251 | A profile with no aroma and low acidity, sweetness and body is described as '口感清爽。'. |
| TastingForm.WithWheelValue | src/screens/TastingRecord/index_old.tsx:78-83 | The named wheel field takes the value, and every other field keeps its value. |
| TastingForm.InitialTagsDistinct | src/screens/TastingRecord/index_old.tsx:50 | The initial tags are distinct. |
| TastingForm.AddedTag | src/screens/TastingRecord/index_old.tsx:138-148 | Adding keeps the old tags as a prefix and adds at most one. A non-empty text is in the result, and nothing but the old tags and the text is. |
| TastingForm.RemovedTag | src/screens/TastingRecord/index_old.tsx:150-152 | The removed tag is no longer in the list, the list does not grow, and every remaining tag was there before. |
| TastingForm.AddTagEffect | src/screens/TastingRecord/index_old.tsx:143-145 | A tag is appended exactly when it is non-empty and not present. The list stays free of duplicates, and adding the same text again changes nothing. |
| TastingForm.RemoveTagEffect | src/screens/TastingRecord/index_old.tsx:150-152 | Every occurrence of the tag is removed, every other tag is kept, and the order is preserved. |
| TastingForm.RemoveTagKeepsDistinct | src/screens/TastingRecord/index_old.tsx:150-152 | Removing a tag from a duplicate-free list leaves it duplicate-free. |
| TastingForm.WithPhoto | src/screens/TastingRecord/index_old.tsx:64-74 | The photos keep the old list as a prefix and gain at most one entry. A cancelled pick adds nothing. |
| TastingForm.AddPhotoEffect | src/screens/TastingRecord/index_old.tsx:64-74 | A photo is appended at the end if and only if the pick was not cancelled, had no error message, and returned a first asset with a non-empty URI. Otherwise nothing changes. |
| TastingForm.AssistedNotes | src/screens/TastingRecord/index_old.tsx:133-135 | The new notes start with the old notes and end with the suggestion. Non-empty notes are followed by a newline and then the suggestion, with nothing else added. |
| TastingForm.AssistedNotesEffect | src/screens/TastingRecord/index_old.tsx:135 | Empty notes become the suggestion. Other notes get a newline and the suggestion after them. |
| TastingForm.BuildRecord | src/screens/TastingRecord/index_old.tsx:93-107 | The record copies the aroma, body and aftertaste scores from the professional scores and the acidity from the wheel's acidic value. The flavour score is the mean of floral, fruity and sweet. The brewing-record id is the route's, and the user is 'user1'. |
| TastingForm.RecordScoresInRange | src/screens/TastingRecord/index_old.tsx:93-107 | A form whose controls hold in-range values saves a record whose scores are in range. |
| TastingForm.TastingRecordForm.constructor | src/screens/TastingRecord/index_old.tsx:29-50 | The form starts with no photos, score 0, an all-zero wheel, six zero scores, empty notes and the three initial tags. |
| TastingForm.TastingRecordForm.AddTag | src/screens/TastingRecord/index_old.tsx:138-148 | Only the tags change, by `AddedTag`, and they stay distinct. |
| TastingForm.TastingRecordForm.RemoveTag | src/screens/TastingRecord/index_old.tsx:150-152 | Only the tags change, by `RemovedTag`, and they stay distinct. |
| TastingForm.TastingRecordForm.FlavorWheelChange | src/screens/TastingRecord/index_old.tsx:78-83 | Only one wheel field changes. |
| TastingForm.TastingRecordForm.ProfessionalScoreChange | src/screens/TastingRecord/index_old.tsx:85-90 | Only one aspect's score changes. |
| TastingForm.TastingRecordForm.SetOverallScore | src/screens/TastingRecord/index_old.tsx:265 | Only the overall score changes. |
| TastingForm.TastingRecordForm.PressFlavorDot | src/screens/TastingRecord/index_old.tsx:183-187 | Dot index i writes i+1 (1 to 3) to the wheel field and keeps every control in range. The screen draws dots only for floral, sweet, fruity, acidic, nutty and bitter; the method accepts any of the eight keys, and for chocolate and spicy it matches `handleFlavorWheelChange`, which no dot calls. |
| TastingForm.TastingRecordForm.PressScoreStar | src/screens/TastingRecord/index_old.tsx:154-156 | Star index i writes i+1 (1 to 5) to its aspect and keeps every control in range. |
| TastingForm.TastingRecordForm.PressOverallStar | src/screens/TastingRecord/index_old.tsx:154-156 | Star index i sets the overall score to i+1 and keeps every control in range. |
| TastingForm.TastingRecordForm.AddPhoto | src/screens/TastingRecord/index_old.tsx:56-76 | Only the photos change, by `WithPhoto`. |
| TastingForm.TastingRecordForm.SetNotes | src/screens/TastingRecord/index_old.tsx:283 | Only the notes change. |
| TastingForm.TastingRecordForm.AIAssist | src/screens/TastingRecord/index_old.tsx:127-136 | Only the notes change, by `AssistedNotes`. |
| TastingForm.TastingRecordForm.Save | src/screens/TastingRecord/index_old.tsx:92-107 | The saved record carries the form's scores, wheel, notes and photos and the brewing-record id, as `BuildRecord` states. |

## Left out

- Rendering, styles, navigation, `Alert` dialogs and their buttons. The completion record is a function of the session, not the result of a dialog press.
- Real timers. The one-second interval is an explicit `Tick`, fired only while running and not paused; its creation and cleanup are not modelled.
- `Date.now()` ids and `new Date()` timestamps. Ids and the export date are parameters, and `createdAt` is not part of the records.
- JSON serialisation. The store holds JSON values directly, so parse errors and the loss of `Date` objects are not modelled. Numbers are integers.
- The storage backend is taken never to fail, and asynchronous interleaving of concurrent service calls is not modelled. In the source, two overlapping read-modify-write calls can lose an update.
- Storage.HasId: a `null` element inside a stored list makes the source's id lookup throw. Here it is a record without the id.
- Storage.AsyncStorageService.UpdateUserPreference: stored preferences that are truthy but not an object fail here. In the source, on a stored array the property assignment succeeds: an index key sets an element, `length` resizes the array (or throws a `RangeError` for an invalid length), and any other key is set on the array but lost when it is serialised. On a truthy string, number or boolean the assignment throws, since class code runs in strict mode.
- Storage.AsyncStorageService.ImportAllData takes the data as a JSON object. In the source, `null` or `undefined` data throws a `TypeError` on the first property read; that case is not modelled. A string, number, boolean or array has none of the five properties, so the source imports nothing, and that is what `Imported` does with an empty object (its `data == map[] ==> after == store` clause).
- Floating point. `progress` and the tasting record's `flavorScore` are exact reals, and `Math.round` of the progress display is not modelled.
- Recipes.ToLower lower-cases ASCII letters only. Other characters are kept as they are, so Unicode case mapping is not modelled.
- TimeFormat.Decimal gives plain decimal digits. JavaScript's exponent notation for very large numbers is not modelled.
- The random recognisers of the mock AI service, and its simulated latency, are not part of this model. The random suggestion of the AI-assist button is a parameter of `AIAssist`.
- The image picker's own behaviour and permissions; `AddPhoto` takes the picker's response as a parameter.
- TastingForm.TastingRecordForm.AddPhoto appends to the current photos. The source appends to the photos captured when the callback was made, which differs only if two picks overlap.
- TastingForm.TastingRecordForm.ProfessionalScoreChange accepts any aspect string, as the source's signature does. Only the star buttons limit the value to 1 to 5.
- Saving a tasting record is not persisted: the source only logs it.

## Findings

| source | as written | input that shows it | evidently intended | confidence | as-written member | corrected member |
|---|---|---|---|---|---|---|
| src/screens/BrewingGuide/index.tsx:117-127 | The memoised "skip" handler's dependencies omit the completion handler, so on the last step it calls the completion handler from the render of the last step change. The brewing record then gets the timer value from that moment. | Start, press "skip" five times to reach the last step, let three ticks pass, press "skip": the record says 0 seconds while the timer shows 00:03 | The record's `actualTime` is the current timer, as with the header's "done" button | not executed | BrewingGuide.RecordOnSkipAsWritten, shown by BrewingGuide.SkipRecordIsStale | BrewingGuide.RecordOnComplete, proved by BrewingGuide.RecordOnCompleteFields and used by BrewingGuide.BrewingGuideSession.RecordNow |
