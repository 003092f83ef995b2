# instoo-web client state, modelled in Dafny

This project models the client-side state layer of the instoo-web streamer-schedule
application and proves properties of that model. The model follows the application's
own structure: one Dafny module per store, hook or component, with the following contents.

- **Roster store** (`MyStreamers`). The user's ordered list of streamers, each with an
  `isActive` flag that decides whether the calendar fetches its schedules.
  - `add` rejects duplicates; `remove` filters a uuid out.
  - The fetch projection lists the active uuids.
  - `toggleIsActive` queues changes of followed streamers in an insertion-ordered map. That map is flushed as one batch request.
  - `syncOnLogin` merges the local roster with the server's list.
  - `updateStreamers` refreshes the entries from server data and stably puts active entries first.
  - The store is a class whose methods replace its fields. Each list operation is also a function, with lemmas about it: the merge is idempotent, the sort is the unique stable partition, and the uuids are preserved as a multiset.
- **Optimistic overlays.** These are the follow and like stores (uuid → flag and count maps) and the follow hook.
  - Reading prefers the overlay.
  - Toggling floors the count at zero.
  - A sync makes at most one request and always clears the overlay.
  - The overlay's two consumers are the like badge and the schedule detail dialog. The dialog calls the server once on close, and only when the flag changed.
- **Schedule editing.** The editor store's open/mode state machine and the editor dialog's form handlers.
  - The submit sequence checks a blank title first, then a missing streamer, then the time conversion.
  - The create and edit requests it builds are modelled field by field.
- **Validation and formatting.**
  - The nickname schema: all checks run and the first failure is reported. The safety report, the length meter and the nickname formatter are modelled too.
  - The debounced validation badge and the profile modal.
  - The 12-hour time picker and its round trip with "HH:MM".
  - The 42-day calendar grid, which starts on a Sunday.
  - `YYYY-MM-DD` day keys: the full-date of section 5.6 of RFC 3339.
  - Day bucketing of schedules (breaks, then undecided times, then scheduled entries) under the like overlay.
  - Status labels and colours.
- **Directory and navigation.**
  - The streamer table's texts, row numbers and pager.
  - The directory's data hook: request body, response defaults and failure reset.
  - The registration dialog's list of platform rows: objects shared between list copies, written in place.
  - The directory page's filters.
  - The platform filter.
  - The menu highlighting and click rules of both sidebars.
- **Small stores.** The modal set, authentication, the sidebar and the tour.

Every request the code sends goes through a `Network` object. That object records the
requests in order, so "no request" and "exactly one request" are statements about its
log. Whether an awaited request succeeds is a parameter of the method that continues
after it. Most async handlers with an await in the middle are split in two: a `Begin…`
method runs up to the request and a `Finish…` method runs the continuation. Three
handlers run in one step instead; "## Left out" lists them.

In these places the model follows the code as written:
- `toggleIsActive` does not re-sort the roster.
- `syncOnLogin` keeps the server's `isActive` for a new entry rather than forcing it to true.
- The edit conflict check always passes.
- The like badge does not floor the count.
- An edit request is addressed by the form's streamer uuid, because that is what the dialog passes as the schedule identifier.

JavaScript semantics are written out where they matter:
- `split` with a one-character separator, `join`, `trim` with the ECMAScript whitespace set, and `startsWith`/`includes`.
- `parseInt`, `toString` and `padStart(2, "0")`.
- `??` versus `||` for defaults.
- A missing array element in a template literal prints as "undefined".
- `find` returns the first match and `filter` keeps order.
- The stable `Array.prototype.sort`.

## Model

| member | source | states |
|---|---|---|
| MyStreamers.Uuids | src/stores/my-streamers.store.ts:89-91 | one uuid per entry, in roster order |
| MyStreamers.FirstIndex | src/stores/my-streamers.store.ts:96 | the position of the first entry with the uuid, as `find` picks it |
| MyStreamers.FirstIndexUnique | src/stores/my-streamers.store.ts:96 | in a roster without duplicate uuids the entry found is the only one with that uuid |
| MyStreamers.ActiveEntries | src/stores/my-streamers.store.ts:86 | exactly the active entries of the roster |
| MyStreamers.InactiveEntries | src/stores/my-streamers.store.ts:175-178 | exactly the inactive entries of the roster |
| MyStreamers.ActiveUuids | src/stores/my-streamers.store.ts:83-87 | exactly the uuids of the active entries |
| MyStreamers.ActiveUuidsSubsequence | src/stores/my-streamers.store.ts:83-91 | the fetched uuids are the displayed uuids with the inactive ones left out, in the same order |
| MyStreamers.WithoutUuid | src/stores/my-streamers.store.ts:77 | exactly the entries with another uuid are kept, and a roster without the uuid is unchanged |
| MyStreamers.WithoutUuidDeletesOne | src/stores/my-streamers.store.ts:70-81 | in a roster without duplicate uuids removing a uuid deletes exactly its one entry and keeps the rest in order |
| MyStreamers.WithoutUuidDistinct | src/stores/my-streamers.store.ts:77 | removing keeps the uuids distinct |
| MyStreamers.SetActive | src/stores/my-streamers.store.ts:101-103 | every entry with the uuid takes the flag and every other entry is unchanged |
| MyStreamers.SetActiveOnlyFlag | src/stores/my-streamers.store.ts:101-103 | only the flag changes: the uuids, their order and distinctness stay, and without duplicates exactly the found entry changes |
| MyStreamers.ToggleTwiceRestores | src/stores/my-streamers.store.ts:93-105 | toggling the same uuid twice gives the roster back |
| MyStreamers.PendingKeys | src/stores/my-streamers.store.ts:34-39 | the batch entries' uuids, in insertion order |
| MyStreamers.PendingGet | src/stores/my-streamers.store.ts:27 | a value exactly for a queued uuid, and it is a queued entry of that uuid |
| MyStreamers.PendingSet | src/stores/my-streamers.store.ts:109 | a queued uuid keeps its place among the same keys; a new one is appended with its value |
| MyStreamers.PendingSetSemantics | src/stores/my-streamers.store.ts:109 | the queue keeps one entry per uuid, reads back the new value for the uuid and the old value for every other uuid |
| MyStreamers.PendingSetExisting | src/stores/my-streamers.store.ts:109 | setting a queued uuid rewrites its one entry in place and leaves the others |
| MyStreamers.PendingSetNew | src/stores/my-streamers.store.ts:109 | setting a new uuid appends one entry after the unchanged others |
| MyStreamers.PendingGetIsUnique | src/stores/my-streamers.store.ts:27 | with one entry per uuid the value read is that entry's |
| MyStreamers.PendingSetLastWins | src/stores/my-streamers.store.ts:109 | of two settings of the same uuid only the last counts |
| MyStreamers.BatchCoversEveryPendingKey | src/stores/my-streamers.store.ts:34-39 | each queued uuid appears in the batch exactly once |
| MyStreamers.AdoptAll | src/stores/my-streamers.store.ts:130-137 | one adopted entry per server entry, in server order |
| MyStreamers.LocalOnly | src/stores/my-streamers.store.ts:140-142 | exactly the local entries whose uuid the server list lacks, in local order |
| MyStreamers.MergedShape | src/stores/my-streamers.store.ts:126-147 | the merge is the server list in server order, each entry as sent except for the local flag of a known uuid, followed by the local-only entries in their order |
| MyStreamers.LocalOnlyAppend | src/stores/my-streamers.store.ts:140-142 | the local-only filter distributes over concatenation |
| MyStreamers.LocalOnlyOfServerUuids | src/stores/my-streamers.store.ts:140-142 | entries whose uuids are all on the server leave nothing local-only |
| MyStreamers.LocalOnlyIdempotent | src/stores/my-streamers.store.ts:140-142 | filtering the local-only entries again changes nothing |
| MyStreamers.SyncOnLoginIdempotent | src/stores/my-streamers.store.ts:126-147 | with a server list without duplicates, merging the same server list twice is the same as merging it once |
| MyStreamers.AdoptFromMerged | src/stores/my-streamers.store.ts:130-137 | each server entry adopted from the merged roster is the entry the first merge produced |
| MyStreamers.MergedDistinct | src/stores/my-streamers.store.ts:126-147 | merging two lists without duplicate uuids gives a roster without duplicates |
| MyStreamers.LocalOnlyDistinct | src/stores/my-streamers.store.ts:140-142 | the local-only entries of a roster without duplicates have none |
| MyStreamers.LastByUuid | src/stores/my-streamers.store.ts:156-158 | the map built from the new records holds a uuid exactly when a record has it, and holds the last such record |
| MyStreamers.RefreshOne | src/stores/my-streamers.store.ts:161-172 | a refreshed entry keeps its uuid and its flag |
| MyStreamers.Refreshed | src/stores/my-streamers.store.ts:161-172 | one refreshed entry per roster entry, in roster order |
| MyStreamers.ActiveInactiveSplit | src/stores/my-streamers.store.ts:175-178 | the active and inactive entries together are the roster as a multiset |
| MyStreamers.SortedIsSplit | src/stores/my-streamers.store.ts:175-178 | a list sorted by activity is its active entries followed by its inactive entries |
| MyStreamers.ActiveFirstIsStableSort | src/stores/my-streamers.store.ts:175-178 | putting the active entries first is the stable sort by the comparator: sorted, a permutation, the order within each group kept, and the only list with these properties |
| MyStreamers.RefreshKeepsRoster | src/stores/my-streamers.store.ts:161-172 | a refresh keeps the uuids, their order and every flag; an entry without a new record is unchanged and one with records becomes the last record with its old flag |
| MyStreamers.UpdateKeepsUuidMultiset | src/stores/my-streamers.store.ts:149-181 | after the refresh and the sort the roster holds the same uuids, each as often as before |
| MyStreamers.UuidsMultiset | src/stores/my-streamers.store.ts:175-178 | two rosters that are permutations of each other have the same uuids as multisets |
| MyStreamers.MyStreamersStore.constructor | src/stores/my-streamers.store.ts:27-56 | an empty roster, an empty queue and no timer |
| MyStreamers.MyStreamersStore.Add | src/stores/my-streamers.store.ts:58-68 | added exactly when the uuid is new, and then in front and marked active; otherwise nothing changes; distinct uuids stay distinct |
| MyStreamers.MyStreamersStore.Remove | src/stores/my-streamers.store.ts:70-81 | removed exactly when the uuid is there, and then every entry with it is filtered out; distinct uuids stay distinct |
| MyStreamers.MyStreamersStore.GetScheduleFetchUuids | src/stores/my-streamers.store.ts:83-87 | exactly the active entries' uuids, in display order |
| MyStreamers.MyStreamersStore.GetUuidsToDisplay | src/stores/my-streamers.store.ts:89-91 | every entry's uuid in roster order |
| MyStreamers.MyStreamersStore.ToggleIsActive | src/stores/my-streamers.store.ts:93-124 | found exactly when the uuid is there; then the first entry's flag is flipped in every entry with the uuid, and for a followed streamer the new value is queued and the timer set; the queue keeps one entry per uuid |
| MyStreamers.MyStreamersStore.SaveBatchActiveState | src/stores/my-streamers.store.ts:31-51 | an empty queue sends nothing; otherwise exactly one batch of the queued changes is sent; the queue is empty afterwards, on failure too |
| MyStreamers.MyStreamersStore.Flush | src/stores/my-streamers.store.ts:117-120 | the timer firing saves the batch and clears the timer |
| MyStreamers.MyStreamersStore.SyncOnLogin | src/stores/my-streamers.store.ts:126-147 | the roster becomes its merge with the server list, without duplicates when neither had any |
| MyStreamers.MyStreamersStore.UpdateStreamers | src/stores/my-streamers.store.ts:149-181 | an empty refresh changes nothing; otherwise the refreshed roster with active entries first, sorted by activity and with the same uuids |
| StreamerFollow.NextFollow | src/hooks/useStreamerFollow.ts:29-32 | a toggle flips the flag; following adds one, unfollowing removes one but never goes below zero, so a non-negative count stays non-negative |
| StreamerFollow.DoubleToggle | src/hooks/useStreamerFollow.ts:29-32 | two toggles always restore the flag, and restore the count exactly unless the start was followed with count 0 |
| StreamerFollow.GetFollowState | src/hooks/useStreamerFollow.ts:39-56 | the overlay value where it has one, the server's otherwise; changes are reported exactly when the overlay holds either entry |
| StreamerFollow.ToggleFollow | src/hooks/useStreamerFollow.ts:10-37 | the overlay gets the toggled pair computed from the shown state; afterwards the shown flag is the opposite of before and is marked changed |
| StreamerFollow.SyncToServer | src/hooks/useStreamerFollow.ts:58-90 | a follow or unfollow request is sent exactly when the overlay's flag differs from the server's; the entry leaves the overlay in every case; the result is false only for a sent request that failed |
| StreamerFollow.ToggleTwiceThenSync | src/hooks/useStreamerFollow.ts:10-90 | pressing the button twice and closing sends nothing and leaves the overlay as it was |
| StreamerFollowStore.SetThenResetRestores | src/stores/streamer-follow.store.ts:16-27 | setting an absent key and then resetting it restores the record exactly |
| StreamerFollowStore.ResetAbsentIsNoOp | src/stores/streamer-follow.store.ts:22-27 | resetting a key that is not there changes nothing |
| StreamerFollowStore.FollowStore.constructor | src/stores/streamer-follow.store.ts:13-14 | both records start empty |
| StreamerFollowStore.FollowStore.SetFollow | src/stores/streamer-follow.store.ts:16-20 | the flag and the count of one streamer are written; every other key keeps its value |
| StreamerFollowStore.FollowStore.ResetFollow | src/stores/streamer-follow.store.ts:22-27 | the streamer leaves both records; every other key keeps its value |
| ScheduleLikeStore.LikeStore.constructor | src/stores/schedule-like.store.ts:13-14 | both records start empty |
| ScheduleLikeStore.LikeStore.SetLike | src/stores/schedule-like.store.ts:16-20 | the flag and the count of one schedule are written; every other key keeps its value |
| ScheduleLikeStore.LikeStore.ResetLike | src/stores/schedule-like.store.ts:22-27 | the schedule leaves both records; every other key keeps its value |
| LikeBadge.Shown | src/components/common/LikeBadge.tsx:31-33 | the overlay's flag and count where it has them, the card's initial values otherwise |
| LikeBadge.Badge.constructor | src/components/common/LikeBadge.tsx:18-24 | a missing count defaults to 0 and a missing flag to false; the badge starts idle |
| LikeBadge.Badge.BeginClick | src/components/common/LikeBadge.tsx:35-51 | a click while loading is ignored; a signed-out click only warns and sends nothing; otherwise remove-like is sent for a shown like and add-like for no like, loading starts, and the shown values are captured; the overlay is untouched |
| LikeBadge.Badge.FinishClick | src/components/common/LikeBadge.tsx:50-64 | on success the overlay holds the flipped flag and the captured count moved by one, so the badge now shows the flipped flag; on failure the overlay is unchanged; loading ends either way |
| ScheduleDetailDialog.Pressed | src/components/schedule/ScheduleDetailDialog.tsx:76-84 | a press flips the local flag and moves the count by one toward the new flag |
| ScheduleDetailDialog.PressParity | src/components/schedule/ScheduleDetailDialog.tsx:76-99 | after n presses the flag differs from the loaded one exactly when n is odd, so an even number of presses sends nothing on close; an even number also restores the count |
| ScheduleDetailDialog.DetailDialog.constructor | src/components/schedule/ScheduleDetailDialog.tsx:46-56 | no schedule, not liked, count 0 |
| ScheduleDetailDialog.DetailDialog.Loaded | src/components/schedule/ScheduleDetailDialog.tsx:145-153 | the fetched detail is kept and the local flag, initial flag and count are taken from it |
| ScheduleDetailDialog.DetailDialog.HandleLikeToggle | src/components/schedule/ScheduleDetailDialog.tsx:65-85 | signed out it only warns and changes nothing; signed in the local pair becomes the pressed pair; the loaded schedule and the initial flag stay |
| ScheduleDetailDialog.DetailDialog.HandleClose | src/components/schedule/ScheduleDetailDialog.tsx:88-107 | without a schedule nothing happens; otherwise a request is sent exactly when the flag changed (add-like when now liked, remove-like otherwise), the overlay takes the local pair only after that request succeeded, and the dialog is cleared whatever the outcome |
| ScheduleEditorStore.EditorStore.constructor | src/stores/schedule-editor.store.ts:31-34 | the editor starts closed, in create mode, editing nothing |
| ScheduleEditorStore.EditorStore.OpenScheduleCreate | src/stores/schedule-editor.store.ts:36-41 | the editor is open in create mode with nothing being edited |
| ScheduleEditorStore.EditorStore.OpenScheduleEdit | src/stores/schedule-editor.store.ts:43-48 | the editor is open in edit mode on exactly the given schedule |
| ScheduleEditorStore.EditorStore.CloseScheduleModal | src/stores/schedule-editor.store.ts:50-54 | the editor is closed and forgets the schedule while the mode is kept |
| ScheduleEditorStore.EditorStore.SetEditingSchedule | src/stores/schedule-editor.store.ts:56-59 | only the edited schedule changes |
| ScheduleEditorDialog.ModalTitle | src/components/schedule/ScheduleEditorDialog.tsx:316-318 | the editor's title is the create title in create mode and the edit title in edit mode |
| ScheduleEditorDialog.SubmitButtonText | src/components/schedule/ScheduleEditorDialog.tsx:320-325 | the submit button's text for each of the four mode and in-flight combinations |
| ScheduleEditorDialog.EmptyForm | src/components/schedule/ScheduleEditorDialog.tsx:125-132 | every text field is empty and the status is scheduled |
| ScheduleEditorDialog.FormOf | src/components/schedule/ScheduleEditorDialog.tsx:145-152 | the title and status are copied and each optional field is copied when present and empty when missing |
| ScheduleEditorDialog.CheckForConflicts | src/components/schedule/ScheduleEditorDialog.tsx:195-220 | the conflict check always passes, because its comparison with the server is disabled |
| ScheduleEditorDialog.EditBody | src/components/schedule/ScheduleEditorDialog.tsx:268-276 | the edit request keeps the title, the status's wire name and the description, carries the UTC start as given and the version stamp |
| ScheduleEditorDialog.SentForm | src/components/schedule/ScheduleEditorDialog.tsx:259-262 | a scheduled entry with a converted start carries the UTC start in its start time; every other field, and the whole form otherwise, is unchanged |
| ScheduleEditorDialog.CreateRequest | src/components/schedule/ScheduleEditorDialog.tsx:263 | the create request carries every field of the form, the status as its wire name |
| ScheduleEditorDialog.SubmissionOutcomes | src/components/schedule/ScheduleEditorDialog.tsx:222-285 | a blank title wins over a missing streamer, which wins over a failed time conversion; anything sent has a title and a streamer; a create sends the form with its UTC start; an edit needs an edited schedule, is addressed by the form's streamer uuid, carries its version stamp and has a UTC start exactly for a scheduled status |
| ScheduleEditorDialog.EditorDialog.constructor | src/components/schedule/ScheduleEditorDialog.tsx:125-137 | the dialog starts from the empty form, no streamer picked, not submitting and no conflict message |
| ScheduleEditorDialog.EditorDialog.OnStoreChange | src/components/schedule/ScheduleEditorDialog.tsx:141-161 | while the editor is open an edit with a schedule fills the form from it and anything else resets the form and the picked streamer, and the conflict message is cleared; a closed editor changes nothing |
| ScheduleEditorDialog.EditorDialog.ResetForm | src/components/schedule/ScheduleEditorDialog.tsx:299-310 | the form is empty again and no streamer is picked |
| ScheduleEditorDialog.EditorDialog.HandleInputChange | src/components/schedule/ScheduleEditorDialog.tsx:163-170 | exactly the named field takes the value; in edit mode the conflict message goes away |
| ScheduleEditorDialog.EditorDialog.HandleStatusChange | src/components/schedule/ScheduleEditorDialog.tsx:172-180 | the status changes, a break or undecided time clears the start time, and no other field changes |
| ScheduleEditorDialog.EditorDialog.HandleStreamerSelect | src/components/schedule/ScheduleEditorDialog.tsx:183-186 | the picked streamer is remembered and its uuid is the form's streamer |
| ScheduleEditorDialog.EditorDialog.HandleChangeStreamer | src/components/schedule/ScheduleEditorDialog.tsx:189-192 | the picked streamer and the form's streamer are cleared |
| ScheduleEditorDialog.EditorDialog.BeginSubmit | src/components/schedule/ScheduleEditorDialog.tsx:222-263 | the outcome is the submission of the form; only a sent request is recorded and marks the dialog submitting, and a create writes the UTC start into the form |
| ScheduleEditorDialog.EditorDialog.FinishSubmit | src/components/schedule/ScheduleEditorDialog.tsx:264-296 | success closes the editor and forgets the schedule, failure leaves both; submitting ends either way |
| ScheduleEditorDialog.EditorDialog.HandleClose | src/components/schedule/ScheduleEditorDialog.tsx:311-314 | a close while a submit is in flight is ignored, and otherwise the editor closes |
| StatusSelector.StatusLabel | src/components/schedule/StatusSelector.tsx:15-26 | the three wire statuses get their Korean labels and any other text is shown unchanged |
| StatusSelector.StatusLabelsDistinct | src/components/schedule/StatusSelector.tsx:15-26 | every status the editor can hold is translated, and two statuses share a label only when they are the same status |
| StatusSelector.StatusColor | src/components/schedule/StatusSelector.tsx:28-39 | each wire status gets its own theme colour and any other text the neutral one |
| StatusSelector.OptionsCoverEachStatusOnce | src/components/schedule/StatusSelector.tsx:43 | the buttons offer every status, each exactly once |
| StatusSelector.OptionStyle | src/components/schedule/StatusSelector.tsx:46-50 | a button is solid, white on its status colour, exactly when it is the selected status, and outlined otherwise |
| StatusSelector.ExactlyOneSolid | src/components/schedule/StatusSelector.tsx:43-50 | exactly the selected status's button is solid, there is always one, and it never has the neutral fallback colour |
| TimeUtils.PartText | src/utils/time.utils.ts:15 | a present element prints as itself and a missing one as "undefined" |
| TimeUtils.KoreanDateCopiesFields | src/utils/time.utils.ts:13-16 | for three dash-free fields joined by dashes the text is year, month and day copied unchanged with their Korean suffixes |
| TimeUtils.KoreanDateOfDateKey | src/utils/time.utils.ts:13-16 | the day key of a date from year 0 on prints as its year, two-digit month and two-digit day |
| TimeUtils.FormatUtc | src/utils/time.utils.ts:5-25 | a missing or empty instant gives the empty text; any other is the Seoul-zone formatting of it |
| NicknameValidation.AllowedIsNotWhitespace | src/utils/validations/nickname.validation.ts:38-45 | no character of the allowed class is whitespace, so a nickname passing the charset rule cannot fail either whitespace rule |
| NicknameValidation.MessagesDistinct | src/utils/validations/nickname.validation.ts:35-56 | no two schema checks share a message, so the message shown names the failed check |
| NicknameValidation.ValidateNickname | src/utils/validations/nickname.validation.ts:65-77 | the "required" message exactly for the empty nickname; an accepted nickname has 2 to 10 characters, all from the allowed class |
| NicknameValidation.ValidateAcceptsExactlyValid | src/utils/validations/nickname.validation.ts:32-58 | the schema accepts exactly the nicknames of 2 to 10 allowed characters that are neither a forbidden name (ignoring case) nor match a forbidden pattern |
| NicknameValidation.FirstErrorOrder | src/utils/validations/nickname.validation.ts:33-57 | the reported issue is the first failing check in the schema's order: required, too short, too long, charset, forbidden name |
| NicknameValidation.WhitespaceMessagesNeverFirst | src/utils/validations/nickname.validation.ts:42-49 | the two whitespace messages are never the one shown |
| NicknameValidation.CheckLength | src/utils/validations/nickname.validation.ts:80-89 | the current length and the limit 10; length plus remaining is 10; over the limit exactly when remaining is negative; near the limit exactly from 8 characters, and over implies near |
| NicknameValidation.CheckLengthAgreesWithSchema | src/utils/validations/nickname.validation.ts:36-37 | for two or more characters the counter is over the limit exactly when the schema reports "too long" |
| NicknameValidation.PatternHits | src/utils/validations/nickname.validation.ts:99-103 | as many entries as there are matching patterns, every one the pattern entry, and none exactly when no pattern matches |
| NicknameValidation.CollectPatternHits | src/utils/validations/nickname.validation.ts:99-103 | the loop collects one entry per matching pattern, in the patterns' order |
| NicknameValidation.CheckSafety | src/utils/validations/nickname.validation.ts:92-117 | the forbidden-name entry, the pattern entries, then the digits-only and dashes-only entries, in that order; safe exactly when there is none |
| NicknameValidation.SafetyAgreesWithSchema | src/utils/validations/nickname.validation.ts:50-57 | the safety report is empty exactly when the schema's forbidden-name and forbidden-pattern rules pass |
| NicknameValidation.DigitsOnlyReportedTwice | src/utils/validations/nickname.validation.ts:99-107 | a digits-only nickname is reported twice: once by the pattern walk and once by the dedicated check |
| NicknameValidation.DashesOnlyReportedTwice | src/utils/validations/nickname.validation.ts:92-111 | a nickname of `_` and `-` only is reported twice: once by the pattern walk and once by the dedicated check |
| NicknameValidation.DashesExcludeWord | src/utils/validations/nickname.validation.ts:25-27 | a word starting with neither `_` nor `-` never occurs in a nickname made of those characters |
| NicknameValidation.DigitsExcludeWord | src/utils/validations/nickname.validation.ts:25-27 | a word starting with a non-digit never occurs in a digits-only nickname |
| NicknameValidation.RemoveWhitespace | src/utils/validations/nickname.validation.ts:123 | no whitespace is left, a string without whitespace is unchanged, and a single character is dropped exactly when it is whitespace |
| NicknameValidation.RemoveWhitespaceAppend | src/utils/validations/nickname.validation.ts:123 | the filter distributes over concatenation, so with the one-character case it keeps exactly the non-whitespace characters, in order |
| NicknameValidation.KeepAllowed | src/utils/validations/nickname.validation.ts:124 | only allowed characters are left, a string of allowed characters is unchanged, and a single character is kept exactly when it is allowed |
| NicknameValidation.KeepAllowedAppend | src/utils/validations/nickname.validation.ts:124 | the filter distributes over concatenation, so with the one-character case it keeps exactly the allowed characters, in order |
| NicknameValidation.Slice10 | src/utils/validations/nickname.validation.ts:125 | the first ten characters, or all of a shorter string |
| NicknameValidation.FormatNickname | src/utils/validations/nickname.validation.ts:120-126 | at most 10 characters, all from the allowed class |
| NicknameValidation.FormatIdempotent | src/utils/validations/nickname.validation.ts:120-126 | formatting a formatted nickname changes nothing |
| NicknameValidation.FiltersKeepAllowed | src/utils/validations/nickname.validation.ts:123-124 | a string of allowed characters passes both filters unchanged |
| NicknameValidation.FormatKeepsValid | src/utils/validations/nickname.validation.ts:120-126 | a nickname the schema accepts is left unchanged by the formatter |
| NicknameValidation.FormattedMeetsCharset | src/utils/validations/nickname.validation.ts:120-126 | the formatter's result is empty or meets the charset rule, and is accepted unless too short or a forbidden name or pattern |
| NicknameHook.ValidationHook.constructor | src/hooks/useNicknameValidation.ts:10-12 | the badge starts unchecked |
| NicknameHook.ValidationHook.DebounceElapsed | src/hooks/useNicknameValidation.ts:17-28 | a nickname shorter than two characters clears the badge; a longer one sets it, valid exactly when the nickname meets the nickname schema |
| NicknameHook.ValidationHook.FormErrorChanged | src/hooks/useNicknameValidation.ts:31-35 | a form error marks the badge invalid and its absence leaves the badge as it was |
| NicknameHook.ValidationHook.IsValid | src/hooks/useNicknameValidation.ts:39 | valid exactly when the badge says valid, and then never invalid |
| NicknameHook.ValidationHook.IsInvalid | src/hooks/useNicknameValidation.ts:40 | invalid exactly when the badge says invalid |
| MyProfileModal.SubmitOutcome | src/components/user/MyProfileModal.tsx:73-101 | nothing for a value the schema rejects or without a user, a no-changes warning for the current nickname, and otherwise the profile update request with the new nickname |
| MyProfileModal.ProfileModal.constructor | src/components/user/MyProfileModal.tsx:34-40 | the form starts empty, not submitting and with nothing in flight |
| MyProfileModal.ProfileModal.OnUserOrOpenChange | src/components/user/MyProfileModal.tsx:54-67 | with a user and the modal open the form is reset to the user's nickname; without a user an open modal is closed; a closed modal changes nothing |
| MyProfileModal.ProfileModal.HandleChange | src/components/user/MyProfileModal.tsx:185-188 | the field keeps a prefix of the typed value of at most 10 characters |
| MyProfileModal.ProfileModal.HandleBlur | src/components/user/MyProfileModal.tsx:189-195 | leaving the field replaces its value by the formatted nickname |
| MyProfileModal.ProfileModal.IsSubmitDisabled | src/components/user/MyProfileModal.tsx:113-118 | an enabled button implies a user, no submit in flight, a schema-valid value that differs from both the reset value and the current nickname; no user, a submit in flight or an unedited value disables it |
| MyProfileModal.ProfileModal.BeginSubmit | src/components/user/MyProfileModal.tsx:73-86 | the outcome is the submit outcome of the field; only a sent update records the request and marks the submit in flight |
| MyProfileModal.ProfileModal.FinishSubmit | src/components/user/MyProfileModal.tsx:86-100 | success replaces the store's user with the updated profile, keeps the token and closes the modal; failure keeps both; submitting ends either way |
| MyProfileModal.ProfileModal.HandleCancel | src/components/user/MyProfileModal.tsx:103-110 | the form goes back to the user's nickname when there is a user, and the modal closes |
| MyProfileModal.OpenedFormCannotSubmit | src/components/user/MyProfileModal.tsx:54-118 | right after the modal opens for a user the submit button is disabled |
| TimePicker.To12 | src/components/ui/DropdownTimePicker.tsx:36-49 | an hour below 24 becomes 1 to 12 with the same value mod 12, AM exactly before noon |
| TimePicker.To24 | src/components/ui/DropdownTimePicker.tsx:70-75 | an hour 1 to 12 becomes a 24-hour hour below 24 with the same value mod 12, before noon exactly for AM |
| TimePicker.To24OfTo12 | src/components/ui/DropdownTimePicker.tsx:36-75 | converting a 24-hour hour to 12-hour and back gives it again |
| TimePicker.To12OfTo24 | src/components/ui/DropdownTimePicker.tsx:36-75 | converting a 12-hour hour and period to 24-hour and back gives them again |
| TimePicker.InitializeTime | src/components/ui/DropdownTimePicker.tsx:29-52 | an absent or empty value starts the picker at 12:00 AM |
| TimePicker.SplitHHMM | src/components/ui/DropdownTimePicker.tsx:32 | a well-formed "HH:MM" splits at the colon into its two fields |
| TimePicker.RoundTrip | src/components/ui/DropdownTimePicker.tsx:29-78 | initialising from a well-formed "HH:MM" and emitting the picker's state gives the same string, with hour 1 to 12 and minute below 60 |
| TimePicker.EmittedRoundTrip | src/components/ui/DropdownTimePicker.tsx:29-78 | what the picker emits for a 12-hour selection is a well-formed "HH:MM" that initialises back to that selection |
| TimePicker.Hours | src/components/ui/DropdownTimePicker.tsx:61 | the hour buttons are 1 to 12 in order |
| TimePicker.MultiplesOf5 | src/components/ui/DropdownTimePicker.tsx:145 | exactly the listed minutes divisible by 5 are kept |
| TimePicker.MinuteOptions | src/components/ui/DropdownTimePicker.tsx:144-145 | the minute buttons are exactly the multiples of 5 below 60 |
| TimePicker.DisplayTime | src/components/ui/DropdownTimePicker.tsx:81 | for numeric fields below 100 the text is "hh:mm" with both fields read back as the hour and minute, a space, then the period |
| TimePicker.Picker.constructor | src/components/ui/DropdownTimePicker.tsx:54-57 | the picker's state is the initialised value |
| TimePicker.Picker.SelectHour | src/components/ui/DropdownTimePicker.tsx:122-125 | only the hour changes; the emitted value is the new state in 24-hour form and, with a valid minute, initialises back to the new state |
| TimePicker.Picker.SelectMinute | src/components/ui/DropdownTimePicker.tsx:153-156 | only the minute changes; the emitted value is the new state in 24-hour form and, with a valid hour, initialises back to the new state |
| TimePicker.Picker.SelectPeriod | src/components/ui/DropdownTimePicker.tsx:174-188 | only the period changes; the emitted value is the new state in 24-hour form and, with a valid hour and minute, initialises back to the new state |
| JsStrings.Split | src/components/ui/DropdownTimePicker.tsx:32 | there is always at least one piece, no piece holds the separator, and joining the pieces with it gives the text back |
| JsStrings.SplitCons | src/utils/time.utils.ts:14 | a separator-free piece followed by the separator splits off as the first piece |
| JsStrings.SplitNoSep | src/utils/time.utils.ts:14 | a separator-free text splits into itself alone |
| JsStrings.AsciiLower | src/components/home/SImpleScheduleCard.tsx:29 | same length, each ASCII capital lowered and every other character kept |
| JsStrings.TrimStart | src/utils/validations/nickname.validation.ts:43 | a suffix of the text that does not start with whitespace, everything dropped before it is whitespace, and the text itself when it did not start with whitespace |
| JsStrings.TrimEnd | src/utils/validations/nickname.validation.ts:43 | a prefix of the text that does not end with whitespace, everything dropped after it is whitespace, and the text itself when it did not end with whitespace |
| JsStrings.Trim | src/utils/validations/nickname.validation.ts:43-47 | no longer than the text, neither starting nor ending with whitespace, and the text itself when it has none at either end |
| JsStrings.TrimRemovesOnlyEndWhitespace | src/utils/validations/nickname.validation.ts:43-47 | the trimmed text is a substring of the text, and everything removed before and after it is whitespace |
| JsStrings.TrimEmptyIffAllWhitespace | src/utils/validations/nickname.validation.ts:43 | a text trims to empty exactly when every character of it is whitespace |
| JsStrings.Digits | src/components/ui/DropdownTimePicker.tsx:76 | a non-empty all-digit text without a leading zero whose value is the number, one digit exactly below 10 and two from 10 to 99 |
| JsStrings.LeadingDigits | src/components/ui/DropdownTimePicker.tsx:33-34 | the longest all-digit prefix of the text |
| JsStrings.ParseInt | src/components/ui/DropdownTimePicker.tsx:33-34 | no number exactly when the text does not start with a digit, and the text's value when it is all digits |
| JsStrings.PadStart2 | src/components/ui/DropdownTimePicker.tsx:76 | a text of two or more characters is unchanged; a shorter one is brought to two characters by putting "0"s in front of it |
| JsStrings.Pad2 | src/components/schedule/Calendar.tsx:62-63 | an all-digit text of at least two characters, exactly two below 100, whose value is the number |
| JsStrings.TwoDigitsRoundTrip | src/components/ui/DropdownTimePicker.tsx:33-76 | two digits read as a number below 100 and printed back with two-digit padding give the same two digits |
| Dates.DaysInMonth | src/components/schedule/StreamerSchedule.tsx:67 | a month has 28 to 31 days, and 29 exactly for February of a leap year |
| Dates.DayOfWeek | src/components/schedule/Calendar.tsx:47 | the weekday is 0 (Sunday) to 6 (Saturday) |
| Dates.NextDay | src/components/schedule/Calendar.tsx:54 | stepping the cursor gives a valid date |
| Dates.NextDayNumber | src/components/schedule/Calendar.tsx:54 | stepping the cursor moves the day's serial number by exactly one |
| Dates.DateKeyIsFullDate | src/components/schedule/Calendar.tsx:60-65 | for a four-digit year the key is a full-date of section 5.6 of RFC 3339, and its three fields read back as the year, month and day |
| Dates.DateKeyInjective | src/components/schedule/Calendar.tsx:60-65 | two valid dates of four-digit years with the same key are the same date |
| Calendar.Lead | src/components/schedule/Calendar.tsx:45-47 | the grid starts 0 to 6 cells before the first of the month |
| Calendar.GridDay | src/components/schedule/Calendar.tsx:42-58 | every cell holds a valid calendar date |
| Calendar.GridStart | src/components/schedule/Calendar.tsx:45-47 | the grid start is a valid date and is cell 0 |
| Calendar.GridNext | src/components/schedule/Calendar.tsx:52-55 | each cell holds the day after the previous cell's, as the cursor steps |
| Calendar.GridDayNumber | src/components/schedule/Calendar.tsx:46-55 | cell i is i minus the lead days after the first of the month |
| Calendar.GridWeekday | src/components/schedule/Calendar.tsx:158-168 | cell i falls on weekday i mod 7, so column 0 is Sunday and column 6 Saturday, matching the header |
| Calendar.GridStartsOnSunday | src/components/schedule/Calendar.tsx:45-47 | the grid starts on a Sunday at most six days before the first of the month |
| Calendar.GridCoversMonth | src/components/schedule/Calendar.tsx:42-58 | every day of the month has its cell inside the 42 |
| Calendar.GetDaysInMonth | src/components/schedule/Calendar.tsx:42-58 | 42 valid dates, the first the grid start, each the day after the one before and each the closed-form cell date |
| Calendar.GridCurrentMonth | src/components/schedule/Calendar.tsx:72-74 | within the grid, exactly the cells of the shown month count as the current month |
| Calendar.HeaderColor | src/components/schedule/Calendar.tsx:163-169 | Sunday's header is red, Saturday's blue, the others grey |
| Calendar.CellColor | src/components/schedule/Calendar.tsx:206-216 | grey exactly outside the month; plain for today; otherwise the column's header colour |
| Calendar.WeekendColors | src/components/schedule/Calendar.tsx:206-216 | a day of the month other than today is red exactly on a Sunday and blue exactly on a Saturday |
| Calendar.LastOfMonth | src/components/schedule/StreamerSchedule.tsx:67 | the month's last day is a valid date |
| Calendar.GridEnd | src/components/schedule/StreamerSchedule.tsx:70-71 | the end of the fetch range is a valid date |
| Calendar.FetchRangeInGrid | src/components/schedule/StreamerSchedule.tsx:63-77 | the fetch range runs Sunday to Saturday, ends within six days after the month's last day, and its end is a grid cell |
| Calendar.GridEndIndex | src/components/schedule/StreamerSchedule.tsx:70-71 | the range's end is the Saturday cell closing the last day's week, fewer than seven cells after it |
| ScheduleBuckets.FindDay | src/components/schedule/StreamerSchedule.tsx:125-126 | nothing exactly when no record has the date; otherwise the first record with that date |
| ScheduleBuckets.Override | src/components/schedule/StreamerSchedule.tsx:135-139 | the overlay's like flag and count replace the server's where it has an entry; every other field is the server's |
| ScheduleBuckets.Tagged | src/components/schedule/StreamerSchedule.tsx:129-131 | one entry per schedule of the bucket, in order, each under the overlay and tagged with the bucket |
| ScheduleBuckets.UnknownDateIsEmpty | src/components/schedule/StreamerSchedule.tsx:124-126 | a date without a record shows no entries |
| ScheduleBuckets.BucketOrder | src/components/home/HomeSchedule.tsx:101-117 | a date with a record shows each of its schedules exactly once: breaks, then undecided times, then scheduled streams, each tagged with its bucket and under the overlay |
| ScheduleBuckets.DayEntriesOrder | src/components/schedule/StreamerSchedule.tsx:128-139 | the entries of one record are its three buckets in order, each entry the server's schedule under the overlay, tagged with its bucket |
| ScheduleBuckets.UntouchedAsServerSent | src/components/schedule/StreamerSchedule.tsx:137-138 | a schedule the overlay has no entry for is shown exactly as the server sent it |
| ScheduleBuckets.TagsAreBucketTags | src/components/schedule/StreamerSchedule.tsx:128-132 | every cell entry carries one of the three bucket tags |
| ScheduleCards.GetStatusConfig | src/components/schedule/StreamerSchedule.tsx:143-180 | the label per bucket tag ("예정", "휴방", "시간미정") and "기타" otherwise; the icon only for scheduled streams; a border colour only for breaks and undecided times |
| ScheduleCards.CellEntriesNeverFallBack | src/components/schedule/StreamerSchedule.tsx:128-180 | no entry of a calendar cell gets the catch-all style |
| ScheduleCards.FormatTime | src/components/schedule/StreamerSchedule.tsx:183-193 | nothing exactly for a missing or empty time |
| ScheduleCards.FormatTimeDropsSeconds | src/components/schedule/ScheduleCard.tsx:65-74 | "HH:MM:SS" becomes "HH:MM" |
| ScheduleCards.FormatTimeIdempotent | src/components/home/SImpleScheduleCard.tsx:105-114 | formatting a formatted time changes nothing |
| ScheduleCards.BadgeText | src/components/home/SImpleScheduleCard.tsx:173-175 | the formatted start time for a scheduled stream with a start time, else the status label |
| ScheduleCards.LikeBadgeDefaults | src/components/schedule/ScheduleCard.tsx:102-105 | the badge starts from the entry's count and flag, 0 and false when they are missing |
| ScheduleCards.BadgeStartsFromOverlay | src/components/schedule/StreamerSchedule.tsx:135-139 | a card of a schedule the overlay knows starts its like badge from the overlay's values |
| ScheduleCards.LowerIdempotent | src/components/home/SImpleScheduleCard.tsx:29 | lowercasing twice is lowercasing once |
| ScheduleCards.LowerKeepsOccurrence | src/components/home/SImpleScheduleCard.tsx:29 | an occurrence of the search in the name is still there, at the same place, after both are lowercased |
| ScheduleCards.SearchMatchMeaning | src/components/home/SImpleScheduleCard.tsx:27-29 | an empty search matches nothing; a name containing the search matches; the case of either side does not change the answer |
| ScheduleCards.HighlightEmpty | src/components/home/SImpleScheduleCard.tsx:32-33 | an empty search term gives the text unchanged |
| StreamerScheduleView.RangeQuery | src/components/schedule/StreamerSchedule.tsx:63-77 | the query runs from the Sunday on or before the 1st to the Saturday on or after the month's last day, and carries the given filters unchanged |
| StreamerScheduleView.StreamerSchedule.constructor | src/components/schedule/StreamerSchedule.tsx:32-36 | the month shown, no data, not loading |
| StreamerScheduleView.StreamerSchedule.BeginLoad | src/components/schedule/StreamerSchedule.tsx:56-80 | with no active streamer the data is cleared and nothing is sent; otherwise loading starts and exactly one request is sent, for the month's range and the active streamers' uuids |
| StreamerScheduleView.StreamerSchedule.FinishLoad | src/components/schedule/StreamerSchedule.tsx:41-53 | success replaces the data, failure keeps it; loading ends either way |
| StreamerScheduleView.StreamerSchedule.ItemsForDate | src/components/schedule/StreamerSchedule.tsx:124-140 | a day the server sent nothing for has no entries |
| HomeScheduleView.WithIds | src/components/home/HomeSchedule.tsx:112-117 | each entry is kept, in order, with its uuid as its item id |
| HomeScheduleView.HomeSchedule.constructor | src/components/home/HomeSchedule.tsx:24-38 | empty search, all three platforms selected, trigger 0, no data, not loading |
| HomeScheduleView.HomeSchedule.HandleSearchChange | src/components/home/HomeSchedule.tsx:41-43 | only the search text changes; no reload is triggered |
| HomeScheduleView.HomeSchedule.HandleSearch | src/components/home/HomeSchedule.tsx:45-47 | the trigger is bumped once; the filters stay |
| HomeScheduleView.HomeSchedule.HandlePlatformChange | src/components/home/HomeSchedule.tsx:49-57 | the clicked platform's membership flips, every other platform's stays, and the trigger is bumped |
| HomeScheduleView.HomeSchedule.HandleRefresh | src/components/home/HomeSchedule.tsx:120-122 | the trigger is bumped; the search text and the platforms stay |
| HomeScheduleView.HomeSchedule.BeginLoad | src/components/home/HomeSchedule.tsx:73-98 | loading starts and exactly one request is sent: the month's whole-week range with the selected platforms and no streamer filter |
| HomeScheduleView.HomeSchedule.FinishLoad | src/components/home/HomeSchedule.tsx:60-70 | success replaces the data, failure keeps it; loading ends either way; the filter stays |
| HomeScheduleView.HomeSchedule.ItemsForDate | src/components/home/HomeSchedule.tsx:101-118 | one item per shared cell entry, each with its uuid as id; a day the server sent nothing for has none |
| HomeScheduleView.PlatformClickedTwice | src/components/home/HomeSchedule.tsx:49-57 | two clicks on one platform restore the selected set and bump the trigger twice |
| PlatformFilter.Platform.Name | src/components/home/HomeSchedule.tsx:18 | the three platforms have the three distinct server keys "chzzk", "soop" and "youtube" |
| PlatformFilter.Names | src/components/home/HomeSchedule.tsx:94 | the selection is sent as the platforms' keys, one per selected platform, in order |
| PlatformFilter.Without | src/components/home/HomeSchedule.tsx:51-52 | exactly the other platforms remain, and a list without the platform is returned as it is |
| PlatformFilter.ToggleFlips | src/components/home/HomeSchedule.tsx:49-55 | a click flips the clicked platform's membership and keeps every other platform's |
| PlatformFilter.ToggleTwice | src/components/home/HomeSchedule.tsx:49-55 | two clicks on one platform restore the selection as a set, and the list itself when the platform was not selected |
| PlatformFilter.WithoutAppend | src/components/home/HomeSchedule.tsx:51-53 | appending a platform and filtering it out again gives back the list |
| PlatformFilter.ToggleKeepsDistinct | src/components/home/HomeSchedule.tsx:49-55 | a selection without repeats never gets one |
| PlatformFilter.WithoutDistinct | src/components/home/HomeSchedule.tsx:51-52 | filtering keeps a list free of repeats |
| StreamerTable.ColumnCount | src/components/streamer/StreamerTable.tsx:47 | seven columns on the verified tab and five on the pending tab |
| StreamerTable.EmptyParts | src/components/streamer/StreamerTable.tsx:50-52 | one part for a search and one for a platform filter, none of them empty |
| StreamerTable.JoinNonEmpty | src/components/streamer/StreamerTable.tsx:54 | joining parts whose first part is not empty gives a non-empty text |
| StreamerTable.EmptyDescriptionGenericIff | src/components/streamer/StreamerTable.tsx:49-58 | the generic empty message shows exactly when there is neither a search nor a platform filter |
| StreamerTable.EmptyDescriptionSearchOnly | src/components/streamer/StreamerTable.tsx:49-58 | with only a search the message quotes the search |
| StreamerTable.EmptyDescriptionBoth | src/components/streamer/StreamerTable.tsx:49-58 | with both, the quoted search and the comma-separated platforms are joined by a middle dot |
| StreamerTable.RowNumbersConsecutive | src/components/streamer/StreamerTable.tsx:132 | row numbers run on by one within a page, start at 1 and carry on from a full page to the next |
| StreamerTable.ShowPagination | src/components/streamer/StreamerTable.tsx:206 | the pager shows exactly when there are more results than fit on one page |
| StreamerTable.VerifiedAtCell | src/components/streamer/StreamerTable.tsx:180-182 | a dash exactly when there is no verification date, and otherwise that date |
| StreamerList.OrNumber | src/hooks/useStreamerList.ts:56-58 | a present non-zero number is kept and a missing number or zero takes the fallback |
| StreamerList.ListRequest | src/hooks/useStreamerList.ts:42-48 | the tab, the page and the page size of 15; the platforms exactly when some are selected; the trimmed search exactly when it is not blank |
| StreamerList.Received | src/hooks/useStreamerList.ts:50-59 | a missing answer gives an empty page at the requested page, and each missing or zero field of an answer takes its default |
| StreamerList.StreamerListState.constructor | src/hooks/useStreamerList.ts:19-31 | an empty first page, not loading, no error, page 1 and no streamer selected |
| StreamerList.StreamerListState.BeginFetch | src/hooks/useStreamerList.ts:36-51 | loading starts, the error is cleared and exactly the list request for the filters, page and search is sent; the data and current page stay |
| StreamerList.StreamerListState.Refetch | src/hooks/useStreamerList.ts:83-85 | a filter or trigger change asks for the first page with the current search |
| StreamerList.StreamerListState.HandlePageChange | src/hooks/useStreamerList.ts:88-90 | a page button asks for that page with the current search |
| StreamerList.StreamerListState.FinishFetch | src/hooks/useStreamerList.ts:54-77 | success stores the answer with its defaults and makes the requested page current; failure stores an empty first page and the error message, or the fallback message, and keeps the current page; loading ends either way |
| StreamerList.StreamerListState.OpenDetail | src/hooks/useStreamerList.ts:93-96 | the streamer is selected and the detail dialog opens |
| StreamerList.StreamerListState.CloseDetail | src/hooks/useStreamerList.ts:98-101 | the dialog closes at once while the selection is kept |
| StreamerList.StreamerListState.SelectionTimerFired | src/hooks/useStreamerList.ts:100 | the delayed reset clears the selection and nothing else |
| RegisterStreamer.PlatformRow.constructor | src/components/streamer/RegisterStreamerDialog.tsx:41 | a new row has an empty platform and an empty channel address |
| RegisterStreamer.RegisterDialog.Contents | src/components/streamer/RegisterStreamerDialog.tsx:35-37 | one value pair per row |
| RegisterStreamer.RegisterDialog.constructor | src/components/streamer/RegisterStreamerDialog.tsx:35-37 | the list starts with a single empty row |
| RegisterStreamer.RegisterDialog.HandleAddPlatform | src/components/streamer/RegisterStreamerDialog.tsx:39-42 | with ten rows or more nothing changes; otherwise one empty row is appended and the others keep their values |
| RegisterStreamer.RegisterDialog.HandleRemovePlatform | src/components/streamer/RegisterStreamerDialog.tsx:44-46 | exactly the row at the index is removed and the others keep their values and order; an index out of range removes nothing |
| RegisterStreamer.RegisterDialog.HandleChangePlatform | src/components/streamer/RegisterStreamerDialog.tsx:48-56 | exactly the named field of the row at the index takes the value; every other value is unchanged and no row object is shared |
| RegisterStreamer.RegisterDialog.ShowRemoveButton | src/components/streamer/RegisterStreamerDialog.tsx:159 | the delete buttons show exactly when at least two rows are left |
| RegisterStreamer.RegisterDialog.ShowAddButton | src/components/streamer/RegisterStreamerDialog.tsx:173 | the add button shows exactly while there are fewer rows than platform choices, so never at the ten-row limit |
| StreamersPage.StreamersPageState.constructor | src/app/streamers/page.tsx:17-22 | the page opens on the verified tab with no search, no platform filter and the trigger at 0 |
| StreamersPage.StreamersPageState.IsVerified | src/app/streamers/page.tsx:37 | the data hook is asked for verified streamers exactly on the verified tab |
| StreamersPage.StreamersPageState.HandleSearch | src/app/streamers/page.tsx:44-46 | the trigger is bumped and nothing else changes |
| StreamersPage.StreamersPageState.HandlePlatformChange | src/app/streamers/page.tsx:48-56 | the platform's membership flips, every other platform's stays, and the trigger is bumped |
| StreamersPage.StreamersPageState.HandleRefresh | src/app/streamers/page.tsx:58-62 | the search and the platform filter are cleared and the trigger is bumped |
| StreamersPage.StreamersPageState.HandleTabChange | src/app/streamers/page.tsx:64-66 | only the tab changes |
| StreamersPage.StreamersPageState.HandleSearchChange | src/app/streamers/page.tsx:68-70 | only the search text changes |
| MenuPaths.IsActive | src/components/sidebar/SidebarMenu.tsx:46-51 | the home entry is highlighted exactly on "/" and any other entry exactly when its path is a prefix of the page's path |
| MenuPaths.SubpageKeepsActive | src/components/sidebar/SidebarMenu.tsx:46-51 | a page below a non-home entry's path keeps that entry highlighted |
| MenuPaths.DifferAt | src/components/sidebar/MiniSidebarMenu.tsx:57-62 | a page that differs from a path within its length does not start with it |
| MenuPaths.HomeOnlyAtRoot | src/components/sidebar/MiniSidebarMenu.tsx:57-62 | the home entry is not highlighted on another page even though every page starts with "/" |
| Navigation.Router.constructor | src/components/sidebar/SidebarMenu.tsx:42-44 | the history starts with the current page |
| Navigation.Router.Push | src/components/sidebar/SidebarMenu.tsx:42-44 | a push appends the path to the history and changes nothing else |
| Navigation.Router.Current | src/components/sidebar/SidebarMenu.tsx:46-51 | the current page is one the history holds |
| SidebarMenu.ShowsEditIcon | src/components/sidebar/SidebarMenu.tsx:93 | the edit icon is shown exactly on the entries that open a form |
| SidebarMenu.EditIconOnlyOnCreate | src/components/sidebar/SidebarMenu.tsx:16-40 | of the four entries only schedule creation carries the edit icon |
| SidebarMenu.OneEntryActivePerPage | src/components/sidebar/SidebarMenu.tsx:16-51 | on the page of an entry exactly that entry is highlighted |
| SidebarMenu.HandleNavigation | src/components/sidebar/SidebarMenu.tsx:42-44 | a click pushes exactly the entry's own path, which becomes the current page |
| MiniSidebarMenu.IsDisabled | src/components/sidebar/MiniSidebarMenu.tsx:80 | a button is disabled when its entry is, or when it needs a signed-in user and nobody is signed in |
| MiniSidebarMenu.OnlyCreateCanBeDisabled | src/components/sidebar/MiniSidebarMenu.tsx:19-53 | only schedule creation can be disabled, exactly when nobody is signed in, and only it opens the editor |
| MiniSidebarMenu.NavigatesToOwnPath | src/components/sidebar/MiniSidebarMenu.tsx:19-53 | every navigating entry pushes its own path |
| MiniSidebarMenu.Click | src/components/sidebar/MiniSidebarMenu.tsx:79-80 | a disabled button changes nothing; otherwise a navigating entry pushes its path and the create entry opens the editor in create mode with nothing being edited |
| ModalStore.ModalRegistry.constructor | src/stores/modal.store.ts:21-22 | the registry starts with no modal open |
| ModalStore.ModalRegistry.IsModalOpen | src/stores/modal.store.ts:42-44 | a modal is open exactly when its id is in the set |
| ModalStore.ModalRegistry.OpenModal | src/stores/modal.store.ts:24-28 | the id is added and every other id keeps its state; afterwards the modal reads as open |
| ModalStore.ModalRegistry.CloseModal | src/stores/modal.store.ts:30-36 | the id is removed and every other id keeps its state; afterwards the modal reads as closed |
| ModalStore.ModalRegistry.CloseAllModals | src/stores/modal.store.ts:38-40 | afterwards no id reads as open |
| ModalStore.OpenThenClose | src/stores/modal.store.ts:24-36 | opening a closed modal and closing it again restores the registry |
| AuthStore.LocalStorage.constructor | src/stores/auth.store.ts:44 | local storage holds the given items |
| AuthStore.LocalStorage.RemoveItem | src/stores/auth.store.ts:44 | exactly the given key is removed |
| AuthStore.Auth.constructor | src/stores/auth.store.ts:26-28 | no token, no user, not authenticated; the session invariant holds |
| AuthStore.Auth.Login | src/stores/auth.store.ts:30-36 | token and user are set and the session is authenticated; the invariant (authenticated iff a user, authenticated implies a token) is kept |
| AuthStore.Auth.Logout | src/stores/auth.store.ts:38-45 | token and user are cleared, the session is not authenticated, only the refresh token leaves local storage, and the invariant is kept |
| AuthStore.Auth.SetToken | src/stores/auth.store.ts:47-49 | only the token changes; the invariant is kept |
| AuthStore.Auth.UpdateUser | src/components/user/MyProfileModal.tsx:28 | only the user changes, for a signed-in session; the invariant is kept |
| InteractiveSidebar.Sidebar.constructor | src/stores/interactive-sidebar.store.ts:13 | the sidebar starts open |
| InteractiveSidebar.Sidebar.OpenSidebar | src/stores/interactive-sidebar.store.ts:14 | the sidebar is open |
| InteractiveSidebar.Sidebar.CloseSidebar | src/stores/interactive-sidebar.store.ts:15 | the sidebar is closed |
| InteractiveSidebar.Sidebar.ToggleSidebar | src/stores/interactive-sidebar.store.ts:16 | the flag flips |
| InteractiveSidebar.ToggleTwice | src/stores/interactive-sidebar.store.ts:16 | toggling twice restores the flag |
| Tour.TourState.constructor | src/hooks/useTour.ts:5-6 | a tour starts at step 0, running |
| Tour.TourState.Next | src/hooks/useTour.ts:8 | the step advances by one; running is unchanged |
| Tour.TourState.End | src/hooks/useTour.ts:9 | the tour stops; the step reached is kept |
| Services.Network.constructor | src/services/schedule.service.ts:76-80 | no request has been sent yet |
| Services.Network.Send | src/services/schedule.service.ts:76-130 | each service call is recorded once, after the earlier ones, and nothing else changes |

## Left out

- Time: JavaScript `Date`, time zones and locales are not modelled.
  - Dates are proleptic Gregorian (year, month, day) triples with a computed day of the week.
  - `prepareSchedulePayload` (ScheduleEditorDialog.tsx:102-113) is not modelled. Its UTC instant is a parameter of the submit: `None` stands for a conversion that throws.
  - The Seoul-zone formatting of the two UTC formatters is a function parameter; only their empty-input guards are modelled.
  - `toLocaleDateString`, `toLocaleString`, `navigateMonth` with its `setMonth` overflow, and `isToday` are not modelled. Whether a cell is today is a parameter of the cell colour.
- Timers are explicit events:
  - the roster store's 2-second debounce is `MyStreamers.MyStreamersStore.Flush`;
  - the 300 ms nickname debounce is `NicknameHook.ValidationHook.DebounceElapsed`;
  - the 200 ms delayed clearing of the directory's selection is `StreamerList.StreamerListState.SelectionTimerFired`.
  - Two things are therefore not modelled: overlapping timers, and a batch queued while an earlier batch is still in flight.
- Persistence (zustand `persist`, localStorage) is not modelled. The exception is the `refreshToken` key that `logout` removes.
- Not modelled: notifications and toasts, animations, rendering, react-hook-form's internal dirty/valid bookkeeping (replaced by the reset value and the schema), and the services' transport, interceptors and error messages.
- A failed request is a `succeeded = false` outcome. The error text a failure carries is an optional parameter.
- The OAuth popup flow, the search-streamer debounce, the filter panel's sync timer and every rendering-only component are not part of this model.
- The `Services` module models only the requests the core sends, as values; the service files themselves are not part of this model.
- Strings are sequences of Unicode code points. JavaScript counts UTF-16 code units, so lengths differ for characters outside the Basic Multilingual Plane. The nickname rules only admit Hangul syllables, ASCII letters, digits, `_` and `-`, all of which are one unit in both.
- JsStrings.AsciiLower: lowercases ASCII letters only. No forbidden nickname or pattern contains a non-ASCII letter whose Unicode lowercase form is ASCII, so the nickname rules decide the same.
- JsStrings.ParseInt: reads only a leading run of decimal digits. There is no sign, no leading whitespace, no radix prefix and no loss of precision. Its callers only pass fields of "HH:MM" texts.
- ScheduleCards.HighlightEmpty: models only the empty search term. A non-empty term builds a regular expression from unescaped input and gives no result here.
- Dates.DateKeyIsFullDate: states the RFC 3339 full-date shape only for four-digit years; other years do not have that shape.
- NicknameValidation.ValidateNickname: the fallback message for a rejection without an issue cannot occur with this schema and is not modelled.
- AuthStore.Auth.UpdateUser: the auth store shown defines no `updateUser`, although the profile modal calls it. It is modelled as replacing the user and keeping the token. As written, the call at MyProfileModal.tsx:88 throws inside the `try`: the update request has been sent, but an error is shown and the modal stays open. The model shows the intended success path instead.
- MyProfileModal.ProfileModal.FinishSubmit: requires a signed-in session, so a logout while the update request is in flight is not modelled.
- Three handlers that await a request run in one step, with the request's outcome as a parameter. Anything the user does while the request is in flight is not modelled:
  - StreamerFollow.SyncToServer: a `toggleFollow` made while the follow or unfollow request is in flight is wiped by the `resetFollow` that runs after the await (useStreamerFollow.ts:74, :79).
  - ScheduleDetailDialog.DetailDialog.HandleClose: a schedule loaded or a like pressed while the like request is in flight is cleared by the `finally` that runs after the await (ScheduleDetailDialog.tsx:102-106).
  - MyStreamers.MyStreamersStore.SaveBatchActiveState: a toggle queued while the batch is in flight is cleared with the queue after the await (my-streamers.store.ts:45, :49) without being sent; see also the timers line above.
- MyStreamers.ActiveFirstIsStableSort: the roster's `isActive` is a boolean in the model. In the source it can be undefined, because `syncOnLogin` adopts server entries as sent (my-streamers.store.ts:136) and the server's simple streamer type declares no `isActive`. The model reads undefined as false. That is right for `filter`, `!` and `&&`. It is not right for the comparator at my-streamers.store.ts:175-178: its `===` makes undefined against false return 1 both ways, and for such an inconsistent comparator ECMAScript leaves the order implementation-defined. The sort result is therefore stated only for rosters whose flags are all true or false.
- ScheduleEditorDialog.Submission: in edit mode with no schedule being edited, the source fails with a TypeError inside its `try`. That reports a failure and ends submitting without a request; the model reports `EditTargetMissing`.
- Several functions exist in more than one file with the same body and are modelled once:
  - `getStatusConfig` and `formatTime` (StreamerSchedule, SImpleScheduleCard, ScheduleCard);
  - `getStatusLabel` (StatusSelector, ScheduleEditorDialog);
  - `formatDateKey` and `getDaysInMonth` (Calendar, StreamerSchedule);
  - `isActive` (both sidebars);
  - `handlePlatformChange` (HomeSchedule and the streamers page).
- The like fields (`isLiked`, `likeCount`) are read from schedule records even though the declared response type does not list them. The model gives every record both fields, each optional.
- RegisterStreamer.RegisterDialog.ShowAddButton: the add button is hidden from three rows on, while `handleAddPlatform` guards at ten. Both are modelled as written, and the lemma records that the button never reaches the guard.
