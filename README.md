# Vault app: navigation, biometric gates and views, in Dafny

This project models the client core of a private "vault" web app. The vault is a set of folders behind biometric checks. The model covers:

- the top-level page that switches between screens and owns three modal flags;
- the three biometric gates: the restricted-access modal in front of a folder, the identity-verification modal in front of a file, and the Face ID screen after onboarding;
- the new-folder sheet and the folders HTTP route (list by status, newest first; create with defaults);
- the dashboard's search, labels, empty state and card callbacks;
- the note editor's formatting toolbar and save guard;
- the PIN pad;
- the secure viewer's 59-second countdown;
- the voice recorder's clock and save;
- the folder file list;
- the onboarding carousel;
- the settings screen with its storage round trip;
- the login-activity filter.

Code that mutates state step by step is modelled as classes. This covers the page, the gates, the folder sheet, the note editor, the PIN pad, the viewer, the recorder, the carousel, the settings screen and the folder store. Each such class method is proved to perform a pure `Step` (or an equivalent function) of a value-level state. The properties are proved about those functions: invariants preserved by every enabled event, facts about every trace from the initial state, and witness traces showing that the intended paths are reachable. Pure code (filters, label maps, string formatting) is modelled as functions with lemmas.

Outside inputs are made explicit:
- the biometric result is an `Outcome` (true, false, or the call throws);
- the 500 ms "success" delay, the one-second intervals and the recorder's callbacks are events of their own;
- the database is a sequence of records, and its reachability is a boolean parameter;
- browser storage is a map from keys to parsed objects.

JavaScript string semantics are written out in `Text` (and `substring`, with clamping and swapping, in `CreateNote.Substring`):
- `trim`, with the ECMAScript white-space and line-terminator set;
- `toLowerCase`, for ASCII and Latin-1;
- `includes`;
- `Number.prototype.toString` on naturals;
- `padStart`.

Behaviour of the code that the model keeps as written:

- `handleActivityClick` is passed to no view, so the `activity` screen is unreachable (`Navigation.ActivityUnreachable`).
- `handleCreateFolder` is typed to receive a security level, but the new-folder sheet passes its folder type. So `selectedFolderSecurity` ends up holding a type id such as "documentos" (`Navigation.SheetCreateOpensFolderDetail`).
- After a successful check, the restricted-access and identity modals never clear their scanning flag, and nothing resets them when they close. A reopened modal therefore stays "scanning" and starts no new check (`GateProtocol.LatchedStays`, `IdentityVerification.ReopenDoesNotRestart`).
- The PIN pad's "Del" key is passed to `addDigit` like a digit, so it appends the three letters "Del" (`PinPadModel.DelOverflows`).
- The POST route rejects only a missing or empty name; a name of spaces is accepted (`FoldersRoute.WhitespaceNameAccepted`).
- The dashboard's label and icon maps are plain object literals. A folder type that names an `Object.prototype` member, such as "constructor" or "__proto__", finds that member instead of falling back to "Archivos" or the folder icon (`DashboardView.ArchivosLabel`, `DashboardView.SheetTypesHaveOwnIcons`).
- The page renders the dashboard without a `folders` list, so the dashboard's first render fails and, as written, the app gets no further than `dashboard` (`Navigation.AsWrittenStopsAtDashboard`). The rest of the page model assumes a dashboard that renders, so that the screens behind it can be modelled.

Where the app's stated design and its code differ, the model follows the code (apart from the dashboard render noted above):
- there is no session or `biometricVerified` guard on the way to the dashboard;
- the restricted-access modal does not start a check when it opens;
- reopening a gate does not restart it;
- unlocking a folder leads to the `folder` screen, not `folderDetail`;
- the viewer's back and lock both return to `folder`.

## Model

| member | source | states |
|---|---|---|
| Navigation.StepPreservesInv | app/page.tsx:19-79 | every enabled handler keeps the page invariant: the screen is never `activity`, and on the onboarding and auth screens no modal or sheet is open |
| Navigation.TraceInv | app/page.tsx:19-25 | every state reached from the initial state (onboarding, all three flags false, security "enhanced") satisfies the invariant |
| Navigation.ActivityUnreachable | app/page.tsx:83-131 | no trace from the initial state reaches `activity`, because no view receives `handleActivityClick` |
| Navigation.OnboardingLeadsOnlyToAuth | app/page.tsx:83-85 | on the onboarding screen the only event is `onComplete`, and it leads to `auth` |
| Navigation.OnlyAuthenticateLeavesAuth | app/page.tsx:27-29 | on `auth` the only event is `onAuthenticate`, and it leads to `dashboard` |
| Navigation.DashboardNeedsOnboardingThenAuth | app/page.tsx:83-89 | any trace that leaves onboarding contains `onComplete`, and any trace past `auth` contains an `onComplete` followed by an authenticate |
| Navigation.ViewerOnlyThroughVerification | app/page.tsx:59-63 | the only event that enters `viewer` is `onVerified` from the open identity modal |
| Navigation.FolderNeedsClickThenUnlock | app/page.tsx:31-40 | an open access modal implies an earlier folder click; the identity modal being open, or being in `folder` or `viewer`, implies a folder click followed later by an unlock |
| Navigation.ViewerNeedsUnlockAndVerification | app/page.tsx:54-63 | an open identity modal implies an earlier file click; being in `viewer` implies a file click followed later by a verification |
| Navigation.SheetCreateOpensFolderDetail | app/page.tsx:70-74 | creating from the sheet enters `folderDetail`, selects the name, and stores the folder type id (not a security level) as the selected security |
| Navigation.EveryScreenButActivityReachable | app/page.tsx:83-131 | with a dashboard that renders, every screen other than `activity` is reached by some valid trace |
| Navigation.AsWrittenStopsAtDashboard | app/page.tsx:91-96 | as written, with no dashboard callback ever raised, every trace stays on `onboarding`, `auth` or `dashboard`, with no modal or sheet open |
| Navigation.VaultPage.HandleFolderClick | app/page.tsx:31-34 | records the folder and opens the restricted modal; the screen is unchanged |
| Navigation.VaultPage.HandleUnlockFolder | app/page.tsx:36-40 | closes the restricted modal and enters `folder` |
| Navigation.VaultPage.HandleFileClick | app/page.tsx:54-57 | records the file and opens the identity modal; the screen is unchanged |
| Navigation.VaultPage.HandleIdentityVerified | app/page.tsx:59-63 | closes the identity modal and enters `viewer` |
| Navigation.VaultPage.HandleBackToDashboard | app/page.tsx:50-52 | from settings, folder, activity or folder detail, goes to `dashboard` |
| Navigation.VaultPage.ViewerGoBack | app/page.tsx:115 | the viewer's back button goes to `folder` |
| Navigation.VaultPage.HandleLockDocument | app/page.tsx:65-68 | locking the document goes to `folder` |
| Navigation.VaultPage.HandleCreateFolder | app/page.tsx:70-74 | sets the selected folder and security from the arguments and enters `folderDetail` |
| Navigation.VaultPage.CloseRestricted | app/page.tsx:136 | clears only the restricted modal's flag |
| Navigation.VaultPage.CloseIdentity | app/page.tsx:144 | clears only the identity modal's flag |
| Navigation.VaultPage.CloseFolderSheet | app/page.tsx:151 | clears only the new-folder sheet's flag |
| Navigation.VaultPage.HandleAddItemToFolder | app/page.tsx:76-79 | changes no state |
| GateProtocol.Initial | app/components/RestrictedAccessModal.tsx:24-25 | a gate starts not scanning, with no error, nothing in flight and no grant pending |
| GateProtocol.StepPreservesInv | app/components/RestrictedAccessModal.tsx:27-48 | every enabled event keeps the gate invariant: an error is one of the two messages and never shown while scanning; a check in flight or a pending grant implies scanning with no error |
| GateProtocol.StartsCheckExactly | app/components/IdentityVerificationModal.tsx:47-51 | a check starts exactly on the scan or retry button, or on opening a gate that auto-starts while it is neither scanning nor showing an error |
| GateProtocol.FailureSetsMessage | app/components/RestrictedAccessModal.tsx:39-46 | a false result or a throw sets that outcome's message, clears scanning, and schedules no grant |
| GateProtocol.LatchedStays | app/components/RestrictedAccessModal.tsx:34-38 | after a success the gate stays scanning with no error, whatever happens next |
| GateProtocol.ReopenAfterOutcome | app/components/IdentityVerificationModal.tsx:47-51 | reopening after a failure or a success only makes the gate visible again |
| GateProtocol.CloseKeepsScheduledGrant | app/components/RestrictedAccessModal.tsx:36-38 | closing while the 500 ms callback is pending does not cancel it |
| GateProtocol.TraceAccount | app/components/RestrictedAccessModal.tsx:27-48 | along any trace: the invariant holds; at most one check succeeds; fired plus pending grants equal the successes; after a success the gate is latched |
| GateProtocol.GrantAtMostOnce | app/components/RestrictedAccessModal.tsx:34-38 | the grant callback runs at most once per mounted gate, and only after a success |
| RestrictedAccess.StatusLineShowsState | app/components/RestrictedAccessModal.tsx:124-155 | the status line is the scanning text exactly while scanning, the error when one is set, and the ready text exactly when idle |
| RestrictedAccess.ScanOnlyFromButton | app/components/RestrictedAccessModal.tsx:160-166 | a check starts only from the scan button, never on opening |
| RestrictedAccess.UnlockOnlyAfterSuccess | app/components/RestrictedAccessModal.tsx:34-38 | `onUnlock` runs at most once, and only after a true result |
| RestrictedAccess.UnlockReachable | app/components/RestrictedAccessModal.tsx:27-38 | opening, scanning, succeeding and firing reaches the unlock |
| RestrictedAccess.RestrictedAccessModal.HandleFaceIDScan | app/components/RestrictedAccessModal.tsx:27-30 | sets scanning, clears the error, and starts the check |
| RestrictedAccess.RestrictedAccessModal.ResumeScan | app/components/RestrictedAccessModal.tsx:31-47 | true schedules the unlock; false and throw set their messages and clear scanning |
| RestrictedAccess.RestrictedAccessModal.PressCancel | app/components/RestrictedAccessModal.tsx:72-77 | the cancel button, enabled only when not scanning, closes the modal |
| IdentityVerification.BadgeShowsState | app/components/IdentityVerificationModal.tsx:114-145 | the failure badge shows exactly when an error is set, and no badge exactly when idle |
| IdentityVerification.ChecksStartOnOpenOrRetry | app/components/IdentityVerificationModal.tsx:47-51 | a check starts exactly on opening while idle, or on the retry button shown with an error |
| IdentityVerification.ReopenDoesNotRestart | app/components/IdentityVerificationModal.tsx:47-51 | reopening after a failure or a success starts no check |
| IdentityVerification.VerifiedOnlyAfterSuccess | app/components/IdentityVerificationModal.tsx:32-35 | `onVerified` runs at most once, and only after a true result |
| IdentityVerification.RetryReachesGrant | app/components/IdentityVerificationModal.tsx:25-51 | a failed first attempt can be retried into a grant |
| IdentityVerification.IdentityVerificationModal.Open | app/components/IdentityVerificationModal.tsx:47-51 | opening starts a check exactly when not scanning and no error is set |
| IdentityVerification.IdentityVerificationModal.ResumeVerify | app/components/IdentityVerificationModal.tsx:28-44 | true schedules `onVerified`; false and throw set their messages and clear scanning |
| FaceID.StatusLineShowsState | app/components/FaceIDAuth.tsx:95-125 | the status line is the progress text exactly while authenticating, the error when set, and the ready text when idle |
| FaceID.OnlyTheButtonActs | app/components/FaceIDAuth.tsx:133-147 | the only events are the button, the check settling and the timer; CANCELAR raises nothing and the screen never closes itself |
| FaceID.AuthenticateOnlyAfterSuccess | app/components/FaceIDAuth.tsx:24-28 | `onAuthenticate` runs at most once, and only after a true result |
| FaceID.SecondAttemptReachesGrant | app/components/FaceIDAuth.tsx:17-37 | after a failure the button can be pressed again, and a second success authenticates |
| FaceID.FaceIDAuth.ResumeAuth | app/components/FaceIDAuth.tsx:20-36 | true schedules `onAuthenticate`; false and throw set their messages and clear authenticating |
| FolderSheet.TypeIdInjective | app/components/NewFolderSheet.tsx:7 | the seven folder-type ids are pairwise distinct |
| FolderSheet.Find | app/components/NewFolderSheet.tsx:96 | `find` returns the first option with that id, or none exactly when there is no such option |
| FolderSheet.FolderTypesListEachOnce | app/components/NewFolderSheet.tsx:18-75 | the table lists each of the seven types exactly once |
| FolderSheet.SelectedLookupSucceeds | app/components/NewFolderSheet.tsx:96 | the `selected` lookup always succeeds, so its non-null assertion never fails |
| FolderSheet.CreatedNameIsTrimmed | app/components/NewFolderSheet.tsx:87-89 | when create is enabled, the name passed on is non-empty, has no white space at either end, and is a trim fixed point |
| FolderSheet.NewFolderSheet.constructor | app/components/NewFolderSheet.tsx:84-85 | the form starts with name '' and type 'documentos' |
| FolderSheet.NewFolderSheet.HandleCreate | app/components/NewFolderSheet.tsx:87-94 | a blank name does nothing; otherwise the trimmed name and the selected type are passed on, the form resets, and the sheet closes |
| FoldersRoute.Insert | app/api/folders/route.ts:16 | insertion into a newest-first list keeps it newest first, with the same elements plus one |
| FoldersRoute.SortNewestFirst | app/api/folders/route.ts:16 | the result is ordered newest first and is a permutation of the input |
| FoldersRoute.WithStatus | app/api/folders/route.ts:11-13 | keeps exactly the records with that status, each as often as it occurs |
| FoldersRoute.Query | app/api/folders/route.ts:11-17 | the listing holds exactly the records with the requested status, ordered newest first |
| FoldersRoute.Get | app/api/folders/route.ts:6-23 | an unreachable store gives 500 with the fetch error; otherwise the listing for the status parameter, defaulting to 'active' |
| FoldersRoute.GetDefaultsToActive | app/api/folders/route.ts:9 | with no status parameter, exactly the active records are listed |
| FoldersRoute.NewFolderDefaults | app/api/folders/route.ts:37-44 | the created record has status 'active'; the type and level default to 'privado' and 'enhanced' only when absent or null, so an empty string is kept |
| FoldersRoute.WhitespaceNameAccepted | app/api/folders/route.ts:30 | a name made only of spaces passes the check |
| FoldersRoute.NewestHeadsListing | app/api/folders/route.ts:16 | a record newer than all the others heads its status's listing |
| FoldersRoute.FolderStore.Post | app/api/folders/route.ts:25-54 | an unreadable body or a store failure gives 500; a missing or empty name gives 400; all three create nothing; otherwise the new record is appended and returned |
| FoldersRoute.PostThenGet | app/api/folders/route.ts:9-46 | a created folder is listed by a GET without parameters, first when it is the newest |
| DashboardView.FilteredExact | app/components/Dashboard.tsx:54-56 | `filtered` holds exactly the folders whose lowercased name contains the lowercased query, with their multiplicities |
| DashboardView.FilteredKeepsOrder | app/components/Dashboard.tsx:54-56 | filtering keeps the original order |
| DashboardView.EmptyQueryKeepsAll | app/components/Dashboard.tsx:54-56 | an empty query keeps every folder |
| DashboardView.MatchIgnoresCase | app/components/Dashboard.tsx:54-56 | changing the letter case of the name or the query does not change the match |
| DashboardView.HeaderCount | app/components/Dashboard.tsx:109-111 | the count is the total number of folders, shown only when positive, and independent of the search |
| DashboardView.EmptyStateOf | app/components/Dashboard.tsx:115-127 | an empty state is shown exactly when the filtered list is empty |
| DashboardView.EmptyStateCases | app/components/Dashboard.tsx:115-127 | with a query the message is "No se encontraron carpetas", with no hint; without one it is "Aún no tienes carpetas" with the hint, exactly when there are no folders |
| DashboardView.ArchivosLabel | app/components/Dashboard.tsx:38-47 | the label is "Archivos" exactly for media, privado and every string neither in the map nor inherited from `Object.prototype`; an inherited name gives no string label |
| DashboardView.SheetTypesNotInherited | app/components/Dashboard.tsx:27-47 | no type id the new-folder sheet offers is an `Object.prototype` member name |
| DashboardView.SheetTypesHaveOwnIcons | app/components/Dashboard.tsx:27-36 | each sheet type has its own distinct icon; a string neither in the map nor inherited falls back to the folder icon and blue; an inherited name gives no icon |
| DashboardView.CardActsOnOwnFolder | app/components/Dashboard.tsx:143-146 | a click passes the folder's name, id and level; hide, archive and delete pass its id with 'hidden', 'archived' and 'deleted'; distinct actions give distinct callbacks |
| CreateNote.Substring | app/components/CreateNoteView.tsx:35-37 | `substring` on in-range, ordered bounds is the slice, and is never longer than the string |
| CreateNote.InsertFormatShape | app/components/CreateNoteView.tsx:35-45 | the new text is before + startTag + selection + endTag + after; it grows by exactly the two tags; the new selection covers the same characters |
| CreateNote.UnformatRoundTrip | app/components/CreateNoteView.tsx:35-39 | removing the two inserted tags gives back the original text |
| CreateNote.PrefixButtons | app/components/CreateNoteView.tsx:145-152 | the list and task buttons only insert a prefix |
| CreateNote.SaveButtonSavesOnce | app/components/CreateNoteView.tsx:18-21 | an enabled button always saves, with a non-empty title (the placeholder for an empty one) and the content as typed; blank content never saves; once saving, the button is disabled |
| CreateNote.NoteEditor.HandleSave | app/components/CreateNoteView.tsx:18-26 | passes on what `SaveOutput` gives, and marks the save as running exactly when it saves; after a save the button is disabled, so the note cannot be saved twice |
| CreateNote.NoteEditor.ApplyFormat | app/components/CreateNoteView.tsx:28-46 | without a textarea nothing changes; otherwise the content becomes the spliced text and the shifted selection is returned |
| PinPadModel.Add | app/components/PinPad.tsx:9-14 | appends only below four characters; `onComplete` receives the new buffer exactly when the new length is four |
| PinPadModel.DigitsOnly | app/components/PinPad.tsx:9-14 | with digit keys only, the buffer never exceeds four characters and `onComplete` runs once exactly when four keys were pressed |
| PinPadModel.StuckUntilCleared | app/components/PinPad.tsx:9-11 | once the buffer holds four or more characters, only "C" changes it |
| PinPadModel.DelOverflows | app/components/PinPad.tsx:24-27 | "Del" appends three letters: "12" becomes "12Del", which can never complete |
| PinPadModel.ClearRestarts | app/components/PinPad.tsx:27 | "C" empties the buffer, so what follows behaves as from the start |
| PinPadModel.FeedFrom | app/components/PinPad.tsx:24-27 | pressing a concatenation of keys presses the parts in turn |
| SecureViewerModel.Tick | app/components/SecureViewer.tsx:20-27 | above 1 a tick decrements by one; at 1 or below it sets 0, stops the interval and calls `onLock` |
| SecureViewerModel.CountdownSchedule | app/components/SecureViewer.tsx:15-31 | after n < 59 ticks the value is 59 - n and nothing has locked; the 59th tick locks once; the value stays in 0..59 |
| SecureViewerModel.StrictlyDecreasing | app/components/SecureViewer.tsx:20-27 | the value strictly decreases from tick to tick |
| SecureViewerModel.DisplayedTime | app/components/SecureViewer.tsx:33-37 | the display is `MM:SS`, five characters, reading back as the seconds left |
| SecureViewerModel.SecureViewer.IntervalTick | app/components/SecureViewer.tsx:19-27 | performs `Tick`, and the value decreases |
| TimeFormat.MinSecRoundTrip | app/components/VoiceRecorderView.tsx:76-80 | `M:SS` has unpadded minutes and two-digit seconds, and reads back as the same number of seconds |
| TimeFormat.MinSecShape | app/components/VoiceRecorderView.tsx:76-80 | the unpadded minutes field starts with '0' exactly below a minute, and below ten minutes `M:SS` is four characters long |
| TimeFormat.PaddedMinSecRoundTrip | app/components/SecureViewer.tsx:33-37 | `MM:SS` pads both fields to two digits, and reads back as the same number of seconds |
| TimeFormat.PaddedMinSecStart | app/components/SecureViewer.tsx:15-37 | the viewer's starting 59 seconds display as "00:59" |
| TimeFormat.MinSecSession | app/components/FolderContents.tsx:41-45 | 299 seconds display as "4:59" |
| TimeFormat.MinSecTwo | app/components/VoiceRecorderView.tsx:76-80 | two seconds display as "0:02" |
| VoiceRecorder.StepPreservesInv | app/components/VoiceRecorderView.tsx:19-74 | every enabled event keeps the recorder invariant: recording exactly while the recorder records, a blob only after it stopped |
| VoiceRecorder.TraceFacts | app/components/VoiceRecorderView.tsx:39-74 | the elapsed time equals the number of ticks, all taken while recording; a blob exists exactly after the one stop event, which needs the stop button first |
| VoiceRecorder.StopIsFinal | app/components/VoiceRecorderView.tsx:53-74 | once stopped, recording never resumes and the elapsed time is frozen |
| VoiceRecorder.SavedDuration | app/components/VoiceRecorderView.tsx:60-80 | `onSave` is reached exactly when a blob exists, and the duration it receives reads back as the elapsed seconds |
| VoiceRecorder.SaveReachable | app/components/VoiceRecorderView.tsx:19-64 | granting the microphone, two ticks, a chunk and a stop lead to a save of that chunk with duration "0:02" |
| VoiceRecorder.VoiceRecorderView.StopRecording | app/components/VoiceRecorderView.tsx:53-58 | a no-op unless a recorder exists and is recording; otherwise recording stops |
| VoiceRecorder.VoiceRecorderView.HandleSave | app/components/VoiceRecorderView.tsx:60-64 | returns the blob and its formatted duration exactly when a blob exists |
| FolderContentsView.FilterFilesExact | app/components/FolderContents.tsx:48-50 | `filteredFiles` holds exactly the files whose lowercased name contains the lowercased query |
| FolderContentsView.FilterFilesKeepsOrder | app/components/FolderContents.tsx:48-50 | the filter keeps the list's order |
| FolderContentsView.EmptyQueryShowsAll | app/components/FolderContents.tsx:32-38 | an empty query lists all five files in order |
| FolderContentsView.FullNameFindsFile | app/components/FolderContents.tsx:48-50 | typing a file's full name, in any letter case, lists that file |
| FolderContentsView.NoFilesFoundIff | app/components/FolderContents.tsx:134-138 | "No files found" shows exactly when no name contains the query, and never for an empty query |
| FolderContentsView.FileClickArgument | app/components/FolderContents.tsx:96 | a click passes the name of a listed file that matches the query |
| FolderContentsView.SessionClock | app/components/FolderContents.tsx:41-45 | the session clock is never changed and always reads "4:59" |
| OnboardingFlow.StepFacts | app/components/Onboarding.tsx:40-50 | `nextSlide` advances by one below the last slide and otherwise reveals the login options on the same slide; `skip` reveals them from any slide; no step leaves slides 0..2 or hides the options |
| OnboardingFlow.PrimaryLabelOnLastSlide | app/components/Onboarding.tsx:172 | the button reads 'Empezar' exactly on the last slide, where it reveals the login options |
| OnboardingFlow.TraceFacts | app/components/Onboarding.tsx:37-50 | the slide is the number of primary presses, capped at 2; login options show only after a skip or a third press; the email button, which calls `onComplete`, is never reached before |
| OnboardingFlow.LoginOptionsStay | app/components/Onboarding.tsx:38-49 | once shown, the login options are never hidden again |
| OnboardingFlow.BothWaysReachComplete | app/components/Onboarding.tsx:40-50 | both three presses and one skip lead to `onComplete` |
| VaultSettings.Merge | app/components/Settings.tsx:22-25 | each stored value is kept, an explicit false included, and only a missing one takes its default |
| VaultSettings.Load | app/components/Settings.tsx:19-26 | with nothing stored, the flags are the defaults (true, false, true, true) |
| VaultSettings.Save | app/components/Settings.tsx:30-38 | the key 'vaultSettings' holds exactly the four flags, and no other key changes |
| VaultSettings.ExplicitFalseKept | app/components/Settings.tsx:22-25 | a stored false overrides a true default, and an empty stored object loads as the defaults |
| VaultSettings.FlipOnlyItsSwitch | app/components/ToggleSwitch.tsx:21 | a toggle negates its own switch only, and toggling twice restores it |
| VaultSettings.ToggleThenReopen | app/components/Settings.tsx:22-38 | after a toggle is saved, reopening the screen shows the toggled flags |
| VaultSettings.SettingsScreen.constructor | app/components/Settings.tsx:17-38 | mounting shows the loaded flags and writes them back in full |
| VaultSettings.SettingsScreen.Toggle | app/components/Settings.tsx:29-38 | flips one switch and saves the four flags |
| LoginActivityView.WithStatusExact | app/components/LoginActivity.tsx:72-74 | a status filter keeps exactly the entries with that status |
| LoginActivityView.WithStatusKeepsOrder | app/components/LoginActivity.tsx:72-74 | the filter keeps the list's order |
| LoginActivityView.TabContents | app/components/LoginActivity.tsx:22-74 | 'all' lists ids 1 to 5 in order, 'success' lists 1, 4 and 5, 'suspicious' lists 3 |
| LoginActivityView.FilterShowsOwnStatus | app/components/LoginActivity.tsx:72-74 | each tab shows only its own status; a 'safe' entry shows only under 'all' |
| LoginActivityView.ActionsByStatus | app/components/LoginActivity.tsx:187-203 | success has no actions; safe has "Mark as Safe"; suspicious has "Report" and then "Mark as Safe" |

## Left out

- JSX rendering, styling, icons' colours, and framer-motion animation. For this reason Badge, BottomSheet, FolderCard and the layout are not modelled.
- The WebAuthn call behind `useBiometrics`. It is an input to the gates: true, false, or a throw. The hook catches every error and returns false, so with the real hook the throw path cannot happen. The model keeps that path because the gates handle it.
- `lib/security.ts` (AES through a foreign library) and `hooks/useSession.ts` (browser persistence). They are not part of this model.
- Camera, canvas, `MediaRecorder` and `getUserMedia` internals. Audio chunks are stood for by numbers, and the microphone's answer is an event. The floating-point size estimate under the recorder is also left out.
- The recorder's unmount cleanup, which stops a running recorder. The model has no unmount event.
- Real time and races. The 500 ms callbacks and the one-second intervals are events, with no clock. Late responses are not modelled.
- The database. It is a sequence of records, and the id and creation time of a new record are parameters. The `_count` of items is not modelled. A body that is not valid JSON is an absent body, and it gives the same 500 as a store failure.
- FoldersRoute.NewFolder: names, types and levels are strings. A non-string JSON value for them, such as a number or `false`, is not modelled, and neither is JavaScript truthiness on such values.
- Text.ToLower: covers ASCII and Latin-1 letters only, not the whole of Unicode case mapping.
- VaultSettings.Load: stored text that does not parse to an object is not modelled. This covers text that is not valid JSON, a stored "null" (whose field access throws), and a stored empty string (which is falsy, so the load is skipped). A stored field that is not a boolean is not modelled either. Storage holds the parsed object.
- CreateNote.Substring, CreateNote.NoteEditor.ApplyFormat: offsets and lengths count code points, while JavaScript's `substring` and `length` and the textarea's selection offsets count UTF-16 code units. The model therefore splices at the app's position only on text without characters outside the Basic Multilingual Plane, such as emoji. `trim`, `includes` and `toLowerCase` are unaffected.
- VaultSettings.SettingsScreen.constructor: states the production mount only. Under React's StrictMode in development, the two mount effects run twice with the first render's state. The second load then reads back the defaults the first save just wrote, so both the flags and the stored settings end as `Defaults`. That double run is not modelled.
- The other views: storage management, folder detail, item viewer, scanner, camera, sign-up, new-entry sheet and task list. They are fetch plumbing or presentational, and they are not part of this model.
- The folder contents' bottom tabs (files, starred, recent). They change only which tab is highlighted, and the list does not depend on them.
- The page renders the dashboard without a `folders` list, so `folders.filter` would fail at run time. The dashboard is modelled as a function of a folders list. The page also passes no `onStorageClick` and no `onFolderStatusChange`, so the card menu's actions would call undefined. `DashboardView.CardCallback` states what a card passes.
- Navigation.VaultPage.HandleUnlockFolder: the page raises the unlock event only while the restricted modal's flag is set. The gate model shows that the modal's 500 ms callback survives a backdrop close (`GateProtocol.CloseKeepsScheduledGrant`). In that case the real page would still enter `folder` after the modal was closed. The page model does not combine the two.
- The gate modals stay mounted while closed, so their state persists from one opening to the next. The gate modules keep this; the page model does not (see the `Navigation.Enabled` lines). Unmounting, which would reset them, is not modelled.
- Navigation.Enabled: enables the dashboard's callbacks (folder click, settings click, new folder) on `dashboard`, as for a dashboard that renders. As written the page passes no `folders`, the first render fails at `folders.filter`, and no dashboard callback ever runs. `Navigation.AsWrittenStopsAtDashboard` states that case.
- Navigation.EveryScreenButActivityReachable: its witness traces use the dashboard's callbacks, so it holds only for a dashboard that renders, not for the page as written.
- Navigation.Enabled, Navigation.VaultPage.HandleIdentityVerified: the page model raises an unlock or a verification whenever the matching modal's flag is set, apart from the gates' own state. In the app each gate latches after its first success (`GateProtocol.GrantAtMostOnce`), so `onUnlock` and `onVerified` each run at most once per page lifetime. Also, a backdrop close cancels neither modal's pending 500 ms grant (`GateProtocol.CloseKeepsScheduledGrant`), so the real page can still enter `folder` or `viewer` after the modal was closed. The page model does not compose with the gates: it allows an unlock and a verification on every reopening, and none after a close.
- Onboarding's Google sign-in and sign-up buttons call an external sign-in service or nothing. They are not modelled.
