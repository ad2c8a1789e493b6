# Exam portal: a verified model of its client core

This project models the client side of an exam portal, an Angular application for students and administrators. Its centre is the notification store. The list is kept newest first. Live pushes from the real-time channel are put at the front, and each push cuts the list to fifty. A history load from the backend replaces the whole list and is taken whole, without that cut. Marking items read is optimistic: the local change is made at once, and the pre-operation snapshot is restored if the backend confirmation fails. Around the store the model covers:

- the notification panel: relative times, icons, the badge and the open/close flag;
- the session: the token in browser storage, the roles and user name read from its claims, the route guard, and the login and registration pages;
- the admin screens: exam configurations, which must total exactly ten questions; question creation, with exactly one correct option; and the student table's status toggle;
- the student screens: the exam timer and its `mm:ss` display, and the dashboard's completion percentage and score colours;
- the two layouts' header titles chosen from the URL.

Each source file is one module. Pure decisions are functions with lemmas. Components whose fields change are classes with `modifies` clauses. The framework's asynchronous callbacks are split in two: one method makes the request and returns it, and another takes the answer. HTTP, the SignalR hub, `jwtDecode`, the clock and `Validators.email` are parameters.

`Common` collects the JavaScript semantics the modules share: truthiness, `String.prototype.includes`, ASCII `toLowerCase`, integer `toString`, `padStart(2, '0')` and `Math.min`. `SubjectService` holds the subject and exam-configuration shapes.

## Model

| member | source | states |
|---|---|---|
| NotificationService.AfterAdd | src/app/services/notification.service.ts:137-147 | the new item is first and unread; the length is min(old length + 1, 50); the rest is the old list's prefix in order |
| NotificationService.NewestFirst | src/app/services/notification.service.ts:116-133 | a run of pushes appears newest first, each unread |
| NotificationService.Take | src/app/services/notification.service.ts:142-145 | `slice(0, n)` keeps the first min(length, n) items |
| NotificationService.AfterAddIsTake | src/app/services/notification.service.ts:137-147 | one push is a prepend followed by a cut to 50 |
| NotificationService.AfterAddAll | src/app/services/notification.service.ts:116-147 | after at least one push the list holds at most 50 items, and never more than the old items plus the pushes |
| NotificationService.AfterAddAllIsTake | src/app/services/notification.service.ts:116-147 | any run of pushes equals prepending all of them newest first and cutting once; never more than 50 items |
| NotificationService.TakeOfPrefixed | src/app/services/notification.service.ts:142-145 | cutting the tail early does not change a later cut to the same bound |
| NotificationService.AfterRemove | src/app/services/notification.service.ts:214-218 | `splice(index, 1)`: an in-range index removes exactly that item and keeps order; a negative index counts from the end; an index past the end removes nothing |
| NotificationService.RemoveTakesOneOut | src/app/services/notification.service.ts:214-218 | removing an in-range item takes exactly that one out of the bag of items |
| NotificationService.SpliceStart | src/app/services/notification.service.ts:216 | the start position `splice` uses is within the list |
| NotificationService.UnreadCount | src/app/services/notification.service.ts:323-329 | the unread count never exceeds the list length |
| NotificationService.UnreadCountZeroIff | src/app/services/notification.service.ts:323-329 | the count is zero exactly when every item is read |
| NotificationService.DetermineType | src/app/services/notification.service.ts:306-320 | a success exactly when the lower-cased message contains "submitted" or "completed"; a warning or an error only with one of its own keywords |
| NotificationService.DetermineTypeIgnoresCase | src/app/services/notification.service.ts:306-320 | the classifier gives the same type to a message and to its lower-cased form |
| NotificationService.SubmittedWins | src/app/services/notification.service.ts:309-310 | a message containing "submitted" or "completed" is a success, whatever else it contains |
| NotificationService.ScoreRule | src/app/services/notification.service.ts:311-312 | a message with "scored" or "score" and no success keyword is info |
| NotificationService.WarningRule | src/app/services/notification.service.ts:313-314 | a message with "warning" or "expired" and none of the success or score keywords is a warning |
| NotificationService.ErrorRule | src/app/services/notification.service.ts:315-316 | a message with "error" or "failed" and none of the six earlier keywords is an error |
| NotificationService.FallbackRule | src/app/services/notification.service.ts:319 | a message with none of the eight keywords is info |
| NotificationService.ErrorNeedsKeyword | src/app/services/notification.service.ts:309-317 | an error result needs "error" or "failed", and the message contains none of "submitted", "completed", "scored", "score", "warning" and "expired" |
| NotificationService.NoSuccessOrScoreKeyword | src/app/services/notification.service.ts:309-312 | a message without the letters s and c, in either case, matches neither of the first two rules |
| NotificationService.NoWarningOrErrorKeyword | src/app/services/notification.service.ts:313-316 | a message without the letters r and f, in either case, matches neither the warning nor the error rule |
| NotificationService.SubmittedExample | src/app/services/notification.service.ts:309-310 | "Your exam was submitted" is a success |
| NotificationService.ExpiredExample | src/app/services/notification.service.ts:313-314 | "Exam expired warning" is a warning |
| NotificationService.ExpiredHits | src/app/services/notification.service.ts:313-314 | the lower-cased "Exam expired warning" contains "expired" |
| NotificationService.DefaultExample | src/app/services/notification.service.ts:319 | a message with no keyword falls back to info |
| NotificationService.DefaultMissesLater | src/app/services/notification.service.ts:313-316 | "Unknown update" contains none of "warning", "expired", "error" and "failed" |
| NotificationService.FirstRuleWinsExample | src/app/services/notification.service.ts:313-316 | a message with both "warning" and "error" is a warning, because the earlier rule wins |
| NotificationService.FirstRuleWinsHits | src/app/services/notification.service.ts:313-316 | the lower-cased "warning: error" contains both "warning" and "error" |
| NotificationService.FromRecord | src/app/services/notification.service.ts:258-264 | one backend record keeps its id, message, time and read flag, and its type is classified from its message |
| NotificationService.FromBackend | src/app/services/notification.service.ts:258-264 | the history mapping keeps length and order, copies id, message, time and read flag, and classifies the type |
| NotificationService.HistoryAudience | src/app/services/notification.service.ts:244-253 | Admin takes precedence over Student; with neither role nothing is fetched |
| NotificationService.AfterHistory | src/app/services/notification.service.ts:255-273 | a delivered `data` array replaces the list; an error or missing data leaves the list as it was |
| NotificationService.HistoryDiscardsPrevious | src/app/services/notification.service.ts:257-267 | a history load does not depend on the previous list, and its unread count is the backend's |
| NotificationService.UnreadOfFromBackend | src/app/services/notification.service.ts:258-264 | the mapped list has as many unread items as the backend reported |
| NotificationService.AfterMarkAsRead | src/app/services/notification.service.ts:281-286 | every item carrying the id becomes read, and nothing else changes |
| NotificationService.MarkAbsentIdIsNoOp | src/app/services/notification.service.ts:282-286 | an id no item carries leaves the list unchanged |
| NotificationService.MarkAsReadSettles | src/app/services/notification.service.ts:282-286 | marking the same id twice changes nothing more, and never raises the unread count |
| NotificationService.AfterMarkAllAsRead | src/app/services/notification.service.ts:337-340 | every item becomes read, with all other fields kept |
| NotificationService.MarkAllLeavesNoUnread | src/app/services/notification.service.ts:337-342 | after the optimistic step nothing is unread |
| NotificationService.NeedsConfirmation | src/app/services/notification.service.ts:334 | the filter `!n.isRead && n.id`: an unread item with a non-empty id |
| NotificationService.ConfirmationIds | src/app/services/notification.service.ts:334 | confirmations are no more than the unread items, and none has an empty id |
| NotificationService.ConfirmationIdsIff | src/app/services/notification.service.ts:333-349 | an id is confirmed exactly when some unread item carries it as a non-empty id |
| NotificationService.ConfirmationCount | src/app/services/notification.service.ts:333-349 | there is exactly one confirmation per unread item with an id, so two unread items sharing an id give two confirmations |
| NotificationService.ConfirmationIdsAppend | src/app/services/notification.service.ts:334-345 | the confirmations of a joined list are those of its front followed by those of its back, so they keep list order |
| NotificationService.NothingUnreadNothingToConfirm | src/app/services/notification.service.ts:334-351 | with nothing unread, no confirmation is sent |
| NotificationService.AfterSettle | src/app/services/notification.service.ts:346-358 | (and the single-item case at lines 291-302) if every confirmation succeeds the current list is kept; otherwise the pre-operation snapshot is restored whole |
| NotificationService.IsAuthFailure | src/app/services/notification.service.ts:91-94 | the `onclose` test: a close error whose message includes "401" or "Unauthorized" |
| NotificationService.AuthFailureAnywhere | src/app/services/notification.service.ts:91-94 | "401" or "Unauthorized" at any position of the close message triggers the retry |
| NotificationService.AuthFailureExamples | src/app/services/notification.service.ts:91-94 | "401" anywhere or "Unauthorized" triggers the retry; lower-case "unauthorized", a missing message or no error does not |
| NotificationService.NotificationStore.constructor | src/app/services/notification.service.ts:38-40 | the store starts empty and disconnected |
| NotificationService.NotificationStore.AddNotification | src/app/services/notification.service.ts:137-147 | the new list is `AfterAdd` of the old one |
| NotificationService.ChannelType | src/app/services/notification.service.ts:116-133 | `ReceiveMessage` exactly gives success, `ReceiveAdminMessage` exactly gives info |
| NotificationService.NotificationStore.OnPush | src/app/services/notification.service.ts:116-133 | a student push is a success and an admin push is info; both are id-less, stamped now, and added in front |
| NotificationService.NotificationStore.AddTypedNotification | src/app/services/notification.service.ts:150-180 | the four convenience adders prepend a notification of their type |
| NotificationService.NotificationStore.ClearNotifications | src/app/services/notification.service.ts:210-212 | the list becomes empty |
| NotificationService.NotificationStore.RemoveNotificationByIndex | src/app/services/notification.service.ts:214-218 | the new list is `AfterRemove` of the old one |
| NotificationService.NotificationStore.LoadNotificationsFromBackend | src/app/services/notification.service.ts:243-274 | the endpoint chosen by role; with no request the list is unchanged, otherwise `AfterHistory` |
| NotificationService.NotificationStore.BeginMarkAsRead | src/app/services/notification.service.ts:277-291 | takes the snapshot, applies the optimistic update and asks for one confirmation |
| NotificationService.NotificationStore.BeginMarkAllAsRead | src/app/services/notification.service.ts:332-349 | takes the snapshot, marks everything read and asks for one confirmation per unread item with an id |
| NotificationService.NotificationStore.Settle | src/app/services/notification.service.ts:351-358 | (and the single-item case at lines 291-302) the published list after the confirmations answer is `AfterSettle` |
| NotificationService.NotificationStore.MarkAsRead | src/app/services/notification.service.ts:277-303 | the item is read if the confirmation succeeds; the list is restored if it fails |
| NotificationService.NotificationStore.MarkAllAsRead | src/app/services/notification.service.ts:332-359 | if all confirmations succeed, everything is read; if any fails, the old list is restored |
| NotificationService.NotificationStore.StartConnection | src/app/services/notification.service.ts:51-75 | without a token nothing happens; otherwise the status is whether the start succeeded |
| NotificationService.NotificationStore.OnReconnecting | src/app/services/notification.service.ts:78-80 | the status becomes disconnected |
| NotificationService.NotificationStore.OnReconnected | src/app/services/notification.service.ts:82-85 | the status becomes connected |
| NotificationService.NotificationStore.OnClose | src/app/services/notification.service.ts:87-102 | the status becomes disconnected; a restart after 5000 ms is scheduled exactly on an authentication failure |
| NotificationService.NotificationStore.StopConnection | src/app/services/notification.service.ts:198-208 | the status drops only when a connection exists and its stop succeeds |
| NotificationService.RollbackDropsInterleavedPush | src/app/services/notification.service.ts:281-301 | a push arriving while a confirmation is pending is lost when that confirmation fails |
| NotificationService.PushThenHistory | src/app/services/notification.service.ts:257-267 | (with the push at lines 137-147) a history load that follows a live push discards the push |
| NotificationPanel.HoursFromMinutes | src/app/shared/notification-panel.component.ts:460-465 | whole minutes divided by 60 give whole hours |
| NotificationPanel.DaysFromHours | src/app/shared/notification-panel.component.ts:465-468 | whole hours divided by 24 give whole days |
| NotificationPanel.EndsInAgo | src/app/shared/notification-panel.component.ts:463-469 | no "… ago" label is "Just now" |
| NotificationPanel.FormatTime | src/app/shared/notification-panel.component.ts:457-470 | "Just now" exactly when less than a minute has passed; otherwise whole minutes, hours or days followed by "m ago", "h ago" or "d ago" |
| NotificationPanel.FormatTimeCountsWholeUnits | src/app/shared/notification-panel.component.ts:457-470 | the count shown is the largest n ≥ 1 with n units no more than the elapsed time |
| NotificationPanel.TypeName | src/app/shared/notification-panel.component.ts:75 | the `type` string of a notification as the panel passes it to the icon lookup |
| NotificationPanel.NotificationIcon | src/app/shared/notification-panel.component.ts:430-438 | each of success, error and warning has its own icon; anything else gets the info icon |
| NotificationPanel.IconsTellTypesApart | src/app/shared/notification-panel.component.ts:430-438 | two notification types share an icon only if they are the same type |
| NotificationPanel.BadgeText | src/app/shared/notification-panel.component.ts:23-24 | the badge value is empty exactly when nothing is unread; otherwise it reads back as the unread count |
| NotificationPanel.BadgeClass | src/app/shared/notification-panel.component.ts:23-24 | the badge is "danger" exactly when something is unread |
| NotificationPanel.BadgeHiddenIffAllRead | src/app/shared/notification-panel.component.ts:23-24 | the badge is hidden exactly when every notification is read |
| NotificationPanel.ShowsMarkRead | src/app/shared/notification-panel.component.ts:82 | the template condition `!notification.isRead && notification.id` for the per-item mark-as-read button |
| NotificationPanel.MarkReadButtonMatchesConfirmations | src/app/shared/notification-panel.component.ts:82 | the items showing a mark-read button are exactly those that mark-all confirms |
| NotificationPanel.Panel.constructor | src/app/shared/notification-panel.component.ts:368-372 | the panel starts empty, closed and disconnected |
| NotificationPanel.Panel.TogglePanel | src/app/shared/notification-panel.component.ts:413-415 | the panel flips between open and closed, and nothing else changes |
| NotificationPanel.Panel.ClosePanel | src/app/shared/notification-panel.component.ts:424-426 | the panel is closed, and nothing else changes |
| NotificationPanel.Panel.OnDocumentClick | src/app/shared/notification-panel.component.ts:417-422 | a click outside the component closes the panel; a click inside leaves it |
| NotificationPanel.Panel.OnNotifications | src/app/shared/notification-panel.component.ts:385-390 | the list and its length are copied from the store |
| NotificationPanel.Panel.OnUnreadCount | src/app/shared/notification-panel.component.ts:393-397 | the unread count is copied from the store |
| NotificationPanel.Panel.OnConnectionStatus | src/app/shared/notification-panel.component.ts:400-404 | the connection flag is copied from the store |
| NotificationPanel.ToggleTwiceRestores | src/app/shared/notification-panel.component.ts:413-415 | toggling twice restores the open flag |
| NotificationPanel.PublishToPanel | src/app/shared/notification-panel.component.ts:380-407 | after publishing, the panel shows the store's list and unread count, and its badge is hidden exactly when everything is read |
| TakeExam.TickValue | src/app/features/student/take-exam/take-exam.component.ts:91-98 | a tick counts a positive timer down by one and leaves any other timer alone |
| TakeExam.TimerAfter | src/app/features/student/take-exam/take-exam.component.ts:91-98 | from a non-negative start, any number of ticks keeps the timer between 0 and its start |
| TakeExam.TimerAfterIsClampedDifference | src/app/features/student/take-exam/take-exam.component.ts:91-98 | n ticks from t ≥ 0 give max(t − n, 0); the timer never goes negative |
| TakeExam.NegativeTimerStays | src/app/features/student/take-exam/take-exam.component.ts:92-97 | ticks never change a negative timer |
| TakeExam.JsRem | src/app/features/student/take-exam/take-exam.component.ts:103 | JavaScript `%`: the Euclidean remainder for a non-negative dividend; for a negative one, `a - b * trunc(a / b)`, in (-b, 0] |
| TakeExam.FormattedTimer | src/app/features/student/take-exam/take-exam.component.ts:101-105 | the floored minutes and the JavaScript remainder of the seconds, each padded to two characters and joined by a colon (the properties are in the two rows below) |
| TakeExam.FormattedTimerReadsBack | src/app/features/student/take-exam/take-exam.component.ts:101-105 | for a non-negative timer the display is `mm:ss` with seconds below 60, and 60·mm + ss is the timer |
| TakeExam.FormattedTimerWidth | src/app/features/student/take-exam/take-exam.component.ts:101-105 | below 100 minutes the display is five characters |
| TakeExam.OverdueTimerExample | src/app/features/student/take-exam/take-exam.component.ts:101-105 | a timer of −5 displays as "-1:-5" |
| TakeExam.ClearSelections | src/app/features/student/take-exam/take-exam.component.ts:72-74 | every question keeps its fields, with its selection cleared |
| TakeExam.TakeExamPage.constructor | src/app/features/student/take-exam/take-exam.component.ts:27-33 | no subject, exam, error or timer at the start |
| TakeExam.TakeExamPage.OnSubjectSelect | src/app/features/student/take-exam/take-exam.component.ts:57-65 | the exam and error are cleared; an exam is requested exactly for a subject with a truthy id |
| TakeExam.TakeExamPage.OnExamResponse | src/app/features/student/take-exam/take-exam.component.ts:67-85 | the exam is stored as sent, every field kept but with each question's selection cleared; the timer is set to the remaining time or 0; failure sets the fixed error; loading ends either way |
| TakeExam.TakeExamPage.Tick | src/app/features/student/take-exam/take-exam.component.ts:91-98 | the timer after one tick; the countdown stops at or below zero |
| ExamConfigurations.FormValid | src/app/features/admin/exam-configurations/exam-configurations.component.ts:55-60 | the form is valid exactly when all four fields hold a value of at least 0 |
| ExamConfigurations.FormValue | src/app/features/admin/exam-configurations/exam-configurations.component.ts:55-60 | a valid form yields non-negative counts and duration equal to its inputs |
| ExamConfigurations.FormOf | src/app/features/admin/exam-configurations/exam-configurations.component.ts:80 | a patched form is valid exactly when the configuration is non-negative, and reads back as that configuration |
| ExamConfigurations.QuestionTotal | src/app/features/admin/exam-configurations/exam-configurations.component.ts:98-101 | the number of questions, the easy, medium and hard counts added up |
| ExamConfigurations.SaveDecision | src/app/features/admin/exam-configurations/exam-configurations.component.ts:92-142 | a call is made exactly for a selected subject, a valid form and a total of ten; it is an update exactly when the configuration exists; it carries the subject id and the form's values |
| ExamConfigurations.SavedConfigIsWellFormed | src/app/features/admin/exam-configurations/exam-configurations.component.ts:94-110 | whatever is sent has ten questions and no negative field |
| ExamConfigurations.ReloadedConfigSavesAsUpdate | src/app/features/admin/exam-configurations/exam-configurations.component.ts:78-124 | a loaded configuration saved unchanged is sent back as an update |
| ExamConfigurations.ExamConfigPage.constructor | src/app/features/admin/exam-configurations/exam-configurations.component.ts:55-60 | the form starts as four zeros, with no subject selected |
| ExamConfigurations.ExamConfigPage.OnSubjectSelect | src/app/features/admin/exam-configurations/exam-configurations.component.ts:69-77 | no subject resets the form and forgets the configuration; a subject starts loading and requests its configuration |
| ExamConfigurations.ExamConfigPage.OnConfigLoaded | src/app/features/admin/exam-configurations/exam-configurations.component.ts:78-89 | a fetched configuration is patched in and marked existing; a failed fetch resets the form; loading ends either way |
| ExamConfigurations.ExamConfigPage.SaveConfig | src/app/features/admin/exam-configurations/exam-configurations.component.ts:92-142 | the request is `SaveDecision`; an invalid form is marked touched; a wrong total adds the validation toast; a sent request starts loading |
| ExamConfigurations.ExamConfigPage.OnSaveResult | src/app/features/admin/exam-configurations/exam-configurations.component.ts:112-140 | success shows the saved toast, deselects and resets; loading ends either way |
| ExamConfigurations.ExamConfigPage.CancelConfig | src/app/features/admin/exam-configurations/exam-configurations.component.ts:144-147 | deselects and resets the form; the existence flag is kept |
| ExamConfigurations.CancelThenSaveSendsNothing | src/app/features/admin/exam-configurations/exam-configurations.component.ts:144-147 | (with the guard at lines 92-93) a save right after a cancel sends nothing |
| CreateQuestion.FormValid | src/app/features/admin/create-question/create-question.component.ts:41-50 | the form is valid exactly when a subject is chosen and every text field, the answer and the difficulty are filled |
| CreateQuestion.BuildOptions | src/app/features/admin/create-question/create-question.component.ts:69-74 | four options in A–D order with the form's texts; option X is correct exactly when the answer is X |
| CreateQuestion.ExactlyOneCorrect | src/app/features/admin/create-question/create-question.component.ts:69-74 | a letter A–D marks exactly that one option correct; any other answer marks none |
| CreateQuestion.BuildRequest | src/app/features/admin/create-question/create-question.component.ts:75-80 | the request carries the form's subject, text and difficulty, and the built options |
| CreateQuestion.QuestionPage.constructor | src/app/features/admin/create-question/create-question.component.ts:41-50 | the form's initial values, with no messages |
| CreateQuestion.QuestionPage.OnSubmit | src/app/features/admin/create-question/create-question.component.ts:63-81 | an invalid form sends nothing; a valid one clears the messages, starts loading and sends `BuildRequest` |
| CreateQuestion.QuestionPage.OnCreateResult | src/app/features/admin/create-question/create-question.component.ts:82-91 | success shows the message and resets the form; failure shows truthy errors or the fixed message; loading ends |
| CreateQuestion.SubmitAfterCreateSendsNothing | src/app/features/admin/create-question/create-question.component.ts:63-86 | a reset form cannot be submitted again |
| RoleGuard.HoldsSomeRole | src/app/guards/role.guard.ts:25 | `requiredRoles.some(role => userRoles.includes(role))`: some required role is among the user's roles |
| RoleGuard.CanActivate | src/app/guards/role.guard.ts:12-31 | entry is allowed exactly with a token and either no required roles or one role held; otherwise the guard redirects to the login page without a token and to the root with one |
| RoleGuard.AdminAreaNeedsAdmin | src/app/app.routes.ts:12-16 | the admin area admits exactly token holders with the Admin role |
| RoleGuard.StudentAreaNeedsStudent | src/app/app.routes.ts:25-29 | the student area admits exactly token holders with the Student role |
| RoleGuard.GuardAfterLogout | src/app/guards/role.guard.ts:14-19 | after logout every guarded route redirects to the login page |
| LoginService.RolesOf | src/app/services/login.service.ts:25-41 | no roles without a token, on a decode failure or with a falsy claim; an array claim as given; one role as a one-element list |
| LoginService.RoleNeedsClaim | src/app/services/login.service.ts:25-41 | a role is held only if the decoded role claim names it |
| LoginService.UserNameOf | src/app/services/login.service.ts:43-53 | a name exists exactly when one of the three claims is truthy |
| LoginService.UserNameFallback | src/app/services/login.service.ts:49 | name beats email, which beats the xmlsoap name claim |
| LoginService.TokenStore.constructor | src/app/services/login.service.ts:17-23 | the storage starts as given |
| LoginService.TokenStore.GetToken | src/app/services/login.service.ts:21-23 | the token is the stored value under `token`, if any |
| LoginService.TokenStore.UserRoles | src/app/services/login.service.ts:25-41 | the roles read from the stored token; none when no token is stored |
| LoginService.TokenStore.UserName | src/app/services/login.service.ts:43-53 | the name read from the stored token; none when no token is stored |
| LoginService.TokenStore.StoreToken | src/app/services/login.service.ts:17-19 | the token is what `getToken` returns next; other keys are untouched |
| LoginService.TokenStore.Logout | src/app/services/login.service.ts:55-57 | afterwards there is no token, no role and no name; other keys are untouched |
| LoginComponent.FormValid | src/app/auth/login/login.component.ts:26-29 | the form is valid exactly when the email is filled and accepted and the password has at least six characters |
| LoginComponent.PostLoginRoute | src/app/auth/login/login.component.ts:52-60 | Admin goes to the admin dashboard, else Student to the exams history, else to the root |
| LoginComponent.LandingPassesGuard | src/app/auth/login/login.component.ts:52-56 | each role's landing page is admitted by that area's guard |
| LoginComponent.LoginPage.constructor | src/app/auth/login/login.component.ts:16-30 | an empty form, with no error and not loading |
| LoginComponent.LoginPage.OnSubmit | src/app/auth/login/login.component.ts:32-43 | an invalid form sends nothing; a valid one starts loading, clears the error and sends the credentials |
| LoginComponent.LoginPage.OnLoginResult | src/app/auth/login/login.component.ts:45-67 | success stores the token, keeping every other storage key, and navigates by role; failure sets the fixed message and leaves the storage alone; loading ends either way |
| LoginComponent.LoginPage.TogglePassword | src/app/auth/login/login.component.ts:72-74 | flips password visibility |
| StudentRegistration.PasswordPattern | src/app/auth/student-registration/student-registration.component.ts:32 | `RegExp.test` of the unanchored pattern: at some position the three lookaheads for a lower-case letter, an upper-case letter and a non-word character succeed on the same line |
| StudentRegistration.PasswordValid | src/app/auth/student-registration/student-registration.component.ts:32 | the password control is valid when it is filled, at least six characters long and matches the pattern |
| StudentRegistration.FormValid | src/app/auth/student-registration/student-registration.component.ts:27-34 | the form is valid exactly when every control's validators pass and the password equals the confirmation |
| StudentRegistration.PasswordPatternOnOneLine | src/app/auth/student-registration/student-registration.component.ts:32 | on one line the pattern asks for a lower-case letter, an upper-case letter and a non-word character |
| StudentRegistration.LineBreakDefeatsPattern | src/app/auth/student-registration/student-registration.component.ts:32 | "a\nB!" is refused because `.` does not cross the line break |
| StudentRegistration.ConfirmErrorsAfter | src/app/auth/student-registration/student-registration.component.ts:37-55 | a mismatch sets only the mismatch error; on a match with a raised mismatch error the errors are the old ones minus that key, or null exactly when that key was the only one; on a match without it they are left as they were |
| StudentRegistration.ConfirmErrorsSettle | src/app/auth/student-registration/student-registration.component.ts:37-55 | running the validator again changes nothing |
| StudentRegistration.ErrorList | src/app/auth/student-registration/student-registration.component.ts:88-99 | the errors array if present, else the message, else "Registration failed." |
| StudentRegistration.ErrorListShowsSomething | src/app/auth/student-registration/student-registration.component.ts:88-99 | the list is empty, or holds an empty text, only when the backend sent that |
| StudentRegistration.RegistrationPage.constructor | src/app/auth/student-registration/student-registration.component.ts:15-34 | empty fields, with no messages |
| StudentRegistration.RegistrationPage.PasswordMatchValidator | src/app/auth/student-registration/student-registration.component.ts:37-55 | returns the group error exactly on a mismatch, and updates the confirmation's errors by `ConfirmErrorsAfter` |
| StudentRegistration.RegistrationPage.OnSubmit | src/app/auth/student-registration/student-registration.component.ts:57-71 | an invalid form sends nothing; a valid one starts loading, clears both messages and sends the data; nothing else changes |
| StudentRegistration.RegistrationPage.OnRegisterResult | src/app/auth/student-registration/student-registration.component.ts:72-100 | success shows the message and redirects to the login page after 5000 ms; failure shows `ErrorList` and no success; loading ends; the form, the confirmation's errors and the visibility flags are kept |
| StudentRegistration.RegistrationPage.TogglePassword | src/app/auth/student-registration/student-registration.component.ts:105-107 | flips password visibility; nothing else changes |
| StudentRegistration.RegistrationPage.ToggleConfirmPassword | src/app/auth/student-registration/student-registration.component.ts:109-111 | flips the confirmation's visibility; nothing else changes |
| AdminLayout.AdminTitle | src/app/layouts/admin-layout/admin-layout.component.ts:69-76 | the title is one of five; each title is chosen exactly when its fragment is the first one the URL contains |
| AdminLayout.UnknownUrlShowsDashboard | src/app/layouts/admin-layout/admin-layout.component.ts:75 | a URL with none of the fragments shows "Dashboard" |
| AdminLayout.DashboardLinkTitle | src/app/layouts/admin-layout/admin-layout.component.ts:70 | "/admin/dashboard" shows "Dashboard" |
| AdminLayout.StudentsLinkTitle | src/app/layouts/admin-layout/admin-layout.component.ts:70-71 | "/admin/students" shows "Students" |
| AdminLayout.ExamsLinkTitle | src/app/layouts/admin-layout/admin-layout.component.ts:70-72 | "/admin/exams" shows "Exams" |
| AdminLayout.ExamConfigurationsLinkMisses | src/app/layouts/admin-layout/admin-layout.component.ts:71-72 | "/admin/exam-configurations" contains neither the students nor the exams fragment |
| AdminLayout.ExamConfigurationsLinkMissesExams | src/app/layouts/admin-layout/admin-layout.component.ts:72 | "/admin/exam-configurations" does not contain "/admin/exams" |
| AdminLayout.ExamConfigurationsLinkTitle | src/app/layouts/admin-layout/admin-layout.component.ts:70-73 | "/admin/exam-configurations" shows "Exam Configurations" |
| AdminLayout.CreateQuestionLinkMisses | src/app/layouts/admin-layout/admin-layout.component.ts:71-73 | "/admin/create-question" contains none of the students, exams or configurations fragments |
| AdminLayout.CreateQuestionLinkTitle | src/app/layouts/admin-layout/admin-layout.component.ts:70-74 | "/admin/create-question" shows "Questions" |
| AdminLayout.Entries | src/app/layouts/admin-layout/admin-layout.component.ts:20-57 | every top-level menu entry is among the entries |
| AdminLayout.MenuEntries | src/app/layouts/admin-layout/admin-layout.component.ts:20-57 | the menu has six entries: four top-level items, then the group's two items |
| AdminLayout.MenuItemMatches | src/app/layouts/admin-layout/admin-layout.component.ts:20-76 | each entry with a link has the command for that link's title |
| AdminLayout.MenuCommandsMatchTitles | src/app/layouts/admin-layout/admin-layout.component.ts:20-76 | every menu command sets the title that navigating to its link would set |
| AdminLayout.AdminFrame.constructor | src/app/layouts/admin-layout/admin-layout.component.ts:59-67 | the title follows the initial URL, and the user's name is read once |
| AdminLayout.AdminFrame.SetHeaderTitle | src/app/layouts/admin-layout/admin-layout.component.ts:69-76 | the title is `AdminTitle` of the URL |
| AdminLayout.AdminFrame.SetHeader | src/app/layouts/admin-layout/admin-layout.component.ts:78-80 | the title is exactly the given text |
| AdminLayout.AdminFrame.RunCommand | src/app/layouts/admin-layout/admin-layout.component.ts:20-57 | (with `setHeader` at lines 78-80) an entry's command sets its title; an entry with no command changes nothing |
| AdminLayout.ClickThenNavigate | src/app/layouts/admin-layout/admin-layout.component.ts:20-80 | clicking an entry and then arriving at its page leaves the title the click set |
| StudentLayout.StudentTitle | src/app/layouts/student-layout/student-layout.component.ts:25-29 | the title is one of three: "Exams History" exactly when the URL contains the history path; otherwise "Take Exam" exactly when it contains the take-exam path; otherwise "Dashboard" |
| StudentLayout.HistoryWinsOverTakeExam | src/app/layouts/student-layout/student-layout.component.ts:26-27 | a URL containing both paths shows "Exams History" |
| StudentLayout.ExamsHistoryLinkTitle | src/app/layouts/student-layout/student-layout.component.ts:26 | the student landing page shows "Exams History" |
| StudentLayout.TakeExamLinkTitle | src/app/layouts/student-layout/student-layout.component.ts:26-27 | "/student/take-exam" shows "Take Exam" |
| StudentLayout.AreaRootTitle | src/app/layouts/student-layout/student-layout.component.ts:28 | "/student" shows "Dashboard" |
| StudentLayout.StudentFrame.constructor | src/app/layouts/student-layout/student-layout.component.ts:17-23 | the title follows the initial URL, and the user's name is read once |
| StudentLayout.StudentFrame.SetHeaderTitle | src/app/layouts/student-layout/student-layout.component.ts:25-29 | the title is `StudentTitle` of the URL |
| Students.OppositeStatus | src/app/features/admin/students/students.component.ts:48 | the request is "Suspended" exactly for an Active student, and "Active" otherwise |
| Students.OppositeStatusInvolution | src/app/features/admin/students/students.component.ts:48 | on Active and Suspended the toggle swaps them, and two toggles restore the status |
| Students.UnknownStatusBecomesActive | src/app/features/admin/students/students.component.ts:48 | any other status is toggled to Active |
| Students.UpdateStatusAnswer | src/app/services/student.service.ts:27-31 | the service answers success with the requested status, and failure with nothing |
| Students.Student.constructor | src/app/features/admin/students/students.component.ts:19 | a table row with its id and status |
| Students.StudentsPage.constructor | src/app/features/admin/students/students.component.ts:19-23 | page 1, ten rows per page, no rows and not loading |
| Students.StudentsPage.LoadStudents | src/app/features/admin/students/students.component.ts:31-33 | loading starts and the current page is requested |
| Students.StudentsPage.OnStudentsLoaded | src/app/features/admin/students/students.component.ts:33-37 | the rows and the total are replaced, and loading ends |
| Students.StudentsPage.OnPageChange | src/app/features/admin/students/students.component.ts:40-44 | the paginator's 0-based page becomes the 1-based page, its rows become the page size, and that page is requested |
| Students.ToggleStatus | src/app/features/admin/students/students.component.ts:46-50 | the status requested is `OppositeStatus` of the row's status |
| Students.OnStatusUpdated | src/app/features/admin/students/students.component.ts:50-58 | a success writes the returned status into the row; a failure leaves the row alone |
| Students.ToggleAndAnswer | src/app/features/admin/students/students.component.ts:46-60 | a successful toggle flips the status; a failed one leaves it |
| Students.ToggleTwice | src/app/features/admin/students/students.component.ts:46-60 | two successful toggles of an Active or Suspended student restore the status |
| Common.Min | src/app/features/admin/students/students.component.ts:62-64 | the result is no larger than either argument and is one of them |
| Common.ToLower | src/app/services/notification.service.ts:307 | lower-casing keeps the length and maps each ASCII capital to its lower-case letter |
| Common.ToLowerIdempotent | src/app/services/notification.service.ts:307 | lower-casing twice is lower-casing once |
| Common.PadStart2Decimal | src/app/features/student/take-exam/take-exam.component.ts:102-103 | a padded number is at least two digits and reads back as the number |
| Common.ParseDecimalOfDecimal | src/app/shared/notification-panel.component.ts:463-469 | a number's decimal text reads back as the number |
| StudentDashboard.Round | src/app/features/student/dashboard/dashboard.component.ts:56-58 | `Math.round` gives the integer within one half below, exclusive above |
| StudentDashboard.CompletionPercentage | src/app/features/student/dashboard/dashboard.component.ts:54-59 | 0 without a summary or without exams; otherwise within a half of the exact completed share in percent |
| StudentDashboard.CompletionPercentageBounds | src/app/features/student/dashboard/dashboard.component.ts:54-59 | with 0 ≤ completed ≤ total the percentage is in 0..100: all completed gives 100, none gives 0 |
| StudentDashboard.ScoreColor | src/app/features/student/dashboard/dashboard.component.ts:61-66 | success exactly at 90 or above, info in [80, 90), warning in [70, 80), danger below 70 |
| StudentDashboard.ScoreColorMonotone | src/app/features/student/dashboard/dashboard.component.ts:61-66 | a higher score never gets a worse colour |
| StudentDashboard.DashboardPage.constructor | src/app/features/student/dashboard/dashboard.component.ts:30 | no summary at the start |
| StudentDashboard.DashboardPage.OnSummaryLoaded | src/app/features/student/dashboard/dashboard.component.ts:41-52 | a delivered summary replaces the old one; an error keeps it |
| StudentDashboard.DashboardPage.Percentage | src/app/features/student/dashboard/dashboard.component.ts:54-59 | the page's percentage is 0 without a summary or without exams |

## Left out

- SignalR transport: building the hub, `withAutomaticReconnect`, `ensureConnection`, `restartConnection`, `getConnectionState` and `getConnectionId` are calls into a foreign library. Only the connection flag, its handlers and the authentication test in `onclose` are modelled.
- Timers: the 5 s restart after an authentication failure, the 1 s exam countdown and the 5 s redirect after registration are returned as delays or modelled as one tick. Nothing is scheduled.
- HTTP services (exam, dashboard, subject, student, registration, question, and the notification GET/PUT): each call is a returned request plus an answer passed to a handler.
- `jwtDecode` is a function parameter from token to claims, with `None` where it throws. `Validators.email` is a predicate parameter. `localStorage` is a `map<string, string>`.
- Dates: the clock is an integer parameter, and the backend's ISO timestamps arrive already converted to milliseconds.
- Floating point: scores and the completion ratio are exact reals, and `formatTime` divides milliseconds as integers. Rounding error in JavaScript's IEEE doubles is not modelled.
- `toLowerCase` is modelled for ASCII letters only. Other Unicode case mappings are not modelled.
- `toString` is modelled for integers, not for the exponent form of very large numbers.
- Angular's `minLength` counts UTF-16 code units; the model counts characters.
- The framework's form machinery is represented by the validity predicates. Status effects of `setErrors`, `markAllAsTouched` beyond a flag, templates and styles are not modelled.
- LoginService.UserNameOf: an array-valued name claim is returned as a claim value, not as a string.
- The layouts' `logout` and every component's `ngOnInit` subject and list loading are left out as router and HTTP glue.
- `exams-history`, `admin-exams` and the admin dashboard are paging glue and are not part of this model.
- NotificationService.AfterRemove: `removeNotificationByIndex` has no bounds check and uses `Array.prototype.splice`. The model follows the code, so negative indexes count from the end and an index past the end removes nothing. A caller meant to pass an in-range index.
- NotificationService.AfterSettle: `Promise.all(...).catch` rolls back at the first failed confirmation, before the others answer; the model settles once, after all answers. The final list is the same only when nothing changes the list between the first failed confirmation and the last answer. A push, removal or history load that lands in that window is kept by the code, because the snapshot was already published, but is discarded by the model, which restores the snapshot after the last answer.
- NotificationService.NotificationStore.Settle: the same single settling step as `AfterSettle`.
- NotificationService.AfterSettle: the code restores the whole pre-operation snapshot on any failure, so a push or another update made in between is lost too. `RollbackDropsInterleavedPush` shows this.
- The store does not deduplicate or re-sort: a history load replaces the list as delivered, and pushes are only prepended.
- ExamConfigurations.ExamConfigPage.CancelConfig: as in the code, cancelling does not reset `configExists`. Only a later subject choice or a fetch resets it.
