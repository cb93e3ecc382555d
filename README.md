# E-learning platform: verified model of its decision logic

The platform is a Next.js web application for online courses. The hosted backend does the storage and authentication: every query, insert and auth call goes straight to it. What the application itself decides is small and sequential, and it is what this project models:

- the edge middleware that guards `/dashboard` and `/auth`;
- the email-verification page, a state machine over React state and local storage;
- the authentication provider, which holds the session store and gates its gateway methods;
- the course views: the resource filter and grouping, the discussion filter, the announcement list, the module/lesson merge and the header's enrolment;
- the create-course form and its tag parser;
- the classifiers: grade colours, grade percentages, initials, enrollment codes, and the file, lesson, status and activity icons;
- the three settings panels and the forgot-password page.

Every backend answer is a parameter of the model. `Backend.Call<T>` holds either what the awaited call returned or `Threw`, for a rejected promise, with the rejection's `message` when it has one. Components whose fields the source updates in place are classes: their handlers are methods with `modifies this`, and their `ensures` give the whole new state. The requests a component sends, the toasts it shows and the router pushes it asks for are recorded in sequence fields. Pure decision code is functions and lemmas.

Module layout, one file per source file:

| file | module | models |
|---|---|---|
| common.dfy | Common | Option; JavaScript `startsWith`, `includes`, ASCII `toLowerCase`/`toUpperCase`, `trim`, `split`/`join`, `Array.prototype.filter` |
| backend.dfy | Backend | the shapes of backend answers (User, Session, error objects, `Call`), toasts |
| route_guard.dfy | RouteGuard | middleware.ts |
| utils.dfy | Utils | lib/utils.ts |
| verify_email.dfy | VerifyEmail | app/auth/verify-email/page.tsx |
| auth_context.dfy | AuthContext | contexts/auth-context.tsx |
| course_resources.dfy | CourseResources | components/courses/course-resources.tsx |
| course_discussions.dfy | CourseDiscussions | components/courses/course-discussions.tsx |
| course_announcements.dfy | CourseAnnouncements | components/courses/course-announcements.tsx |
| create_course.dfy | CreateCourse | app/dashboard/courses/create/page.tsx |
| resource_grid.dfy | ResourceGrid | components/resources/resource-grid.tsx |
| assignment_list.dfy | AssignmentList | components/assignments/assignment-list.tsx |
| course_header.dfy | CourseHeader | components/courses/course-header.tsx |
| course_modules.dfy | CourseModules | components/courses/course-modules.tsx |
| recent_activity.dfy | RecentActivity | components/dashboard/recent-activity.tsx |
| security_settings.dfy | SecuritySettings | components/settings/security-settings.tsx |
| notification_settings.dfy | NotificationSettings | components/settings/notification-settings.tsx |
| account_settings.dfy | AccountSettings | components/settings/account-settings.tsx |
| forgot_password.dfy | ForgotPassword | app/auth/forgot-password/page.tsx |

The verification page is modelled twice, on purpose:

- `VerifyEmail.Step` is a reducer over a snapshot `Page`. It is the specification, and the lemmas about the flow are stated over it.
- `VerifyEmail.VerifyEmailPage` is the component as written: fields updated one assignment at a time, with `localStorage.removeItem` as three separate map removals. Each of its methods is proved to produce exactly `Step`, `Finalize` or `AdoptUser` of the old state; `RemovePendingKeys` is proved to leave the storage minus the three pending keys.

## Model

| member | source | states |
|---|---|---|
| RouteGuard.Middleware | middleware.ts:14-25 | Anonymous request for a path with raw prefix "/dashboard" ⇔ redirect to "/auth/login" with `redirect` = original path; signed-in request for a path with prefix "/auth" ⇔ redirect to exactly "/dashboard"; pass-through ⇔ neither rule applies |
| RouteGuard.PrefixesDisjoint | middleware.ts:14-23 | No path starts with both "/dashboard" and "/auth", so at most one redirect rule fires |
| RouteGuard.NoRedirectLoop | middleware.ts:14-25 | Following any redirect with the same session state passes through: "/auth/login" passes when anonymous, "/dashboard" when signed in |
| RouteGuard.ProtectedByRawPrefix | middleware.ts:14-25 | "/dashboard" followed by anything, even "X", is redirected when anonymous and passes when signed in |
| RouteGuard.Handle | middleware.ts:28-30 | The middleware runs exactly on matcher paths (the area root or a sub-path); every other path passes |
| RouteGuard.MatcherNarrowsProtection | middleware.ts:14-30 | "/dashboardX" would be redirected by the middleware function, but the matcher never sends it there, so it is served anonymously |
| RouteGuard.MatchedProtectedPathsGuarded | middleware.ts:14-30 | Every matched "/dashboard" path is redirected to login with itself as the return target when anonymous, and passes when signed in |
| Utils.GetInitials | lib/utils.ts:41-43 | One upper-cased character (a Unicode scalar value) per present, non-empty name, first name first; length = number of such names (at most 2); "" exactly when both are missing or empty; no lower-case letter |
| Utils.PickIndex | lib/utils.ts:49 | `Math.floor(Math.random() * 32)` lands in [0, 32) for every draw in [0, 1) |
| Utils.CharAt | lib/utils.ts:49 | `charAt` returns the one character at an in-range index and "" out of range |
| Utils.GenerateEnrollmentCode | lib/utils.ts:45-52 | The loop builds exactly 6 characters, each from the alphabet; the i-th is the one the i-th draw picks |
| Utils.AlphabetShape | lib/utils.ts:46 | The alphabet has 32 characters: 24 ascending upper-case letters, then 8 ascending digits 2-9; none of I, O, 0 and 1 occurs |
| Utils.AlphabetDistinct | lib/utils.ts:46 | Any two positions of the alphabet hold different characters, so each draw picks one distinct character |
| Utils.DrawsFor | lib/utils.ts:49 | For every code over the alphabet, one draw per character that selects it |
| Utils.EveryCodeReachable | lib/utils.ts:45-52 | Every 6-character word over the alphabet is produced by some sequence of valid draws |
| Utils.GetGradeColor | lib/utils.ts:54-60 | Five bands with inclusive lower bounds 90, 80, 70 and 60, red below 60, each band stated as an if-and-only-if |
| Utils.GradeColorMonotone | lib/utils.ts:55-59 | A higher percentage never lands in a lower band |
| Utils.FloorDiv | lib/utils.ts:63 | Floor division, characterised by its bounds for either sign of the divisor |
| Utils.CalculateGradePercentage | lib/utils.ts:62-64 | None exactly for a zero total (NaN/Infinity); otherwise the integer nearest to the exact value 100·score/total, halves rounded up |
| Utils.GradePercentageMonotone | lib/utils.ts:62-64 | For a positive total the percentage never decreases as the score grows |
| Utils.GradePercentageRange | lib/utils.ts:62-64 | Full marks give 100, no marks give 0, and any score between them gives a value in [0, 100] |
| VerifyEmail.MountedValid | app/auth/verify-email/page.tsx:13-20 | The freshly mounted page satisfies the invariant: nothing verified, no address |
| VerifyEmail.StepPreservesValid | app/auth/verify-email/page.tsx:28-225 | Every effect and handler keeps the invariant: a verified page holds none of the three pending keys, a recorded address is non-empty, nothing is verified before initialisation |
| VerifyEmail.InitializeValid | app/auth/verify-email/page.tsx:28-49 | Initialisation keeps the invariant |
| VerifyEmail.LinkTokensValid | app/auth/verify-email/page.tsx:72-100 | The deep-link path keeps the invariant |
| VerifyEmail.SessionCheckValid | app/auth/verify-email/page.tsx:103-154 | The session check keeps the invariant |
| VerifyEmail.AuthChangeValid | app/auth/verify-email/page.tsx:157-177 | The auth-change listener keeps the invariant |
| VerifyEmail.ResendValid | app/auth/verify-email/page.tsx:179-211 | Resending keeps the invariant |
| VerifyEmail.ClearPendingValid | app/auth/verify-email/page.tsx:213-225 | Sign-up-again and direct login keep the invariant |
| VerifyEmail.FinalizeValid | app/auth/verify-email/page.tsx:52-69 | Finalising an initialised page whose address is absent or non-empty gives a valid page |
| VerifyEmail.AdoptUserValid | app/auth/verify-email/page.tsx:124-170 | Recording any user found by the session check or the listener keeps an initialised page valid |
| VerifyEmail.FinalizeEffect | app/auth/verify-email/page.tsx:52-69 | Finalisation sets isVerified, removes exactly the three pending keys, leaves every other stored key and value alone, schedules one "/dashboard" push and changes nothing else |
| VerifyEmail.FinalizeTwice | app/auth/verify-email/page.tsx:52-69 | Finalising twice gives the state of finalising once, except that a second "/dashboard" push is scheduled (there is no finalised-once flag) |
| VerifyEmail.NothingBeforeInit | app/auth/verify-email/page.tsx:72-158 | Before initialisation the link, session and listener steps leave the page unchanged |
| VerifyEmail.InitializeEffect | app/auth/verify-email/page.tsx:28-49 | Runs once; devSignupSuccess ⇔ the stored flag is exactly "true"; a non-empty pending address becomes userEmail, otherwise userEmail is kept; a malformed draft leaves userData unchanged; storage, verification and requests untouched |
| VerifyEmail.LinkTokensEffect | app/auth/verify-email/page.tsx:72-100 | Acts only when initialised, with both tokens and type "signup"; then one setSession request; an error is reported as "Verification failed: …" and does not finalise; a returned user finalises (pending keys gone, one push) |
| VerifyEmail.SessionCheckEffect | app/auth/verify-email/page.tsx:103-154 | A navigation happens only for a user whose email is confirmed, found on the session or, when there is no session, by getUser; it then records that user's address, verifies and pushes "/dashboard" once |
| VerifyEmail.SessionCheckUnconfirmed | app/auth/verify-email/page.tsx:124-134 | A session user with an address but no confirmation only updates userEmail; getUser is not called |
| VerifyEmail.AdoptUserEffect | app/auth/verify-email/page.tsx:124-170 | Recording a user with an address sets userEmail to it, and navigates exactly when the email is confirmed |
| VerifyEmail.AuthChangeEffect | app/auth/verify-email/page.tsx:157-177 | The listener acts only on an initialised page, event SIGNED_IN and a user; it navigates only for a confirmed user, whom it verifies with the pending keys removed |
| VerifyEmail.ResendEffect | app/auth/verify-email/page.tsx:179-211 | No address: the "No email address found" error and no request, nothing else changes; otherwise exactly one resend request for the address, isLoading false at the end, error cleared on success or the fixed message on a throw |
| VerifyEmail.RestartEffect | app/auth/verify-email/page.tsx:213-225 | Sign-up-again and direct login remove the same three keys and differ only in the push: "/auth/signup" against "/auth/login" |
| VerifyEmail.VerifiedIsFinal | app/auth/verify-email/page.tsx:52-225 | No effect or handler clears isVerified once it is set |
| VerifyEmail.AdoptUserKeepsVerified | app/auth/verify-email/page.tsx:124-170 | Recording a user never un-verifies the page |
| VerifyEmail.RemovedOneByOne | app/auth/verify-email/page.tsx:55-57 | The three single-key removals remove exactly the three pending keys |
| VerifyEmail.VerifyEmailPage.constructor | app/auth/verify-email/page.tsx:13-20 | The mounted page over the browser's local storage |
| VerifyEmail.VerifyEmailPage.RemovePendingKeys | app/auth/verify-email/page.tsx:55-57 | Three `removeItem` calls remove the pending keys and change no other field |
| VerifyEmail.VerifyEmailPage.HandleVerificationSuccess | app/auth/verify-email/page.tsx:52-69 | New state is `Finalize` of the old |
| VerifyEmail.VerifyEmailPage.Initialize | app/auth/verify-email/page.tsx:28-49 | New state is `Step` of the old with the initialisation event |
| VerifyEmail.VerifyEmailPage.CheckLinkTokens | app/auth/verify-email/page.tsx:72-100 | New state is `Step` of the old with the deep-link event |
| VerifyEmail.VerifyEmailPage.RecordUser | app/auth/verify-email/page.tsx:124-170 | New state is `AdoptUser` of the old |
| VerifyEmail.VerifyEmailPage.CheckSession | app/auth/verify-email/page.tsx:103-154 | New state is `Step` of the old with the session-check event |
| VerifyEmail.VerifyEmailPage.OnAuthStateChange | app/auth/verify-email/page.tsx:157-177 | New state is `Step` of the old with the auth-change event |
| VerifyEmail.VerifyEmailPage.ResendVerification | app/auth/verify-email/page.tsx:179-211 | New state is `Step` of the old with the resend event |
| VerifyEmail.VerifyEmailPage.HandleSignUpAgain | app/auth/verify-email/page.tsx:213-218 | New state is `Step` of the old with the sign-up-again event |
| VerifyEmail.VerifyEmailPage.HandleDevDirectLogin | app/auth/verify-email/page.tsx:220-225 | New state is `Step` of the old with the direct-login event |
| AuthContext.ProfileRow | contexts/auth-context.tsx:43-59 | `.single()` yields a row exactly when one row has the id, and that row is from the table with that id |
| AuthContext.ProfileOf | contexts/auth-context.tsx:42-63 | No user gives no profile; a profile found always belongs to the user |
| AuthContext.UseAuth | contexts/auth-context.tsx:196-202 | Outside a provider the hook throws "useAuth must be used within an AuthProvider"; inside, it returns the context value |
| AuthContext.AuthProvider.constructor | contexts/auth-context.tsx:23-27 | Starts with no user, no profile, loading true, no error, no client |
| AuthContext.AuthProvider.Initialize | contexts/auth-context.tsx:29-77 | loading ends false; a failed client creation sets the configuration error and registers no listener; otherwise user = session user, its profile is loaded when there is one, the error is cleared and the listener is registered; the provider invariant holds |
| AuthContext.AuthProvider.OnAuthStateChange | contexts/auth-context.tsx:54-66 | user = session.user or null; profile = that user's row, null when there is no user; loading false; error and client untouched; invariant kept |
| AuthContext.AuthProvider.Render | contexts/auth-context.tsx:148-193 | The error screen exactly when error is set, showing it; otherwise the children with user, profile, loading and error |
| AuthContext.AuthProvider.SignIn | contexts/auth-context.tsx:79-89 | No client: "Authentication service not available" and no request; otherwise one signInWithPassword request and the backend's error returned unchanged |
| AuthContext.AuthProvider.SignUp | contexts/auth-context.tsx:91-131 | No client: the unavailable error; the profile lookup comes first; an existing email gives "A user with this email already exists" with no auth.signUp; auth.signUp carries first_name, last_name, role and email as metadata; a free email (null or no rows) always sends exactly the lookup and auth.signUp; success ⇔ a free email and auth.signUp returned no error, and then its data is returned; a backend error is returned as is; a throw gives the fixed message |
| AuthContext.AuthProvider.SignOut | contexts/auth-context.tsx:133-137 | One sign-out request exactly when a client exists, none otherwise |
| AuthContext.AuthProvider.ResetPassword | contexts/auth-context.tsx:139-146 | No client: the unavailable error and no request; otherwise one resetPasswordForEmail request and the backend's error returned unchanged |
| AuthContext.FailedInitShowsErrorScreen | contexts/auth-context.tsx:69-176 | A provider whose client creation throws renders the configuration-error screen |
| AuthContext.SignedOutInitRendersChildren | contexts/auth-context.tsx:36-193 | A provider initialised without a session renders its children signed out, no longer loading |
| CourseResources.LoadedResources | components/courses/course-resources.tsx:28-56 | The stored list is empty on a query error or a throw, and `data` (or empty) otherwise |
| CourseResources.GetFileIcon | components/courses/course-resources.tsx:58-63 | "pdf" gives the document icon; otherwise "video" the video icon; otherwise "image" the image icon; otherwise the generic icon; each as an if-and-only-if |
| CourseResources.FilteredResources | components/courses/course-resources.tsx:65-71 | Every kept resource matches the lower-cased search in its title or description and the type filter; every resource matching both is kept; the result is an order-preserving subsequence |
| CourseResources.EmptySearchKeepsAll | components/courses/course-resources.tsx:65-71 | An empty search under the "all" type keeps the whole list |
| CourseResources.CategoryKeys | components/courses/course-resources.tsx:73-150 | The group keys, in creation order, are distinct and include the category of every resource |
| CourseResources.Grouped | components/courses/course-resources.tsx:73-83 | The dictionary the reduce builds when it does not throw: its keys are exactly the categories that occur ("other" for a missing or empty one) |
| CourseResources.GroupedIsFilter | components/courses/course-resources.tsx:73-83 | Each group is exactly the resources of its category, in list order |
| CourseResources.GroupedSizes | components/courses/course-resources.tsx:73-83 | The group sizes add up to the number of resources grouped |
| CourseResources.SizesSeenCategory | components/courses/course-resources.tsx:79 | Appending a resource of an existing category grows the total by one |
| CourseResources.SizesNewCategory | components/courses/course-resources.tsx:76-79 | A resource of a new category opens a group of one and grows the total by one |
| CourseResources.GroupSizesGrow | components/courses/course-resources.tsx:79 | Pushing onto one group of distinct keys grows the total by one |
| CourseResources.GroupByCategory | components/courses/course-resources.tsx:73-83 | The reduce throws ⇔ some category names a property inherited from `Object.prototype` ("constructor", "toString", "__proto__"…); otherwise it produces exactly the keys and dictionary of the specification |
| CourseResources.GroupingPartitions | components/courses/course-resources.tsx:73-83 | Every resource lands in its category's group, groups are order-preserving subsequences, and the sizes sum to the list length |
| CourseResources.TabLabel | components/courses/course-resources.tsx:152 | Same length as the category; first character upper-cased, the rest unchanged |
| CourseDiscussions.ReplyCount | components/courses/course-discussions.tsx:50-57 | The exact count, or 0 when the count is null |
| CourseDiscussions.WithReplyCounts | components/courses/course-discussions.tsx:48-60 | One entry per fetched row, in order, each with its reply count |
| CourseDiscussions.LoadedDiscussions | components/courses/course-discussions.tsx:29-72 | Empty on a query error, null data or a throw; otherwise one entry per row, in fetched order, each with its reply count (`count || 0`) |
| CourseDiscussions.FilteredDiscussions | components/courses/course-discussions.tsx:74-78 | Every kept thread matches the lower-cased search in its title or content; every matching thread is kept; the result is an order-preserving subsequence |
| CourseDiscussions.EmptySearchKeepsAll | components/courses/course-discussions.tsx:74-78 | An empty search keeps every thread |
| CourseDiscussions.FetchOrderSurvives | components/courses/course-discussions.tsx:40-78 | Rows in the query's order (pinned first, then newest first) stay in that order after reply counts are added and the search is applied |
| CourseAnnouncements.DraftCompleteIff | components/courses/course-announcements.tsx:60 | The draft is accepted exactly when neither title nor content is empty or all white space |
| CourseAnnouncements.WithoutId | components/courses/course-announcements.tsx:119 | Deleting removes every entry with the id and keeps every other entry, in order |
| CourseAnnouncements.DeleteAbsentId | components/courses/course-announcements.tsx:119 | Deleting an id that is not in the list leaves it unchanged |
| CourseAnnouncements.DeleteUndoesCreate | components/courses/course-announcements.tsx:94-119 | Deleting a just-created announcement with a fresh id restores the list from before the create |
| CourseAnnouncements.ShowsDeleteMenu | components/courses/course-announcements.tsx:240 | The delete menu shows exactly for the instructor or an admin |
| CourseAnnouncements.AnnouncementsPanel.constructor | components/courses/course-announcements.tsx:21-26 | The fetched list, no draft, not creating, not submitting |
| CourseAnnouncements.AnnouncementsPanel.Create | components/courses/course-announcements.tsx:59-111 | A blank draft changes nothing and sends nothing; otherwise the submission outcome below |
| CourseAnnouncements.AnnouncementsPanel.Submit | components/courses/course-announcements.tsx:69-110 | An insert is sent only for a signed-in user, carrying the draft, course and author; only a successful insert puts the new row first and resets the draft and isCreating; otherwise the list and draft are kept; submitting ends false |
| CourseAnnouncements.AnnouncementsPanel.Delete | components/courses/course-announcements.tsx:113-130 | One delete request; the list loses the id only on success and is unchanged on an error or a throw; nothing else changes |
| CreateCourse.TrimAll | app/dashboard/courses/create/page.tsx:66 | One trimmed piece per piece, in order |
| CreateCourse.ParseTagsSpec | app/dashboard/courses/create/page.tsx:64-67 | Every tag is non-empty, has no white space at either end and holds no comma; at most one more tag than commas; the tags are an order-preserving subsequence of the trimmed pieces that keeps every non-empty piece |
| CreateCourse.TrimmedPieces | app/dashboard/courses/create/page.tsx:65-66 | Trimming comma-free pieces gives empty strings or well-formed tags, none with a comma |
| CreateCourse.TrimmedPiece | app/dashboard/courses/create/page.tsx:66 | One trimmed comma-free piece is empty or well-formed, and comma-free |
| CreateCourse.BlankTagsGiveNone | app/dashboard/courses/create/page.tsx:64-67 | Input made only of white space and commas gives no tags |
| CreateCourse.PiecesBlank | app/dashboard/courses/create/page.tsx:65 | Every piece of such input is all white space |
| CreateCourse.ParseJoinedTags | app/dashboard/courses/create/page.tsx:64-67 | Parsing the comma-joined list of well-formed tags gives that list back |
| CreateCourse.TrimAllKeepsTrimmed | app/dashboard/courses/create/page.tsx:66 | Trimming well-formed tags changes none |
| CreateCourse.ParseTagsIdempotent | app/dashboard/courses/create/page.tsx:64-67 | Writing the parsed tags out with commas and parsing again gives the same tags |
| CreateCourse.MessageOr | app/dashboard/courses/create/page.tsx:84 | The error message when non-empty, otherwise the fixed fallback; never empty |
| CreateCourse.CreateCoursePage.constructor | app/dashboard/courses/create/page.tsx:20-30 | The initial form (difficulty "beginner", colour "#5D5CDE"), no error, not loading |
| CreateCourse.CreateCoursePage.HandleSubmit | app/dashboard/courses/create/page.tsx:36-88 | isLoading false at the end and the form unchanged; no user: nothing inserted, pushed or toasted, and "You must be logged in to create a course"; a thrown getUser gives its message or the fallback; a signed-in user: the insert outcome below |
| CreateCourse.CreateCoursePage.Insert | app/dashboard/courses/create/page.tsx:52-82 | Exactly one row more, built from the form with instructor_id = user.id, the parsed tags and a 6-character code over the alphabet whose i-th character is the one the i-th draw picks; success: a "Course created" toast and a push to the new course; a returned error or a rejected insert: its message (or the fallback) with no push or toast |
| ResourceGrid.GetFileIcon | components/resources/resource-grid.tsx:26-31 | "video" wins; otherwise "image"; otherwise "pdf" or "document" gives the document icon; otherwise the generic icon; each as an if-and-only-if |
| ResourceGrid.PriorityDiffersFromCourseView | components/resources/resource-grid.tsx:27-29 | A type naming both "pdf" and "video" gets the document icon in the course view and the video icon here |
| ResourceGrid.PdfVideoExample | components/resources/resource-grid.tsx:27-29 | "video/pdf" is classified differently by the two views |
| ResourceGrid.ViewsAgreeOnPlainTypes | components/resources/resource-grid.tsx:26-31 | The two views agree on every type that names at most one of pdf, video and image, and not "document" |
| AssignmentList.GetStatusColor | components/assignments/assignment-list.tsx:42-55 | submitted ⇔ default, graded ⇔ secondary, overdue ⇔ destructive, anything else (pending included) ⇔ outline |
| AssignmentList.BadgeStatus | components/assignments/assignment-list.tsx:66-67 | The submission status when non-empty, otherwise the assignment's status |
| AssignmentList.CardFor | components/assignments/assignment-list.tsx:59-116 | The badge is coloured from its own label; grade line ⇔ grade not undefined, with the score, or nothing before the slash for null; counts ⇔ instructor, missing ones as 0; Submit ⇔ student and not yet submitted; Grade ⇔ instructor |
| AssignmentList.CardsFor | components/assignments/assignment-list.tsx:59 | One card per assignment, in order |
| AssignmentList.Render | components/assignments/assignment-list.tsx:28-40 | Empty state ⇔ the list is missing or empty; its message is the instructor one exactly for an instructor; otherwise the cards |
| AssignmentList.ActionsExclusive | components/assignments/assignment-list.tsx:104-109 | No card offers both Submit and Grade; a submitted assignment is never offered Submit |
| AssignmentList.SubmissionStatusWins | components/assignments/assignment-list.tsx:66-67 | With a submission status set, label and colour depend on it alone |
| CourseHeader.Difficulty | components/courses/course-header.tsx:30-31 | The metadata's difficulty when non-empty, otherwise "beginner" |
| CourseHeader.Category | components/courses/course-header.tsx:30-32 | The metadata's category when non-empty, otherwise "other" |
| CourseHeader.GetDifficultyColor | components/courses/course-header.tsx:70-81 | beginner ⇔ green, intermediate ⇔ yellow, advanced ⇔ red, anything else ⇔ blue |
| CourseHeader.MissingMetadataIsBeginner | components/courses/course-header.tsx:30-81 | A course without metadata shows the green beginner badge and category "other" |
| CourseHeader.ShowsEnroll | components/courses/course-header.tsx:157 | Enroll shows exactly for a viewer who is not enrolled, not the instructor and not an admin |
| CourseHeader.EnrollExcludesModeration | components/courses/course-header.tsx:157 | Whoever is offered Enroll is not offered the announcement delete menu, and the other way round |
| CourseHeader.MessageOr | components/courses/course-header.tsx:64 | The error message when non-empty, otherwise the fixed fallback |
| CourseHeader.EnrollPanel.constructor | components/courses/course-header.tsx:23-24 | Not loading, no error, nothing inserted |
| CourseHeader.EnrollPanel.HandleEnroll | components/courses/course-header.tsx:34-68 | isLoading false at the end; no user: "You must be logged in…" and nothing inserted; a thrown getUser: its message or the fallback; a signed-in user: exactly {course_id, student_id} inserted; success: error cleared and one refresh; a returned error or a rejected insert: its message or the fallback, no refresh |
| CourseModules.WithLessons | components/courses/course-modules.tsx:48-65 | The module's own fields are kept; a lessons error or null data gives no lessons; otherwise the fetched lessons |
| CourseModules.Merge | components/courses/course-modules.tsx:46-67 | One entry per fetched module, in fetch order, each with its lessons |
| CourseModules.LoadedModules | components/courses/course-modules.tsx:26-79 | Empty on a modules error or any throw; otherwise one entry per module, in fetch order |
| CourseModules.GetLessonIcon | components/courses/course-modules.tsx:81-92 | video ⇔ video icon; quiz or assignment ⇔ document icon; anything else ⇔ generic icon; never the image icon |
| CourseModules.GetLessonStatusIcon | components/courses/course-modules.tsx:94-99 | The check icon exactly when the lesson is completed, the clock otherwise |
| CourseModules.LessonWord | components/courses/course-modules.tsx:149 | "lesson" exactly when the count is 1, "lessons" otherwise |
| RecentActivity.GetActivityIcon | components/dashboard/recent-activity.tsx:24-37 | Each known type ⇔ its own icon; any other type ⇔ the pin |
| RecentActivity.GetActivityMessage | components/dashboard/recent-activity.tsx:39-52 | A known type gives its lead text followed by the quoted title field it names ("null" for a null field, "undefined" for a missing one); any other type gives the description unchanged |
| RecentActivity.AssignmentKindsQuoteSameTitle | components/dashboard/recent-activity.tsx:41-44 | Submission and grade messages both quote the assignment title |
| RecentActivity.LeadsDiffer | components/dashboard/recent-activity.tsx:41-48 | The four known types open with four different leads |
| RecentActivity.MissingMetadataShowsUndefined | components/dashboard/recent-activity.tsx:41-48 | With no metadata the quoted title reads "undefined" |
| RecentActivity.NullTitleShowsNull | components/dashboard/recent-activity.tsx:45-46 | A discussion title stored as null reads "null" in the message |
| SecuritySettings.Accepts | components/settings/security-settings.tsx:31 | Accepted exactly when the new password equals its confirmation |
| SecuritySettings.CurrentPasswordIrrelevant | components/settings/security-settings.tsx:31 | The current password plays no part in acceptance |
| SecuritySettings.SecurityPanel.constructor | components/settings/security-settings.tsx:20-25 | Empty form, not loading |
| SecuritySettings.SecurityPanel.HandlePasswordChange | components/settings/security-settings.tsx:28-61 | A mismatch adds the error toast and leaves the form and isLoading alone; an accepted form is reset to three empty fields, with isLoading false and the success toast |
| NotificationSettings.Coalesce | components/settings/notification-settings.tsx:19-24 | `??`: a present value, false included, wins; a missing one gives the fallback |
| NotificationSettings.InitialPreferences | components/settings/notification-settings.tsx:18-25 | Every key is its stored value or its default; with no profile, all on except the weekly summary |
| NotificationSettings.Toggle | components/settings/notification-settings.tsx:96 | The toggled key takes the new value; the other five keep theirs |
| NotificationSettings.OptionsCoverRecord | components/settings/notification-settings.tsx:47-78 | The option list has six entries, names every key of the record, and names each once |
| NotificationSettings.ToggleBack | components/settings/notification-settings.tsx:96 | Toggling a key back to its old value restores the record |
| NotificationSettings.NotificationPanel.constructor | components/settings/notification-settings.tsx:17-25 | The initial preferences, not loading |
| NotificationSettings.NotificationPanel.OnCheckedChange | components/settings/notification-settings.tsx:96 | The preferences become `Toggle` of the old ones; nothing else changes |
| NotificationSettings.NotificationPanel.HandleSave | components/settings/notification-settings.tsx:28-45 | Preferences unchanged, isLoading false, the saved toast |
| AccountSettings.InitialSettings | components/settings/account-settings.tsx:30-34 | A stored value wins, false included; missing ones give email notifications on, marketing and data sharing off |
| AccountSettings.Flip | components/settings/account-settings.tsx:82-104 | The switch's field takes the new value; the other two keep theirs |
| AccountSettings.FlipsCommute | components/settings/account-settings.tsx:82-104 | Switches on different fields commute |
| AccountSettings.AccountPanel.constructor | components/settings/account-settings.tsx:29-34 | The initial settings, not loading |
| AccountSettings.AccountPanel.OnCheckedChange | components/settings/account-settings.tsx:82-104 | The settings become `Flip` of the old ones; nothing else changes |
| AccountSettings.AccountPanel.HandleSaveSettings | components/settings/account-settings.tsx:37-54 | Settings unchanged, isLoading false, the saved toast |
| AccountSettings.AccountPanel.HandleDeleteAccount | components/settings/account-settings.tsx:56-62 | Only the deletion toast |
| ForgotPassword.ForgotPasswordPage.constructor | app/auth/forgot-password/page.tsx:17-20 | Empty email, no error, not loading, not submitted |
| ForgotPassword.ForgotPasswordPage.HandleSubmit | app/auth/forgot-password/page.tsx:25-54 | Empty email: "Please enter your email address" and no reset call; otherwise one call and isLoading false; a returned error shows its message and leaves isSubmitted; no error sets isSubmitted and toasts; a throw gives the generic message; isSubmitted never goes back to false |
| ForgotPassword.SubmitWithoutClient | app/auth/forgot-password/page.tsx:37-42 | With the provider's client missing, a submission shows "Authentication service not available" and stays unsubmitted |
| Common.OrElse | components/courses/course-resources.tsx:75 | The `or` fallback: a non-empty string wins, otherwise the fallback |
| Common.IncludesIff | components/courses/course-resources.tsx:59-68 | `includes` holds exactly when the substring occurs at some index |
| Common.IncludesEmpty | components/courses/course-resources.tsx:67-68 | Every string includes "" (so an empty search matches) |
| Common.ToLower | components/courses/course-resources.tsx:67-68 | Same length; each ASCII upper-case letter lowered, every other character kept |
| Common.ToUpper | lib/utils.ts:42 | Same length; each ASCII lower-case letter raised, every other character kept |
| Common.TrimStartSpec | app/dashboard/courses/create/page.tsx:66 | Dropping leading white space keeps a suffix that does not start with white space, and drops only white space |
| Common.TrimEndSpec | app/dashboard/courses/create/page.tsx:66 | Dropping trailing white space keeps a prefix that does not end with white space, and drops only white space |
| Common.TrimSpec | app/dashboard/courses/create/page.tsx:66 | `trim()` is a slice of the input; everything cut from either end is white space and none is left at either end |
| Common.TrimKeepsTrimmed | app/dashboard/courses/create/page.tsx:66 | A string with no white space at either end is its own trim |
| Common.TrimEmptyIffBlank | components/courses/course-announcements.tsx:60 | `trim()` is empty exactly when the string is all white space |
| Common.Split | app/dashboard/courses/create/page.tsx:65 | `split(",")` gives one more piece than there are commas, none holding a comma |
| Common.JoinSplit | app/dashboard/courses/create/page.tsx:65 | Joining the pieces with the separator gives the input back |
| Common.SplitJoin | app/dashboard/courses/create/page.tsx:65 | Splitting the join of separator-free pieces gives the pieces back |
| Common.Filter | app/dashboard/courses/create/page.tsx:67 | `filter` keeps only elements that pass, keeps every element that passes, and is never longer than the input |
| Common.FilterCounts | components/courses/course-resources.tsx:65 | Each passing element is kept as many times as the input holds it, and no failing one is kept |
| Common.FilterIsSubsequence | components/courses/course-resources.tsx:65 | A filter result is an order-preserving subsequence of its input |
| Common.FilterAll | components/courses/course-resources.tsx:65 | When every element passes, the filter returns the whole list |
| Common.FilterNone | app/dashboard/courses/create/page.tsx:67 | When no element passes, the filter is empty |
| Common.FilterSnoc | components/courses/course-resources.tsx:73-83 | Filtering an extended list extends the filter of the prefix by the new element when it passes |
| Common.FilterKeepsOrder | components/courses/course-discussions.tsx:74 | Filtering keeps any pairwise order the list had |

## Left out

- Backend calls (auth getSession/getUser/setSession/signUp/resend/resetPasswordForEmail/onAuthStateChange, table queries): their answers are parameters, and the calls are recorded as request sequences. Calls into the hosted backend cannot be seen from this code.
- JSX rendering, styling classes other than the colour classes the functions return, and `cn` (clsx/tailwind-merge): presentation only.
- The router: pushes and refreshes are recorded as requested navigations. The 2000 ms `setTimeout` before the dashboard push on the verification page is not timed; the push is recorded when it is scheduled.
- Toasts are recorded where a handler's outcome is only visible through them: the settings panels, forgot password and create course. The verification page's toasts, the announcement and enrolment toasts, and their wording in error cases are left out; those handlers' state changes carry the outcome.
- Async interleaving: events are applied one at a time. The source has no stale-profile guard in the auth listener and no finalised-once flag on the verification page (`VerifyEmail.FinalizeTwice` shows the second push), so no race freedom is claimed.
- Subscription teardown: the unsubscribe closures of the auth provider and the verification page's listener are not modelled.
- `formatDate`, `formatTime`, `formatDateTime` and both `formatFileSize` copies: floating point and locale formatting.
- `JSON.parse` of the stored sign-up draft is an oracle (`parsed`, None when it throws).
- `toLowerCase` and `toUpperCase` map ASCII letters only; Unicode case mapping is not modelled.
- Utils.GetInitials: strings are modelled as sequences of Unicode scalar values, while `name?.[0]` indexes UTF-16 code units; for a name that starts outside the Basic Multilingual Plane (such as "😀x") the source returns a lone surrogate, the model the whole character.
- `Math.random` is an oracle: a sequence of six reals in [0, 1).
- Utils.CalculateGradePercentage: rounds the exact fraction, where the source rounds an IEEE double; floating-point error near a half is ignored (for 29 of 200 the double 14.499999999999998 rounds to 14, the model gives 15), and scores or totals that are not whole numbers are not modelled.
- `Object.keys` order for integer-like category names: the keys are taken in creation order, which JavaScript uses only for non-numeric keys.
- CreateCourse.CreateCoursePage.Insert: the insert is taken to return its row, so `data[0]` on an empty result (a TypeError caught by the same handler) is not modelled.
- CourseAnnouncements.AnnouncementsPanel.Submit: the insert is taken to return its row, so an empty `data`, whose `data[0]` would put `undefined` at the head of the list, is not modelled.
- AuthContext.AuthProvider.Initialize: only `createClient` is taken to throw; a throwing getSession or profile query (which the same catch would report) is not modelled.
- AuthContext.AuthProvider.SignIn and AuthContext.AuthProvider.ResetPassword: a rejected promise from the backend propagates to the caller and is not modelled; the forgot-password page models its own catch.
- CourseModules.LoadedModules: a rejected lessons query rejects the whole `Promise.all`, which the outer catch turns into an empty list; the model gives that result without modelling the rejection order.
- CourseDiscussions.LoadedDiscussions: the reply counts are a map parameter; a count query that returns an error is treated like a null count, as the source does, but a rejected count promise (which rejects the whole `Promise.all`, so the catch stores an empty list) is not modelled.
- CourseAnnouncements: the fetch effect is represented by the constructor's `fetched` list, as in `CourseResources.LoadedResources`; delete and create toasts are left out.
- The verification page's "Back to Login" button is the `BackToLogin` event only; it has no class method because it is an inline arrow in JSX.
- The settings handlers' `catch` branches are unreachable, because their bodies are stubs that cannot throw.
- `debugInfo` on the verification page: development-only display state.
