# 뭐입지 (ipzy) front end — a Dafny model of its client-side rules

The ipzy front end is a React single-page app. It runs a styling quiz, signs users in by e-mail or social login,
sells plan subscriptions, and has a small admin console. Underneath the pages sits a set of small, sequential,
stateful rules. This project models those rules and proves what they promise:

- **Input validation and formatting** (`src/utils/validation.ts`): sanitising, e-mail and password checks, the
  Luhn card-number check (ISO/IEC 7812-1, Annex B), expiry, CVC and name checks, and the card-number and expiry
  formatters.
- **The quiz attempt** (`src/pages/Quiz.tsx`, `src/utils/quizApi.ts`): the stored `quiz_session`, the session
  reuse decision, the pending-answer reconciliation after login, answer selection with its re-entrancy flag,
  the delayed advance, back, next and unmount.
- **The route guards** (`src/components/RouteGuard.tsx`): each guard as a decision function, plus the
  once-only refresh bookkeeping of ProtectedRoute and AdminRoute.
- **The auth context** (`src/context/AuthContext.tsx`): the signed-in user, the saved outfits, subscription
  changes, the fail-closed refreshes, and logout's storage cleanup.
- **Login redirect bookkeeping** (`src/pages/Login.tsx`, `src/pages/AuthCallback.tsx`, and the 401/419
  interceptor of `src/api/api.ts`): the `postLoginRedirect` and `auth_*` keys over session and local storage.
- **Forms and lists**:
  - the payment and sign-up forms (`src/pages/Payment.tsx`, `src/pages/Signup.tsx`);
  - the settings page (`src/pages/UserSettings.tsx`);
  - the admin payment, product and subscription lists with their aggregates;
  - the admin member list's request building (`src/admin/pages/UserList.tsx`);
  - the admin API's error envelope (`src/api/adminApi.ts`).

## How the model is built

- **Storage.** Browser storage is a `WebStorage` object over a `map<string, string>`. Values stored as JSON go
  through a small codec for flat JSON objects (module `Json`). Its round trip is proved, so "store, then read
  back" is a theorem.
- **Outside calls.** Network calls, the clock and the mock delays are parameters. A remote call is a `Result`
  the caller passes in. "Today", the current year and month, and generated ids are plain arguments.
- **Pages that change state step by step.** The quiz page, the payment and sign-up forms, the route guards'
  refresh flag, the auth context, the member list and the settings page are classes. Their handlers are
  methods whose postconditions give the whole new state in terms of the old one.
- **Sign-up form.** Its state hooks are grouped into four records: the name input, the e-mail input with its
  duplicate check, the password inputs, and the submission flags. Each handler's effect is a function on
  these records, and the invariants the form keeps are proved about those functions.
- **Pure logic.** Validation, the guard decisions, the admin filters and aggregates, the settings updaters and
  the API envelopes are functions with lemmas.

Where the code and its surrounding descriptions disagree, the model follows the code:

- Session reuse on the quiz page is decided in `Quiz.tsx` itself.
- A successful resume does not remove `pendingQuizAnswers`.
- AdminRoute refreshes through the user endpoint.

The last two are listed under Findings, each with the corrected behaviour modelled next to it.

## Model

| member | source | states |
|---|---|---|
| Validation.SanitizeInput | src/utils/validation.ts:2-7 | the result is at most `maxLength` long, contains no `<` or `>`, keeps the characters of the trimmed input in order, and is the whole bracket-free trimmed input unless cut at `maxLength` |
| Text.Trim | src/utils/validation.ts:4 | `trim()`: a slice of the input with no whitespace at either end, and only whitespace cut off |
| Text.ToLower | src/admin/pages/Products.tsx:14-15 | `toLowerCase()` character by character on ASCII letters, keeping the length (also AuthContext.tsx:247) |
| Text.ToUpper | src/pages/Payment.tsx:92 | `toUpperCase()` character by character on ASCII letters, keeping the length |
| Validation.ValidateEmail | src/utils/validation.ts:10-13 | an accepted address is at least five characters long (the shortest a@b.c) |
| Validation.ValidEmailShape | src/utils/validation.ts:10-13 | an accepted address has no whitespace, exactly one `@` (not first), and a `.` in the domain with characters on both sides |
| Validation.ScanEmailMatchesPattern | src/utils/validation.ts:10-13 | the character scan the model uses accepts exactly the strings of the form local@domain.tld with no whitespace or extra `@` (both directions) |
| Validation.ScanEmail | src/utils/validation.ts:10-13 | no whitespace, a single `@` that is not first, and a `.` strictly inside the part after it; ScanEmailMatchesPattern proves it equal to the regex |
| Validation.ValidatePassword | src/utils/validation.ts:16-32 | length at least 8, a digit, and one of `!@#$%^&*` are each reported; the password is valid exactly when all three hold |
| Validation.ValidateCardNumber | src/utils/validation.ts:35-61 | the right-to-left doubling loop accepts exactly 13 to 19 ASCII digits (after removing whitespace) whose Luhn sum is a multiple of 10 |
| Validation.LuhnSum | src/utils/validation.ts:45-60 | the Luhn sum, doubling every second digit from the right and subtracting 9 above 9; ValidateCardNumber's loop is proved equal to it |
| Validation.LuhnDetectsSingleDigitError | src/utils/validation.ts:45-60 | changing any one digit of a number that passes the check makes it fail |
| Validation.ValidateExpiryMeaning | src/utils/validation.ts:64-84 | an expiry is accepted exactly when it reads MM/YY with MM from 1 to 12 and (2000+YY, MM) is not before the current year and month |
| Validation.ValidateExpiry | src/utils/validation.ts:64-84 | an accepted expiry is five characters with `/` in the middle |
| Validation.ExpiryParse | src/utils/validation.ts:70-72 | a DD/DD string reads as exactly one month and year pair |
| Validation.ValidateCVC | src/utils/validation.ts:87-89 | accepted exactly when it is 3 or 4 ASCII digits |
| Validation.ValidateCardholderName | src/utils/validation.ts:92-95 | accepted exactly when the trimmed name has 2 to 26 characters, all ASCII letters or spaces |
| Validation.ValidateKoreanName | src/utils/validation.ts:98-101 | accepted exactly when the trimmed name has 2 to 50 characters, all Hangul syllables, ASCII letters or spaces |
| Validation.FormatCardNumber | src/utils/validation.ts:104-108 | keeps the first 16 digits, with a space exactly at every fifth position and nothing else but digits; d digits give d + (d - 1) / 4 characters, so no space trails |
| Validation.FormattedCardNumberStrips | src/utils/validation.ts:104-108 | removing the spaces of the formatted number gives back exactly the first 16 typed digits |
| Validation.FormatCardNumberIdempotent | src/utils/validation.ts:104-108 | formatting an already formatted number changes nothing |
| Validation.FormatExpiry | src/utils/validation.ts:111-117 | keeps the first 4 digits, puts `/` after the second whenever there are at least two, every other character is a digit, and the length is the digit count plus one for the slash |
| Validation.FormatExpiryIdempotent | src/utils/validation.ts:111-117 | formatting an already formatted expiry changes nothing |
| Validation.FormattedExpiryShape | src/utils/validation.ts:111-117 | with at least four digits typed, the field reads DD/DD |
| Validation.TruncateText | src/utils/validation.ts:120-123 | text within the limit is unchanged; longer text becomes its first `maxLength` characters followed by `...` |
| Validation.TruncateTextIdempotent | src/utils/validation.ts:120-123 | truncating twice gives the same text as truncating once |
| QuizApi.Unwrap | src/utils/quizApi.ts:47-61 | a reply yields data only when it has no error, says success and carries data; otherwise the error text is `code: message`, the call's failure text, or its missing-data text, in that order |
| QuizApi.StartResult | src/utils/quizApi.ts:33-66 | the start call succeeds exactly on an error-free successful reply with data; an unsuccessful reply and a reply without data each get their own text |
| QuizApi.EncodeSession | src/utils/quizApi.ts:63 | the stored session is a JSON object |
| QuizApi.SessionFieldsRead | src/utils/quizApi.ts:63-77 | each field of a stored session reads back with its own value |
| QuizApi.StartQuizSession | src/utils/quizApi.ts:33-66 | on success the session is stored under `quiz_session` and reads back equal; on any failure storage is untouched |
| QuizApi.SessionRoundTrip | src/utils/quizApi.ts:63-77 | decoding the stored JSON of a session gives the same session |
| QuizApi.StoredSessionRoundTrip | src/utils/quizApi.ts:72-82 | after the session is written, `getStoredSession` returns it |
| QuizApi.ClearedSessionIsGone | src/utils/quizApi.ts:87-89 | once the key is removed, no session is stored |
| QuizApi.ClearStoredSession | src/utils/quizApi.ts:87-89 | removes only the `quiz_session` key, after which no session is stored |
| QuizApi.DecodeSession | src/utils/quizApi.ts:72-82 | the stored text read as a session: a flat JSON object with all five fields of the right kinds, else no session; SessionRoundTrip and SessionFieldsRead state it |
| QuizApi.GetStoredSession | src/utils/quizApi.ts:72-82 | no session when the key is missing or empty, else the decoded text; StoredSessionRoundTrip and ClearedSessionIsGone state it |
| QuizApi.GetQuizProgress | src/utils/quizApi.ts:108-134 | succeeds exactly on a successful reply with data; each failure carries its own text; storage is not involved |
| QuizApi.SaveQuizAnswer | src/utils/quizApi.ts:155-193 | succeeds exactly on a successful reply with data; each failure carries its own text; storage is not involved |
| QuizApi.CompleteResult | src/utils/quizApi.ts:207-247 | the completion call succeeds exactly on an error-free successful reply with data; the other failures get their own texts |
| QuizApi.CompleteQuizSession | src/utils/quizApi.ts:207-247 | on success the stored session is rewritten with `completed` set; on failure storage is untouched |
| QuizApi.MarkCompleted | src/utils/quizApi.ts:236-244 | the stored session rewritten with `completed` set, and storage as it was without one; MarkCompletedFlips and MarkCompletedIdempotent state it |
| QuizApi.MarkCompletedFlips | src/utils/quizApi.ts:236-244 | with a stored session, only its `completed` flag changes to true; without one nothing changes; other keys stay |
| QuizApi.MarkCompletedIdempotent | src/utils/quizApi.ts:236-244 | completing twice leaves the same stored value as completing once |
| QuizApi.NavigateToQuiz | src/utils/quizApi.ts:254-256 | always goes to `/quiz` |
| Json.AnswersRoundTrip | src/pages/Quiz.tsx:82 | parsing the JSON the quiz stores for its answers gives back the same answers |
| Json.ObjectRoundTrip | src/utils/quizApi.ts:63-77 | parsing the encoding of any flat JSON object gives back its members in order |
| Json.AnswerMembersRoundTrip | src/pages/Quiz.tsx:82 | the members written for an answer map read back as the same map |
| Quiz.StartUnlessReusable | src/pages/Quiz.tsx:53-56 | a new session is started exactly when none is stored, the stored one is for another quiz, or it is completed; otherwise the stored one is kept |
| Quiz.NeedsNewSession | src/pages/Quiz.tsx:53-54 | a new session is needed when none is stored, it is for another quiz, or it is completed |
| Quiz.SessionStep | src/pages/Quiz.tsx:52-56 | the storage before and after the session step and the error reported: kept when reusable, else written on a started session or left with the failure reported |
| Quiz.SavedForLogin | src/pages/Quiz.tsx:148-151 | storage with the answers' JSON under `pendingQuizAnswers` and `/loading` under `postLoginRedirect`; SavedAnswersResume states what it leads to |
| Quiz.QuizPage.constructor | src/pages/Quiz.tsx:22-32 | the page starts loading, at step 0, with no answers, no timer, no modal and no navigation |
| Quiz.SaveForLogin | src/pages/Quiz.tsx:148-151 | writes the answers and the `/loading` return path to session storage |
| Quiz.CompleteIfStored | src/pages/Quiz.tsx:159-174 | storage is rewritten with the session completed exactly when the completion reply allows it |
| Quiz.QuizPage.Load | src/pages/Quiz.tsx:39-69 | a failed quiz id or question fetch is reported with storage unchanged; otherwise the questions are set and the session decision above is applied; loading always ends, and only the loading, error, question and restored fields and the storage may change |
| Quiz.QuizPage.StartSession | src/pages/Quiz.tsx:52-60 | applies the session decision to the storage and shows its failure as the page's error, changing nothing else of the page |
| Quiz.QuizPage.Reconcile | src/pages/Quiz.tsx:72-94 | no pending answers: nothing; user present and the text reads as a flat answer object: go to `/loading` with it, key kept; any other text: key removed, no navigation; no user: login modal, key kept |
| Quiz.ReconcileReaction | src/pages/Quiz.tsx:72-94 | idle before loading ends or without pending text; signed in, resume on text that reads as answers and discard otherwise; signed out, ask for login |
| Quiz.QuizPage.HandleLoginModalConfirm | src/pages/Quiz.tsx:104-108 | closes the modal and goes to `/login` remembering `/loading`; every other page field is unchanged |
| Quiz.QuizPage.HandleSelect | src/pages/Quiz.tsx:111-134 | ignored while advancing; otherwise records the answer for the current question only, raises the flag and schedules the advance; questions, step, modal, navigations and the loading state are unchanged |
| Quiz.QuizPage.FireAdvance | src/pages/Quiz.tsx:136-178 | before the last step the step grows by one; at the end without a user the answers and `/loading` are stored and the modal opens; with a user the session is completed if the reply allows and the page goes to `/loading`; the flag is cleared, and questions, answers and the loading state are unchanged |
| Quiz.QuizPage.HandleNext | src/pages/Quiz.tsx:208-240 | the same three outcomes as the delayed advance, with the current answers; the advance flags, answers and the loading state are unchanged |
| Quiz.QuizPage.Finish | src/pages/Quiz.tsx:147-176 | at the last step: signed out, the answers and `/loading` are saved and the modal opens; signed in, the session is completed when the reply allows and the page goes to `/loading` with the answers |
| Quiz.QuizPage.HandleBack | src/pages/Quiz.tsx:242-250 | steps back when possible; at the first step clears the stored session and goes home; the modal, the advance state, answers and the loading state are unchanged |
| Quiz.QuizPage.Unmount | src/pages/Quiz.tsx:182-196 | cancels the timer and the flag, and clears the stored session only when it is not completed; the other page fields are unchanged |
| Quiz.QuizPage.AnsweredCount | src/pages/Quiz.tsx:308 | counts the answered questions before the current step, so it is at most the current step |
| Quiz.CountAnswered | src/pages/Quiz.tsx:308 | at most the number of questions; all of them exactly when every one is answered; none exactly when none is |
| Quiz.SavedAnswersResume | src/pages/Quiz.tsx:72-94 | answers saved at the end of a signed-out quiz are resumed after login, and ask for login while still signed out |
| Quiz.NothingPendingIsIdle | src/pages/Quiz.tsx:76-77 | with no pending answers stored, reconciliation does nothing |
| Quiz.ResumeRepeats | src/pages/Quiz.tsx:79-84 | as written, a resume leaves the pending answers in place, so the next reconciliation resumes them again |
| Quiz.StaleResumeExample | src/pages/Quiz.tsx:79-84 | answers saved before login are resumed, and resumed again on the next reconciliation |
| Quiz.QuizPage.ReconcileConsuming | src/pages/Quiz.tsx:72-94 | the corrected reconciliation, which also removes the pending answers on resume |
| Quiz.ResumeOnce | src/pages/Quiz.tsx:79-84 | after the corrected reconciliation resumes, the next reconciliation does nothing |
| Quiz.DiscardOnce | src/pages/Quiz.tsx:85-89 | pending text that does not read as answers is removed, so the next reconciliation does nothing |
| RouteGuard.ProtectedDecision | src/components/RouteGuard.tsx:13-43 | nothing while refreshing; without a user a replacing redirect to `redirectTo` carrying `from` = the current path; otherwise the page |
| RouteGuard.GuestDecision | src/components/RouteGuard.tsx:46-55 | with a user a replacing redirect to `redirectTo`, otherwise the page |
| RouteGuard.QuizRequiredDecision | src/components/RouteGuard.tsx:58-68 | the page exactly when the navigation state carries answers, otherwise a replacing redirect to `/quiz`; storage is not an input |
| RouteGuard.AdminDecision | src/components/RouteGuard.tsx:71-98 | nothing while refreshing; no user goes to `/admin/login`, a non-admin to `/`; allowed exactly when an admin is signed in |
| RouteGuard.Allow | src/components/RouteGuard.tsx:41 | an allowing guard renders the children when given, else the outlet |
| RouteGuard.RefreshGuard.Effect | src/components/RouteGuard.tsx:22-28 | a refresh starts only without a user and at most once per mount |
| RouteGuard.RefreshGuard.RenderProtected | src/components/RouteGuard.tsx:30-38 | renders nothing while the refresh is pending; without a user it redirects to `redirectTo`, by default `/login` |
| RouteGuard.RefreshGuard.RenderAdmin | src/components/RouteGuard.tsx:84-97 | renders nothing while the refresh is pending; allowed exactly when an admin is signed in |
| RouteGuard.RefreshGuard.SettleUser | src/components/RouteGuard.tsx:76-82 | the refresh through the user endpoint settles, replacing the user and ending the loading state |
| RouteGuard.AdminReloadRejected | src/components/RouteGuard.tsx:80 | as written, an admin whose session the server accepts is still sent to `/` after a reload |
| RouteGuard.RefreshGuard.SettleAdmin | src/components/RouteGuard.tsx:76-82 | the corrected refresh through the admin endpoint settles, replacing the user and ending the loading state |
| RouteGuard.AdminReloadAccepted | src/components/RouteGuard.tsx:80 | refreshing through the admin endpoint lets an accepted admin in and sends a refused one to `/admin/login` |
| RouteGuard.ProtectedGuestComplementary | src/components/RouteGuard.tsx:13-55 | once settled, exactly one of ProtectedRoute and GuestRoute lets a given visitor through |
| RouteGuard.AdminImpliesProtected | src/components/RouteGuard.tsx:13-98 | a visitor AdminRoute lets in is also let in by ProtectedRoute |
| RouteGuard.QuizNavigationsPass | src/components/RouteGuard.tsx:58-68 | the navigation to `/loading` the quiz makes with its answers always passes QuizRequiredRoute |
| RouteGuard.RefreshGuard.constructor | src/components/RouteGuard.tsx:19-20 | a fresh mount has not refreshed yet and is not loading |
| Auth.AuthProvider.IsAdmin | src/context/AuthContext.tsx:137-139 | true exactly for the admin and super-admin roles |
| Auth.IsAdminUser | src/context/AuthContext.tsx:137-139 | true exactly for a signed-in user with an admin or super-admin role |
| Auth.AuthProvider.constructor | src/context/AuthContext.tsx:86-88 | no one is signed in and the saved outfits are the mock ones |
| Auth.RefreshedUser | src/context/AuthContext.tsx:142-168 | a user exactly for an accepted reply, always with the `user` role; null otherwise |
| Auth.RefreshedAdmin | src/context/AuthContext.tsx:171-197 | a user exactly for an accepted reply, always with the `admin` role; null otherwise |
| Auth.RefreshRoles | src/context/AuthContext.tsx:151-180 | the user refresh never yields an admin; the admin refresh yields one exactly for an accepted reply |
| Auth.AuthProvider.RefreshUserFromServer | src/context/AuthContext.tsx:142-168 | fails closed: the user is the refreshed one or null, the result says which, and it is never an admin |
| Auth.AuthProvider.RefreshAdminFromServer | src/context/AuthContext.tsx:171-197 | fails closed, and succeeds exactly when an admin is signed in afterwards |
| Auth.AuthProvider.Login | src/context/AuthContext.tsx:90-109 | signs in exactly with a non-empty e-mail and password, named by the part before `@` |
| Auth.BeforeAt | src/context/AuthContext.tsx:96 | the display name is the longest prefix of the e-mail without `@`, ending just before the first `@` |
| Auth.AuthProvider.AdminLogin | src/context/AuthContext.tsx:111-135 | signs in as admin exactly for an accepted reply and leaves the user otherwise |
| Auth.AuthProvider.SocialLogin | src/context/AuthContext.tsx:199-217 | always signs in the provider's mock user with the `user` role and an inactive free plan |
| Auth.AuthProvider.Signup | src/context/AuthContext.tsx:219-238 | signs up exactly when e-mail, password and name are all non-empty |
| Auth.CheckEmailDuplicate | src/context/AuthContext.tsx:240-248 | an address is available exactly when its lower-cased form is none of the three known addresses |
| Auth.EmailCheckIgnoresCase | src/context/AuthContext.tsx:240-248 | the check gives the same answer for an address in upper case |
| Auth.AuthProvider.Logout | src/context/AuthContext.tsx:250-280 | the user is cleared and the auth keys removed from both storages, whichever logout endpoint applies |
| Auth.AuthProvider.SaveOutfit | src/context/AuthContext.tsx:282-289 | prepends exactly one outfit to the unchanged list |
| Auth.AuthProvider.RemoveOutfit | src/context/AuthContext.tsx:291-293 | removes the outfits with that id and keeps the rest in order |
| Auth.WithoutOutfit | src/context/AuthContext.tsx:291-293 | keeps exactly the outfits with a different id, every copy of each |
| Auth.RemoveProperties | src/context/AuthContext.tsx:282-293 | removal keeps the order of what remains, and removing a just-saved outfit with a fresh id restores the list |
| Auth.RemoveIdempotent | src/context/AuthContext.tsx:291-293 | removing twice is removing once |
| Auth.AuthProvider.Subscribe | src/context/AuthContext.tsx:295-314 | succeeds exactly with a user and a paid plan, then sets that plan active with its dates; otherwise nothing changes |
| Auth.AuthProvider.CancelSubscription | src/context/AuthContext.tsx:316-328 | resets the plan to an inactive free one with no dates, keeping the other user fields; no-op without a user |
| Storage.ClearAuthKeys | src/api/api.ts:24-36 | removes `auth_token` and `user_id` locally, `session_id` from the session, and every `auth_` key from both |
| Storage.ClearedKeys | src/api/api.ts:24-36 | exactly the auth keys disappear; every other key survives with its value |
| Storage.ClearIdempotent | src/api/api.ts:24-36 | clearing twice is clearing once |
| Storage.WebStorage.RemovePrefixed | src/api/api.ts:30-36 | one pass over the keys present at the start removes exactly those with the prefix; the loop is proved against WithoutPrefix (also AuthContext.tsx:268-274) |
| Storage.ItemOr | src/pages/AuthCallback.tsx:15 | a stored value is used when present and non-empty, otherwise the fallback |
| ApiInterceptor.LoginPath | src/api/api.ts:42-44 | `/admin/login` exactly for paths starting with `/admin`, else `/login` |
| ApiInterceptor.IsExpired | src/api/api.ts:22 | only status 401 or 419 counts as an expired session |
| ApiInterceptor.ShouldRedirect | src/api/api.ts:46 | a redirect happens except on `/auth/callback` and on the path's own login page; NoRedirectLoop states it |
| ApiInterceptor.SessionAfterRedirect | src/api/api.ts:24-50 | session storage cleaned of auth keys, plus the path under `postLoginRedirect` for a non-admin page |
| ApiInterceptor.OnResponseError | src/api/api.ts:18-58 | only status 401 or 419 (0 when missing) acts; it clears the auth keys, redirects unless on the callback or the login page, records the path for non-admin pages, and always rejects with the original error |
| ApiInterceptor.NoRedirectLoop | src/api/api.ts:46-50 | the login page never redirects to itself, and a non-admin page is remembered as the return path |
| ApiInterceptor.OtherKeysSurvive | src/api/api.ts:24-36 | keys outside the auth set are untouched |
| Login.From | src/pages/Login.tsx:12 | the return path is `state.from` when truthy, else `/` |
| Login.KakaoClick | src/pages/Login.tsx:72-81 | writes `postLoginRedirect` unless both it and pending quiz answers exist, then always leaves for Kakao |
| Login.KakaoItems | src/pages/Login.tsx:75-79 | storage is left as is when both the return path and pending answers are set, else the return path becomes `from` |
| Login.KakaoRecordsFrom | src/pages/Login.tsx:75-79 | without pending quiz answers the Kakao button records `from` as the return path |
| Login.KakaoKeepsQuizRedirect | src/pages/Login.tsx:75-79 | after a signed-out quiz the Kakao button keeps the stored `/loading` return path |
| Login.HandleSocial | src/pages/Login.tsx:14-19 | after the sign-in reports success, the page goes to `from`, replacing the entry |
| AuthCallback.MessageFor | src/pages/AuthCallback.tsx:17-26 | the four known OAuth codes get their texts, any other code the default text |
| AuthCallback.RedirectTarget | src/pages/AuthCallback.tsx:15 | the stored `postLoginRedirect` when non-empty, else `/` |
| AuthCallback.Go | src/pages/AuthCallback.tsx:9-43 | with a code, no refresh and a replacing redirect to `/login` with the message; otherwise refresh, then the target or `/login` remembering it; the stored target is removed on every path |
| AuthCallback.FailureKeepsTarget | src/pages/AuthCallback.tsx:38-40 | the login page sent to after a failed refresh returns to the original target |
| AuthCallback.QuizLoginRoundTrip | src/pages/AuthCallback.tsx:33-40 | a Kakao login after a signed-out quiz comes back to `/loading`, is sent to `/quiz`, and resumes the saved answers |
| Payment.PlanId | src/pages/Payment.tsx:28 | the plan from navigation state, `basic` when missing or empty |
| Payment.PlanOf | src/pages/Payment.tsx:28-29 | a known plan id names a paid plan, `pro` exactly for Pro |
| Payment.PaymentForm.constructor | src/pages/Payment.tsx:23-40 | every field and error starts empty and nothing is busy |
| Payment.PaymentForm.HandleCardNumberChange | src/pages/Payment.tsx:43-58 | stores the formatted number; at 16 digits the error tracks the Luhn check, at 1 to 15 it is cleared, at 0 it is left |
| Payment.PaymentForm.HandleExpiryChange | src/pages/Payment.tsx:60-74 | stores the formatted expiry; the error is set exactly when it is complete (5 characters) and rejected |
| Payment.PaymentForm.HandleCvcChange | src/pages/Payment.tsx:76-89 | keeps at most the first 4 digits and leaves no error |
| Payment.CvcDigits | src/pages/Payment.tsx:76-89 | the kept CVC is at most 4 digits and passes the check from 3 digits on |
| Payment.CvcNeverRejected | src/pages/Payment.tsx:76-89 | with 3 or more digits typed, the kept CVC always passes |
| Payment.CardholderInput | src/pages/Payment.tsx:91-92 | the kept name is the first 26 typed characters, each upper-cased |
| Payment.CardholderNameError | src/pages/Payment.tsx:94-103 | an error exactly for a name of 2 or more characters the cardholder check rejects |
| Payment.PaymentForm.HandleNameChange | src/pages/Payment.tsx:91-104 | upper-cases and cuts to 26; the error is set exactly when the name has 2 or more characters and is rejected |
| Payment.PaymentForm.IsFormValid | src/pages/Payment.tsx:107-115 | an enabled button implies well-formed number, expiry, CVC and name and no field error |
| Payment.PaymentForm.CheckAndStart | src/pages/Payment.tsx:117-146 | payment starts exactly when all four validators pass; each failing field gets its error and the rest keep theirs |
| Payment.PaymentForm.MarkInvalid | src/pages/Payment.tsx:124-144 | each failing field gets its error message, the rest keep theirs |
| Payment.PaymentForm.Start | src/pages/Payment.tsx:148-150 | clears the error and raises the busy flags, leaving the fields |
| Payment.PaymentForm.Submit | src/pages/Payment.tsx:117-146 | ignored while submitting; otherwise as CheckAndStart |
| Payment.PaymentForm.Settle | src/pages/Payment.tsx:148-167 | the busy flags always come down; success and the new plan exactly when a user is signed in; otherwise the failure text |
| Payment.CardCheckSeesTypedDigits | src/pages/Payment.tsx:43-58 | the card check sees exactly the first 16 typed digits, and a passing number has at least 13 |
| Signup.NameChanged | src/pages/Signup.tsx:49-58 | the name is sanitised to 50 characters, with an error exactly when non-empty and rejected |
| Signup.NameFieldError | src/pages/Signup.tsx:49-58 | an error exactly for a non-empty name the Korean-name check rejects |
| Signup.EmailChanged | src/pages/Signup.tsx:60-72 | the address is sanitised to 100 characters, with an error exactly when non-empty and malformed; any edit drops the check result |
| Signup.EmailFieldError | src/pages/Signup.tsx:60-72 | an error exactly for a non-empty, malformed address |
| Signup.CheckStarted | src/pages/Signup.tsx:74-80 | the check starts only for a non-empty, error-free address with no check running |
| Signup.CheckSettledAsWritten | src/pages/Signup.tsx:81-93 | as written, the reply for the address the check started with is applied to whatever the field now holds |
| Signup.CheckSettled | src/pages/Signup.tsx:81-93 | the corrected settling drops a reply for an address the user has since edited, and keeps the form consistent |
| Signup.StaleReplyAccepted | src/pages/Signup.tsx:60-93 | as written, editing the address to a taken one during the check leaves it marked available |
| Signup.StaleReplyDropped | src/pages/Signup.tsx:60-93 | with the correction the edited address stays unchecked, so the form cannot be submitted |
| Signup.Submitted | src/pages/Signup.tsx:95-122 | ignored while busy; otherwise sign-up starts exactly when name, address, confirmation and password strength all pass |
| Signup.FirstFailure | src/pages/Signup.tsx:99-122 | the first failing check in order; a pass exactly when all four checks pass |
| Signup.SubmittedReports | src/pages/Signup.tsx:99-122 | the first failing check in the order name, address, confirmation, strength sets its message; the inputs are kept |
| Signup.SubmittedKeepsConsistent | src/pages/Signup.tsx:95-122 | a submission keeps the form's invariants |
| Signup.SignupSettled | src/pages/Signup.tsx:124-139 | the busy flags come down either way, and a failure shows its text |
| Signup.EnabledFormSignsUp | src/pages/Signup.tsx:38-47 | in a consistent form, an enabled button means a valid name and an address that passed the duplicate check, and submitting starts sign-up |
| Signup.SignupForm.IsFormValid | src/pages/Signup.tsx:38-47 | an enabled button implies a checked, available address, agreed terms and a matching password of at least 8 characters |
| Signup.SignupForm.constructor | src/pages/Signup.tsx:15-28 | the form starts empty, unchecked and not busy |
| Signup.SignupForm.HandlePasswordChange | src/pages/Signup.tsx:267 | stores the typed password cleaned by `sanitizeInput` with limit 100, and nothing else changes |
| Signup.SignupForm.HandleConfirmPasswordChange | src/pages/Signup.tsx:326 | stores the typed confirmation cleaned by `sanitizeInput` with limit 100, and nothing else changes |
| Signup.SignupForm.ToggleAgreeTerms | src/pages/Signup.tsx:356 | flips the terms box only |
| Signup.SignupForm.HandleNameChange | src/pages/Signup.tsx:49-58 | applies the name handler to the name input and keeps the form's invariants |
| Signup.SignupForm.HandleEmailChange | src/pages/Signup.tsx:60-72 | applies the e-mail handler to the address input and keeps the form's invariants |
| Signup.SignupForm.CheckStart | src/pages/Signup.tsx:74-80 | starts the duplicate check exactly when the guard allows |
| Signup.SignupForm.CheckSettleAsWritten | src/pages/Signup.tsx:81-93 | the check settling as written |
| Signup.SignupForm.CheckSettle | src/pages/Signup.tsx:81-93 | the corrected check settling, keeping the form's invariants |
| Signup.SignupForm.Submit | src/pages/Signup.tsx:95-122 | applies the submit handler's checks and reports whether sign-up started |
| Signup.SignupForm.Settle | src/pages/Signup.tsx:124-139 | signs up with the form's values; on success goes home replacing the entry, and the busy flags come down either way |
| AdminApi.ExtractApiError | src/api/adminApi.ts:115-126 | never a success; the server's code or `HTTP_` plus the status (0 when missing); the server's message, else the error's, else the default |
| AdminApi.HttpCodeNamesStatus | src/api/adminApi.ts:122 | the status can be read back from a generated `HTTP_` code, so different statuses get different codes |
| AdminApi.HttpCode | src/api/adminApi.ts:122 | a generated code starts with `HTTP_` |
| AdminApi.Normalize | src/api/adminApi.ts:139-142 | a body with a `success` field passes through unchanged, anything else is wrapped as a success carrying it, a falsy body as no data |
| AdminApi.Fetch | src/api/adminApi.ts:152-164 | a fetch never throws: a reply is normalised, a caught error becomes the error envelope |
| AdminApi.FetchReportsFailure | src/api/adminApi.ts:139-160 | an envelope that says success comes from a reply, and an error it carries comes from the failed request or from the server's own envelope |
| UserList.RequestFor | src/admin/pages/UserList.tsx:33-45 | page index is the current page minus one, size 10, newest first; keyword only for a non-empty term, status only for a filter other than `all` |
| UserList.UserListPage.constructor | src/admin/pages/UserList.tsx:15-26 | no rows, loading, no error, empty term, `all` filter, page 1 of 1 |
| UserList.UserListPage.LoadUsers | src/admin/pages/UserList.tsx:28-58 | sends that request; a successful result replaces rows and totals, any other keeps them and shows its message or the default text |
| UserList.LoadError | src/admin/pages/UserList.tsx:54 | the result's message when present, else the page's default text |
| UserList.FailedRequestMessage | src/admin/pages/UserList.tsx:47-55 | a failed request shows the server's message, the error's, or the fetch default, so the page's own default only appears for an error-less envelope |
| UserList.EmptyReplyShowsDefault | src/api/adminApi.ts:157-160 | a `null` reply is wrapped as a success without data, and the page shows its own default text for it |
| UserList.UserListPage.HandleSearchChange | src/admin/pages/UserList.tsx:64-67 | sets the term and returns to the first page, so the next request asks for page 0 |
| UserList.UserListPage.HandleStatusChange | src/admin/pages/UserList.tsx:69-72 | sets the filter and returns to the first page, so the next request asks for page 0 |
| UserList.UserListPage.SetPage | src/admin/pages/UserList.tsx:211 | the table's page buttons set only the current page |
| AdminPayments.FilteredPayments | src/admin/pages/Payments.tsx:12-16 | keeps exactly the payments whose status and method each match their filter or the filter is `all`, every copy of each |
| AdminPayments.StatusFilterKeepsStatus | src/admin/pages/Payments.tsx:12-16 | a status filter set to a status's name keeps only payments with that status |
| AdminPayments.FilteredPaymentsShape | src/admin/pages/Payments.tsx:12-16 | the filter keeps list order, `all`/`all` keeps everything, and a status filter keeps only that status |
| AdminPayments.TotalsAppend | src/admin/pages/Payments.tsx:103-112 | a payment adds to revenue and the completed count only when completed, to the refunded amount and count only when refunded |
| AdminPayments.TotalsPartition | src/admin/pages/Payments.tsx:103-112 | completed, refunded and failed amounts and counts add up to all payments |
| AdminPayments.TotalRevenue | src/admin/pages/Payments.tsx:103-105 | the sum of the completed payments' amounts; TotalsAppend and TotalsPartition state it |
| AdminPayments.RefundedAmount | src/admin/pages/Payments.tsx:107-109 | the sum of the refunded payments' amounts; TotalsAppend and TotalsPartition state it |
| AdminPayments.CompletedCount | src/admin/pages/Payments.tsx:111 | the number of completed payments; TotalsAppend and TotalsPartition state it |
| AdminPayments.RefundedCount | src/admin/pages/Payments.tsx:112 | the number of refunded payments; TotalsAppend and TotalsPartition state it |
| AdminPayments.RefundOffered | src/admin/pages/Payments.tsx:94-98 | the refund button appears exactly for completed payments |
| Lists.TablePages | src/admin/pages/Payments.tsx:181 | ceil(n / 10) pages: every row is on one of them, the last holds at least one row, and there are none exactly when there are no rows (also Products.tsx:152, Subscriptions.tsx:197) |
| AdminProducts.FilteredProducts | src/admin/pages/Products.tsx:12-18 | keeps exactly the products matching the search and the category filter, every copy of each |
| AdminProducts.SearchIgnoresCase | src/admin/pages/Products.tsx:13-15 | a term and its lower-cased form match the same products |
| AdminProducts.FilteredProductsShape | src/admin/pages/Products.tsx:12-18 | an empty term matches every product, so with `all` the whole catalogue shows; the order is kept |
| AdminProducts.CategoryCountsPartition | src/admin/pages/Products.tsx:93-95 | the top, bottom and shoes counts add up to the catalogue size |
| AdminProducts.TopCount | src/admin/pages/Products.tsx:93 | the number of tops; CategoryCountsPartition states it |
| AdminProducts.BottomCount | src/admin/pages/Products.tsx:94 | the number of bottoms; CategoryCountsPartition states it |
| AdminProducts.ShoesCount | src/admin/pages/Products.tsx:95 | the number of shoes; CategoryCountsPartition states it |
| AdminSubscriptions.FilteredSubscriptions | src/admin/pages/Subscriptions.tsx:12-16 | keeps exactly the subscriptions whose plan and status each match their filter or the filter is `all`, every copy of each |
| AdminSubscriptions.PlanFilterKeepsPlan | src/admin/pages/Subscriptions.tsx:12-16 | a plan filter set to a plan's name keeps only subscriptions to that plan |
| AdminSubscriptions.FilteredSubscriptionsShape | src/admin/pages/Subscriptions.tsx:12-16 | the filter keeps list order, `all`/`all` keeps everything, and a plan filter keeps only that plan |
| AdminSubscriptions.PlanCountsPartition | src/admin/pages/Subscriptions.tsx:84-86 | the pro and basic counts of active subscriptions add up to the active count |
| AdminSubscriptions.ActiveCount | src/admin/pages/Subscriptions.tsx:84 | the number of active subscriptions; CountsAppend and PlanCountsPartition state it |
| AdminSubscriptions.ProCount | src/admin/pages/Subscriptions.tsx:85 | the number of active pro subscriptions; CountsAppend and PlanCountsPartition state it |
| AdminSubscriptions.BasicCount | src/admin/pages/Subscriptions.tsx:86 | the number of active basic subscriptions; CountsAppend and PlanCountsPartition state it |
| AdminSubscriptions.CountsAppend | src/admin/pages/Subscriptions.tsx:84-85 | a subscription adds to the active count only when active, and to the pro count only when active and pro |
| UserSettings.ToggleTheme | src/pages/UserSettings.tsx:39-44 | switches to the other theme and changes nothing else |
| UserSettings.ToggleNotification | src/pages/UserSettings.tsx:46-54 | flips exactly the chosen switch and changes nothing else |
| UserSettings.SetLanguage | src/pages/UserSettings.tsx:112-126 | sets only the language |
| UserSettings.TogglesAreInvolutions | src/pages/UserSettings.tsx:39-54 | each toggle undoes itself, and toggles of different kinds commute |
| UserSettings.SettingsPage.constructor | src/pages/UserSettings.tsx:15-28 | starts from light theme, Korean, push and e-mail on, marketing off, not saving |
| UserSettings.SettingsPage.HandleSave | src/pages/UserSettings.tsx:30-31 | raises the saving flag and leaves the preferences alone |
| UserSettings.SettingsPage.SaveSettled | src/pages/UserSettings.tsx:33-36 | after the wait, lowers the saving flag and goes to `/mypage`, preferences unchanged |

## Left out

- Rendering, styling and the presentational components and pages are not modelled. That covers the admin
  layout, the dashboard and the other admin pages besides the four lists.
- Network calls are parameters. The fetch bodies of `src/api/*.ts` and `src/utils/quizApi.ts`, axios itself,
  and the mock delays of 150, 500 and 2000 ms are not modelled. A timer firing is an explicit method call
  (`Quiz.QuizPage.FireAdvance`, the `Settle` methods).
- Each `await` is atomic, except where the model splits a handler into a start and a settle method
  (payment, sign-up, the e-mail check, the route guards' refresh). Unmounting while a call is pending is not
  modelled. Neither is the order in which React runs effects or batches state updates.
- `fetchQuestions`, `getDefaultQuizId` and `generateRecommendations` are outside this model. Their outcomes
  are parameters of the quiz page's methods. A failing recommendation is swallowed, as in the source.
- Storage exceptions (the `try`/`catch` around `removeItem`) and window navigation (`window.location.replace`,
  the Kakao redirect) are not modelled. The interceptor returns the path it would replace to. The Kakao
  button returns that it left.
- JSON: the codec covers flat objects of strings, numbers, booleans and null, which is what the app stores.
- Quiz.QuizPage.Reconcile: stored pending text that `JSON.parse` accepts but that is not a flat object of
  string answers (`null`, `[1]`, `{"1":2}`) is treated like text that does not parse: the key is removed and
  nothing navigates. The source navigates to `/loading` with the parsed value and keeps the key. The decoder
  reads only flat answer objects, so general JSON values are not modelled.
- QuizApi.SessionRoundTrip: stored text that parses but is not a well-shaped session reads as no session.
  `JSON.parse` would return the odd object itself.
- String lengths count code points, where JavaScript counts UTF-16 units. They differ only outside the Basic
  Multilingual Plane.
- Case mapping (`toLowerCase`, `toUpperCase`) covers ASCII letters only.
- AuthCallback.MessageFor: lookups of inherited object keys such as `toString` in `messageMap` are not
  modelled.
- The `err instanceof Error` messages of the sign-in calls, and the floating-point and locale formatting of
  the admin statistics, are not modelled.
- Payment.PaymentForm.Settle: the plan must be `basic` or `pro`. Any other plan id makes the page crash while
  rendering, before a submit is possible.
- The current year and month for the expiry check, today's date, and generated ids are parameters.
- The sign-up and payment submit buttons' `disabled` attribute is not modelled. The submit handlers are
  modelled for every state, which includes states the button would not allow.
- The mock e-mail duplicate check never throws. The `failed` parameter of the settle methods models the
  `catch` branch anyway.
- The admin pages filter the fixed mock lists of `src/admin/utils/mockData.ts`. The model takes the list as
  a parameter, and the mock data itself is not reproduced.
- The payment record's `method` field is called `payMethod`, because `method` is a Dafny keyword.
- The admin search parameters `role`, `createdFrom` and `createdTo` are never set by the member list, so the
  request record leaves them out.

## Findings

| source | as written | input that shows it | evidently intended | confidence | as-written member | corrected member |
|---|---|---|---|---|---|---|
| src/components/RouteGuard.tsx:80 | AdminRoute refreshes through `refreshUserFromServer`, which always sets the role `user` (src/context/AuthContext.tsx:151), then checks `isAdmin()` | an admin reloads `/admin` with a valid session cookie: the refresh succeeds and the guard redirects to `/` | refresh through `refreshAdminFromServer`, so an accepted admin session is let in | not executed | RouteGuard.AdminReloadRejected, RouteGuard.RefreshGuard.SettleUser | RouteGuard.AdminReloadAccepted, RouteGuard.RefreshGuard.SettleAdmin |
| src/pages/Quiz.tsx:79-84 | after a successful resume the pending answers stay in session storage | finish the quiz signed out, log in, get resumed to `/loading`, then open `/quiz` again in the same tab: the old answers are resumed a second time | remove `pendingQuizAnswers` once they are resumed | not executed | Quiz.QuizPage.Reconcile, Quiz.ResumeRepeats, Quiz.StaleResumeExample | Quiz.QuizPage.ReconcileConsuming, Quiz.ResumeOnce |
| src/pages/Signup.tsx:60-93 | the duplicate-check reply is applied to the address field as it is when the reply arrives; the input stays editable while the check runs (src/pages/Signup.tsx:202-207) | type an unused address, press the check button, and change the field to `test@test.com` within the 500 ms: the taken address ends up marked checked and available | drop a reply for an address that is no longer in the field | not executed | Signup.CheckSettledAsWritten, Signup.StaleReplyAccepted, Signup.SignupForm.CheckSettleAsWritten | Signup.CheckSettled, Signup.StaleReplyDropped, Signup.SignupForm.CheckSettle |
