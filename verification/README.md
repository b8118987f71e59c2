# euriqo-admin: session, token store, FAQ parser, form hooks and route guard

A Dafny model of the logic inside the euriqo-admin dashboard (a Next.js
app). The model covers five pieces:

- **Session state machine** (`auth_context.dfy`, module `AuthContext`).
  `AuthReducer` is the pure `authReducer` over the five-field `AuthState`.
  Class `AuthProvider` holds the reducer's state and the token store. Its
  methods `CheckAuth`, `Login`, `Register`, `Logout`, `ClearError`,
  `UpdateAuthState` and `ClearAuthState` follow the provider's callbacks.
  Every remote call (`api.auth.*`) is replaced by the outcome it produced,
  an `ApiOutcome` given as a parameter. A ghost log of `Effect`s records
  each dispatch, store write and remote request in order.
- **Token store** (`token_storage.dfy`, module `TokenStore`). Class
  `TokenStorage` owns `items`, the whole of `localStorage` as a
  string-to-string map. It has an `isBrowser` flag and three fixed keys.
  Pure map functions (`TokensOf`, `WithTokens`, `Cleared`, ...) say what
  each static method reads or leaves behind. The JWT expiry check follows
  the `exp` claim of section 4.1.4 of RFC 7519. The payload's base64url
  alphabet is mapped back to base64 as in section 5 of RFC 4648.
- **FAQ parser** (`faq_parser.dfy`, module `FaqParser`). The method
  `ParseFAQString` is the loop of `parseFAQString`, proved equal to the
  function `ParseFAQ`. The three regular expressions are written out as
  the searches the JavaScript engine performs. JavaScript's `\s` and
  `trim` are in `text.dfy`.
- **Form hooks.**
  - Shared field rules (`field_rules.dfy`) and the shared form record
    (`forms.dfy`).
  - The context-backed `useLoginForm`/`useRegisterForm` (`auth_form.dfy`).
  - The mutation-backed `useLoginForm` (`login_form.dfy`) and
    `useSignupForm` (`signup_form.dfy`).

  Each form is a class whose `formState` field the handlers reassign.
- **Route guard** (`route_guard.dfy`, module `RouteGuard`). `ProtectedRoute`'s
  redirect decision and its render choice are pure functions of the
  session flags and the props.

The record shapes of `types/auth.types.ts` are the datatypes of
`auth_types.dfy`.

## Model

| member | source | states |
|---|---|---|
| Text.Trim | euriqo-admin-main/hooks/api/use-faqs.ts:49 | `trim()` is the input with its leading and trailing whitespace removed and nothing else: a contiguous piece of it with only whitespace before and after, itself without whitespace at either end; it is empty exactly when the input is all whitespace |
| Text.TrimTrimmed | euriqo-admin-main/hooks/api/use-faqs.ts:58 | trimming an already trimmed string changes nothing |
| AuthContext.AuthReducer | euriqo-admin-main/contexts/auth-context.tsx:28-88 | every action maps a consistent session to a consistent one: authenticated exactly when tokens are held, and never without a user |
| AuthContext.ReachableConsistent | euriqo-admin-main/contexts/auth-context.tsx:19-88 | every state reachable from `initialState` by any sequence of actions is consistent |
| AuthContext.StartKeepsSession | euriqo-admin-main/contexts/auth-context.tsx:30-35 | `AUTH_START` sets `isLoading`, clears `error`, and keeps user, tokens and `isAuthenticated` |
| AuthContext.ResettingActions | euriqo-admin-main/contexts/auth-context.tsx:37-65 | `AUTH_SUCCESS`, `AUTH_ERROR` and `AUTH_LOGOUT` each give a fixed session whatever the previous one; only `AUTH_ERROR` sets `error` |
| AuthContext.LogoutIdempotent | euriqo-admin-main/contexts/auth-context.tsx:57-65 | `AUTH_LOGOUT` twice equals `AUTH_LOGOUT` once |
| AuthContext.SingleFieldActions | euriqo-admin-main/contexts/auth-context.tsx:67-83 | `CLEAR_ERROR`, `SET_USER` and `SET_LOADING` each change only their one field |
| AuthContext.Accepted | euriqo-admin-main/contexts/auth-context.tsx:178 | a reply is accepted exactly when `success` is true and `data` is present, and the payload is that `data` |
| AuthContext.Rejection | euriqo-admin-main/contexts/auth-context.tsx:189-191 | a refused reply raises an `Error` carrying the API message, or the fallback when that is empty; an exception is re-raised as it was |
| AuthContext.ErrorMessage | euriqo-admin-main/contexts/auth-context.tsx:193-197 | an `Error` contributes its message; any other thrown value gives 'An unexpected error occurred' |
| AuthContext.LoginFailureMessage | euriqo-admin-main/contexts/auth-context.tsx:172-205 | a failed login reports the API message, else 'Login failed', and a non-`Error` exception reports the generic message |
| AuthContext.AuthProvider.constructor | euriqo-admin-main/contexts/auth-context.tsx:111-112 | the provider starts in `initialState` (loading, signed out) with no effects |
| AuthContext.AuthProvider.Dispatch | euriqo-admin-main/contexts/auth-context.tsx:112 | the state becomes the reducer's result and the dispatch is logged; consistency is kept |
| AuthContext.AuthProvider.CheckAuth | euriqo-admin-main/contexts/auth-context.tsx:120-169 | with tokens or user missing it only logs out; with a valid access token it adopts the stored pair; with an expired one it makes exactly one refresh attempt, which either stores the new tokens, then the user, then signs in, or clears the store and logs out; `isLoading` always ends false |
| AuthContext.AuthProvider.Refresh | euriqo-admin-main/contexts/auth-context.tsx:132-156 | the expired-token branch of `checkAuth`, with the same two outcomes and the resulting store contents |
| AuthContext.AuthProvider.Authenticate | euriqo-admin-main/contexts/auth-context.tsx:172-241 | `AUTH_START`, the request, then on success `setTokens`, `setUser`, `AUTH_SUCCESS`; on failure the store is unchanged, `AUTH_ERROR` carries the message, and the error is re-thrown |
| AuthContext.AuthProvider.Login | euriqo-admin-main/contexts/auth-context.tsx:172-205 | `login` with fallback message 'Login failed': the effect order, the new session and the store contents in both outcomes |
| AuthContext.AuthProvider.Register | euriqo-admin-main/contexts/auth-context.tsx:208-241 | `register` with fallback message 'Registration failed': the effect order, the new session and the store contents in both outcomes |
| AuthContext.AuthProvider.Logout | euriqo-admin-main/contexts/auth-context.tsx:244-255 | whatever the remote call does, the three keys are cleared and the session ends signed out |
| AuthContext.AuthProvider.ClearError | euriqo-admin-main/contexts/auth-context.tsx:258-260 | only `error` is cleared |
| AuthContext.AuthProvider.UpdateAuthState | euriqo-admin-main/contexts/auth-context.tsx:263-268 | the given session is adopted without touching the store |
| AuthContext.AuthProvider.ClearAuthState | euriqo-admin-main/contexts/auth-context.tsx:271-273 | the session is signed out in memory; the store is left alone |
| TokenStore.Read | euriqo-admin-main/utils/token-storage.ts:26-47 | a getter answers a value exactly in a browser and when the key is present |
| TokenStore.TokensOf | euriqo-admin-main/utils/token-storage.ts:50-57 | `getTokens` gives a pair exactly when, in a browser, both token entries are present and non-empty, and the pair is those two entries without an `expiresIn`; otherwise null |
| TokenStore.UserOf | euriqo-admin-main/utils/token-storage.ts:71-81 | a user is read back only from a present, non-empty entry |
| TokenStore.HasAccessToken | euriqo-admin-main/utils/token-storage.ts:97-99 | `!!getAccessToken()`: true exactly when, in a browser, the access-token entry is present and non-empty |
| TokenStore.WithTokens | euriqo-admin-main/utils/token-storage.ts:14-23 | in a browser the two token keys hold the tokens and every other entry is kept; outside one nothing changes |
| TokenStore.WithUser | euriqo-admin-main/utils/token-storage.ts:60-68 | in a browser the user key holds the encoded user and every other entry is kept; outside one nothing changes |
| TokenStore.Cleared | euriqo-admin-main/utils/token-storage.ts:84-94 | in a browser exactly the three keys are removed and every other entry is kept; outside one nothing changes |
| TokenStore.PayloadSegment | euriqo-admin-main/utils/token-storage.ts:104 | `split('.')[1]` exists exactly when the token has a dot, and is the text after the first dot up to the second dot or the end |
| TokenStore.Base64UrlToBase64 | euriqo-admin-main/utils/token-storage.ts:105 | same length; every '-' becomes '+', every '_' becomes '/', every other character is kept |
| TokenStore.DecodeToken | euriqo-admin-main/utils/token-storage.ts:102-117 | a token without a payload segment decodes to nothing; otherwise the decoder sees the translated segment |
| TokenStore.IsTokenExpired | euriqo-admin-main/utils/token-storage.ts:120-126 | a token counts as valid only when it decodes, its `exp` is present and non-zero, and `exp` is not before the clock |
| TokenStore.AccessTokenExpired | euriqo-admin-main/utils/token-storage.ts:129-133 | no stored access token counts as expired |
| TokenStore.ExpiryFailsClosed | euriqo-admin-main/utils/token-storage.ts:120-126 | an undecodable token, or one whose `exp` is missing or 0, is expired |
| TokenStore.ExpiryInSeconds | euriqo-admin-main/utils/token-storage.ts:120-126 | otherwise the token is expired exactly when `exp < now`; `exp == now` is still valid |
| TokenStore.TokensRoundTrip | euriqo-admin-main/utils/token-storage.ts:14-57 | `getTokens` after `setTokens(t)` gives back both tokens without `expiresIn`, or nothing when one of them is empty |
| TokenStore.UserRoundTrip | euriqo-admin-main/utils/token-storage.ts:60-81 | `getUser` after `setUser(u)` gives back `u` when the JSON codec round-trips |
| TokenStore.WritesAreSeparate | euriqo-admin-main/utils/token-storage.ts:14-68 | `setTokens` touches only the token keys and `setUser` only the user key; neither changes what the other's getter reads |
| TokenStore.ClearAllSpec | euriqo-admin-main/utils/token-storage.ts:84-94 | `clearAll` removes exactly the three keys, keeps other entries, is idempotent, and leaves no tokens, user or access token |
| TokenStore.NonBrowserInert | euriqo-admin-main/utils/token-storage.ts:9-94 | outside a browser every getter answers null and every writer is a no-op |
| TokenStore.TokenStorage.SetTokens | euriqo-admin-main/utils/token-storage.ts:14-23 | the store becomes `WithTokens` of the old one |
| TokenStore.TokenStorage.GetAccessToken | euriqo-admin-main/utils/token-storage.ts:26-35 | answers the access-token entry, or null |
| TokenStore.TokenStorage.GetRefreshToken | euriqo-admin-main/utils/token-storage.ts:38-47 | answers the refresh-token entry, or null |
| TokenStore.TokenStorage.GetTokens | euriqo-admin-main/utils/token-storage.ts:50-57 | answers `TokensOf` the store |
| TokenStore.TokenStorage.SetUser | euriqo-admin-main/utils/token-storage.ts:60-68 | the store becomes `WithUser` of the old one |
| TokenStore.TokenStorage.GetUser | euriqo-admin-main/utils/token-storage.ts:71-81 | answers `UserOf` the store |
| TokenStore.TokenStorage.ClearAll | euriqo-admin-main/utils/token-storage.ts:84-94 | the store becomes `Cleared` of the old one |
| TokenStore.TokenStorage.IsAuthenticated | euriqo-admin-main/utils/token-storage.ts:97-99 | true exactly when a non-empty access token is stored; expiry is not consulted |
| TokenStore.TokenStorage.IsAccessTokenExpired | euriqo-admin-main/utils/token-storage.ts:129-133 | answers `AccessTokenExpired` of the store at the given time |
| FaqParser.SeparatorAt | euriqo-admin-main/hooks/api/use-faqs.ts:43 | a separator starts at a newline, is all whitespace and ends right after a newline; it ends at the `Q` only in the `\n(?=Q:)` case; otherwise it ends after the last newline of the whitespace run |
| FaqParser.BlankLineSeparates | euriqo-admin-main/hooks/api/use-faqs.ts:43 | a newline, only whitespace, and another newline always form a separator, whose match runs past the second newline |
| FaqParser.NewlineBeforeQuestionSeparates | euriqo-admin-main/hooks/api/use-faqs.ts:43 | a newline directly before `Q:` is a separator that ends at the `Q`, so the `Q:` line starts the next section |
| FaqParser.FirstSeparator | euriqo-admin-main/hooks/api/use-faqs.ts:43 | the leftmost position at or after a point where a separator match starts |
| FaqParser.FirstSection | euriqo-admin-main/hooks/api/use-faqs.ts:43 | the split gives the text up to the first separator match, followed by the split of the text after that match; without a match the rest is one section |
| FaqParser.SplitFromKeepsSpace | euriqo-admin-main/hooks/api/use-faqs.ts:43 | splitting whitespace-only text gives whitespace-only sections |
| FaqParser.QuestionMatch | euriqo-admin-main/hooks/api/use-faqs.ts:53 | the question pattern matches only text starting with `Q:` or `q:`, and its match lies inside the section |
| FaqParser.LazyStopsAtLineEnd | euriqo-admin-main/hooks/api/use-faqs.ts:53 | the lazy `.+?` stops at the first `\n` or the end when no line terminator comes first |
| FaqParser.QuestionMatchExactly | euriqo-admin-main/hooks/api/use-faqs.ts:53-71 | a `Q:`/`q:` section with text on its first line matches; the capture is that line from its first non-whitespace character, and the match ends after the line's newline or at the end of the section |
| FaqParser.LazyToBlankLine | euriqo-admin-main/hooks/api/use-faqs.ts:66 | the lazy `.+?` with the `s` flag stops at the first blank line (`\n\n`) or the end of the section |
| FaqParser.FirstAnswerTag | euriqo-admin-main/hooks/api/use-faqs.ts:66 | the leftmost `A:` or `a:` with at least one character after it |
| FaqParser.AnswerStart | euriqo-admin-main/hooks/api/use-faqs.ts:66 | the answer's capture starts after the whitespace that follows the tag, giving back one character when only whitespace follows |
| FaqParser.AnswerMatchExactly | euriqo-admin-main/hooks/api/use-faqs.ts:66 | the answer pattern matches at the leftmost `A:` with text after it and captures up to the first blank line or the end; without such an `A:` it does not match |
| FaqParser.FirstBreak | euriqo-admin-main/hooks/api/use-faqs.ts:80 | the first `?`, or `.` followed by whitespace or the end, at or after a position |
| FaqParser.FirstSentence | euriqo-admin-main/hooks/api/use-faqs.ts:80 | the sentence split's first piece is the text before the first break, there is a second piece exactly when a break exists, and the remaining pieces are the split of the text after that break |
| FaqParser.AnswerOrDefault | euriqo-admin-main/hooks/api/use-faqs.ts:59 | the stored answer is the trimmed answer, or 'No answer provided.' when that is empty; either way trimmed and non-empty |
| FaqParser.Flush | euriqo-admin-main/hooks/api/use-faqs.ts:56-61 | a pending question is pushed as a trimmed pair; without one nothing is pushed |
| FaqParser.Step | euriqo-admin-main/hooks/api/use-faqs.ts:52-89 | a non-blank section emits nothing or exactly the pending pair |
| FaqParser.Feed | euriqo-admin-main/hooks/api/use-faqs.ts:48-90 | a blank section changes nothing; any other emits nothing or exactly the pending pair |
| FaqParser.FeedExtends | euriqo-admin-main/hooks/api/use-faqs.ts:48-90 | a section never removes or reorders emitted items |
| FaqParser.RunExtends | euriqo-admin-main/hooks/api/use-faqs.ts:48-90 | items emitted after any prefix of the sections stay at the front of the final list, so output order follows section order |
| FaqParser.QuestionSectionFlushes | euriqo-admin-main/hooks/api/use-faqs.ts:53-73 | a `Q:` section pushes exactly the pending pair and makes its own trimmed capture the question; the answer is the trimmed `A:` capture when there is one, else the trimmed text after the question match |
| FaqParser.ContinuationAppends | euriqo-admin-main/hooks/api/use-faqs.ts:76-77 | a non-`Q:` section after a question is appended to the answer on a new line |
| FaqParser.LeadingSectionBecomesQuestion | euriqo-admin-main/hooks/api/use-faqs.ts:78-88 | a leading non-`Q:` section becomes the question: the text before the first break closed by '?' or '.', with the other pieces joined by '.' and trimmed as the answer; or the whole section with no answer |
| FaqParser.FeedKeepsInv | euriqo-admin-main/hooks/api/use-faqs.ts:48-90 | one section keeps the emitted items well formed and the count within the non-blank sections seen |
| FaqParser.FlushKeepsInv | euriqo-admin-main/hooks/api/use-faqs.ts:92-98 | the final push keeps the items well formed and within the bound |
| FaqParser.RunInvariant | euriqo-admin-main/hooks/api/use-faqs.ts:48-90 | over any sections, the items are well formed and items plus the pending question never exceed the non-blank sections |
| FaqParser.ParseFAQWellFormed | euriqo-admin-main/hooks/api/use-faqs.ts:39-101 | every item has a trimmed question and a trimmed, non-empty answer; there are at most as many items as non-blank sections |
| FaqParser.RunOverBlank | euriqo-admin-main/hooks/api/use-faqs.ts:49-50 | blank sections leave the parser at its start |
| FaqParser.BlankTextYieldsNothing | euriqo-admin-main/hooks/api/use-faqs.ts:43-50 | empty or whitespace-only text gives no items |
| FaqParser.ParseSection | euriqo-admin-main/hooks/api/use-faqs.ts:52-89 | the loop body for one non-blank section leaves exactly the state `Step` describes |
| FaqParser.ParseFAQString | euriqo-admin-main/hooks/api/use-faqs.ts:39-101 | the loop computes `ParseFAQ`; its items are well formed and bounded, and blank text gives none |
| FieldRules.EmailShapeIffPattern | euriqo-admin-main/hooks/use-auth-form.ts:45-46 | the computable check accepts exactly the strings `/^[^\s@]+@[^\s@]+\.[^\s@]+$/` matches |
| FieldRules.EmailError | euriqo-admin-main/hooks/use-auth-form.ts:43-47 | an empty email is 'Email is required'; any other rejection is 'Please enter a valid email address' |
| FieldRules.EmailErrorMeaning | euriqo-admin-main/hooks/use-auth-form.ts:43-47 | the rule accepts exactly the pattern's strings, and reports 'required' exactly for the empty string |
| FieldRules.PasswordError | euriqo-admin-main/hooks/use-auth-form.ts:49-53 | accepted exactly with at least six characters; empty is 'required', shorter is 'at least 6' |
| FieldRules.StrongPasswordError | euriqo-admin-main/hooks/use-auth-form.ts:167-175 | 'required' exactly for the empty password, acceptance only from 8 characters, and only the policy's six messages |
| FieldRules.StrongPasswordFirstFailure | euriqo-admin-main/hooks/use-auth-form.ts:167-175 | the register rule reports the first failing check, in the order: present, 8 long, lower, upper, digit, special |
| FieldRules.StrongPasswordMeaning | euriqo-admin-main/hooks/use-auth-form.ts:167-175 | accepted exactly with 8 characters, a lowercase and an uppercase letter, a digit and one of `@$!%*?&` |
| FieldRules.StrongPasswordIsLongEnough | euriqo-admin-main/hooks/use-auth-form.ts:167-175 | a password the register form accepts also passes the six-character rule |
| FieldRules.NameError | euriqo-admin-main/hooks/use-auth-form.ts:176-185 | accepted exactly with at least two characters, with the field's 'is required' or 'must be at least 2 characters' message |
| FieldRules.ConfirmPasswordError | euriqo-admin-main/hooks/use-auth-form.ts:186-190 | accepted exactly when non-empty and equal to the password; otherwise the 'confirm' or 'do not match' message |
| Forms.Blank | euriqo-admin-main/hooks/use-auth-form.ts:31-39 | the initial record: every field empty, no errors, nothing touched |
| Forms.Changed | euriqo-admin-main/hooks/use-auth-form.ts:81-87 | `handleChange` sets the field's value, removes its error, marks it touched, and changes nothing else |
| Forms.Blurred | euriqo-admin-main/hooks/use-auth-form.ts:96-103 | `handleBlur` keeps the values, stores the field's error exactly when the rule fails, marks it touched, and changes nothing else |
| Forms.UpdatesKeepShape | euriqo-admin-main/hooks/use-auth-form.ts:81-103 | both updates keep errors and touched within the form's fields |
| Forms.BlurAfterChange | euriqo-admin-main/hooks/use-auth-form.ts:81-103 | a change then a blur of one field leaves the rule's verdict on the new value and the other fields as they were |
| Forms.ErrorMapExact | euriqo-admin-main/hooks/use-auth-form.ts:63-78 | the errors object holds exactly the failing fields with their messages, and is empty exactly when none fails |
| Forms.CollectErrors | euriqo-admin-main/hooks/use-auth-form.ts:63-78 | the `forEach` loop builds exactly that errors object, and `isValid` is true exactly when it is empty |
| AuthFormHooks.LoginValidExactly | euriqo-admin-main/hooks/use-auth-form.ts:42-78 | the login form is valid exactly when the email matches the pattern and the password has six characters |
| AuthFormHooks.LoginRule | euriqo-admin-main/hooks/use-auth-form.ts:42-60 | the login `validateField`: email accepted exactly when non-empty and of the pattern's shape, password exactly with six characters, any other field has no rule |
| AuthFormHooks.RegisterRule | euriqo-admin-main/hooks/use-auth-form.ts:160-202 | the register `validateField`: email as for login, the strong password policy, the confirmation equal to the password, names of two characters |
| AuthFormHooks.RegisterValidExactly | euriqo-admin-main/hooks/use-auth-form.ts:160-221 | the register form is valid exactly when the email matches, the password is strong, the confirmation repeats it and both names have two characters |
| AuthFormHooks.RegisterPayload | euriqo-admin-main/hooks/use-auth-form.ts:266-267 | `register` receives the four form values without `confirmPassword` |
| AuthFormHooks.LoginForm.constructor | euriqo-admin-main/hooks/use-auth-form.ts:31-39 | blank email and password, not submitting |
| AuthFormHooks.LoginForm.ValidateForm | euriqo-admin-main/hooks/use-auth-form.ts:63-78 | the errors become exactly those of the failing fields, nothing else changes, and the verdict is 'no errors' |
| AuthFormHooks.LoginForm.HandleChange | euriqo-admin-main/hooks/use-auth-form.ts:81-93 | the record is `Changed`; `clearError` runs exactly when the session error is truthy (present and non-empty), and otherwise the session is untouched |
| AuthFormHooks.LoginForm.HandleBlur | euriqo-admin-main/hooks/use-auth-form.ts:96-103 | the record is `Blurred` with the login rule's verdict on the field |
| AuthFormHooks.LoginForm.HandleSubmit | euriqo-admin-main/hooks/use-auth-form.ts:106-122 | an invalid form only gets its errors; a valid one sets `isSubmitting`, calls `login` with the values, navigates to the dashboard on success only, swallows a failure, and clears `isSubmitting`; the session and the store end as `login` leaves them in both outcomes |
| AuthFormHooks.LoginForm.Submit | euriqo-admin-main/hooks/use-auth-form.ts:111-121 | the part after validation, with the session, the store and the events it leaves in both outcomes |
| AuthFormHooks.RegisterForm.constructor | euriqo-admin-main/hooks/use-auth-form.ts:146-157 | five blank fields, not submitting |
| AuthFormHooks.RegisterForm.ValidateForm | euriqo-admin-main/hooks/use-auth-form.ts:206-221 | the errors become exactly those of the failing fields under the register rules |
| AuthFormHooks.RegisterForm.HandleChange | euriqo-admin-main/hooks/use-auth-form.ts:224-236 | the record is `Changed`; `clearError` runs exactly when the session error is truthy (present and non-empty), and otherwise the session is untouched |
| AuthFormHooks.RegisterForm.HandleBlur | euriqo-admin-main/hooks/use-auth-form.ts:248-255 | the record is `Blurred` with the register rule's verdict, the confirmation checked against the current password |
| AuthFormHooks.RegisterForm.HandleSubmit | euriqo-admin-main/hooks/use-auth-form.ts:258-275 | as for login, with `register` receiving the values without `confirmPassword`; the session and the store end as `register` leaves them |
| AuthFormHooks.RegisterForm.Submit | euriqo-admin-main/hooks/use-auth-form.ts:263-274 | the part after validation, with the session, the store and the events it leaves in both outcomes |
| LoginFormHook.FormErrorsExact | euriqo-admin-main/hooks/use-login-form.ts:58-78 | checking email and password by name gives the same errors as checking every field, and no errors exactly when the email matches and the password has six characters |
| LoginFormHook.LoginForm.constructor | euriqo-admin-main/hooks/use-login-form.ts:27-34 | blank email and password |
| LoginFormHook.LoginForm.ValidateForm | euriqo-admin-main/hooks/use-login-form.ts:58-78 | the errors become those of the failing fields, and the verdict is 'no errors' |
| LoginFormHook.LoginForm.HandleChange | euriqo-admin-main/hooks/use-login-form.ts:81-87 | the record is `Changed` |
| LoginFormHook.LoginForm.HandleBlur | euriqo-admin-main/hooks/use-login-form.ts:96-103 | the record is `Blurred` with the rule's verdict |
| LoginFormHook.LoginForm.HandleSubmit | euriqo-admin-main/hooks/use-login-form.ts:106-116 | the login mutation is called, with exactly the email and password, exactly when the email matches and the password has six characters |
| SignupFormHook.NamesHaveNoRule | euriqo-admin-main/hooks/use-signup-form.ts:54-57 | `validateField` accepts any first or last name |
| SignupFormHook.FormErrorsIgnoreNames | euriqo-admin-main/hooks/use-signup-form.ts:60-80 | the errors never mention the names, and are empty exactly when the email matches and the password has six characters |
| SignupFormHook.NamesDoNotMatter | euriqo-admin-main/hooks/use-signup-form.ts:60-80 | changing the names never changes the errors |
| SignupFormHook.SignupForm.constructor | euriqo-admin-main/hooks/use-signup-form.ts:27-36 | four blank fields |
| SignupFormHook.SignupForm.ValidateForm | euriqo-admin-main/hooks/use-signup-form.ts:60-80 | only email and password are checked; the verdict is 'no errors' |
| SignupFormHook.SignupForm.HandleChange | euriqo-admin-main/hooks/use-signup-form.ts:83-89 | the record is `Changed` |
| SignupFormHook.SignupForm.HandleBlur | euriqo-admin-main/hooks/use-signup-form.ts:98-105 | the record is `Blurred` with the rule's verdict; blurring a name clears its error |
| SignupFormHook.SignupForm.HandleSubmit | euriqo-admin-main/hooks/use-signup-form.ts:108-120 | the signup mutation is called, with all four values, exactly when the email matches and the password has six characters |
| RouteGuard.Redirect | euriqo-admin-main/components/auth/protected-route.tsx:21-32 | no redirect while loading; otherwise at most one target, `redirectTo` or '/dashboard' |
| RouteGuard.Render | euriqo-admin-main/components/auth/protected-route.tsx:35-60 | the spinner while loading |
| RouteGuard.ChildrenExactly | euriqo-admin-main/components/auth/protected-route.tsx:21-60 | the children are shown exactly when loading is over and `requireAuth == isAuthenticated`, and then no redirect is issued |
| RouteGuard.SpinnerWhileRedirecting | euriqo-admin-main/components/auth/protected-route.tsx:21-58 | once loading is over, the spinner is shown exactly while a redirect is pending |
| RouteGuard.RedirectTargets | euriqo-admin-main/components/auth/protected-route.tsx:25-31 | a guarded route sends a signed-out visitor to `redirectTo`, the login page by default; a visitor-only route sends a signed-in user to '/dashboard' |

## Left out

- Remote calls (`api.auth.login`, `register`, `refreshToken`, `logout`) are not modelled. Each is the `ApiOutcome` it produced, a parameter. `lib/api-client.ts` is not part of this model.
- Async interleaving is not modelled: overlapping logins, last-dispatch-wins, the request timeout. Each operation runs to completion in sequence.
- Storage exceptions (quota, disabled storage) are not modelled. The source swallows them, and the model treats every write as succeeding.
- `console.error` logging is left out.
- `JSON.stringify`/`JSON.parse` of the user are a codec parameter (`UserCodec`). The JWT payload decoding (`atob`, percent-decoding, `JSON.parse`) is a parameter `parsePayload` that answers `None` where any of them throws.
- TokenStore.IsTokenExpired: the clock is `Date.now()` as integer milliseconds, and `exp < now/1000` is compared as `exp * 1000 < nowMs`. `ExpiryInSeconds` gives the integer-seconds form. An `exp` that is not an integer (a string, a fraction, `NaN`) is not modelled; the only falsy integer `exp` is 0.
- The user record's optional `projects` list (types/auth.types.ts:14) is dropped from `User`: no modelled operation looks at it, and it only travels inside the JSON that the user codec stands for. The token pair's `expiresIn` is carried as a value only; nothing reads it.
- The outer `catch` of `checkAuth` (auth-context.tsx:164-168) is not modelled. None of the modelled store calls throws, so it cannot be reached.
- The confirmation re-check at use-auth-form.ts:238-244 is not modelled. It refers to `prev` outside the callback that defines it, so it cannot run as written.
- The TanStack mutation state is not modelled: `isPending`, `error`, the `reset()` in `handleChange` and `clearError`. The mutation-backed hooks' `HandleSubmit` returns the argument the mutation receives.
- `isSubmitting` of the context-backed hooks is true only while `login`/`register` runs. Its raising and lowering, and the navigation, are recorded in the ghost `events` log. The router is not modelled.
- String lengths are `seq<char>` lengths, so a character outside the Basic Multilingual Plane counts once, not as two UTF-16 units.
- Dashboard pages, layouts, providers, the profile page and the other query hooks hold no logic of this kind and are not part of this model.
