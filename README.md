# CampusHub marketplace and vault: a Dafny model of the client core

The repository is a Next.js front end for two products that share one code
base:

- a campus marketplace, where agents (student sellers) register, log in, pay a
  verification fee and list products that anyone can browse;
- a password and todo vault with an access-token session.

This project models the client-side logic of both in Dafny and proves what
that logic promises. It covers:

- the session machinery:
  - the axios instance with its token-attaching request interceptor and its
    401 → refresh → resend response interceptor (bearer tokens as in section
    2.1 of RFC 6750, 401 as in section 15.5.2 of RFC 9110);
  - the agents' session provider;
  - the vault's session provider;
- the vault pages:
  - password strength scoring and the site-URL lookup;
  - search, statistics and deletion;
  - the dashboard security grade, initials and the todo-404 rule;
  - todo toggling, filtering and statistics;
  - the add-password form;
- the marketplace pages:
  - the product image uploader;
  - the add-product form with its access gate;
  - the product listing and its WhatsApp link;
  - the two sign-up forms;
  - the agent dashboard's payment verification;
- the `fetch` wrapper of `lib/api.ts`.

The browser is a `Browser` object (`http.dfy`). It holds:

- `localStorage` as a string map;
- the current location, which `router.push` and `window.location.href` set;
- a log of every request sent;
- a script of server replies, handed out one per request.

Once the script is used up, every further request fails with "Network Error".
Every property about "how many calls" or "which header" is therefore a
statement about the request log, for any script.

The code that changes state is modelled by Dafny classes:

- the interceptors (`Axios.Instance`, `Axios.Config`);
- both session providers (`AgentAuth.AgentSession`, `VaultAuth.VaultSession`);
- the pages and the uploader.

Each method's `ensures` equates its new state with a pure function of the old
state. The lemmas are proved about those functions. The scoring, search and
list transforms are plain functions.

The agents' provider lets the profile fetch and the token refresh call each
other without a bound. Here the length of the reply script is the termination
measure. `AgentAuth.RefreshCycleIsUnbounded` shows that a server that keeps
answering 401 and granting refreshes drives `2k+1` requests for any `k`.

## Model

| member | source | states |
|---|---|---|
| `Axios.NewCfg` | lib/axios.ts:4-10 | a fresh config carries the instance's JSON content type merged under the caller's headers and is not yet marked as retried |
| `Axios.Settle` | lib/axios.ts:28 | a reply resolves exactly when it is a 2xx answer, with its status and body unchanged; otherwise it rejects with the response or the transport error |
| `Axios.AttachToken` | lib/axios.ts:13-19 | verb, url, body and the retry mark are kept and every header other than Authorization is unchanged; when the store's "accessToken" holds a non-empty `t` the Authorization header is `Bearer <t>`, and otherwise the headers are exactly the caller's |
| `Axios.ResendCfg` | lib/axios.ts:34-44 | the resent config is marked as retried, keeps verb, url and body, and its Authorization header is the refreshed token |
| `Axios.AfterRefresh` | lib/axios.ts:38 | after the original request and the refresh, storage and location are unchanged and the replies still to come are shifted by two |
| `Axios.Dispatch` | lib/axios.ts:27-56 | one call sends between one and three requests, the first being the intercepted original, and keeps the log's prefix; a config already marked as retried makes exactly one round trip, leaves storage and location alone and settles with that reply |
| `Axios.SentBy` | lib/axios.ts:27-56 | the requests of one call, in order: one to three of them, the first being the original as the request interceptor sent it |
| `Axios.InstanceRequestIsNotRefresh` | lib/axios.ts:38 | a request to the instance's base URL is never the bare-client refresh call |
| `Axios.UnauthorizedPath` | lib/axios.ts:33-51 | a 401 on a fresh config becomes either the resend with the new token stored (refresh granted) or the teardown, with the token removed, location "/login" and the refresh error (refresh refused) |
| `Axios.SuccessPassesThrough` | lib/axios.ts:28 | a 2xx reply resolves with that response; storage and location are unchanged and only the original request is sent |
| `Axios.RetriedRequestIsNotRefreshedAgain` | lib/axios.ts:33-54 | a retried request that fails, even with 401, rejects with its own error; there is no refresh and nothing is stored |
| `Axios.OtherErrorsPassThrough` | lib/axios.ts:54 | a non-401 failure rejects with its own error, sends nothing else and leaves the store alone |
| `Axios.RefreshSuccessResendsOnce` | lib/axios.ts:34-45 | on a granted refresh the store holds the new `acesstoken`, exactly three requests go out (original, refresh, resend with the new bearer), and the caller gets the resend's outcome |
| `Axios.RefreshFailureTearsDown` | lib/axios.ts:46-51 | on a refused refresh "accessToken" is removed, the location is "/login", the caller gets the refresh error, and the original is not resent |
| `Axios.AtMostOneRefreshAndOneResend` | lib/axios.ts:33-54 | among the requests of one call there is exactly one refresh when the first reply is a 401 on a fresh config, and none otherwise |
| `Axios.NextCallUsesRefreshedToken` | lib/axios.ts:41-45 | after a granted refresh with a non-empty token, the next call through the instance carries that token |
| `Axios.Config.constructor` | lib/axios.ts:30 | a config object starts with the given value |
| `Axios.Instance.constructor` | lib/axios.ts:4-10 | the instance is bound to the browser it reads tokens from |
| `Axios.Instance.Send` | lib/axios.ts:13-56 | running the interceptors in place on the config object and the browser leaves exactly the state `Dispatch` describes |
| `Http.GetItem` | context/auth-context.tsx:37 | `getItem` yields the stored value exactly when the key is present, and null otherwise |
| `Http.TokenText` | lib/axios.ts:41 | an undefined token is stored, and interpolated, as the text "undefined" |
| `Http.NullText` | app/add-product/page.tsx:83 | a template literal renders a present token as itself and a null token as the text "null" |
| `Http.Exchange` | context/auth-context.tsx:48-50 | one round trip appends the request to the log, answers with the next scripted reply, leaves storage and location alone and shortens the script |
| `Http.Browser.Fetch` | context/auth-context.tsx:48-50 | the request is logged and the next scripted reply is returned, as `Exchange` states |
| `Http.Browser.SetItem` | context/auth-context.tsx:94 | only the storage entry for the key changes |
| `Http.Browser.RemoveItem` | context/auth-context.tsx:118 | only the storage entry for the key is removed |
| `Http.Browser.Navigate` | contexts/AuthContext.tsx:79 | only the location changes |
| `AgentAuth.MountWithoutSavedToken` | context/auth-context.tsx:36-44 | with no saved "token", mounting only clears `isLoading`: no request is sent and agent and token stay null |
| `AgentAuth.MountWithSavedToken` | context/auth-context.tsx:37-40 | with a saved token, `token` is set before the profile fetch; that fetch is the first request and carries the token; a successful fetch leaves the token next to the first listed agent |
| `AgentAuth.FetchAgentInfoCases` | context/auth-context.tsx:46-65 | `fetchAgentInfo`: ok gives the first `userinfo` agent, 401 gives `refreshToken`, any other outcome (or a body without `userinfo`) gives `logout`; `isLoading` is false after every branch |
| `AgentAuth.LoginFailureChangesNothing` | context/auth-context.tsx:82-100 | a non-ok login throws "Login failed" (or the transport error) and leaves token, agent, loading flag, storage and location as they were |
| `AgentAuth.LoginSuccessAdoptsToken` | context/auth-context.tsx:90-96 | a successful login sets both the token and storage "token" to `acesstoken` before the profile fetch, which carries it, and resolves |
| `AgentAuth.RegisterLeavesSessionAlone` | context/auth-context.tsx:102-113 | `register` never changes token, agent, loading flag, storage or location; it sends one request and resolves exactly on a 2xx reply; a non-ok answer fails with "Registration failed" |
| `AgentAuth.LogoutClearsAndIsIdempotent` | context/auth-context.tsx:115-119 | `logout` nulls agent and token and removes "token"; a second logout changes nothing |
| `AgentAuth.RefreshTokenCases` | context/auth-context.tsx:121-137 | a failed refresh logs out; a successful one stores the new token in both places and then fetches the profile with it |
| `AgentAuth.RefreshAgentGuards` | context/auth-context.tsx:67-80 | `refreshAgent` is a no-op without a token, keeps the agent when the fetch fails, and never changes token, storage or loading flag |
| `AgentAuth.FetchedKeepsConsistent` | context/auth-context.tsx:46-65 | `fetchAgentInfo`, through any number of refresh rounds, keeps the token slot equal to storage "token" whenever it is set |
| `AgentAuth.RefreshedKeepsConsistent` | context/auth-context.tsx:121-137 | `refreshToken` keeps the token slot equal to storage "token" |
| `AgentAuth.OperationsKeepConsistent` | context/auth-context.tsx:36-137 | every operation of the provider keeps the token slot equal to storage "token" |
| `AgentAuth.RefreshCycleIsUnbounded` | context/auth-context.tsx:54-55 | against a server that keeps answering 401 and granting refreshes `k` times, one profile fetch sends `2k+1` requests before a final error logs out |
| `AgentAuth.AgentSession.constructor` | context/auth-context.tsx:32-34 | agent and token start null and `isLoading` starts true |
| `AgentAuth.AgentSession.Mount` | context/auth-context.tsx:36-44 | the mount effect in place equals `Mounted` of the old state |
| `AgentAuth.AgentSession.FetchAgentInfo` | context/auth-context.tsx:46-65 | the state afterwards equals `Fetched` of the old state |
| `AgentAuth.AgentSession.RefreshToken` | context/auth-context.tsx:121-137 | the state afterwards equals `Refreshed` of the old state |
| `AgentAuth.AgentSession.RefreshAgent` | context/auth-context.tsx:67-80 | the state afterwards equals `AgentRefreshed` of the old state |
| `AgentAuth.AgentSession.Login` | context/auth-context.tsx:82-100 | state and completion equal `LoginOutcome` of the old state |
| `AgentAuth.AgentSession.Register` | context/auth-context.tsx:102-113 | only the browser changes; state and completion equal `RegisterOutcome` |
| `AgentAuth.AgentSession.Logout` | context/auth-context.tsx:115-119 | the state afterwards equals `LoggedOut` of the old state |
| `VaultAuth.MessageOr` | contexts/AuthContext.tsx:63 | the error's server `message` when it is non-empty, the fallback otherwise |
| `VaultAuth.CheckAuthCases` | contexts/AuthContext.tsx:32-45 | `loading` ends false in every case; without a token nothing is sent; a resolved profile (directly or after a granted refresh) becomes the user; otherwise "accessToken" is removed and the user is unchanged |
| `VaultAuth.RejectedLoginChangesNothing` | contexts/AuthContext.tsx:52-55 | a /login rejected other than with 401 leaves storage, user and location unchanged and rejects with the server message or "Login failed" |
| `VaultAuth.ProfileFailureKeepsToken` | contexts/AuthContext.tsx:55-64 | when /login resolves but /dashboard fails other than with a 401, the stored token is kept, the user is not set and login rejects with the server message or "Login failed" |
| `VaultAuth.LoginSuccess` | contexts/AuthContext.tsx:50-61 | when both calls resolve with their first reply (each first reply 2xx), the stored token is the login's `acesstoken`, the profile call carries it, the user is the profile and the location is "/dashboard" |
| `VaultAuth.RegisterLeavesSessionAlone` | contexts/AuthContext.tsx:67-74 | `register` never sets the user; it resolves exactly on a 2xx reply or a granted refresh followed by a resolved resend; without a 401 it leaves storage and location alone and fails with the server message or "Registration failed" |
| `VaultAuth.LogoutSignsOut` | contexts/AuthContext.tsx:76-90 | `logout` removes "accessToken", makes `isAuthenticated` false and goes to "/login"; repeating it changes nothing |
| `VaultAuth.VaultSession.constructor` | contexts/AuthContext.tsx:26-27 | the whole initial state: the user is null, `loading` is true, and the browser is as given |
| `VaultAuth.VaultSession.CheckAuth` | contexts/AuthContext.tsx:32-45 | the state afterwards equals `Checked` of the old state |
| `VaultAuth.VaultSession.Login` | contexts/AuthContext.tsx:50-65 | state and completion equal `LoginOutcome` |
| `VaultAuth.VaultSession.Register` | contexts/AuthContext.tsx:67-74 | only the browser changes; state and completion equal `RegisterOutcome` |
| `VaultAuth.VaultSession.Logout` | contexts/AuthContext.tsx:76-80 | the state afterwards equals `LoggedOut` |
| `Passwords.Classes` | app/passwords/page.tsx:106-119 | at most four character classes are counted |
| `Passwords.Score` | app/passwords/page.tsx:104-119 | the strength score lies in [10, 100] |
| `Passwords.CalculatePasswordStrength` | app/passwords/page.tsx:104-124 | the accumulating `+=` chain returns the category of the score, and 'strong' exactly when the length is at least 12 and all four classes occur |
| `Passwords.EmptyPasswordIsWeak` | app/passwords/page.tsx:104-124 | the empty password scores 10 and is 'weak' |
| `Passwords.StrongIff` | app/passwords/page.tsx:111-123 | 'strong' if and only if the length is at least 12 and the password has lower, upper, digit and other characters |
| `Passwords.MediumIff` | app/passwords/page.tsx:111-123 | the exact condition for 'medium': a score from 60 to 89 |
| `Passwords.ShortIsNeverStrong` | app/passwords/page.tsx:112-114 | a password shorter than 8 is never better than 'medium' |
| `Passwords.StrengthMonotone` | app/passwords/page.tsx:112-123 | more length points and a superset of classes never lower the category |
| `Passwords.AppendNeverLowers` | app/passwords/page.tsx:112-123 | appending a character never lowers the category |
| `Passwords.GenerateUrlFromAppName` | app/passwords/page.tsx:126-159 | the loop with its early return yields the URL of the first table key contained in the lowercased name, or the fallback |
| `Passwords.FirstMatchIsFirst` | app/passwords/page.tsx:152-156 | the lookup finds no key if and only if none occurs; otherwise it returns the earliest occurring key, in table order |
| `Passwords.UrlForCases` | app/passwords/page.tsx:126-159 | with no key contained the URL is "https://" + the lowercased name without whitespace + ".com"; with key `k` contained and no earlier one, it is `k`'s URL |
| `Passwords.ToggleVisibility` | app/passwords/page.tsx:161-171 | the id's membership flips and every other id keeps its membership |
| `Passwords.ToggleTwiceRestores` | app/passwords/page.tsx:161-171 | toggling the same id twice restores the set |
| `Passwords.Enhance` | app/passwords/page.tsx:83-89 | one entry per fetched password, in order, with id `pwd-<i>`, the stored fields and its computed strength and URL |
| `Passwords.EnhancedIdsDistinct` | app/passwords/page.tsx:85 | the enhanced ids are pairwise distinct |
| `Passwords.SearchIsOrderedSubsequence` | app/passwords/page.tsx:268-271 | search returns an order-preserving subsequence holding exactly the entries whose app name or user name contains the query case-insensitively; an empty query returns everything |
| `Passwords.CountStrength` | app/passwords/page.tsx:273-277 | a strength count never exceeds the number of entries |
| `Passwords.StatsAddUp` | app/passwords/page.tsx:273-277 | when every entry is rated, strong + medium + weak is the number of entries |
| `Passwords.EnhancedStatsAddUp` | app/passwords/page.tsx:83-89 | after enhancement strong + medium + weak equals the number of stored passwords |
| `Passwords.SecurityPercent` | app/passwords/page.tsx:429-431 | 0 for an empty list; otherwise round(100 · strong / n), which is at most 100 |
| `Passwords.DeleteKeepsTheOthers` | app/passwords/page.tsx:224 | delete keeps, in order, exactly the entries with another id |
| `Passwords.DeleteEnhancedRemovesOne` | app/passwords/page.tsx:224 | deleting an enhanced entry by its id removes exactly one entry |
| `Dashboard.TotalScore` | app/dashboard/page.tsx:76-88 | the summed per-password scores lie between 10n and 100n |
| `Dashboard.WeakCount` | app/dashboard/page.tsx:88 | the number of weak passwords is at most n |
| `Dashboard.CalculateSecurityScore` | app/dashboard/page.tsx:52-130 | the `forEach` accumulation and grading equal the security record of the list |
| `Dashboard.EmptyListIsNeutral` | app/dashboard/page.tsx:59-67 | an empty list gives score 100, grade "N/A", level "neutral" and "No passwords stored yet" |
| `Dashboard.WeakMeansVaultWeak` | app/dashboard/page.tsx:76-88 | a password scores below 60 exactly when the vault page rates it 'weak' |
| `Dashboard.WeakCountIsVaultWeak` | app/dashboard/page.tsx:81-88 | the dashboard's weak count equals the vault page's number of 'weak' entries |
| `Dashboard.ScoreInRange` | app/dashboard/page.tsx:91 | for a non-empty list the score is round(total/n) and lies in [10, 100] |
| `Dashboard.GradeMonotone` | app/dashboard/page.tsx:93-123 | a higher score never gets a lower grade, and equal grades have equal color and level |
| `Dashboard.WeakPasswordsMessage` | app/dashboard/page.tsx:125-127 | with weak passwords present the message is the weak-count message, otherwise the band's message |
| `Dashboard.WeakMessagePlural` | app/dashboard/page.tsx:126 | for every count `k`, the message reads "`k` weak passwords detected" exactly when `k` exceeds one, and "`k` weak password detected" otherwise |
| `Dashboard.Split` | app/dashboard/page.tsx:209-211 | splitting on spaces yields at least one word |
| `Dashboard.HeadsOfSplit` | app/dashboard/page.tsx:209-211 | the first letters of the space-separated words are the characters that follow a space or start the name |
| `Dashboard.InitialsAreWordStarts` | app/dashboard/page.tsx:209-211 | initials are the uppercased word starts cut to two characters, or "U" when there are none; always 1 or 2 characters; "U" without a name |
| `Dashboard.Recent` | app/dashboard/page.tsx:156 | the first min(3, n) passwords, in order |
| `Dashboard.BadgeIsLengthBand` | app/dashboard/page.tsx:695-696 | the badge depends on length only: at least 12 Strong, at least 8 Medium, otherwise Weak |
| `Dashboard.TodosNotFoundMeansZero` | app/dashboard/page.tsx:148-174 | a 404 from the todos call sets the count to 0; another error keeps the old count; a listing sets the count to its length; password count and recent list come from the password listing |
| `Common.RoundDiv` | app/dashboard/page.tsx:91 | `Math.round(p/q)` rounds half up: `2qr <= 2p+q < 2q(r+1)` |
| `Common.RemoveSpaces` | app/passwords/page.tsx:158 | `replace(/\s+/g, '')` keeps every non-whitespace character, in order, and no whitespace (the filter of the string by `NotSpace`) |
| `Common.KeepDigits` | app/marketplace/page.tsx:29 | `replace(/\D/g, "")` is the digits of the input, every one of them, in their original order (the filter of the string by `IsDigit`) |
| `Common.ToLower` | app/passwords/page.tsx:269-270 | `toLowerCase` (ASCII) maps each character and keeps the length |
| `Common.FilterIsSubsequence` | app/passwords/page.tsx:268 | `filter` returns an order-preserving subsequence |
| `Todos.ToggleCompletion` | app/todos/view/page.tsx:129-132 | same length and order; at each index `completed` is flipped exactly when the todo's id is the given one, and every other field is unchanged |
| `Todos.ToggleFlipsOnlyTheMatch` | app/todos/view/page.tsx:129-132 | only matching todos change, and toggling twice is the identity |
| `Todos.DeleteKeepsTheOthers` | app/todos/view/page.tsx:154 | delete keeps, in order, exactly the todos with another id |
| `Todos.FilteredTodosExactly` | app/todos/view/page.tsx:198-205 | the result is an ordered subsequence holding exactly the todos that match the search on title or description and the filter |
| `Todos.ModesPartitionAll` | app/todos/view/page.tsx:201-203 | for a fixed query, "active" and "completed" split "all": their sizes add up and each keeps the todos of its completion state |
| `Todos.StatsAddUp` | app/todos/view/page.tsx:207-211 | completed + active = total |
| `Todos.Enhance` | app/todos/view/page.tsx:77-82 | one todo per fetched item, in order, with id `todo-<i>`, the fetched title, description and date, and the completion and priority drawn for index `i` |
| `Todos.EnhancedIdsDistinct` | app/todos/view/page.tsx:79 | enhanced todo ids are pairwise distinct |
| `Todos.FetchTodosCases` | app/todos/view/page.tsx:70-99 | a 404 gives an empty list and no error toast; another failure keeps the list and shows the toast; a listing never shows it |
| `ImageUpload.RejectedFileIsSkipped` | components/product-image-upload.tsx:35-42 | a file that is not an image, or is too large, is skipped and the remaining files are still processed |
| `ImageUpload.SizeLimitIsInclusive` | components/product-image-upload.tsx:44-51 | an image of exactly 5·1024·1024 bytes is accepted, one byte more is not, and a non-image type is never accepted |
| `ImageUpload.FailureAbortsTheRest` | components/product-image-upload.tsx:67-69 | a failed upload stops the loop, keeps what was appended and marks the failure |
| `ImageUpload.RunKeepsInStep` | components/product-image-upload.tsx:74-80 | each upload is appended at the end and notified as the start list plus that one image; earlier images stay as a prefix |
| `ImageUpload.NotificationsUseTheStartList` | components/product-image-upload.tsx:80 | every `onImagesChange` call receives the images as of handler start plus only the current image |
| `ImageUpload.AcceptedCount` | components/product-image-upload.tsx:35-51 | the number of accepted files is at most the number of files |
| `ImageUpload.UploadsMatchAcceptedFiles` | components/product-image-upload.tsx:33-80 | without a failure, the number of uploads and of appended images both equal the number of accepted files (the append order is given by `ImageUpload.RunKeepsInStep`) |
| `ImageUpload.ProductImageUpload.constructor` | components/product-image-upload.tsx:20-22 | the uploader starts with no images, no previews and not uploading |
| `ImageUpload.ProductImageUpload.HandleFileSelect` | components/product-image-upload.tsx:26-111 | no file list changes nothing; otherwise the per-file loop leaves the state `Run` describes, and `isUploading` is false at the end in every outcome |
| `ImageUpload.ProductImageUpload.RemoveImage` | components/product-image-upload.tsx:113-119 | index `i` is removed from both images and previews, and the new images list is passed to the callback |
| `ImageUpload.RemoveAtKeepsOrder` | components/product-image-upload.tsx:114-115 | removing index `i` keeps every other element in order; an index out of range removes nothing |
| `Api.WithToken` | lib/api.ts:9-13 | `Authorization` is "Bearer " + token exactly when the token is non-empty, overwriting any caller value; the other headers are kept |
| `Api.Headers.constructor` | lib/api.ts:9 | a `Headers` object starts with the caller's headers |
| `Api.Headers.Set` | lib/api.ts:12 | `set` replaces exactly one entry |
| `Api.PrepareHeaders` | lib/api.ts:9-13 | building and setting the header object in place gives `WithToken` of the caller's headers |
| `Api.BuildRequest` | lib/api.ts:8-18 | the URL is the base followed by the endpoint; verb and body are passed through; the headers are `WithToken`; the token itself is not forwarded |
| `Api.Interpret` | lib/api.ts:20-27 | an ok response returns the parsed body; a non-ok one throws with its status and "API Error: " + statusText; a transport failure passes through |
| `Api.EndpointsAreDistinguished` | lib/api.ts:15 | distinct endpoints reach distinct URLs |
| `Api.TokenOnlyTouchesAuthorization` | lib/api.ts:8-13 | two calls differing only in the token send the same request except for `Authorization`, and identical requests when neither token is non-empty |
| `Api.FailureIgnoresBody` | lib/api.ts:20-24 | a non-ok response throws the same error whatever its body |
| `Forms.UpdateField` | app/agent-register/page.tsx:30-33 | `handleChange` sets the named field and keeps every other field |
| `Forms.StripConfirm` | app/agent-register/page.tsx:50-51 | the payload is the form without `confirmPassword`, with all other fields kept |
| `Forms.StripKeepsPassword` | app/register/page.tsx:51-52 | the payload keeps the password; a fresh form yields the other eight fields |
| `Forms.ConfirmEditsDoNotReachPayload` | app/agent-register/page.tsx:30-51 | editing the confirmation never changes the payload |
| `AgentRegister.MismatchStopsEarly` | app/agent-register/page.tsx:38-45 | a mismatch gives "Passwords do not match"; `register` is not called and `isSubmitting` is untouched |
| `AgentRegister.SubmitPastTheGuard` | app/agent-register/page.tsx:47-65 | one register request with the payload; success navigates to "/dashboard"; a non-ok failure shows "Registration failed"; `isSubmitting` ends false |
| `AgentRegister.AgentRegisterPage.constructor` | app/agent-register/page.tsx:17-28 | the form starts with nine empty fields and `isSubmitting` false |
| `AgentRegister.AgentRegisterPage.HandleChange` | app/agent-register/page.tsx:30-33 | only the named field changes |
| `AgentRegister.AgentRegisterPage.HandleSubmit` | app/agent-register/page.tsx:35-66 | page state, session and toast equal `Submitted` of the old state |
| `Register.MismatchStopsEarly` | app/register/page.tsx:39-46 | a mismatch gives "Passwords do not match" and `register` is not called |
| `Register.SubmitPastTheGuard` | app/register/page.tsx:48-66 | success navigates to "/dashboard"; any failure shows "Failed to create account. Please try again."; `isLoading` ends false |
| `Register.RegisterPage.constructor` | app/register/page.tsx:18-29 | the form starts with nine empty fields and `isLoading` false |
| `Register.RegisterPage.HandleChange` | app/register/page.tsx:31-34 | only the named field changes |
| `Register.RegisterPage.HandleSubmit` | app/register/page.tsx:36-67 | page state, session and toast equal `Submitted` of the old state |
| `AddProduct.Redirects` | app/add-product/page.tsx:32-44 | "/login" is pushed exactly when loading is over and there is no token; "/dashboard" exactly when a loaded agent has not paid; both in that order when both hold |
| `AddProduct.FormOnlyForPaidAgents` | app/add-product/page.tsx:119-129 | whenever the form renders (loaded, paid agent) the effect never sends to "/dashboard"; an unpaid agent without a token ends on "/dashboard" |
| `AddProduct.ValidationSendsNothing` | app/add-product/page.tsx:58-74 | an empty field gives "Please fill in all fields", checked before images; otherwise no images gives "Please upload at least one image"; nothing is sent and nothing changes |
| `AddProduct.ValidFormSendsOnce` | app/add-product/page.tsx:76-116 | a valid form sends one POST with the fields, the images and the bearer header; success resets the form and images and goes to "/agent-dashboard"; failure keeps the form; `isSubmitting` ends false |
| `AddProduct.ClearedFormIsInvalid` | app/add-product/page.tsx:100-104 | the reset form fails validation again |
| `AddProduct.AddProductPage.constructor` | app/add-product/page.tsx:24-30 | three empty fields, no images, not submitting |
| `AddProduct.AddProductPage.CheckAccess` | app/add-product/page.tsx:32-44 | the location becomes the last redirect pushed, and "Access Denied" shows exactly when "/dashboard" is pushed |
| `AddProduct.AddProductPage.HandleChange` | app/add-product/page.tsx:46-49 | only the named field changes |
| `AddProduct.AddProductPage.HandleImagesChange` | app/add-product/page.tsx:51-53 | the images become the uploader's list; nothing else changes |
| `AddProduct.AddProductPage.HandleSubmit` | app/add-product/page.tsx:55-117 | page, browser and toast equal `Submitted` of the old state |
| `Marketplace.MapProducts` | app/marketplace/page.tsx:147-150 | a non-array field gives no products; otherwise the count and order are kept, each `id` is `_id` and every other field is kept |
| `Marketplace.LoadCases` | app/marketplace/page.tsx:137-163 | the toast shows exactly when the response is not ok or none arrived, and then the products are unchanged |
| `Marketplace.WhatsappLink` | app/marketplace/page.tsx:29-31 | the link starts with "https://wa.me/", the seller number's digits and "?text=Hi%20"; the encoded seller name follows at once, and the link ends with the encoded product name and "%20product." |
| `Marketplace.NamesEnterOnlyThroughEncode` | app/marketplace/page.tsx:29-31 | the seller and product names reach the link only through the encoder: encoders that agree on both names give the same link |
| `Marketplace.LinkCarriesSellerDigits` | app/marketplace/page.tsx:29 | the digit run after "https://wa.me/" is exactly the seller number with every non-digit removed |
| `Marketplace.FormattingDoesNotMatter` | app/marketplace/page.tsx:29 | numbers with the same digits give the same link |
| `Marketplace.ModalLink` | app/marketplace/page.tsx:26-31 | the modal renders only when open and a product is selected, and then offers that product's link |
| `Marketplace.ClickThenCloseHidesLink` | app/marketplace/page.tsx:165-168 | on the page object, after `handleProductClick(p)` and then `onClose`, the product is still selected and no link is shown (while open, its link was) |
| `Marketplace.MarketplacePage.constructor` | app/marketplace/page.tsx:127-131 | no products, loading, nothing selected, modal closed |
| `Marketplace.MarketplacePage.FetchProducts` | app/marketplace/page.tsx:137-163 | the products and toast are `Loaded` of the old products; `productsLoading` is false in every case |
| `Marketplace.MarketplacePage.HandleProductClick` | app/marketplace/page.tsx:165-168 | the product is selected and the modal opens |
| `Marketplace.MarketplacePage.Close` | app/marketplace/page.tsx:246 | the modal closes and the selection stays |
| `AgentDashboard.LoggedOutPage` | app/agent-dashboard/page.tsx:34-41 | logout nulls agent and token, removes "token" and moves to "/agent-login" without sending anything |
| `AgentDashboard.PaymentStarted` | app/agent-dashboard/page.tsx:43-55 | without the script or the pop-up object, "Paystack not loaded" shows and `isPaying` is not set; otherwise `isPaying` is set and the checkout gets the key, the agent's email, 5000 kobo and NGN |
| `AgentDashboard.VerifyCases` | app/agent-dashboard/page.tsx:56-85 | one verification request is sent; the agent is reloaded exactly when an answer's message contains "successful" in any case; `isPaying` ends false whatever the outcome |
| `AgentDashboard.MentionCounts` | app/agent-dashboard/page.tsx:66 | any message containing "successful", in any letter case, passes the check |
| `AgentDashboard.UnsuccessfulCountsAsSuccess` | app/agent-dashboard/page.tsx:66 | as written, "Payment unsuccessful" passes the success check |
| `AgentDashboard.FailureMessageDoesNotCount` | app/agent-dashboard/page.tsx:66 | for every message, one that does not contain "successful" in any letter case fails the check, so does one with no letter "s", and so does a missing message |
| `AgentDashboard.FailureShowsServerMessage` | app/agent-dashboard/page.tsx:69-75 | a failed verification shows the server's message when there is one |
| `AgentDashboard.OfferFor` | app/agent-dashboard/page.tsx:183-191 | paid agents get "Add New Product"; the others get the pay button, disabled and labelled "Processing Payment..." exactly while paying |
| `AgentDashboard.AgentDashboardPage.constructor` | app/agent-dashboard/page.tsx:15-16 | not paying and the script not loaded |
| `AgentDashboard.AgentDashboardPage.ScriptLoaded` | app/agent-dashboard/page.tsx:23 | the script's `onload` marks Paystack as loaded |
| `AgentDashboard.AgentDashboardPage.CheckAccess` | app/agent-dashboard/page.tsx:28-32 | the page goes to "/agent-login" exactly when loading is over and there is no token |
| `AgentDashboard.AgentDashboardPage.HandleLogout` | app/agent-dashboard/page.tsx:34-41 | the session logs out, then the browser goes to "/agent-login" |
| `AgentDashboard.AgentDashboardPage.HandlePaystackPayment` | app/agent-dashboard/page.tsx:43-98 | page, checkout set-up and toast equal `PaymentStarted` |
| `AgentDashboard.AgentDashboardPage.OnVerify` | app/agent-dashboard/page.tsx:56-85 | page, session and toast equal `Verified` of the old state |
| `AgentDashboard.AgentDashboardPage.OnClose` | app/agent-dashboard/page.tsx:87-94 | closing the pop-up clears `isPaying` and shows "Payment Cancelled" |
| `AddPassword.TokenFetched` | app/passwords/add/page.tsx:26-38 | `getAccessToken` returns the `acesstoken` field when the call resolves and null when it rejects |
| `AddPassword.NoTokenNoSave` | app/passwords/add/page.tsx:46-55 | without a token, "Authentication error" shows, /addnewpassword is never called, the fields stay and `loading` is false |
| `AddPassword.SaveCarriesFieldsAndToken` | app/passwords/add/page.tsx:57-64 | the save request is a POST to /addnewpassword with body {appName, username, password} and the fresh bearer token, unless the store holds a token, which the interceptor puts there instead |
| `AddPassword.SaveCases` | app/passwords/add/page.tsx:66-88 | on success all three fields reset to "" and the page moves to "/passwords"; on failure the fields stay and the server message or "Failed to save password" shows |
| `AddPassword.LoadingAlwaysEnds` | app/passwords/add/page.tsx:40-89 | `loading` is false after every path |
| `AddPassword.AddPasswordPage.constructor` | app/passwords/add/page.tsx:18-21 | three empty fields and not loading |
| `AddPassword.AddPasswordPage.GetAccessToken` | app/passwords/add/page.tsx:26-38 | the browser and the token equal `TokenFetched` |
| `AddPassword.AddPasswordPage.HandleSubmit` | app/passwords/add/page.tsx:40-89 | page, browser and toast equal `Submitted` of the old state |

## Left out

- I/O is a parameter. Network replies come from the browser's reply script. The results of the list fetches, the marketplace listing, the Paystack pop-up's availability and its callbacks, the image host's upload results and `encodeURIComponent` are parameters or uninterpreted functions.
- Concurrency and React scheduling are not modelled. Each call runs to completion before the next one starts. These are left out:
  - several requests hitting 401 at once;
  - `refreshAgent` running unawaited next to the verification toast;
  - state batching and stale closures.

  The upload component's stale `images` closure is the one exception, and it is reproduced.
- JSON parsing failures are not modelled. A body always parses to the fields the code reads.
- null and undefined tokens are one `None`. Each is rendered the way its site renders it: "undefined" through `setItem`, "null" through a template literal of a null state.
- Environment variables are not modelled. The `NEXT_PUBLIC_API_URL` fallbacks are used as constants.
- axios URL joining is simplified. The instance URL is the base URL followed by the path.
- `withCredentials` cookies are not modelled.
- Header names are compared exactly. The case-insensitive merging of `Headers` and of axios' header objects is not modelled.
- Strings are ASCII. There is no Unicode case mapping, and `\s` is space, tab and line breaks.
- Floating point is not modelled. `Math.round` of a ratio is the integer formula `(2p+q) div 2q`. For the security percent this is `round(100·strong/n)`, not `Math.round((strong/n)·100)` with its float error.
- `Math.random` is a `draw` parameter. It supplies each todo's completion and priority.
- Clock and locale are not modelled: the `lastUpdated` stamp and the date and time formatting.
- `setTimeout` is not modelled. The one-second delay before the add-password redirect is left out, and the redirect is immediate.
- `FileReader` previews are not modelled. The selection handler leaves `previews` unchanged, and `removeImage` filters the list that is there.
- Presentation is not modelled: toasts beyond their text, spinners, JSX and styling, the clipboard and `alert`.
- The thin pages are not part of this model: app/login/page.tsx, app/agent-login/page.tsx, app/todos/add/page.tsx and app/page.tsx.
- AgentDashboard.AgentDashboardPage.HandlePaystackPayment: requires a loaded agent. The source reads `agent.email` unguarded, and the pay button is only rendered once an agent is loaded.
- AddProduct.AddProductPage.CheckAccess: records the location after both pushes, the last one pushed. It does not keep a history of the pushes.
- ImageUpload.ProductImageUpload.HandleFileSelect: the file input's `files` is `None` or a list. An upload reply is an image record or a failure, not the host's full response.
