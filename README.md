# Spark link-in-bio client: a Dafny model of its page logic

Spark is a link-in-bio service. Its React client has a small core of real logic:

- **The dashboard.** An owner edits a profile, a list of links and a list of shops. Each entry in a list is a URL with a visibility flag. Every edit is saved to the backend. Beside the editor is a live preview.
- **The public page.** Visitors see the visible entries there.
- **The analytics page.** It folds the recorded view and click events into counts.
- **The sign-up and settings forms.** They validate names, an e-mail address and a password, then derive the request they send.

This project models that core and proves what it does:

| file | module | what it holds |
|---|---|---|
| `wrappers.dfy` | `Wrappers` | `Option` and `Result` |
| `strings.dfy` | `Strings` | JavaScript string operations as the pages use them: `split` on one character, its inverse `join`, `split('/').pop()`, `includes`, ASCII `toLowerCase` and `length` in UTF-16 units |
| `entries.dfy` | `Entries` | the link/shop entry list: the visibility filter, the add checks, position-based delete, the visibility toggle, and the buttons rendered from a list |
| `dashboard.dfy` | `Dashboard` | the profile record; `saveProfile`'s one-field update; the preview; the class `Editor` with one method per dashboard handler |
| `paging.dfy` | `Paging` | the Previous/Next control shared by the dashboard's profile search and the analytics search, as the class `Pager` |
| `tally.dfy` | `Tally` | the `acc[k] = (acc[k] \|\| 0) + 1` counting objects, as lists of buckets in key-insertion order |
| `analytics.dfy` | `Analytics` | the event fold behind the analytics page |
| `forms.dfy` | `Forms` | what both forms share: the form record, the e-mail pattern, the password-complexity pattern and the display name |
| `signup.dfy` | `Signup` | sign-up validation and request |
| `settings.dfy` | `Settings` | settings loading, validation and request |
| `public_profile.dfy` | `PublicProfile` | the public page |

Some points of the model:

- **Remote saves.** The backend is not modelled. Each dashboard handler that saves takes the save's outcome as an `ok` argument. It returns the profile it would pass to `updateProfile`, or `None` when it makes no call. Local state changes only when `ok` holds, as in the source.
- **Loading.** A failed load is a `None` response.
- **Regular expressions.** Both are written out as explicit predicates, and each is proved equivalent to a direct transcription of the expression:
  - the e-mail expression as `EmailPattern`;
  - the password lookaheads as `ComplexityPattern`, with JavaScript's meaning of `.`, which does not match a line terminator.
- **URL check.** `new URL(...)` is passed in as a function `isValidUrl` and left uninterpreted.
- **Save outcomes in the shipped program.** `src/utils/api.js:7-18` attaches `.catch(console.error)` to every call, so each `updateProfile` promise resolves even when the request fails. The handlers' `catch` branches, the model's `ok = false` case, therefore never run there: a save that fails on the network still updates local state, as `ok = true` does in the model. A failed `getProfile` resolves to `undefined`, and destructuring it throws inside the `try`, so a failed load still takes the fallback path.
- **Analytics labels.** "Clicks on Shops" (`src/pages/Analytics.js:112`) sums the `shops` bucket, which is not filtered by event type (lines 27-30): it counts every event whose id contains "shop", views included (`Analytics.ShopClickTotalBound`). "Clicks on Links" (line 111) shows `clicks`, all click events, shop clicks included. The model keeps both as written.

## Model

| member | source | states |
|---|---|---|
| Dashboard.LoadedProfile | src/pages/Dashboard.js:37-45 | the loaded profile takes each string field from the response, or "" when it is missing. The category falls back to "Business" when missing or empty. `social` and `appearance` fall back to their defaults. The profile has no `links`/`shops` fields |
| Dashboard.Editor.constructor | src/pages/Dashboard.js:8-20 | the initial state: empty lists, blank drafts (empty URL, visible) and the default profile |
| Dashboard.Editor.FetchProfile | src/pages/Dashboard.js:29-64 | on success the lists come from the response (or `[]`) and the profile is `LoadedProfile`. On failure there are empty lists and the default profile. The drafts are untouched |
| Dashboard.Editor.EditDraft | src/pages/Dashboard.js:383-386 | typing in the add modal replaces that list's draft only |
| Dashboard.Editor.Add | src/pages/Dashboard.js:81-121 | an empty or invalid URL, or a URL already in the same list, gives no request and no change. Otherwise the request is the profile with the list `old + [draft]`. Only on success does the list become `old + [draft]` and the draft reset to blank. The other list and the profile are untouched. Distinct URLs stay distinct |
| Dashboard.Editor.Delete | src/pages/Dashboard.js:123-147 | the request carries the list without position `idx`. On success that becomes the list. An out-of-range `idx` changes nothing. Distinct URLs stay distinct |
| Dashboard.Editor.SaveProfile | src/pages/Dashboard.js:149-160 | the request is the profile with exactly that field replaced. The local profile becomes it only on success. Saving the value a field already holds leaves the profile unchanged |
| Dashboard.Editor.ChangeField | src/pages/Dashboard.js:232-253 | an input's onChange sets the one field locally and sends nothing |
| Dashboard.Editor.Toggle | src/pages/Dashboard.js:265-280 | as written: the toggled list goes through `saveProfile`, so success updates only the profile's list field. The shown lists and the preview stay as they were |
| Dashboard.Editor.ToggleCorrected | src/pages/Dashboard.js:265-280 | corrected: on success the toggled list also becomes the shown list. The visible entries become those before `idx`, then entry `idx` exactly when checked, then those after it. Distinct URLs stay distinct |
| Dashboard.Apply | src/pages/Dashboard.js:150 | `{ ...profile, [field]: value }` reads back the value just written |
| Dashboard.ApplyFrame | src/pages/Dashboard.js:150 | every other field keeps its old value |
| Dashboard.CurrentDetermines | src/pages/Dashboard.js:150 | a profile is determined by the values of its fields |
| Dashboard.ApplyCurrent | src/pages/Dashboard.js:150 | writing the value a field already holds gives the same profile |
| Dashboard.ApplyOverwrite | src/pages/Dashboard.js:150 | a second write of the same field overrides the first |
| Dashboard.PreviewTitle | src/pages/Dashboard.js:332 | the title is `profileTitle` when non-empty. Otherwise it is "@" followed by the last segment of the Instagram URL when that segment is non-empty, and by the last segment of the YouTube URL when it is empty. The handle is '/'-free, and the title is just "@" exactly when both last segments are empty |
| Dashboard.TitleTrailingSlash | src/pages/Dashboard.js:332 | an Instagram URL ending in '/' makes the title fall back to YouTube's last segment |
| Dashboard.PreviewOf | src/pages/Dashboard.js:324-342 | the banner, picture and social icons show exactly when their URL is non-empty. There is one button per visible link or shop, in order, each opening that entry's URL |
| Dashboard.PreviewShowsVisible | src/pages/Dashboard.js:337-342 | the preview does not depend on the profile's list fields: saving either list leaves it as it was |
| Dashboard.HiddenLinkStillShown | src/pages/Dashboard.js:265-267 | after the as-written toggle hides the only link, the saved profile lists it as hidden, yet the preview still shows one button for it |
| Dashboard.LaterSavesDisagree | src/pages/Dashboard.js:88-91 | after that toggle, adding a link sends the list with the toggle undone, while saving another field sends the stale hidden list without the new link |
| Entries.Visible | src/pages/Dashboard.js:337 | `filter(l => l.visible)` keeps exactly the visible entries and never more than the list |
| Entries.VisibleAppend | src/pages/Dashboard.js:337 | the filter distributes over concatenation, so order is kept |
| Entries.VisibleIdentity | src/pages/Dashboard.js:337 | the filter returns the list itself exactly when every entry is visible |
| Entries.SetVisibility | src/pages/Dashboard.js:266 | the toggle map keeps the length, every URL and every other element. It sets entry `idx`'s flag |
| Entries.VisibleAfterSetVisibility | src/pages/Dashboard.js:266 | after the toggle, the visible entries are those before `idx`, then entry `idx` exactly when checked, then those after it |
| Entries.RemoveAt | src/pages/Dashboard.js:124 | `filter((_, i) => i !== idx)` is the list without position `idx`, or the list itself when `idx` is out of range |
| Entries.CheckAdd | src/pages/Dashboard.js:82-88 | the add is refused as invalid exactly when the URL is empty or fails `isValidUrl`. It is refused as a duplicate exactly when the URL is valid and some entry has it. Otherwise the result is the list with the draft appended |
| Entries.CheckAddKeepsUnique | src/pages/Dashboard.js:85-88 | a successful add keeps the URLs distinct |
| Entries.RemoveAtKeepsUnique | src/pages/Dashboard.js:124 | a delete keeps the URLs distinct |
| Entries.LinkButtons | src/pages/Dashboard.js:337-338 | one button per visible entry, in order, targeting its URL. The caption is a '/'-free suffix of the URL, preceded by '/' unless it is the whole URL |
| Entries.ShopButtons | src/pages/Dashboard.js:340-341 | one "Buy Now" button per visible shop, in order, targeting its URL |
| Entries.HiddenHasNoButton | src/pages/PublicProfile.js:47-48 | with distinct URLs, a hidden entry's URL is the target of no button |
| Entries.NonEmpty | src/pages/Dashboard.js:326-334 | an empty URL is not rendered, and a non-empty one is rendered as itself |
| Entries.FirstUrl | src/pages/PublicProfile.js:45-46 | `list?.[0]?.url \|\| ''` is the first entry's URL, or "" for an absent or empty list |
| Paging.PreviousPage | src/pages/Dashboard.js:303 | from page 1 or above, Previous never goes below page 1. It leaves the page unchanged exactly on page 1 and otherwise goes back one page |
| Paging.NextPage | src/pages/Dashboard.js:305 | from a page up to the last, Next stays within the last page. It leaves the page unchanged exactly on the last page and otherwise goes forward one page |
| Paging.NextStaysInRange | src/pages/Dashboard.js:305 | from a page within range, `n` clicks on Next give `min(page + n, totalPages)` |
| Paging.NextRunsPastLast | src/pages/Dashboard.js:305 | past the last page (e.g. `totalPages` 0), Next is never disabled and `n` clicks give `page + n` |
| Paging.Pager.constructor | src/pages/Analytics.js:9-11 | the initial state is an empty query on page 1 of 1 |
| Paging.Pager.ChangeQuery | src/pages/Analytics.js:132 | a new query resets the page to 1 |
| Paging.Pager.Previous | src/pages/Analytics.js:137 | the page becomes `PreviousPage(page)`. The page is unchanged exactly when Previous was disabled (`page == 1`) |
| Paging.Pager.Next | src/pages/Analytics.js:139 | the page becomes `NextPage(page, totalPages)`. The page is unchanged exactly when Next was disabled (`page == totalPages`) |
| Paging.Pager.Receive | src/pages/Analytics.js:68 | a search response replaces `pagination` and leaves the page and the query alone |
| Tally.Bump | src/pages/Analytics.js:20 | one more for key `k` and no change for any other key. The sum grows by one. The keys are the old keys plus `k` |
| Tally.CountLookup | src/pages/Analytics.js:19-22 | the fold's count for each key is the number of its occurrences |
| Tally.Count | src/pages/Analytics.js:19-34 | the fold's counts sum to the number of keys folded, and its keys are exactly the keys folded |
| Tally.CountWellFormed | src/pages/Analytics.js:19-22 | the fold's keys are distinct and each count is at least 1 |
| Tally.BumpWellFormed | src/pages/Analytics.js:20 | a bump keeps the keys distinct and the counts positive |
| Tally.LookupPositive | src/pages/Analytics.js:20 | in a well-formed tally a key is present exactly when its count is positive |
| Tally.HasKeyIndex | src/pages/Analytics.js:20 | a key is present exactly when some bucket holds it |
| Tally.LookupAtMostSum | src/pages/Analytics.js:112 | no single count exceeds the sum of all counts |
| Tally.OccurrencesAppend | src/pages/Analytics.js:19-22 | occurrences add over concatenation |
| Tally.OccurrencesPositive | src/pages/Analytics.js:19-22 | a key occurs exactly when it is in the sequence |
| Analytics.CountKind | src/pages/Analytics.js:17-18 | `filter(a => a.type === kind).length` is at most the number of events. It is 0 exactly when no event has that type, and the number of events exactly when every event has it |
| Analytics.ReferrerKey | src/pages/Analytics.js:32 | `referrer \|\| 'direct'` is never empty: a non-empty referrer is its own key, and a missing or empty one is "direct" |
| Analytics.LinkIdsContaining | src/pages/Analytics.js:23-30 | the ids of `filter(a => a.linkId.includes(word))` are never more than the events, and each contains the word |
| Analytics.Summarize | src/pages/Analytics.js:17-36 | the stored summary has views + clicks at most the number of events. The device counts and the referrer counts each sum to the number of events, and the link and shop counts each sum to at most that |
| Analytics.ViewsAndClicks | src/pages/Analytics.js:17-18 | views + clicks is at most the number of events, with equality exactly when every event is a view or a click |
| Analytics.KindCounts | src/pages/Analytics.js:17-18 | the same bound and equality for the two `filter().length` counts |
| Analytics.DeviceCounts | src/pages/Analytics.js:19-22 | the device counts sum to the number of events and are well formed. Each is the number of events with that device. The keys are exactly the devices seen |
| Analytics.ReferrerCounts | src/pages/Analytics.js:31-34 | the referrer counts sum to the number of events and are well formed. Each is the number of events with that key. An event with a missing or empty referrer puts "direct" among the keys |
| Analytics.Buckets | src/pages/Analytics.js:23-30 | the `links` bucket counts an id's events when the id contains "link" and is zero otherwise; the `shops` bucket likewise with "shop". An id is a key exactly when it contains the word and occurs. So an id with both words is in both buckets, and one with neither is in neither |
| Analytics.ContainingOccurrences | src/pages/Analytics.js:23 | `filter(includes(word))` keeps all of an id's occurrences or none |
| Analytics.AfterFetch | src/pages/Analytics.js:14-39 | a failed fetch leaves the state alone. A successful one stores the summary of the fetched events, whose views + clicks are within the number of events |
| Analytics.AfterSearch | src/pages/Analytics.js:45-71 | the searched path gives the same state as the plain path on the same events |
| Analytics.ShopClickTotal | src/pages/Analytics.js:112 | "Clicks on Shops" is at least the count of every single shop id |
| Analytics.ShopClickTotalBound | src/pages/Analytics.js:112 | "Clicks on Shops" is the number of events whose id contains "shop", hence at most the number of events |
| Forms.IsEmail | src/pages/Signup.js:15 | an accepted address has at least five characters and contains '@'; its agreement with the expression is `Forms.IsEmailMatchesPattern` |
| Forms.IsComplex | src/pages/Signup.js:17 | a password that passes holds a lowercase letter, an uppercase letter, a digit and a special character somewhere; its agreement with the expression is `Forms.IsComplexMatchesPattern` |
| Forms.IsEmailMatchesPattern | src/pages/Signup.js:15 | `IsEmail` — no whitespace, exactly one '@' with text before it, and a '.' after it that is neither first nor last — holds exactly when the e-mail expression matches |
| Forms.IsComplexMatchesPattern | src/pages/Signup.js:17 | the per-line complexity check holds exactly when the four-lookahead expression matches, line terminators included |
| Forms.SingleLineComplexity | src/pages/Signup.js:17 | on a password without line terminators, the expression asks only that each of the four classes occurs |
| Forms.FullName | src/pages/Signup.js:28 | the display name is first, one space, last |
| Forms.FullNameSplit | src/pages/Settings.js:14 | splitting a display name with a space-free first name gives the first name, then the pieces of the last name |
| Signup.StrongPassword | src/pages/Signup.js:17 | a strong password has at least four characters and all four character classes |
| Signup.FieldError | src/pages/Signup.js:13-19 | a recorded message is never empty. The e-mail has one exactly when the expression does not match, and the password exactly when it is shorter than 8 UTF-16 units or fails the complexity expression |
| Signup.ValidationErrors | src/pages/Signup.js:11-19 | an error is recorded for each field exactly when it fails its rule, with that field's message: empty names; e-mail not matching; password empty ("required"), else shorter than 8 or not complex; confirmation different |
| Signup.Validate | src/pages/Signup.js:20-21 | validation passes exactly when every rule holds |
| Signup.SingleLineStrength | src/pages/Signup.js:17 | a one-line password passes exactly when it has at least 8 UTF-16 units and all four classes |
| Signup.ShortPasswordExample | src/pages/Signup.js:17 | "abc" is rejected |
| Signup.StrongPasswordExample | src/pages/Signup.js:17 | "Abcdef1@" is accepted |
| Signup.EmptyPasswords | src/pages/Signup.js:16-19 | two empty passwords give the "required" message and no mismatch error |
| Signup.Username | src/pages/Signup.js:28 | the user name has length first + last + 1 and no uppercase ASCII letter |
| Signup.UsernameSplits | src/pages/Signup.js:28 | with no '.' in the names, the user name splits at '.' into exactly the two lower-cased names |
| Signup.Submit | src/pages/Signup.js:24-28 | once `handleSubmit` runs, a request is sent exactly when validation passes. It carries the user name, e-mail, password and display name |
| Settings.NameParts | src/pages/Settings.js:14-17 | the two name tokens hold no space, and the first is a prefix of the stored name. A one-word name loads as that word with an empty last name |
| Settings.Load | src/pages/Settings.js:13-21 | a failed load leaves the form alone. A successful one has token 0 and token 1 of the name, the e-mail or "", and empty passwords |
| Settings.FieldError | src/pages/Settings.js:31-35 | a recorded message is never empty. The e-mail has one exactly when the expression does not match. A password of 8 or more characters has none, and a non-empty one under 4 characters always has one |
| Settings.ValidationErrors | src/pages/Settings.js:29-35 | an error is recorded for each field exactly when it fails: empty names; e-mail not matching; non-empty password shorter than 8 (no class rule); confirmation different. Each error has its field's message |
| Settings.Validate | src/pages/Settings.js:36-37 | validation passes exactly when every rule holds |
| Settings.Submit | src/pages/Settings.js:40-48 | once `handleUpdate` runs, a request is sent exactly when validation passes. It carries `first + " " + last`, the e-mail and the possibly empty password |
| Settings.NameAfterReload | src/pages/Settings.js:14-17 | reloading a saved `first + " " + last` with a space-free first name gives the first name and the first word of the last name. With a space-free last name it gives both |
| Settings.NameKeptOnReload | src/pages/Settings.js:14-17 | re-joining the loaded name gives the stored name back exactly when it holds a single space |
| Settings.LoadThenSubmit | src/pages/Settings.js:45 | saving right after loading sends the stored name unchanged exactly when it has a single space, and sends an empty password |
| PublicProfile.Render | src/pages/PublicProfile.js:34-53 | no profile shows "Loading...". Otherwise the title is `profileTitle`, or "@" + username when empty. The images show when non-empty. The fixed buttons open the first link's and first shop's URL, or "". The buttons are those of the visible entries, or none for an absent list |
| PublicProfile.ListButtons | src/pages/PublicProfile.js:47-51 | an absent list renders no buttons. A present one renders one button per visible entry, in order, opening its URL, and every shop button reads "Buy Now" |
| PublicProfile.HiddenFirstLinkReachable | src/pages/PublicProfile.js:45-48 | the fixed "link" button opens the first link even when it is hidden and has no button of its own |
| PublicProfile.SameButtonsAsPreview | src/pages/PublicProfile.js:47-51 | the public page shows the same list buttons as the dashboard preview of the same lists; both are built from `LinkButtons` and `ShopButtons`, so this holds by construction and records the shared rendering rule |
| Strings.IndexOf | src/pages/Settings.js:14 | the first index of the character, or the length: nothing before it matches |
| Strings.Split | src/pages/Settings.js:14 | `split(sep)` gives at least one and at most length + 1 pieces, and the first piece is a prefix of the string |
| Strings.SplitPieces | src/pages/Settings.js:14 | no piece of `split(sep)` holds the separator |
| Strings.JoinSplit | src/pages/Settings.js:14 | joining the pieces of a split gives the string back |
| Strings.SplitJoin | src/pages/Signup.js:28 | splitting a join of separator-free pieces gives the pieces back |
| Strings.SplitCount | src/pages/Settings.js:14 | a split has one piece more than separators |
| Strings.SplitLast | src/pages/Dashboard.js:338 | the last piece of a split is the text after the last separator |
| Strings.LastSegment | src/pages/Dashboard.js:338 | `split('/').pop()` is '/'-free, ends the string and is preceded by '/' unless it is the whole string |
| Strings.Contains | src/pages/Analytics.js:23 | `includes` holds exactly when the word occurs at some index |
| Strings.ToLower | src/pages/Signup.js:28 | lower-casing keeps the length and maps each character by itself |
| Strings.ToLowerProperties | src/pages/Signup.js:28 | lower-casing leaves no uppercase ASCII letter, keeps other characters and is idempotent |
| Strings.Utf16Length | src/pages/Signup.js:17 | `length` in UTF-16 units lies between the number of characters and twice that |
| Strings.Utf16LengthBmp | src/pages/Signup.js:17 | without characters outside the Basic Multilingual Plane, `length` is the number of characters |

## Left out

- The network layer, `src/utils/api.js`, is not part of this model. Save outcomes are the `ok` argument. A failed load is a `None` response.
- Toasts, `console` output, `window.open`, `window.close`, `window.location` and the modal open flags are left out; they are presentation only.
- `trackView` and `trackClick` (mouse-enter and click tracking) are left out. They are calls into the backend.
- Charts and their data (`lineData`, `barData`, `pieData`) are left out; they are rendering only.
- Async ordering is left out. That includes the two analytics fetches racing on mount, and stale search responses arriving after a newer query. This is event-loop concurrency.
- The dashboard's search results list (`setProfiles` and the "No links" label) is not modelled. Only its pagination is, through `Paging.Pager`.
- `Paging.Pager.Receive` keeps the page the user chose. The response's `currentPage` is stored but never read, as in the source.
- `isValidUrl` is a parameter. The WHATWG URL parser behind `new URL(...)` is not part of this model.
- Strings.ToLower: lower-cases ASCII letters only, because full Unicode case mapping is out of reach here.
- JavaScript object-key quirks are not modelled:
  - keys such as `__proto__`;
  - integer-like keys, which enumerate before other keys;
  - an `undefined` device, which becomes the key "undefined".
- The browser's own form validation is not modelled. It runs before `onSubmit` and can stop `handleSubmit` and `handleUpdate` from running at all. The sign-up page has a `required` Terms checkbox (`src/pages/Signup.js:88`), and both pages use `type="email"` inputs (`src/pages/Signup.js:62`, `src/pages/Settings.js:99`), whose HTML address grammar rejects some addresses the e-mail expression accepts ("a@-b.c" matches the expression but not the grammar), and accepts some it rejects ("a@b"). `Signup.Submit` and `Settings.Submit` therefore state what the handlers do once called, not whether the browser calls them.
- Incomplete nested objects from the server are not modelled. A `social` or `appearance` object that is present is assumed to carry all its fields as strings, and every link or shop entry is assumed to carry a `url`. The source keeps `data.social` as it is (`src/pages/Dashboard.js:42`). It throws while rendering the preview title (`src/pages/Dashboard.js:332`) when `profileTitle` is empty and the `||` chain reaches a missing `instagram`, or a missing `youtube` after an empty Instagram segment. It throws on a visible entry without `url` (`src/pages/Dashboard.js:338`, `src/pages/PublicProfile.js:48`); a hidden one is filtered out first and never read. `Dashboard.PreviewTitle` and `Dashboard.PreviewOf` therefore hold only for the complete objects the model can build.
- A missing `linkId`, which makes the source throw inside the fold, is not modelled: events always carry one.
- `src/App.js`, `Landing.js`, `Login.js`, `Appearance.js` and `ResetPassword.js` are not part of this model.

## Findings

| source | as written | input that shows it | evidently intended | confidence | as-written member | corrected member |
|---|---|---|---|---|---|---|
| src/pages/Dashboard.js:265-267 | the visibility checkbox saves the toggled list with `saveProfile('links', …)`. That updates `profile.links` but not the `links` state from which the checkbox and the preview render. The shops checkbox (278-280) has the same problem | links `[a]` with `a` visible; uncheck it with a successful save. The preview still shows `a`. A later add sends `a` visible again, and a later save of any other field sends the list without the added link | a successful toggle also replaces the shown list | not executed | Dashboard.Editor.Toggle | Dashboard.Editor.ToggleCorrected |
