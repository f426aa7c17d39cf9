# MuseMind credit metering and saved assets, in Dafny

MuseMind is a text-to-music web application: an Express server with a
MongoDB store, and a React client. This project models the part of it that
holds state worth reasoning about:

- the **credit-metered generation handler** (`generateAudio`): check the
  balance, validate the request, call the external generator, and take one
  credit only when the generator returns audio;
- the **saved-asset registries**: one track list and one lyrics list per
  user, with field validation, de-duplication by id, prepending, and removal
  by id; for lyrics also the uploaded file's name and download link;
- the **account handlers** (`signup`, `login`, `updatedUsername`, `logout`)
  over a user store with an abstract hash and token signer, and the
  **`protect` middleware**;
- the **audio router**: its MIME allow-list and the order
  `protect` → upload filter → handler;
- the **client mirrors**: the user context's updaters, the audio context's
  reply handling, and the gates and validators of the home, signup and
  profile pages.

The server store is a class `Store.Database` whose fields are the `User`
collection and the two one-document-per-user collections; handlers are methods
that say, with `modifies`, which collection they may change, and whose
`ensures` state the new contents. The invariant `Database.Valid` holds ids to positions,
non-empty required strings, unique emails and usernames, and balances `>= 0`;
every handler that touches users preserves it. Ids within a saved list are
unique only while every save sends its id as a string, so the save and remove
handlers promise uniqueness as "unique before, unique after" for string ids. List
operations are shared functions in `Registry`, proved once for both kinds of
entry. Client state lives in classes (`UserProvider`, `AudioProvider`,
`IndexState`, `SignupForm`, `ProfileState`) whose fields the handlers assign
from pure updater functions. `ClientServer` puts the two sides next to each
other.

Calls into code that is not modelled are parameters of the method that makes
them: the Hugging Face generator's result, the Cloudinary upload's result,
`bcrypt.hash` and `bcrypt.compare` (as functions of their inputs), `jwt.sign`
and `jwt.verify`, whether `user.save()` succeeds, whether
the client's encrypted local-storage write succeeds, and clock readings.

### Where the code differs from what it evidently intends

The model follows the code as written. These are the places where it does
something other than what the surrounding code, the comments or the other
side of the application lead one to expect:

- The generator-failure branch of `generateAudio` decodes the provider's
  `detail` but always answers with the fixed "Failed to generate audio"
  (`AudioController.GenerateAudio`, `AudioController.FailedGenerationScenario`).
- The server answers a generation with raw MP3 bytes; the client expects a
  JSON `{ url, credits }`, so no server reply passes the client's check, and a
  charged generation is reported to the user as a failure
  (`ClientServer.NoServerReplyAccepted`, `ClientServer.ChargedButReportedFailed`).
- The home page takes the credit before any result exists and never refunds it;
  the server takes it only after success (`ClientServer.DeductTiming`).
- The client appends saved tracks with no de-duplication; the server prepends
  and de-duplicates (`ClientServer.SaveTwiceDiverges`).
- The client clamps a balance at 0; the server refuses a zero balance
  (`ClientServer.ClampVersusRefusal`).
- The home page accepts `audio/m4a`, which the server's filter refuses
  (`ClientServer.UploadTypesDisagree`).
- The profile form puts no length limit on a name; the server caps it at 100
  (`ClientServer.LongNameAcceptedOnlyByClient`).
- The client's mock signup grants 50 credits and its mock login 120; the server
  grants 5.
- The audio context destructures `setUser` and `setCurrentGeneratedTrack`,
  which the user context does not provide; with a signed-in user the `setUser`
  call throws after the success toast (`AudioContext.AudioProvider.GenerateMusic`,
  parameter `setters`).
- The audio router imports `decrementCredits` and `downloadAudio`, which the
  controller does not export (`AudioRoutes.UnresolvedImports`); the route table
  mounts only `/auth`.
- The lyric file name uses the pattern `/\s + /g` (with literal spaces). It
  replaces a whitespace character only when at least two spaces follow it, so single
  spaces survive (`SavedLyricsController.SingleSpacesKept`,
  `SavedLyricsController.SpaceRunExample`).
- The download link's query key is spelled `fl_attachement`.
- The save handlers take `id` from the JSON body without checking its type. A
  number id passes validation and the `String` schema path stores it as its
  decimal text, but `t.id === id` then compares that text with the number and
  never finds it, so every save of the same number id prepends another copy
  (`SavedTracksController.NumberIdSavedTwice`, `Registry.NumberIdNeverFound`,
  `SavedLyricsController.SaveLyrics`).
- A lyric whose title is a number passes validation and then makes
  `title.replace` throw, before the upload; the reply is the 500
  "Failed to save lyric" (`SavedLyricsController.SaveLyrics`).
- `generateAudio` checks only that `duration` is truthy, so any non-empty text
  such as "abc" passes and is posted as `Number("abc")`
  (`AudioController.TextDurationPasses`).
- Two 400 replies of the account handlers send their text under the key
  `messgae` ("Email already exists", "Name is required").
- `updatedUsername` calls `name.trim()` before checking that `name` exists, and
  outside its `try`, so a request without a name throws instead of getting
  the 400 (`AuthController.UpdatedUsername`).
- Signup creates the user before signing the token; if signing fails, the reply is a
  500, but the account exists (`AuthController.Signup`).
- A 33-character prompt that already ends in "..." is its own track title, so
  "the title differs from the prompt" does not mean "the prompt was long"
  (`TrackTitles.TitleFixedPoints`).

## Model

| member | source | states |
|---|---|---|
| `AudioController.GenerateAudio` | controllers/audio.controller.js:5-72 | Balance check first: an unknown user, or one with no credit, gets 403 and no call or write happens, whatever the input. Then the input check: 400, no call, no write. The generator is called exactly when both pass, with the body's prompt and `Number(duration)` of the body's duration, which may be a number or text. A generator failure gives the fixed 500 text and no charge. A failed save gives 500 and no change. The audio reply happens exactly on generator success plus save: the bytes are returned unchanged, the caller's balance becomes `old - 1`, and it stays `>= 0`. |
| `AudioController.Posted` | controllers/audio.controller.js:29 | `Number(duration)`: a number is posted as it is, and text is posted through the number conversion. |
| `AudioController.TextDurationPasses` | controllers/audio.controller.js:15-21 | Any non-empty text passes the duration check and is posted through `Number`. |
| `AudioController.LastCreditScenario` | controllers/audio.controller.js:11-13 | With one credit, the first request is served and charged; the second is refused with 403 and the balance stays 0. |
| `AudioController.FailedGenerationScenario` | controllers/audio.controller.js:39-56 | A failed generation whose error carries a detail still answers with the fixed "Failed to generate audio", and the balance is kept. |
| `Store.IndexOfEmail` | controllers/auth.controller.js:11 | `findOne({ email })`: the first user with this email, and `None` exactly when no user has it. |
| `Store.Database.FindById` | controllers/audio.controller.js:9 | `findById`: the record at that id, present exactly for stored ids. |
| `Store.SetCreditsKeepsValid` | models/user.model.js:8-12 | Setting one balance to a non-negative value keeps the store invariant, which includes the schema's `min: 0`. |
| `Store.Database.constructor` | models/user.model.js:3-15 | An empty store satisfies the invariant. |
| `AuthMiddleware.Decide` | middleware/authMiddleware.js:8-21 | Admit exactly when the token is truthy and verifies, with the decoded payload. No token gives "Unauthorized user". A token that fails to verify gives "Invalid token". |
| `AuthMiddleware.MissingTokenIgnoresVerify` | middleware/authMiddleware.js:9-12 | Without a token (absent or empty), the answer does not depend on verification. |
| `AuthMiddleware.Protect` | middleware/authMiddleware.js:8-21 | On every path, exactly one of "reply 401" and "call next once" happens. `req.user` is set to the payload only when next is called. |
| `AudioRoutes.FileFilter` | routes/api/audio.routes.js:13-27 | Accepts a MIME type exactly when it is one of the seven allowed. A refusal carries "Only audio files (MP3, WAV, M4A) are allowed". |
| `AudioRoutes.M4aOnlyWithPrefix` | routes/api/audio.routes.js:14-22 | `audio/m4a` is refused and `audio/x-m4a` is accepted. |
| `AudioRoutes.PostGenerate` | routes/api/audio.routes.js:30 | `protect` decides first. The filter runs only for an admitted request with a file. The handler runs only after both. No write happens unless the handler runs, and when it does, the charge is 1 exactly on an audio reply. |
| `AudioRoutes.UnresolvedImports` | routes/api/audio.routes.js:3-7 | Two of the three names the router imports are not exported by the controller. |
| `SavedTracksController.TrackFrom` | controllers/savedTracks.controller.js:21-28 | The unshifted entry copies the body's fields; its id is the body's id as text and is non-empty, and its duration is non-zero. |
| `SavedTracksController.SaveTrack` | controllers/savedTracks.controller.js:4-40 | A falsy field (an id or duration of 0 included) gives 400 and no write. Otherwise a write happens exactly when `t.id === id` finds nothing, and then the entry goes first (`[]` is the old list when there is no document). For a string id this is `PrependIfAbsent` of the old list, and unique ids stay unique. A number id is never found, so it is prepended on every save. The reply carries the resulting list. |
| `SavedTracksController.ListTracks` | controllers/savedTracks.controller.js:43-51 | The stored list, or `[]` without a document. |
| `SavedTracksController.RemoveTrack` | controllers/savedTracks.controller.js:54-69 | Without a document, nothing changes and the reply is `[]`. Otherwise the list becomes `RemoveById` of the old one. Afterwards no entry has the id, and unique ids stay unique. |
| `SavedTracksController.SaveTwiceScenario` | controllers/savedTracks.controller.js:19-30 | Saving the same track twice with a string id gives the same one-entry list both times, and the second save writes nothing. |
| `SavedTracksController.NumberIdSavedTwice` | controllers/savedTracks.controller.js:19-29 | Saving the same track twice with the number id 7 writes both times and leaves two entries with id "7", so the ids are no longer unique. |
| `Registry.NumberIdNeverFound` | controllers/savedTracks.controller.js:19 | `some(t => t.id === id)` never holds for a number id, even when the list holds that number's text. |
| `Registry.HasIdIff` | controllers/savedTracks.controller.js:19 | The recursive "some entry has this id" agrees with its existential reading. |
| `Registry.PrependIfAbsent` | controllers/savedTracks.controller.js:19-29 | The list is unchanged when the id is present. Otherwise the entry comes first and the old list follows in order. |
| `Registry.SavedIdPresent` | controllers/savedTracks.controller.js:19-29 | After a save, the id is present. |
| `Registry.PrependIfAbsentKeepsUnique` | controllers/savedTracks.controller.js:19-29 | Unique ids stay unique across a save. |
| `Registry.PrependIfAbsentIdempotent` | controllers/savedTracks.controller.js:19-20 | A second save of the same id changes nothing. |
| `Registry.RemoveById` | controllers/savedTracks.controller.js:56-60 | `$pull` by id never lengthens the list. |
| `Registry.RemoveByIdMembers` | controllers/savedTracks.controller.js:56-60 | An entry survives removal exactly when it was there and has another id. |
| `Registry.RemoveByIdConcat` | controllers/savedTracks.controller.js:56-60 | Removal distributes over concatenation, so the other entries keep their order. |
| `Registry.RemoveAbsentId` | controllers/savedTracks.controller.js:56-60 | Removing an absent id leaves the list unchanged. |
| `Registry.RemovedIdAbsent` | controllers/savedTracks.controller.js:56-60 | After removal, the id is absent. |
| `Registry.RemoveByIdIdempotent` | controllers/savedTracks.controller.js:56-60 | Removing twice is removing once. |
| `Registry.RemoveByIdKeepsUnique` | controllers/savedTracks.controller.js:56-60 | Unique ids stay unique across a removal. |
| `Registry.RemovePresentUnique` | controllers/savedTracks.controller.js:56-60 | In a list with unique ids, removing a present id shortens it by exactly one. |
| `Registry.RemoveUndoesSave` | controllers/savedTracks.controller.js:19-29 | Removing the id a save just added gives back the list before the save. |
| `SavedLyricsController.ReplaceSpaceRuns` | controllers/savedLyrics.controller.js:43 | `replace(/\s + /g, "_")` never lengthens the title. |
| `SavedLyricsController.NoMatchUnchanged` | controllers/savedLyrics.controller.js:43 | Where the pattern matches nowhere, the title is unchanged. |
| `SavedLyricsController.SingleSpacesKept` | controllers/savedLyrics.controller.js:43 | A title with no two adjacent spaces keeps all its spaces. |
| `SavedLyricsController.SingleSpaceExample` | controllers/savedLyrics.controller.js:43 | "My Song" is unchanged. |
| `SavedLyricsController.KeptAtFront` | controllers/savedLyrics.controller.js:43 | A character that starts no match is copied unchanged and the replacement goes on after it. |
| `SavedLyricsController.LeadingSpacesOfRun` | controllers/savedLyrics.controller.js:43 | A run of `k` spaces before a non-space is counted as exactly `k`, so the greedy ` +` takes the whole run. |
| `SavedLyricsController.RunAtFront` | controllers/savedLyrics.controller.js:43 | A whitespace character followed by any run of two or more spaces, then a non-space, becomes a single underscore. |
| `SavedLyricsController.SpaceRunExample` | controllers/savedLyrics.controller.js:43 | "a   b" becomes "a_b": a space and the two spaces after it turn into one underscore. |
| `SavedLyricsController.TabRunExample` | controllers/savedLyrics.controller.js:43 | A tab followed by two spaces becomes one underscore. |
| `SavedLyricsController.Filename` | controllers/savedLyrics.controller.js:43 | 4 to 54 characters long, ending in ".txt". The stem is the first 50 characters of the replaced title. |
| `SavedLyricsController.DownloadUrl` | controllers/savedLyrics.controller.js:20-23 | The file URL is a prefix. The query value is the encoded name, and everything after the key is encoded. |
| `SavedLyricsController.DefaultNameUnused` | controllers/savedLyrics.controller.js:21-23 | For a derived file name, the fallback "generated_lyrics.txt" is never used. |
| `SavedLyricsController.EntryFor` | controllers/savedLyrics.controller.js:56-62 | The stored entry keeps the id (as text), title and date from the body and the upload's URL, and its download link starts with that URL. It holds no content. |
| `SavedLyricsController.SaveLyrics` | controllers/savedLyrics.controller.js:29-87 | An incomplete body gives 400 before any upload or store access. A number title gives 500 with no upload and no write. Any other complete body is always uploaded, under `lyrics/<id>`, as raw, with overwrite. An upload failure gives 500 and no write. A first save creates `[entry]`. A later save prepends exactly when `l.id === id` finds nothing: for a string id this is `PrependIfAbsent` and unique ids stay unique, while a number id is prepended every time. The reply carries the resulting list. |
| `SavedLyricsController.ListLyrics` | controllers/savedLyrics.controller.js:90-98 | The stored list, or `[]` without a document. |
| `SavedLyricsController.RemoveLyrics` | controllers/savedLyrics.controller.js:101-116 | As for tracks: `RemoveById` on the stored list, after which no entry has the id and unique ids stay unique; without a document, nothing changes and the reply is `[]`. |
| `UriComponent.Encode` | controllers/savedLyrics.controller.js:21-23 | `encodeURIComponent`: the result holds only unreserved characters and `%`. It is the identity on unreserved text and never shorter. |
| `AuthController.SessionCookie` | utils/sendToken.js:8-13 | The session cookie: named `token`, with the token as value, httpOnly, SameSite Lax, max age seven days. |
| `AuthController.SessionCookieLifetime` | utils/sendToken.js:12 | A session cookie comes back for exactly 604800000 ms after it is set. |
| `AuthController.LogoutEndsSession` | controllers/auth.controller.js:104-112 | After logout, the cookie is never sent back. Its value is empty anyway, and `protect` refuses with "Unauthorized user", whatever verification would say. |
| `AuthController.AppendUserKeepsValid` | models/user.model.js:3-15 | Adding a user with a new email and a new username, the next id and a non-negative balance keeps the store invariant. |
| `AuthController.RenameKeepsValid` | models/user.model.js:5 | Renaming to a non-empty name that no other user has keeps the usernames unique. |
| `AuthController.Signup` | controllers/auth.controller.js:6-36 | A known email gives 400 (key `messgae`), with no user and no cookie. A user is created exactly when the email is new, hashing succeeds and the document validates: the next id, 5 credits, and the hash in place of the password. Any later failure gives the one 500 "Signup failed", including a signing failure after the user was created. 201 comes exactly on creation plus signing, with the session cookie and the public fields. |
| `AuthController.Login` | controllers/auth.controller.js:39-63 | An unknown email and a wrong password give the same 400 "Invalid credentials". A compare or sign error gives 500. Success sets the session cookie and reports the stored record without the password, its balance unchanged. |
| `AuthController.RenameCheck` | controllers/auth.controller.js:70-80 | Passes exactly when the name is not blank and its trimmed form has at most 100 characters. Otherwise the reply is the matching 400. |
| `AuthController.RenameLimitIsOnTrimmedName` | controllers/auth.controller.js:70-80 | A 100-character name passes, padded with whitespace or not. |
| `AuthController.UpdatedUsername` | controllers/auth.controller.js:66-101 | An absent name throws with no reply. A failed check gives its 400. An unknown user gives 400 "User not found". A username taken by another user gives 500. Otherwise the stored username becomes the trimmed name and is returned. Balance, email and password never change. |
| `AuthController.Logout` | controllers/auth.controller.js:104-112 | Sets the cookie `token` to "", httpOnly, SameSite Lax, expiring at the epoch, and replies 200. |
| `JsText.Trim` | controllers/auth.controller.js:70 | `trim`: no whitespace at either end, never longer, and empty exactly when the input is blank. |
| `JsText.TrimIsMiddle` | controllers/auth.controller.js:70 | `trim` removes only whitespace, from the two ends of an unchanged middle. |
| `JsText.TrimIdempotent` | src/pages/Profile.tsx:24-25 | Trimming twice is trimming once. |
| `JsText.TrimPadded` | controllers/auth.controller.js:70-76 | Trimming blank padding off a string with no whitespace at its ends gives the string back. |
| `JsText.Prefix` | controllers/savedLyrics.controller.js:43 | `slice(0, n)`: the first `min(n, length)` characters. |
| `JsText.BeforeFirst` | src/contexts/UserContext.tsx:70 | `split('@')[0]`: the longest prefix with no `@`, followed by `@` unless it is the whole string. |
| `JsText.DecimalRoundTrip` | src/contexts/UserContext.tsx:69 | Reading back the decimal rendering of a clock value gives the value. |
| `JsText.DecimalInjective` | src/contexts/UserContext.tsx:69 | Distinct clock values render differently. |
| `TrackTitles.TrackTitle` | src/contexts/AudioContext.tsx:67 | At most 33 characters. The prompt itself when it has 30 or fewer. Otherwise its first 30 characters and "...". |
| `TrackTitles.TitleFixedPoints` | src/pages/Index.tsx:55 | The title equals the prompt exactly for short prompts, and for 33-character prompts that end in "...". |
| `TrackTitles.LongPromptsCollide` | src/pages/Index.tsx:55 | Long prompts that share their first 30 characters get the same title. |
| `UserContext.Deducted` | src/contexts/UserContext.tsx:93-95 | `max(0, credits - amount)`: never negative, the exact difference when covered, 0 otherwise. Other fields are kept, and signed out stays signed out. |
| `UserContext.Added` | src/contexts/UserContext.tsx:97-99 | The balance grows by the amount. Other fields are kept, and signed out stays signed out. |
| `UserContext.Appended` | src/contexts/UserContext.tsx:101-103 | The track is added last, so the length grows by one whatever the id. |
| `UserContext.Filtered` | src/contexts/UserContext.tsx:105-107 | Removal never lengthens the list, and leaves no track with that id. |
| `UserContext.Merged` | src/contexts/UserContext.tsx:109-111 | Supplied fields overwrite, the others are kept. Id and credits never change. |
| `UserContext.AddUndoesCoveredDeduct` | src/contexts/UserContext.tsx:93-99 | Adding back a deduction that the balance covered restores the user. |
| `UserContext.ClampForgetsDebt` | src/contexts/UserContext.tsx:94 | Adding back a deduction that the balance did not cover leaves more than before. |
| `UserContext.FilterIdempotent` | src/contexts/UserContext.tsx:105-107 | Removing twice is removing once. |
| `UserContext.FilterMembers` | src/contexts/UserContext.tsx:105-107 | A track survives exactly when it was there and has another id. |
| `UserContext.SaveThenRemove` | src/contexts/UserContext.tsx:101-107 | Removing the id just saved also removes any older copies with that id. |
| `UserContext.EmptyUpdateIsIdentity` | src/contexts/UserContext.tsx:109-111 | An update that supplies no field changes nothing. |
| `UserContext.MockLoginIdsDiffer` | src/contexts/UserContext.tsx:66-75 | Mock logins at different times give different ids. |
| `UserContext.UserProvider.constructor` | src/contexts/UserContext.tsx:35-37 | Starts signed out with no saved tracks. |
| `UserContext.UserProvider.IsLoggedIn` | src/contexts/UserContext.tsx:117 | True exactly when there is a user. |
| `UserContext.UserProvider.Login` | src/contexts/UserContext.tsx:66-75 | The mock user: a clock-based id, the email's local part as name, 120 credits. |
| `UserContext.UserProvider.Signup` | src/contexts/UserContext.tsx:77-86 | The mock user with the given name and email and 50 credits. |
| `UserContext.UserProvider.Logout` | src/contexts/UserContext.tsx:88-91 | No user and no saved tracks, so not logged in. |
| `UserContext.UserProvider.DeductCredits` | src/contexts/UserContext.tsx:93-95 | The user becomes `Deducted` of the old one; the tracks are untouched. |
| `UserContext.UserProvider.AddCredits` | src/contexts/UserContext.tsx:97-99 | The user becomes `Added` of the old one; the tracks are untouched. |
| `UserContext.UserProvider.SaveTrack` | src/contexts/UserContext.tsx:101-103 | The tracks become `Appended` of the old ones; the user is untouched. |
| `UserContext.UserProvider.RemoveTrack` | src/contexts/UserContext.tsx:105-107 | The tracks become `Filtered` of the old ones; the user is untouched. |
| `UserContext.UserProvider.UpdateProfile` | src/contexts/UserContext.tsx:109-111 | The user becomes `Merged` of the old one; the tracks are untouched. |
| `AudioContext.Accepted` | src/contexts/AudioContext.tsx:43-47 | A reply is accepted exactly when it is a JSON object with a truthy url and a defined balance. |
| `AudioContext.ErrorText` | src/contexts/AudioContext.tsx:75-77 | The error body's message when it is truthy, else "Failed to generate audio". |
| `AudioContext.AudioProvider.GenerateMusic` | src/contexts/AudioContext.tsx:26-81 | Bad arguments give one error toast and no request, with nothing else changed. Otherwise the request carries the arguments and `isGenerating` ends false. A refused reply leaves the URL, the user and the track alone. An accepted reply shows the URL. With the setters, the balance becomes the server's value and the track gets the derived title. Without the setters, a signed-in user makes the handler fail after the success toast; only the URL changes. |
| `AudioContext.AudioProvider.constructor` | src/contexts/AudioContext.tsx:20-23 | No URL, not generating, no current track. |
| `IndexPage.SimulatedTrack` | src/pages/Index.tsx:53-58 | The simulated result carries the prompt's title, the placeholder URL and 180 seconds. |
| `IndexPage.Liked` | src/pages/Index.tsx:81-84 | A liked result keeps its fields and gains the date. |
| `IndexPage.IndexState.constructor` | src/pages/Index.tsx:14-23 | Empty prompt, nothing generating, no result, no file, no modal. |
| `IndexPage.IndexState.HandleGenerate` | src/pages/Index.tsx:28-49 | Gates in order: blank prompt, then not signed in (navigate to /login), then a balance below 1 (open the modal). Only a start takes anything: exactly one credit, before any result exists. A rejected gate changes neither the user nor `isGenerating`. |
| `IndexPage.IndexState.FinishGeneration` | src/pages/Index.tsx:52-62 | The result appears with the captured prompt's title, and generation ends. |
| `IndexPage.IndexState.HandleFileUpload` | src/pages/Index.tsx:65-76 | A file is taken exactly when its type is one of the four listed; otherwise the previous file stays. |
| `IndexPage.IndexState.HandleLike` | src/pages/Index.tsx:78-92 | No result, nothing saved. Otherwise the result is appended, dated. |
| `IndexPage.IndexState.HandleRegenerate` | src/pages/Index.tsx:94-102 | Without a credit: open the modal and keep the current result and balance. With one: drop the result and rerun the gates, where only the prompt check can still stop it. A missing prompt changes neither the balance nor `isGenerating`; a start captures the prompt, sets `isGenerating` and takes one credit. |
| `SignupPage.FormError` | src/pages/Signup.tsx:21-34 | Passes exactly when all three fields are non-empty, the terms are agreed and the password has at least 6 characters. Otherwise the first failing check, in that order, names the error. |
| `SignupPage.LengthBoundary` | src/pages/Signup.tsx:31-34 | Six characters pass and five do not. |
| `SignupPage.TermsBeforeLength` | src/pages/Signup.tsx:26-34 | A short password without agreement reports the terms. |
| `SignupPage.SignupForm.HandleSubmit` | src/pages/Signup.tsx:18-36 | The error is `FormError` of the form. Loading starts exactly when there is none. |
| `SignupPage.SignupForm.FinishSubmit` | src/pages/Signup.tsx:39-43 | Loading ends. |
| `ProfilePage.ProfileState.constructor` | src/pages/Profile.tsx:13-15 | The form starts from the user's name and email, or "", not editing. |
| `ProfilePage.ProfileState.HandleSaveProfile` | src/pages/Profile.tsx:17-30 | A blank name or email changes nothing and stays in edit mode. Otherwise the trimmed values are merged and editing ends; the stored name and email are then non-empty and trimmed. |
| `ProfilePage.ProfileState.HandleCancelEdit` | src/pages/Profile.tsx:32-36 | The fields reset to the user's name and email, or "", and editing ends. |
| `ProfilePage.ProfileState.HandleRemoveTrack` | src/pages/Profile.tsx:38-41 | Exactly that id is removed from the saved list. |
| `ClientServer.ClientView` | src/contexts/AudioContext.tsx:35-43 | The client sees the server's audio as a non-object body and an error reply as a rejection carrying its message. |
| `ClientServer.NoServerReplyAccepted` | controllers/audio.controller.js:63-67 | No reply of the generate handler passes the client's check. The handler's error messages reach the toast, and its audio reply shows the fixed failure text. |
| `ClientServer.ChargedButReportedFailed` | src/contexts/AudioContext.tsx:43-47 | A generation that the server charges for is shown to the user as a failure, with no audio. |
| `ClientServer.DeductTiming` | src/pages/Index.tsx:45-49 | With one credit and a failing generator, the page shows 0 and the server keeps 1. |
| `ClientServer.SaveTwiceDiverges` | src/contexts/UserContext.tsx:101-103 | Saving twice gives two copies at the end of the client list and one at the front of the server list. |
| `ClientServer.ClampVersusRefusal` | src/contexts/UserContext.tsx:93-95 | The client clamps an uncovered deduction to 0; the server refuses a zero balance. |
| `ClientServer.UploadTypesDisagree` | src/pages/Index.tsx:68 | `audio/m4a` passes the page and not the server. Every other type the page accepts, the server accepts. |
| `ClientServer.LongNameAcceptedOnlyByClient` | controllers/auth.controller.js:76-80 | A 101-character name that the profile form accepts is refused by the rename check. |

## Left out

- Logging (`console.*`) has no effect on state and is not modelled.
- Store failures: a thrown `findOne`, `findById`, `save`, `create` or `findOneAndUpdate` is not modelled. That covers the 500 "Internal server error" of `generateAudio` when `User.findById` throws, and the 500 replies "Error Saving Track", "Error Getting Tracks", "Error Removing Track", "Failed to fetch lyrics" and "Failed to remove lyric", and a store failure in signup, login or rename. The exceptions are two outcome parameters: `user.save()` in `generateAudio`, and the upload in `savelyrics`.
- The network calls themselves (Hugging Face, Cloudinary, axios in the client), bcrypt and jwt are foreign code; they appear only as outcome parameters.
- JavaScript measures string length in UTF-16 code units; the model counts code points. This affects the 30, 50, 100 and 6 character limits for text outside the Basic Multilingual Plane.
- `SavedLyricsController.SaveLyrics`: because the model counts code points, `slice(0, 50)` never cuts a surrogate pair in the model. In the code, a replaced title whose 50th UTF-16 unit is the high half of a pair (49 letters followed by an emoji, say) leaves a lone surrogate in the file name. `encodeURIComponent` then throws a URIError after the upload has finished (savedLyrics.controller.js:21-23), and the handler replies 500 "Failed to save lyric" without writing the list (:83-86). For such a title the model promises a 200 and a stored entry instead.
- Concurrency: two generate requests can both pass the balance check before either saves. The model runs one request at a time.
- The `setTimeout` simulations in the home and signup pages are separate step methods (`FinishGeneration`, `FinishSubmit`); timing is not modelled.
- The user context's local-storage mirroring, the authentication context, the encrypted storage helper, the payment modal and the UI components are not part of this model.
- A missing request-body field of the account handlers is modelled as the empty string. A store query on an undefined value is modelled as matching no document, and a non-string `name` is not modelled.
- `AuthController.Signup` and `AuthController.Login` take `username`, `email` and `password` as strings. The code neither checks their types nor sanitises the query, so other JSON values are not modelled. An object `email` such as `{"$ne": ""}` reaches `User.findOne({ email })` as a query operator and matches the first stored user. Signup then replies 400 "Email already exists" for an email nobody holds, and login checks the password against that user's hash. A number is stored as text by the schema's `String` path.
- The extra `error` field of the 500 signup and login replies, and the toasts of the home and profile pages, are not modelled. The audio context's toasts are.
- The client's mock login and signup ignore the password; so does the model.
- `AuthController.SentValue` is an assumption about the browser, not code of the application: a cookie's value is sent back while its `maxAge` or `expires` has not passed. `SessionCookieLifetime` and `LogoutEndsSession` rest on it.
- Request-body fields of the saved-asset and generate handlers: `id` (tracks and lyrics), the lyric `title` and the generate `duration` are modelled as a JSON string or integer. Booleans, objects, arrays and fractional numbers there are not modelled, and the other fields (track `title`, `url`, `downloadUrl`, `duration`, `dateCreated`; lyric `content`, `dateCreated`; the generate `prompt`) are taken at the type their schema or the client gives them.
- `AudioController.Posted` records `Number(text)` for a text duration without evaluating JavaScript's number conversion, so the model does not say which texts become NaN.
- The multer error goes to Express's error handler. The model ends the route there (`UploadRejected`) and does not model that handler's reply. The stored upload file is not modelled either, because `generateAudio` does not read it.
- `AudioContext.AudioProvider.GenerateMusic` treats a JSON `null` balance like an absent one. The code accepts `null`, because it compares with `undefined`.
- `dateCreated || new Date().toISOString()` in `savelyrics` is unreachable once the body has passed validation. The model stores the body's date.
- The `/deduct-credits` route is not modelled: its handler does not exist.
