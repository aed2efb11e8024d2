# Video-game library client: a Dafny model

This project models the client-side logic of a React application for a
personal video-game library (BrianPulas/mi-proyecto-frontend). The
application lists the user's games, filters and sorts them, adds and edits
them, records reviews, shows a statistics dashboard and a gamified profile
(experience points, levels, a completion donut, friends), and has a settings
screen. The logic lives in three files:

- `src/App.jsx`. It holds:
  - the list query that `fetchJuegos` sends;
  - the figures of the statistics dashboard (`EstadisticasPersonales`);
  - the game form (`FormularioJuego`) and the review form (`ReviewForm`)
    with their drafts;
  - which request each save, update and delete handler sends;
  - the registration password check;
  - the `App` component's state machine, where an integer `view` chooses
    the screen;
  - the Navbar's menu. That is the `Navbar` component defined inside
    `App.jsx`, not `src/components/Navbar.jsx`.
- `src/components/PerfilView.jsx`. It holds experience points, levels and
  the XP bar, the completion rate and its donut, the hero card and its
  achievements bar, the activity log, and the avatar and friend-name
  fallbacks.
- `src/components/SettingsView.jsx`. It holds the settings draft, the
  theme buttons, the tabs, and the rule for when saving forwards a new
  nickname.

How the JavaScript is represented:

- A plain JavaScript object with dynamic keys is a `map<string, Value>`.
  This covers a game draft, a review draft and the settings draft.
- Object spread `{...a, ...b}` is map union, and `[name]: v` is a map
  update.
- JavaScript truthiness is the predicate `Truthy`.
- A game sent by the server is the datatype `Game`.

The form follows the source's shape:

- The pure derivations are functions. Lemmas state their properties.
- `fetchJuegos` builds its query with five guarded `append` calls in a row.
  It is modelled as a method, `BuildQuery`, proved equal to a reference
  function.
- The `App`, `Navbar` and `SettingsView` components are classes. Their
  handlers are methods that state the complete new state.
- An asynchronous handler is split into two parts:
  - `Begin…`: what runs before the request is sent. It returns the request.
  - `…Succeeded` or `RequestFailed`: what runs once the server answers. The
    answer is a parameter.

Requests are modelled as the verb, the resource and the body. The URL text
is not modelled.

Two behaviours of the code worth stating, which the model has exactly:

- The game form's `handleChange` (`src/App.jsx:260-266`) stores the raw
  text of every non-checkbox input; numbers are not converted.
  `GameForm.HandleChange` does the same.
- `FormularioLogin` calls `onLogin` unconditionally, and
  `FormularioRegistro` only compares the two passwords before calling
  `onRegister` (`src/App.jsx:30-37`, `79-91`). Neither sends a request.

Handlers are closures of the render that created them. The model passes
what a handler closed over as a parameter where the difference shows:

- `handleSaveJuego` is only given to the forms of views 1 and 2
  (`src/App.jsx:967`, `969`), so its `isEdit && view === 3` test reads 1 or
  2 and never replaces the selection. `BeginSaveGame` returns that view and
  `SaveGameSucceeded` takes it.
- `handleUpdateGame` reads the selection and calls the `fetchJuegos` of the
  render in which it was called. `BeginUpdateGame` and `ToggleComplete`
  return an `UpdateClosure` with that selection and those filters, and
  `UpdateGameSucceeded` uses them (see "## Findings").
- `FormularioJuego` recomputes `isEdit` on every render but seeds its draft
  only at mount. Views 1 and 2 render the same element shape, so the
  Navbar's move from the edit screen to the add screen keeps the edit
  draft, `_id` included, in add mode (`GameForm.Rerender`).

## Model

| member | source | states |
|---|---|---|
| LibraryQuery.BuildQuery | src/App.jsx:751-756 | The appended query is exactly the reference list of `(key, value)` pairs whose value is non-empty, in key order |
| LibraryQuery.QueryHasExactlyNonEmptyFilters | src/App.jsx:751-756 | Each of `busqueda`, `genero`, `plataforma`, `completado` and `ordenarPor` is in the query iff its filter is non-empty, and then with that value. No other key is, keys appear in that order and none repeats |
| LibraryQuery.GetParamOfNonEmptyPairs | src/App.jsx:751-756 | For distinct keys, reading key `k` back from the query gives its value iff that value is non-empty. A key outside the list is never there |
| LibraryQuery.NonEmptyPairsKeysInOrder | src/App.jsx:751-756 | The query's keys are the key list with the unset keys left out: a subsequence, in order |
| LibraryQuery.PairsComeFromKeys | src/App.jsx:751-756 | Every pair sent is one key with its own value, and no empty value is sent |
| LibraryQuery.DefaultQuery | src/App.jsx:742-756 | With the default filters, only `ordenarPor=fechaCreacion` is sent |
| LibraryStats.CompletedGames | src/App.jsx:620 | The completed games are exactly the games with `completado` set, and there are no more of them than games |
| LibraryStats.PendingGames | src/components/PerfilView.jsx:49 | The pending games are exactly the games without `completado` |
| LibraryStats.CompletedPlusPending | src/App.jsx:620 | Completed and pending counts add up to the number of games |
| LibraryStats.AllCompletedIffCountIsTotal | src/App.jsx:620 | The completed count equals the total iff every game is completed |
| LibraryStats.CompletionPercentage | src/App.jsx:621 | The percentage is in [0, 100], is exactly 0 for an empty library, and is otherwise completed/total·100 |
| LibraryStats.FullPercentageIffAllCompleted | src/App.jsx:621 | The percentage is 100 iff the library is non-empty and every game is completed |
| Seqs.Dedup | src/App.jsx:623 | `[...new Set(xs)]` has no duplicates, contains every element of `xs` and only those, and is no longer than `xs` |
| Seqs.DedupFirstOccurrenceOrder | src/App.jsx:623 | The distinct elements come in the order of their first occurrence |
| LibraryStats.DistinctGenresSpec | src/App.jsx:623 | The genre list has no duplicates, is exactly the set of genres of the games, and is in first-appearance order |
| LibraryStats.BumpKeys | src/App.jsx:625 | `acc[p] = (acc[p] \|\| 0) + 1` appends a new key at the end and keeps an existing key in place |
| LibraryStats.BumpCount | src/App.jsx:625 | One step raises the count of `p` by one and leaves every other count unchanged |
| LibraryStats.BumpSum | src/App.jsx:625 | One step raises the total by one |
| LibraryStats.HistogramKeys | src/App.jsx:624-627 | The histogram has one entry per distinct platform, in first-appearance order |
| LibraryStats.HistogramCounts | src/App.jsx:624-627 | The count read for any value is its number of occurrences |
| LibraryStats.HistogramSum | src/App.jsx:624-627 | The counts add up to the number of values |
| LibraryStats.PlatformCountSpec | src/App.jsx:624-627 | Entries are the distinct platforms in order. Each entry's count is the number of games on that platform, and the counts sum to the number of games |
| GameForm.DraftDefaults | src/App.jsx:223-231 | The default draft has exactly the eight form fields |
| GameForm.InitForm | src/App.jsx:221-233 | Every property of `juegoInicial` overrides its default, absent fields keep their defaults, and edit mode holds iff `_id` is present and truthy. No suggestions are shown |
| GameForm.AddFormStartsFromDefaults | src/App.jsx:221-233 | A form mounted without an initial record has the defaults as its draft, and is in add mode |
| GameForm.EditFormShowsGame | src/App.jsx:221-233 | The edit form for a game shows its title, completion flag and id, and is in edit mode iff the id is non-empty |
| GameForm.HandleChange | src/App.jsx:260-266 | Only the named field changes. A checkbox stores `checked`, any other input its raw text |
| GameForm.Rerender | src/App.jsx:221-233 | A re-render keeps the draft and the suggestions, and the mode follows the new `juegoInicial` |
| GameForm.EditDraftCarriedIntoAddForm | src/App.jsx:966-969 | Leaving the edit screen for the add screen keeps the edited draft with its `_id`, in add mode, so saving POSTs it to the collection |
| JsValues.ApplyChange | src/components/SettingsView.jsx:17-23 | The merge adds or overwrites exactly the named property and keeps every other property |
| JsValues.ApplyChangeIdempotent | src/App.jsx:260-266 | Repeating the same change has no further effect |
| JsValues.ApplyChangeCommutes | src/App.jsx:260-266 | Changes to two different fields commute |
| GameForm.SelectSuggestion | src/App.jsx:268-276 | Picking a suggestion sets exactly `titulo`, `añoLanzamiento` and `imagenPortada` from it and keeps every other field. The suggestion list is cleared |
| GameForm.IdentityUnchangedByEdits | src/App.jsx:260-276 | No form input and no suggestion can change the draft's `_id` |
| GameForm.ReviewDefaults | src/App.jsx:449-453 | A new review starts with a score of 3 |
| GameForm.InitReview | src/App.jsx:447-456 | The review draft overrides the defaults with the initial review's properties, and edit mode holds iff `_id` is truthy |
| Requests.SaveGameRequest | src/App.jsx:779-788 | An edit is a PUT of the draft to `/juegos/{_id}`, a new game a POST of the draft to `/juegos` |
| Requests.UpdateGameRequest | src/App.jsx:811-817 | A partial update is a PUT of the given fields to the game's resource |
| Requests.DeleteGameRequest | src/App.jsx:839-842 | A DELETE of the game is sent iff the user confirmed |
| Requests.ReviewSubmitRequest | src/App.jsx:409-417 | PUT to `/reseñas/{_id}` iff the review's `_id` is truthy, POST to `/reseñas` otherwise. The body is the review with `juegoId` set to the game and every other property kept |
| Requests.DeleteReviewRequest | src/App.jsx:432-435 | A DELETE of the review is sent iff the user confirmed |
| AppState.ScreenOf | src/App.jsx:964-1002 | Codes 1 to 6 choose their screens, and every other value shows the library |
| AppState.ViewCode | src/App.jsx:732 | Every screen has a code in 0..6 |
| AppState.ScreenCodeRoundTrip | src/App.jsx:964-1002 | The router shows each screen for its code, and each code in 0..6 is the code of the screen it shows |
| AppState.FindGame | src/App.jsx:859-864 | `juegos.find` gives the first game with the id, or nothing iff no game has it |
| AppState.TogglePayload | src/App.jsx:835-837 | The toggle update holds only `completado`, set to the negation of the game's flag |
| AppState.TogglePayloadFlips | src/App.jsx:835-837 | Merging the payload into the game's record gives the record of the game with the flag flipped. Toggling again sends the original value back |
| AppState.SaveErrorMessage | src/App.jsx:791-794 | A failed save shows the server's non-empty `error`, or else the add or update default message. It is never empty |
| AppState.RegistrationCheck | src/App.jsx:84-92 | Registration goes ahead iff the password equals its confirmation. Otherwise the mismatch alert is shown |
| AppState.WithFilter | src/App.jsx:738-742 | A filter setter changes its own filter and no other |
| AppState.App.constructor | src/App.jsx:732-743 | The app starts on the library with nothing loaded or selected, no error, empty filters and sorting by `fechaCreacion` |
| AppState.App.BeginFetch | src/App.jsx:747-756 | Loading starts and the error is cleared. The request's query is the reference query of the filters of the render whose `fetchJuegos` runs, and nothing else changes |
| AppState.App.FetchSucceeded | src/App.jsx:759-769 | The loaded list is replaced by the answer and loading ends |
| AppState.App.RequestFailed | src/App.jsx:765-769 | The error message is shown and loading ends. Nothing else changes |
| AppState.App.BeginSaveGame | src/App.jsx:779-788 | From the add or edit screen, loading starts, the request is the save request for the draft and mode, and the view the handler closed over is returned |
| AppState.App.SaveGameSucceeded | src/App.jsx:796-803 | The closed-over view is 1 or 2, so the selection is never replaced; the library is shown, and coming from any other screen this re-runs the list-loading effect |
| AppState.App.BeginUpdateGame | src/App.jsx:811-817 | Loading starts, the request is the PUT of the given fields, and the selection and filters the handler closed over are returned |
| AppState.App.ToggleComplete | src/App.jsx:835-837 | Toggling sends a PUT of `completado: !juego.completado` to the game, closing over the current selection and filters |
| AppState.App.UpdateGameSucceeded | src/App.jsx:821-832 | When the closed-over selection has the answered id, the answer becomes the selection, otherwise the selection is kept. The list is fetched with the closed-over filters, and loading ends last |
| AppState.App.UpdateGameSucceededLive | src/App.jsx:821-832 | Corrected handler: the current selection is replaced only when it has the answered id, and the list is fetched with the current filters |
| AppState.StaleUpdateReplacesSelection | src/App.jsx:821-826 | Toggling game a, going back, searching and opening game b, the answer for a replaces b and the re-fetch sends only the default sort |
| AppState.LiveUpdateKeepsSelection | src/App.jsx:821-826 | With the corrected handler the same steps keep b selected and the re-fetch carries the search |
| AppState.SaveAnsweredAfterNavigation | src/App.jsx:796-800 | An edit answered after the user opened another game leaves that game selected |
| AppState.App.BeginDelete | src/App.jsx:839-842 | Without confirmation nothing happens. With it, loading starts and a DELETE is sent |
| AppState.App.DeleteSucceeded | src/App.jsx:844-851 | The library is shown, which re-runs the list-loading effect |
| AppState.App.ViewDetails | src/App.jsx:854-869 | A game, or the loaded game with the given id, becomes the selection and the detail screen opens. An id not in the list changes neither the selection nor the view |
| AppState.App.EditGame | src/App.jsx:871-874 | The game is selected and the edit screen opens |
| AppState.App.SetView | src/App.jsx:964-1002 | The back, cancel, login and registration links set the view to their screen's code and change nothing else |
| AppState.App.SubmitRegistration | src/App.jsx:84-92 | A mismatched confirmation changes nothing. A match shows the library |
| AppState.App.ReviewsChanged | src/App.jsx:976 | The review trigger advances, which on the library re-runs the list-loading effect |
| AppState.App.SetFilter | src/App.jsx:772-777 | One filter changes. On the library a new value re-runs the list-loading effect |
| AppState.NavScreen | src/App.jsx:151-178 | The Navbar links lead to the library, the add form, the dashboard and the login screen, never to the edit or detail screens |
| AppState.Navbar.constructor | src/App.jsx:144 | The menu starts closed |
| AppState.Navbar.ToggleMenu | src/App.jsx:159 | The toggle button flips the menu |
| AppState.Navbar.Navigate | src/App.jsx:145-148 | A link sets the app's view to its screen and closes the menu |
| Profile.HoursOf | src/components/PerfilView.jsx:33 | A game's hours count as 0 when missing |
| Profile.XpAppend | src/components/PerfilView.jsx:31-35 | Each game adds 50 XP, 150 more if completed, and 10 per recorded hour. Missing hours count as 0 |
| Profile.ISqrt | src/components/PerfilView.jsx:36 | The integer square root `r` satisfies r² ≤ x < (r+1)² |
| Profile.Level | src/components/PerfilView.jsx:36 | The level is at least 1. Below 100 XP it is 1. From 100 XP on, 100·L² ≤ xp < 100·(L+1)² |
| Profile.LevelIsLargest | src/components/PerfilView.jsx:36 | From 100 XP on, the level is the largest n with 100·n² ≤ xp |
| Profile.LevelMonotone | src/components/PerfilView.jsx:36 | More XP never gives a lower level |
| Profile.AddingGameKeepsLevel | src/components/PerfilView.jsx:31-36 | Adding a game with no negative hours never lowers the level |
| Profile.XpNeeded | src/components/PerfilView.jsx:38-41 | `xpNextLevel` exceeds `xpPrevLevel`, and their difference is 100·(2L+1) > 0 |
| Profile.XpWithinBand | src/components/PerfilView.jsx:36-39 | From 100 XP on, xp lies in [L²·100, (L+1)²·100) |
| Profile.XpProgressSign | src/components/PerfilView.jsx:36-40 | Progress over the threshold is negative below 100 XP, and from then on lies in [0, xpNeeded) |
| Profile.ClampedShare | src/components/PerfilView.jsx:42 | The clamp gives a value in [0, 100]: 0 for negative progress, the exact share inside the band |
| Profile.XpPercentage | src/components/PerfilView.jsx:36-42 | The XP bar is in [0, 100]. It is 0 below 100 XP, and from then on it is the exact percentage of the band covered, always under 100 |
| Profile.RoundHalfUpShare | src/components/PerfilView.jsx:45 | `(200c + t) div 2t` is within one half of 100c/t, halves rounded up, and lies in [0, 100] |
| Profile.RoundedShareExtremes | src/components/PerfilView.jsx:45 | The rounding of 100c/t is 100 when c = t and 0 when c = 0 |
| Profile.CompletionRate | src/components/PerfilView.jsx:45 | The rate is 0 for an empty library. Otherwise it is `round(100·completed/total)`, in [0, 100] |
| Profile.CompletionRateExtremes | src/components/PerfilView.jsx:45 | An all-completed library shows 100 and a none-completed one 0 |
| Profile.ChartData | src/components/PerfilView.jsx:46-53 | The donut slices are the completed and the pending games. Both are non-negative and they add up to the total |
| Profile.HeroGame | src/components/PerfilView.jsx:85 | The hero game is the first game, or none iff the list is empty |
| Profile.LogEntries | src/components/PerfilView.jsx:209 | The log shows the first min(5, n) games, in order |
| Profile.HeroIsFirstLogEntry | src/components/PerfilView.jsx:85 | There is a hero iff the log is non-empty, and the hero heads the log |
| Profile.AchievementDenominator | src/components/PerfilView.jsx:168 | The achievements bar divides by `logrosTotales`, or by 1 when that is missing or 0, so never by zero |
| Profile.AchievementPercent | src/components/PerfilView.jsx:168 | The bar width is obtained/denominator·100 when achievements were obtained, and NaN (`None`) when `logrosObtenidos` is missing |
| Profile.AvatarSrc | src/components/PerfilView.jsx:83 | The local preview wins, then the stored picture, then `DEFAULT_AVATAR`. The result is never empty |
| Profile.SyncPreview | src/components/PerfilView.jsx:21-25 | A truthy stored picture discards the preview. Otherwise the preview is kept |
| Profile.StoredPictureWinsAfterSync | src/components/PerfilView.jsx:21-25 | After the sync, a stored picture is what the avatar shows |
| Profile.DisplayNickname | src/components/PerfilView.jsx:113 | The nickname when set and non-empty, else "Agente" |
| Profile.DisplayPhrase | src/components/PerfilView.jsx:114 | The phrase when set and non-empty, else "Miembro de Plus Ultra" |
| Profile.EmailPrefix | src/components/PerfilView.jsx:191 | `email.split('@')[0]` is the longest prefix containing no '@': a prefix followed by '@' or by the end |
| Profile.EmailPrefixOfAddress | src/components/PerfilView.jsx:191 | The prefix of `name@domain` is `name`, for any `name` without '@' |
| Profile.FriendName | src/components/PerfilView.jsx:191 | The friend's nickname if non-empty, else the email prefix |
| Profile.FriendAvatar | src/components/PerfilView.jsx:189 | The friend's picture, else `DEFAULT_AVATAR` |
| Settings.TabName | src/components/SettingsView.jsx:53-76 | Every tab button sets one of the four tab names |
| Settings.TabNamesDistinct | src/components/SettingsView.jsx:53-76 | Distinct tabs have distinct names |
| Settings.InitialFormData | src/components/SettingsView.jsx:6-13 | The draft has exactly the six settings. Nickname and phrase come from the user, or `''` when missing or empty. The defaults are theme `dark`, streamer mode off, animations on and sound on |
| Settings.NicknameUpdate | src/components/SettingsView.jsx:29-31 | The nickname is forwarded iff the draft's nickname strictly differs from the stored one and a callback exists, and then it is the draft's nickname |
| Settings.UntouchedSaveSendsNothing | src/components/SettingsView.jsx:6-31 | Saving an untouched draft of a user who has a nickname forwards nothing |
| Settings.SaveWithoutStoredNickname | src/components/SettingsView.jsx:6-31 | For a user with no nickname, saving the untouched draft forwards `''`, because `''` is strictly different from `undefined` |
| Settings.EditedNicknameIsSent | src/components/SettingsView.jsx:17-31 | Typing a nickname different from the stored one and saving forwards that text |
| Settings.SettingsView.constructor | src/components/SettingsView.jsx:3-14 | The screen opens on the account tab with the seeded draft, not saving |
| Settings.SettingsView.HandleChange | src/components/SettingsView.jsx:17-23 | The draft takes the single-key merge, and the tab and saving flag are kept |
| Settings.SettingsView.SetTheme | src/components/SettingsView.jsx:133-140 | `theme` becomes `dark` or `light` and every other property is unchanged |
| Settings.SettingsView.SelectTab | src/components/SettingsView.jsx:53-76 | The tab becomes active, and the tab is always one of the four |
| Settings.SettingsView.Save | src/components/SettingsView.jsx:26-31 | Saving starts, and the forwarded nickname is exactly the one the comparison rule gives |
| Settings.SettingsView.SaveTimerFired | src/components/SettingsView.jsx:33-36 | When the timer fires, saving ends and nothing else changes |
| Settings.SettingsView.ReceiveUser | src/components/SettingsView.jsx:4-13 | A new user from the parent is compared against on the next save, but the draft is not re-seeded |

## Left out

- Network requests are not performed. Their responses, JSON parsing and the transport errors that reach `catch` are inputs of the `…Succeeded` and `RequestFailed` methods. This covers `src/App.jsx:387-400`, `747-770`, `779-852` and `684-698`.
- The review list's own fetch, `setIsAddingReview` and `setIsEditing` side effects are not modelled. Only the request each review handler sends is.
- The URL text is not modelled: `API_URL`, string interpolation and `URLSearchParams` percent-encoding. The query is the ordered list of pairs.
- The debounced title search (`src/App.jsx:238-258`), its 500 ms timer and what it fetches are not modelled, because they are timing. `FormState.searchResults` is only ever emptied by the model.
- The settings save timer and its alert are not modelled. `SaveTimerFired` is the timer's effect.
- Overlapping list fetches that resolve out of order are not modelled. Their order is concurrency.
- A re-render of `FormularioJuego` with new props is only modelled through `GameForm.Rerender`; `App` does not hold the form draft, so the Navbar move from view 2 to view 1 is stated on the form alone.
- Browser primitives are inputs or left out:
  - `window.confirm` is the `confirmed` parameter;
  - `alert` is the registration outcome's message;
  - `console` output is left out;
  - the avatar upload (`URL.createObjectURL`, the file input) only matters through the `localPreview` it sets;
  - font injection into `document.head` is left out.
- `new Date().getFullYear()` is the `currentYear` parameter.
- The review form's `handleChange` is not modelled. It applies `parseInt` to number inputs, which can give NaN, and NaN is not a modelled value.
- The browser's `min`/`max` validation of review scores is not modelled.
- `CompletionPercentage` is the exact ratio. Its display with `toFixed(1)`, which returns a string, is not modelled.
- Profile.XpPercentage, Profile.CompletionRate and Profile.Level are computed on exact numbers, not IEEE doubles. Level is an integer square root, and `Math.round` rounds exact halves up. Floating-point error near a level boundary or a rounding tie is not modelled.
- `Game` holds whole hours and achievements. Fractional hours would not be modelled.
- Profile.XpAppend and Profile.AddingGameKeepsLevel are stated for games whose optional numeric fields are integers.
- Numbers are integers throughout, and strict equality on values ignores NaN.
- `Object.entries` puts integer-like keys first. The histogram model keeps insertion order for every key, which only differs for a platform name such as `"1"`.
- `PerfilView`'s loading screen for a missing user is not modelled. Profile's functions take a loaded user.
- `friend.email` is taken to be present. `split` on a missing email throws in the source.
- The source re-renders after each state update. The model applies the updates in program order.
- All JSX markup, style objects and Chart.js rendering are not modelled.
- `src/components/Navbar.jsx` is pure markup and is not part of this model.
- `vite.config.js` (the dev proxy) and `src/main.jsx` (the render bootstrap) are not part of this model.

## Findings

| source | as written | input that shows it | evidently intended | confidence | as-written member | corrected member |
|---|---|---|---|---|---|---|
| src/App.jsx:821-826 | `handleUpdateGame` tests the `juegoSeleccionado` and calls the `fetchJuegos` of the render in which it was called | toggle game a on its detail screen, go back, type a search and open game b before the answer: the answer for a replaces b on b's detail screen, and the list is fetched without the search | replace the game on screen only when it is the updated one, and fetch with the current filters | medium, not executed | AppState.StaleUpdateReplacesSelection | AppState.LiveUpdateKeepsSelection |
