# SwachChain client logic, modelled in Dafny

SwachChain is a React client. A signed-in citizen photographs litter,
the page works out which city they are in, and the photo and city are sent
to a scoring service. The client also shows a city leaderboard, a profile
page and the score badge of a submitted report. This project models the
decision logic of that client and proves properties of it:

- the submission gate of the report form (`UploadForm`);
- the one-shot location resolver (`Location`);
- the leaderboard's filter, sort and direction toggle (`Leaderboard`);
- the classification tables: score to badge (`ScoreDisplay`), rank to card
  colour (`CityCard`), badge name to colour and caption (`Profile`), and
  sign-in flag to header links (`Header`);
- the small stores: the session context over browser storage (`Auth`), the
  upload page's result state (`UploadPage`) and the last-upload-status
  context (`InfoContext`).

`Js` holds the JavaScript semantics the components rely on: nullable values,
thrown errors, truthiness of strings, `||`, `toLowerCase` and `includes`.

Each source file becomes one module, in the file's own form. Pure
if-chains and ternaries are functions. Components and hooks whose state
fields are replaced by setters are classes. Their methods carry `modifies
this` and state the whole new state. The leaderboard's `.sort` is an
in-place insertion sort on a freshly allocated array. Browser and network
calls are not modelled. Their outcomes are parameters: the answer to the
POST in `SettleSubmit`, the geolocation and geocoder results in the
`LocationResolver` callbacks, and the storage contents in the
`AuthProvider` constructor. Toasts and outgoing requests are recorded in
sequences, so the contracts can say how many there were and in what order.

Facts about the code that shape the model:
- The upload form sends the location in a field named `city`.
- The camera handler never captures a frame and never stops the stream.
- No request id is checked before an asynchronous result is applied.
- Every failed POST yields the one message "Failed to upload report".
- `handleSubmit` itself does not refuse a second submission while one is
  in flight. Only the disabled button stands in the way.
- The form's props interface is empty, so the form never calls the
  `onSuccess` handler the upload page passes it.

## Model

| member | source | states |
|---|---|---|
| `Js.IncludesIff` | src/pages/Leaderboard.tsx:47 | the recursive `includes` holds exactly when the term occurs at some position of the name |
| `ScoreDisplay.GetBadgeInfo` | src/components/ScoreDisplay.tsx:13-18 | Gold iff score >= 90, Silver iff 70 <= score < 90, Bronze iff 50 <= score < 70, Standard iff score < 50 |
| `ScoreDisplay.BadgeMonotone` | src/components/ScoreDisplay.tsx:14-17 | a higher score never gets a lower badge |
| `ScoreDisplay.BadgeNameIdentifiesBadge` | src/components/ScoreDisplay.tsx:14-17 | two scores show the same badge name iff they get the same badge, colour included |
| `ScoreDisplay.DisplayedMessage` | src/components/ScoreDisplay.tsx:50 | a missing or empty message shows the thank-you text, any other message is shown verbatim; the line is never empty |
| `CityCard.GetBadgeColor` | src/components/CityCard.tsx:16-21 | yellow iff rank 1, slate iff rank 2, amber iff rank 3, muted iff any other rank |
| `CityCard.RankLabel` | src/components/CityCard.tsx:30 | the label is "#" followed by the decimal text of the rank |
| `CityCard.DecimalRoundTrip` | src/components/CityCard.tsx:30 | reading back the decimal text of a number gives that number |
| `CityCard.RankLabelRoundTrip` | src/components/CityCard.tsx:30 | parsing a card's label gives back exactly its rank, negative ranks included |
| `CityCard.RankLabelInjective` | src/components/CityCard.tsx:30 | two cards with the same label show the same rank |
| `Header.LoggedIn` | src/components/Header.tsx:6 | an absent `isLoggedIn` prop reads as false; a given one is used as is |
| `Header.NavItems` | src/components/Header.tsx:8-28 | no links iff logged out; three links when logged in; link paths are pairwise distinct, as list keys must be (line 44) |
| `Header.HomeRoute` | src/components/Header.tsx:9-29 | the logo leads to "/" iff logged out, and to "/home" when logged in |
| `Header.LoggedInNavOrder` | src/components/Header.tsx:12-28 | logged in, the links are Upload /upload, Leaderboard /leaderboard, Profile /profile, in that order |
| `Header.NavSeparateFromHome` | src/components/Header.tsx:8-29 | no link's path equals the logo's destination |
| `Leaderboard.FilterByName` | src/pages/Leaderboard.tsx:45-48 | every kept city matches the term case-insensitively; each city occurs exactly as often as in the input if it matches, and not at all otherwise |
| `Leaderboard.FilterIsSubset` | src/pages/Leaderboard.tsx:45-48 | the filtered list is a sub-multiset of the input |
| `Leaderboard.FilterEmptyTerm` | src/pages/Leaderboard.tsx:46-48 | an empty search term keeps every city in its original order |
| `Leaderboard.FilterIgnoresTermCase` | src/pages/Leaderboard.tsx:47 | two search terms that differ only in letter case give the same list |
| `Leaderboard.FilterLowerTerm` | src/pages/Leaderboard.tsx:47 | lower-casing the search term first changes nothing |
| `Leaderboard.InOrderTotal` | src/pages/Leaderboard.tsx:49-55 | the comparator orders any two cities one way or the other, and chains |
| `Leaderboard.SortByScore` | src/pages/Leaderboard.tsx:49-55 | after the in-place sort the array is ordered by score in the chosen direction and holds the same cities |
| `Leaderboard.FilteredCities` | src/pages/Leaderboard.tsx:45-55 | the listing is the matching subset of the input, as a permutation, sorted non-increasing under desc and non-decreasing under asc; it allocates a new array and modifies nothing that existed before |
| `Leaderboard.Toggle` | src/pages/Leaderboard.tsx:86-88 | the toggle always changes the direction |
| `Leaderboard.ToggleTwice` | src/pages/Leaderboard.tsx:86-88 | toggling twice restores the direction |
| `Leaderboard.InitialCitiesDescend` | src/pages/Leaderboard.tsx:19-32 | the declared cities are listed by descending score, and no two share a score |
| `Leaderboard.SortedUnique` | src/pages/Leaderboard.tsx:49-55 | two lists sorted the same way with the same contents are equal, when no two cities share a score |
| `Leaderboard.ListingDetermined` | src/pages/Leaderboard.tsx:42-55 | the listing is fixed by search term and direction alone, so the time-frame selection has no effect on it |
| `Leaderboard.DefaultListingIsDeclaredOrder` | src/pages/Leaderboard.tsx:40-55 | in the default state the page lists the twelve cities exactly as declared |
| `Leaderboard.LeaderboardPage.constructor` | src/pages/Leaderboard.tsx:40-42 | the search term starts empty, the direction desc, the time frame "all-time" |
| `Leaderboard.LeaderboardPage.SetSearchTerm` | src/pages/Leaderboard.tsx:77 | only the search term changes |
| `Leaderboard.LeaderboardPage.ToggleSortOrder` | src/pages/Leaderboard.tsx:86-88 | only the direction changes, to the other one |
| `Leaderboard.LeaderboardPage.SetTimeFrame` | src/pages/Leaderboard.tsx:98 | only the time frame changes |
| `Leaderboard.LeaderboardPage.Render` | src/pages/Leaderboard.tsx:36-121 | signed out, a redirect to "/"; otherwise the "No cities found" branch iff no city matches, else non-empty cards sorted in the current direction and a permutation of the matches |
| `Location.CityFromGeocode` | src/hooks/useLocation.ts:25 | the city field if truthy, else the locality if truthy, else "Unknown"; never empty |
| `Location.LocationResolver.constructor` | src/hooks/useLocation.ts:11-15 | starts with city null, loading true, error null, and no geocoding request |
| `Location.LocationResolver.RunEffect` | src/hooks/useLocation.ts:38-56 | runs only from the mounted phase and never returns to it; without geolocation settles on "Geolocation not supported" with city null |
| `Location.LocationResolver.OnPositionError` | src/hooks/useLocation.ts:43-49 | settles on "Location permission denied", loading false, city null |
| `Location.LocationResolver.OnPosition` | src/hooks/useLocation.ts:40-42 | issues exactly one geocoding request, with the coordinates received; the state is unchanged |
| `Location.LocationResolver.OnGeocodeData` | src/hooks/useLocation.ts:23-28 | settles on the fallback city name, loading false, error null |
| `Location.LocationResolver.OnGeocodeFailure` | src/hooks/useLocation.ts:29-34 | settles on "Failed to get city name" with the city still null |
| `Location.Outcome` | src/hooks/useLocation.ts:17-58 | every run ends not loading with exactly one of city and error present; each of the three messages arises exactly in its own branch; a city is never empty |
| `Location.Resolve` | src/hooks/useLocation.ts:17-58 | one mount driven through the callbacks ends in `Outcome`, with one geocoding request iff a position was obtained and none otherwise |
| `UploadForm.SubmitGate` | src/components/UploadForm.tsx:49-63 | missing image iff no file; missing location iff a file but no truthy city; otherwise a payload of exactly `image` = the file then `city` = the city |
| `UploadForm.GateMessage` | src/components/UploadForm.tsx:49-57 | a toast is shown iff a check fails: "Please select an image to upload" for a missing file, "Unable to determine your location" for a missing city |
| `UploadForm.FileCheckedFirst` | src/components/UploadForm.tsx:49-57 | with no file, only the missing-image message is shown, whatever the city |
| `UploadForm.SubmitDisabled` | src/components/UploadForm.tsx:152 | the button is enabled iff not submitting and the city is truthy |
| `UploadForm.EnabledButtonPassesLocationCheck` | src/components/UploadForm.tsx:54-57 | a click on an enabled button never fails the location check |
| `UploadForm.ResolvedCityPassesCheck` | src/components/UploadForm.tsx:54-57 | a city settled by the location hook is truthy, passes the check and enables the button |
| `UploadForm.UploadFormState.constructor` | src/components/UploadForm.tsx:13-15 | no file, no preview, not submitting, nothing sent or shown |
| `UploadForm.UploadFormState.HandleFileChange` | src/components/UploadForm.tsx:19-23 | an empty selection changes nothing; otherwise the file becomes the first one selected; nothing else changes |
| `UploadForm.UploadFormState.PreviewLoaded` | src/components/UploadForm.tsx:25-27 | only the preview changes, to the data URL read |
| `UploadForm.UploadFormState.HandleSubmit` | src/components/UploadForm.tsx:45-70 | a failed check adds its toast and sends nothing, leaving `isSubmitting` as it was; passing both raises `isSubmitting` and appends exactly one POST to /images/upload with the payload; the file is untouched |
| `UploadForm.UploadFormState.SettleSubmit` | src/components/UploadForm.tsx:71-76 | a failed request adds the single "Failed to upload report" toast; either way `isSubmitting` becomes false; the file is untouched |
| `UploadForm.SubmitOnce` | src/components/UploadForm.tsx:45-77 | one submission sends one POST iff both checks pass, shows exactly the toasts of its outcome, and ends with `isSubmitting` false |
| `Auth.GetItem` | src/context/AuthContext.tsx:13-14 | an absent key reads as null, a present one as its value |
| `Auth.InitialAuth` | src/context/AuthContext.tsx:12-16 | token and user id come from storage, yet `isSignedIn` is false |
| `Auth.LoginStorage` | src/context/AuthContext.tsx:19-20 | `token` becomes the response token and `userID` the user's id; every other key is untouched |
| `Auth.LogoutStorage` | src/context/AuthContext.tsx:28-29 | both keys are gone; every other key is untouched |
| `Auth.LoginState` | src/context/AuthContext.tsx:22-24 | the user becomes the response user and `isSignedIn` true; the record's token is left as it was |
| `Auth.LogoutState` | src/context/AuthContext.tsx:30-32 | the user becomes null and `isSignedIn` false; the record's token is left as it was |
| `Auth.SessionConsistentAlways` | src/context/AuthContext.tsx:12-32 | in the initial, logged-in and logged-out records, a signed-in record always holds an account object |
| `Auth.LogoutIdempotent` | src/context/AuthContext.tsx:27-33 | logging out twice equals logging out once, for storage and record |
| `Auth.LoginThenLogout` | src/context/AuthContext.tsx:19-29 | logging out after logging in leaves the storage as logging out alone would |
| `Auth.AuthProvider.constructor` | src/context/AuthContext.tsx:12-16 | the provider starts with the given storage and the initial record |
| `Auth.AuthProvider.Login` | src/context/AuthContext.tsx:18-25 | the storage and record become those of `LoginStorage` and `LoginState` |
| `Auth.AuthProvider.Logout` | src/context/AuthContext.tsx:27-33 | the storage and record become those of `LogoutStorage` and `LogoutState` |
| `UploadPage.UploadPageState.constructor` | src/pages/Upload.tsx:19-20 | not uploaded and no result |
| `UploadPage.UploadPageState.HandleUploadSuccess` | src/pages/Upload.tsx:22-25 | the result is stored and `isUploaded` is true |
| `UploadPage.UploadPageState.HandleReset` | src/pages/Upload.tsx:27-30 | back to the initial state |
| `UploadPage.UploadPageState.Render` | src/pages/Upload.tsx:15-67 | signed out, a redirect to "/"; otherwise the score view iff uploaded and a result is held, with the result's badge and message, else the form |
| `UploadPage.HeaderIgnoresSession` | src/pages/Upload.tsx:34 | the page's header gets no `isLoggedIn`, so it shows no links and the logo leads to "/" |
| `UploadPage.SuccessThenReset` | src/pages/Upload.tsx:22-30 | after a success the score view shows the result; after a reset the form is shown again |
| `Profile.UserRecord.Dummy` | src/pages/Profile.tsx:23-34 | the placeholder user's name, city, figures and badge counts |
| `Profile.UserRecord.Copy` | src/pages/Profile.tsx:95 | the spread copy has the same field values as the original |
| `Profile.BadgeColor` | src/pages/Profile.tsx:210-216 | Gold is yellow, Silver slate, any other name amber |
| `Profile.BadgeDescription` | src/pages/Profile.tsx:224-228 | Gold has the "80+" caption, Silver "60-79", any other name "40-59" |
| `Profile.BadgeRows` | src/pages/Profile.tsx:201-236 | one row per badge count, in order, with that badge's colour and caption |
| `Profile.RenderProfile` | src/pages/Profile.tsx:89-101 | signed out, a redirect to "/"; signed in, the user's name and city with the placeholder's score, reports, rank and badges; the placeholder object is not modified |
| `Profile.HandleLogout` | src/pages/Profile.tsx:103-106 | the provider's storage and record become those of logout |
| `Profile.ColorsAgreeAboveFifty` | src/pages/Profile.tsx:210-216 | the profile colour of the badge the score view awards matches the score view's colour iff the score is at least 50 |
| `Profile.CaptionsCoverAwardedScore` | src/pages/Profile.tsx:224-228 | the caption of the awarded badge covers the score only for 90 and up, 70 to 79, 50 to 59 and 40 to 49, so the two threshold tables stay separate |
| `InfoContext.StatusAfter` | src/context/InfoContext.tsx:33-47 | a success message gives status "success", an error message "error", the setter its argument; the message text plays no part |
| `InfoContext.LastCallWins` | src/context/InfoContext.tsx:38-52 | after any non-empty sequence of calls the status is determined by the last call alone |
| `InfoContext.InfoStore.constructor` | src/context/InfoContext.tsx:29 | the status starts null |
| `InfoContext.InfoStore.ShowSuccessMessage` | src/context/InfoContext.tsx:33-39 | the status becomes "success" whatever the message |
| `InfoContext.InfoStore.ShowErrorMessage` | src/context/InfoContext.tsx:41-47 | the status becomes "error" whatever the message |
| `InfoContext.InfoStore.SetLastUploadStatus` | src/context/InfoContext.tsx:29-52 | the status becomes the value passed |
| `InfoContext.UseInfoStore` | src/context/InfoContext.tsx:64-70 | throws "useInfoStore must be used within an InfoStoreProvider" iff there is no provider, otherwise returns the provider's store |

## Left out

- Camera access (`handleCapture`, src/components/UploadForm.tsx:32-43). It is hardware I/O that only opens a stream and binds it to the video element. Nothing is captured or released, so the form's state is not affected. Its failure toast "Unable to access camera" (line 40) is therefore not recorded in `toasts`.
- The `FileReader` decoding of the preview. The data URL is an opaque string handed to `PreviewLoaded`.
- `e.preventDefault()`, toast rendering (including the logout toast of src/pages/Profile.tsx:104), `console.log`/`console.error`, JSX layout, animation, icons, and Tailwind classes other than the mapped strings. These are presentation. The upload form's toast messages are recorded in order; the logout toast is not recorded.
- The POST's response body. The source only logs it, so `PostOutcome` says only whether the request succeeded.
- src/lib/axios.ts. The endpoint's base URL and the interceptors are not part of this model. The path is modelled as "/images/upload".
- The URL of the reverse-geocoding request. The model records the request's coordinates instead.
- JSON values of the geocoder's `city`/`locality` that are not strings. They are modelled as absent or a string.
- `UploadFormState.pending`: this field is not in the source. It counts the POSTs sent but not yet settled, so that `SettleSubmit` can only answer a request that was made. `Valid()` keeps it consistent with `isSubmitting` and with the number of POSTs.
- `LocationResolver.phase`: this field is not in the source. It stands for the callback the browser still holds. Its `requires` clauses encode that the browser calls the geolocation callbacks at most once, in that order. The effect's empty dependency list becomes "`RunEffect` only from `Mounted`".
- Leaderboard.SortByScore: does not state stability. JavaScript's `sort` is stable, and insertion sort is too, but the contract states only sortedness and permutation. Because the declared cities have distinct scores, `ListingDetermined` pins the order down anyway.
- `toLowerCase`: only ASCII letters are lower-cased. Unicode case mapping is not modelled.
- Numbers are integers. The scores, ranks and `score.toLocaleString()` (src/components/CityCard.tsx:37) are treated that way: fractional values, exponent notation for very large numbers, and locale grouping are not modelled.
- Profile.RenderProfile: requires `Auth.SessionConsistent(auth)`, a signed-in record holding an account object. `Auth.SessionConsistentAlways` proves every record the provider produces satisfies it. What the source would show for a bare stored id (the `user.name` of a string) is therefore never reached and is not modelled.
- The default value of `AuthContext` (src/context/AuthContext.tsx:4-8), used only outside a provider. Its `login`/`logout` do nothing.
- React's hook ordering: pages call `useState` after an early `return`. The model treats page state as existing whenever the page is rendered.
- The upload page's score view is unreachable in the running app. `UploadForm` never receives or calls `onSuccess`. The model keeps `HandleUploadSuccess` as the page defines it. No form method touches the page.
- src/components/AuthForm.tsx (a simulated login with a timer), src/components/RouterSafeLink.tsx (router context), and the static views (src/pages/Index.tsx, src/components/Footer.tsx, src/components/StepCard.tsx, src/pages/NotFound.tsx, src/components/ReportCard.tsx, including `formatDistanceToNow`). They contain no decision logic beyond a sign-in branch or styling.
- `mockReports` on the profile page: fixed display data with no logic.
