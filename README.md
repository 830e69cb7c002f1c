# Post-meeting generator client: a verified model of its page logic

This Dafny project models the browser client of the post-meeting content
generator. The client is a React application. The user links Google calendars,
chooses which upcoming events get a notetaker, reviews past meetings, and turns a
meeting into a follow-up email and social-media posts. It also manages the
LinkedIn and Facebook connections and the saved prompt presets (automations).

The model covers three things.

- **URL joining** (`src/utils/api.js`): `apiUrl` and `apiFetch`.
- **The application shell** (`src/App.jsx`):
  - the monotone `isLoggedIn` flag and the mount effect that sets it;
  - the route table the flag gates;
  - the navigation bar and the page-wrapper class.
- **The state of each page** (events, login, past meetings, meeting detail,
  settings). Each page is a `class` whose fields are the page's `useState`
  variables.

Every handler is a method that receives the server's answer as an
`Outcome` (`Success(value)` or `Failure`). A `Failure` stands for a thrown
`fetch` or a body that is not valid JSON. Each method's contract gives the
page's complete new state through `State()`: the fields that change and the
fact that nothing else does. A handler that holds a busy flag across its
`await` is split into a `Begin…` step and a `Finish…` step. The `Begin…` step
raises the flag and returns the request body. The `Finish…` step applies the
reply and lowers the flag.

The page logic uses a few pure operations, and these are proved on their own:
- `Lists.Filter` and `Lists.Find`: JavaScript's `filter` and `find`;
- `MeetingDetail.ReplaceById`: the `map` used by publish;
- `Flags.SetFlag`: the map spread of the notetaker flags;
- `Text.Trim`: JavaScript's `trim`;
- `Text.Contains`: `includes`;
- an in-place insertion sort for the newest-first order of past meetings.

Modules, one per source file plus shared helpers:

| module | file |
|---|---|
| `Outcomes` | `Option` and `Outcome` |
| `Text` | ASCII case folding, JavaScript `trim`, substring search, and the UTF-16 code units (`CodeUnit`, `JsString`, `EncodeChar`, `Encode`) that JavaScript strings are made of |
| `Lists` | `filter` and `find` on sequences |
| `Entities` | the records the pages hold |
| `Flags` | the notetaker flag map shared by the events and login pages |
| `Api` | `src/utils/api.js` |
| `Routing` | the pure part of `src/App.jsx` |
| `AppShell` | the `isLoggedIn` state of `src/App.jsx` |
| `Events` | `src/pages/EventsPage.jsx` |
| `Login` | `src/pages/LoginPage.jsx` |
| `PastMeetings` | `src/pages/PastMeetingsPage.jsx` |
| `MeetingDetail` | `src/pages/MeetingDetailPage.jsx` |
| `SettingsScreen` | `src/pages/SettingsPage.jsx` |

Three facts about the code that the model keeps:
- the Zoom label uses the case-sensitive `includes("zoom")`
  (`Events.VideoLabelIsCaseSensitive`);
- "Sign in with Google" only opens the OAuth URL in a new tab;
- toggling a notetaker sends one request and then updates the flag map.

## Model

| member | source | states |
|---|---|---|
| `Text.Contains` | src/pages/EventsPage.jsx:81 | `includes` is true exactly when the searched text occurs at some index of the string |
| `Text.TrimStart` | src/pages/SettingsPage.jsx:87 | the result is a suffix of the input, everything dropped is whitespace, and the result does not start with whitespace |
| `Text.TrimEnd` | src/pages/SettingsPage.jsx:87 | the result is a prefix of the input, everything dropped is whitespace, and the result does not end with whitespace |
| `Text.Trim` | src/pages/SettingsPage.jsx:87 | `trim()`: `TrimStart` then `TrimEnd`; `Text.TrimEmptyIffBlank` states when it gives "" |
| `Text.TrimEmptyIffBlank` | src/pages/SettingsPage.jsx:87 | `trim()` gives "" exactly when every character is ECMAScript whitespace or a line terminator |
| `Text.Encode` | src/pages/PastMeetingsPage.jsx:68 | the code units of a text; pinned down by `Text.EncodeChar`, `Text.EncodeAppend`, `Text.EncodeBmpLength` and `Text.EncodeAstralLength` |
| `Text.EncodeBmpLength` | src/pages/PastMeetingsPage.jsx:68 | text inside the Basic Multilingual Plane has one code unit per character |
| `Text.EncodeAstralLength` | src/pages/PastMeetingsPage.jsx:68 | text made only of characters above U+FFFF has two code units per character |
| `Lists.Filter` | src/pages/SettingsPage.jsx:118 | `filter` returns only elements of the input that pass the test, and every element that passes is kept |
| `Lists.FilterAppend` | src/pages/MeetingDetailPage.jsx:127-129 | filtering a concatenation is concatenating the filtered parts, so the kept elements stay in their original order |
| `Lists.FilterKeepsAll` | src/pages/SettingsPage.jsx:118 | a filter that every element passes returns the list unchanged |
| `Lists.Find` | src/pages/SettingsPage.jsx:130-131 | `find` gives nothing exactly when no element matches; otherwise it gives the first element that matches |
| `Lists.FindIgnoresRemovedMisses` | src/pages/SettingsPage.jsx:130-131 | removing only elements the search rejects does not change what `find` returns |
| `Lists.FindAfterRemovingHits` | src/pages/SettingsPage.jsx:219-221 | once every matching element is removed, `find` returns nothing |
| `Api.ApiBase` | src/utils/api.js:2 | the base is the environment variable's value, or "" when it is unset |
| `Api.IsAbsoluteHttpUrl` | src/utils/api.js:6 | the regular-expression test: the path starts with "http://" or "https://" in any ASCII letter case; `Api.SchemeTestIgnoresCase` and `Api.AbsoluteUrlExtends` state its behaviour |
| `Api.ApiUrl` | src/utils/api.js:4-8 | `apiUrl(path)`; its three cases are stated by `Api.ApiUrlOfEmptyPath`, `Api.ApiUrlOfPath`, `Api.ApiUrlWithoutBase` and `Api.ApiUrlIdempotentOnAbsoluteBase` |
| `Api.ApiUrlOfEmptyPath` | src/utils/api.js:5 | an empty or absent path yields the base unchanged |
| `Api.ApiUrlOfPath` | src/utils/api.js:5-7 | a non-empty path is prefixed by nothing when it starts with http:// or https:// and by the base otherwise; the URL always ends with the path |
| `Api.ApiUrlWithoutBase` | src/utils/api.js:2-7 | with no base configured, `apiUrl` is the identity on non-empty paths |
| `Api.AbsoluteUrlExtends` | src/utils/api.js:6 | the scheme test looks only at the start, so extending an absolute URL keeps it absolute |
| `Api.ApiUrlIdempotentOnAbsoluteBase` | src/utils/api.js:4-8 | with an absolute base every URL is absolute, and joining the result again changes nothing |
| `Api.SchemeTestIgnoresCase` | src/utils/api.js:6 | "HTTPS://" and "Http://" count as absolute; "/api/…" and "ftp://" do not |
| `Api.ApiFetch` | src/utils/api.js:10-14 | `apiFetch(path, options)` as the request it hands to `fetch`; `Api.ApiFetchRequest` states its URL and options |
| `Api.ApiFetchRequest` | src/utils/api.js:10-14 | `apiFetch` requests exactly `apiUrl(path)`; every caller option is kept and wins, and credentials "include" is added when the caller gives none |
| `Flags.IsChecked` | src/pages/EventsPage.jsx:91 | `!!flags[id]`, an own entry first and the inherited properties after; `Flags.AbsentIsUnchecked` and `Flags.InheritedNameIsChecked` state it |
| `Flags.SetFlag` | src/pages/EventsPage.jsx:43 | `{...prev, [id]: v}`; `Flags.SetFlagChangesOnlyId` and `Flags.SetFlagIdempotent` state it |
| `Flags.AbsentIsUnchecked` | src/pages/EventsPage.jsx:91 | an event id missing from the flag map shows an unticked checkbox, unless the id names a property every object inherits |
| `Flags.InheritedNameIsChecked` | src/pages/EventsPage.jsx:91 | an absent id such as "constructor" shows a ticked checkbox, because `flags[id]` reads the inherited property |
| `Flags.SetFlagChangesOnlyId` | src/pages/EventsPage.jsx:43 | `{...prev, [id]: v}` ticks the box of `id` exactly when `v` and leaves every other id's entry and checkbox as they were |
| `Flags.SetFlagIdempotent` | src/pages/EventsPage.jsx:43 | setting the same id to the same value twice gives the same map as setting it once |
| `Routing.StripTrailingSlashes` | src/App.jsx:89-103 | the router's view of a path: a prefix of it, with only slashes dropped and no trailing slash left |
| `Routing.MatchesRoot` | src/App.jsx:90 | the route "/" matches a non-empty path made only of slashes; `Routing.PublicPathsRouted` uses it |
| `Routing.MatchesStatic` | src/App.jsx:89-103 | a static route matches ignoring ASCII case and trailing slashes, as the router does: every route pattern is ASCII and its case-insensitive match folds ASCII letters only; `Routing.ProtectedPathsRouted` and `Routing.DetailPathRouted` exercise it |
| `Routing.DetailId` | src/App.jsx:100 | an extracted `:id` is non-empty, has no '/', and is what follows "/meetings/" (any letter case) in the path without its trailing slashes |
| `Routing.StripIgnoresAddedSlashes` | src/App.jsx:89-103 | appending slashes to a path does not change what the router matches |
| `Routing.DetailIdRoundTrip` | src/App.jsx:100 | "/meetings/" in any ASCII letter case, followed by any non-empty id without '/' and any trailing slashes, yields exactly that id |
| `Routing.RouteFor` | src/App.jsx:89-103 | the page the `<Routes>` block mounts; stated by `Routing.LoggedOutRoutesArePublic`, `Routing.ProtectedViewNeedsLogin`, `Routing.PublicPathsRouted`, `Routing.ProtectedPathsRouted` and `Routing.DetailPathRouted` |
| `Routing.LoggedOutRoutesArePublic` | src/App.jsx:90-103 | logged out, only the home and login pages are routed, and logging in keeps those two routes unchanged |
| `Routing.ProtectedViewNeedsLogin` | src/App.jsx:96-103 | a page that is routed only inside the `isLoggedIn` block is unreachable while logged out |
| `Routing.PublicPathsRouted` | src/App.jsx:90-94 | "/" and "/login" reach the home and login pages whatever the flag |
| `Routing.ProtectedPathsRouted` | src/App.jsx:96-101 | "/events", "/past-meetings" and "/settings" reach their pages when logged in and nothing when logged out |
| `Routing.DetailPathRouted` | src/App.jsx:100 | "/meetings/m1" passes id "m1" (also with other letter case and a trailing slash), only when logged in; "/meetings/" matches nothing |
| `Routing.Navigation` | src/App.jsx:19-51 | the links of the bar, or none on "/login"; stated by `Routing.NavigationLinksAreRouted` and `Routing.WrapperFollowsNavigation` |
| `Routing.PageWrapperClass` | src/App.jsx:53-58 | "" on "/login" and "page" elsewhere; stated by `Routing.WrapperFollowsNavigation` |
| `Routing.NavigationLinksAreRouted` | src/App.jsx:23-48 | away from "/login", every link of the bar leads to a routed page; the Login link is shown exactly when logged out, and then no link leads to a page that needs login; logged in, the bar leads to the events, past meetings and settings pages |
| `Routing.WrapperFollowsNavigation` | src/App.jsx:53-58 | the wrapper class is "" exactly on "/login", where the navigation bar is hidden, and "page" everywhere else |
| `AppShell.LinkedParamSet` | src/App.jsx:66 | `params.get("linked")` is truthy: present and non-empty; used by `AppShell.App.ApplyLinkedParam` |
| `AppShell.AccountsConfirmLogin` | src/App.jsx:73-75 | the check completed, the reply is ok, and its body is a non-empty array; used by `AppShell.App.ApplyAccountsCheck` |
| `AppShell.AccountsPathIsRelative` | src/App.jsx:72 | "/api/accounts" is not an http(s) URL, so `apiUrl` prefixes the base |
| `AppShell.AccountsCheckRequest` | src/App.jsx:72 | the accounts check requests the base followed by "/api/accounts", with credentials "include" |
| `AppShell.App.constructor` | src/App.jsx:61 | the user starts logged out |
| `AppShell.App.ApplyLinkedParam` | src/App.jsx:65-68 | a present, non-empty `linked` parameter logs the user in; otherwise the flag stays as it was |
| `AppShell.App.ApplyAccountsCheck` | src/App.jsx:70-80 | only a completed, ok reply whose body is a non-empty array logs the user in; anything else leaves the flag unchanged |
| `AppShell.App.Mount` | src/App.jsx:63-81 | after mounting, the user is logged in exactly when they already were, or `linked` is set, or the accounts check confirms; the flag never falls |
| `AppShell.App.MarkLoggedIn` | src/App.jsx:93 | the setter handed to the login page only ever sets the flag to true |
| `AppShell.App.CurrentRoute` | src/App.jsx:89-103 | a page that needs login is routed only while the flag is set |
| `AppShell.MountWithoutLogin` | src/App.jsx:61-81 | with no `linked` parameter and an unconfirmed accounts check, the user stays logged out and "/events" is not routed |
| `Events.EventsPage.constructor` | src/pages/EventsPage.jsx:5-7 | no events, no flags, not loading |
| `Events.EventsPage.BeginLoadEvents` | src/pages/EventsPage.jsx:15 | loading is true while the events request is outstanding; nothing else changes |
| `Events.EventsPage.FinishLoadEvents` | src/pages/EventsPage.jsx:16-23 | a decoded list replaces the events, a failure keeps the previous ones, and loading ends either way |
| `Events.EventsPage.LoadFlags` | src/pages/EventsPage.jsx:26-34 | a decoded map replaces the flags; a failure keeps them |
| `Events.EventsPage.ToggleFlag` | src/pages/EventsPage.jsx:36-47 | sends `{id, enabled: v}`; a completed request sets the flag of `id` to `v`, so its checkbox shows `v`, and a failed one leaves every flag unchanged |
| `Events.EventsPage.Checked` | src/pages/EventsPage.jsx:91 | the checkbox of an event, `Flags.IsChecked` on the page's flags; `Events.EventsPage.ToggleFlag` states its value after a toggle |
| `Events.VideoLabel` | src/pages/EventsPage.jsx:79-83 | no label without a link; "Zoom" exactly when the link contains lower-case "zoom"; "Video" otherwise |
| `Events.VideoLabelIsCaseSensitive` | src/pages/EventsPage.jsx:81 | a link spelled "ZOOM" is labelled "Video" |
| `Login.LoginPage.constructor` | src/pages/LoginPage.jsx:5-8 | no auth URL, accounts, events or flags yet; the parent's flag is the one the page updates |
| `Login.LoginPage.LoadAuthUrl` | src/pages/LoginPage.jsx:11-14 | the reply's url is stored; a failure is swallowed and changes nothing |
| `Login.LoginPage.LoadFlags` | src/pages/LoginPage.jsx:17-20 | a decoded map replaces the flags; a failure keeps them |
| `Login.LoginPage.LoadAccounts` | src/pages/LoginPage.jsx:23-27 | a decoded list replaces the accounts; a rejected request never reaches the update |
| `Login.LoginPage.LoadEvents` | src/pages/LoginPage.jsx:29-33 | a decoded list replaces the events; a rejected request never reaches the update |
| `Login.LoginPage.LinkAccount` | src/pages/LoginPage.jsx:35-38 | the auth URL is opened exactly when it is present and non-empty; otherwise the page alerts "no auth url yet" and opens nothing |
| `Login.LoginPage.ToggleFlag` | src/pages/LoginPage.jsx:40-50 | only a completed request sets the flag of `id` to `v`, so its checkbox shows `v`, and logs the user in; a thrown one changes neither |
| `Login.LoginPage.Checked` | src/pages/LoginPage.jsx:109 | the checkbox of an event, `Flags.IsChecked` on the page's flags; `Login.LoginPage.ToggleFlag` states its value after a toggle |
| `MeetingDetail.RequestTranscript` | src/pages/MeetingDetailPage.jsx:64 | the request transcript is the meeting's transcript when it has one, and "" otherwise |
| `MeetingDetail.ReplaceById` | src/pages/MeetingDetailPage.jsx:107 | publishing keeps the length and order; each post with the published id becomes the returned post, and every other post is unchanged |
| `MeetingDetail.ReplaceByIdStable` | src/pages/MeetingDetailPage.jsx:107 | replacing by a post with the same id is idempotent, and an id no post has leaves the list unchanged |
| `MeetingDetail.AutomationsFor` | src/pages/MeetingDetailPage.jsx:127-129 | `automations.filter(a => a.platform === platform)`; stated by `MeetingDetail.AutomationsForSelectsPlatform` |
| `MeetingDetail.AutomationsForSelectsPlatform` | src/pages/MeetingDetailPage.jsx:127-129 | the offered automations are exactly those of the selected platform, in their original order |
| `MeetingDetail.ShowsPublish` | src/pages/MeetingDetailPage.jsx:249 | the Publish button shows only for a draft; `MeetingDetail.PublishScenario` uses it |
| `MeetingDetail.CopyCaption` | src/pages/MeetingDetailPage.jsx:263 | a post's button reads "Copied!" exactly when it is the copied post, and "Copy" otherwise |
| `MeetingDetail.PublishScenario` | src/pages/MeetingDetailPage.jsx:249 | publishing the single draft replaces it with the published post, and the published post shows no Publish button |
| `MeetingDetail.MeetingDetailPage.constructor` | src/pages/MeetingDetailPage.jsx:6-16 | loading, with no meeting, posts, email or automations, LinkedIn selected and no automation chosen |
| `MeetingDetail.MeetingDetailPage.LoadMeeting` | src/pages/MeetingDetailPage.jsx:25-34 | the decoded meeting replaces the old one, a failure keeps it, and loading ends either way |
| `MeetingDetail.MeetingDetailPage.LoadPosts` | src/pages/MeetingDetailPage.jsx:36-44 | a decoded list replaces the posts; a failure keeps them |
| `MeetingDetail.MeetingDetailPage.LoadAutomations` | src/pages/MeetingDetailPage.jsx:46-54 | a decoded list replaces the automations; a failure keeps them |
| `MeetingDetail.MeetingDetailPage.BeginGenerateEmail` | src/pages/MeetingDetailPage.jsx:56-66 | `generatingEmail` is raised, and the request carries the meeting id and its transcript, or "" when there is none |
| `MeetingDetail.MeetingDetailPage.FinishGenerateEmail` | src/pages/MeetingDetailPage.jsx:67-73 | the reply's email is shown, or the fixed error text on failure; `generatingEmail` falls either way |
| `MeetingDetail.MeetingDetailPage.BeginGeneratePost` | src/pages/MeetingDetailPage.jsx:76-88 | `generatingPost` is raised, and the request carries the selected platform and automation, with no automation sent as null |
| `MeetingDetail.MeetingDetailPage.FinishGeneratePost` | src/pages/MeetingDetailPage.jsx:89-96 | success appends the new post after the earlier ones and resets the selection to LinkedIn with no automation; failure keeps posts and selection; `generatingPost` falls either way |
| `MeetingDetail.MeetingDetailPage.PublishPost` | src/pages/MeetingDetailPage.jsx:99-111 | requests "/api/posts/<id>/publish"; success replaces the posts with that id, and failure leaves the list unchanged |
| `MeetingDetail.MeetingDetailPage.SelectPlatform` | src/pages/MeetingDetailPage.jsx:176-179 | choosing a platform clears the selected automation |
| `MeetingDetail.MeetingDetailPage.SelectAutomation` | src/pages/MeetingDetailPage.jsx:192 | only the selected automation changes |
| `MeetingDetail.MeetingDetailPage.CopyToClipboard` | src/pages/MeetingDetailPage.jsx:113-115 | the copied post, and only that post, shows "Copied!" |
| `MeetingDetail.MeetingDetailPage.CopiedTimerFired` | src/pages/MeetingDetailPage.jsx:116 | after the 2000 ms timer every post shows "Copy" again |
| `MeetingDetail.MeetingDetailPage.FilteredAutomations` | src/pages/MeetingDetailPage.jsx:127-129 | every offered automation is one of the page's and belongs to the selected platform, and each automation of that platform is offered |
| `PastMeetings.SwapWithPrevious` | src/pages/PastMeetingsPage.jsx:20 | exchanges two neighbouring meetings and keeps the array a permutation of itself |
| `PastMeetings.InsertAt` | src/pages/PastMeetingsPage.jsx:20 | extends the newest-first prefix by one element, leaves the rest alone and keeps a permutation |
| `PastMeetings.SortNewestFirst` | src/pages/PastMeetingsPage.jsx:20 | the array ends ordered by non-increasing start time and is a permutation of the fetched one |
| `PastMeetings.PastMeetingsPage.constructor` | src/pages/PastMeetingsPage.jsx:7-8 | no meetings, not loading |
| `PastMeetings.PastMeetingsPage.BeginLoadMeetings` | src/pages/PastMeetingsPage.jsx:15 | loading is true while the request is outstanding |
| `PastMeetings.PastMeetingsPage.FinishLoadMeetings` | src/pages/PastMeetingsPage.jsx:14-26 | success stores the fetched meetings newest first, as a permutation of what was fetched; failure keeps the previous list; loading ends either way |
| `PastMeetings.DescriptionPreview` | src/pages/PastMeetingsPage.jsx:63-70 | a preview is shown exactly for a non-empty description and is its first 100 UTF-16 code units (or all of a shorter one) followed by "..." |
| `PastMeetings.BmpPreviewCountsCharacters` | src/pages/PastMeetingsPage.jsx:68 | for text in the Basic Multilingual Plane the preview keeps the first 100 characters |
| `PastMeetings.AstralPreviewKeepsHalf` | src/pages/PastMeetingsPage.jsx:68 | a description of 101 emoji U+1F600 keeps only 50 of them, since each takes two code units |
| `Text.EncodeChar` | src/pages/PastMeetingsPage.jsx:68 | a character is one code unit below U+10000 and otherwise a high and a low surrogate from which it is recovered |
| `Text.EncodeAppend` | src/pages/PastMeetingsPage.jsx:68 | encoding a concatenation is concatenating the encodings |
| `PastMeetings.TranscriptBadge` | src/pages/PastMeetingsPage.jsx:73-79 | the card mentions "Transcript" exactly when the meeting has one |
| `SettingsScreen.AccountFor` | src/pages/SettingsPage.jsx:130-131 | the first account on a platform; stated by `SettingsScreen.ButtonCaption` and `SettingsScreen.DisconnectKeepsOtherPlatforms` |
| `SettingsScreen.Disconnected` | src/pages/SettingsPage.jsx:219-221 | the accounts kept after disconnecting; stated by `SettingsScreen.DisconnectKeepsOtherPlatforms` |
| `SettingsScreen.WithoutAutomation` | src/pages/SettingsPage.jsx:118 | the automations kept after deleting an id; stated by `SettingsScreen.DeleteRemovesOnlyThatId` |
| `SettingsScreen.DisconnectKeepsOtherPlatforms` | src/pages/SettingsPage.jsx:219-221 | disconnecting drops exactly that platform's accounts and keeps the others in order; afterwards that platform shows none, and the other platform shows the same account as before |
| `SettingsScreen.DeleteRemovesOnlyThatId` | src/pages/SettingsPage.jsx:118 | deleting removes every automation with that id and keeps all others in order |
| `SettingsScreen.ButtonCaption` | src/pages/SettingsPage.jsx:243 | a platform's button reads "Disconnect" exactly when some account of that platform exists, and "Connect" otherwise |
| `SettingsScreen.SettingsOrDefault` | src/pages/SettingsPage.jsx:43 | a null settings reply gives a join lead of 5 minutes; any other reply is kept as sent |
| `SettingsScreen.NameMissing` | src/pages/SettingsPage.jsx:87 | `!newAutomation.name.trim()`; `SettingsScreen.NameMissingIffBlank` states when it holds |
| `SettingsScreen.NameMissingIffBlank` | src/pages/SettingsPage.jsx:87 | a name is refused exactly when it is empty or all whitespace |
| `SettingsScreen.SettingsPage.constructor` | src/pages/SettingsPage.jsx:8-19 | a join lead of 5, loading, no banner, an empty LinkedIn form, nothing busy |
| `SettingsScreen.SettingsPage.ApplyOAuthParams` | src/pages/SettingsPage.jsx:27-36 | a truthy `error` parameter sets an error banner and otherwise a truthy `success` parameter sets a success banner; with neither, nothing changes |
| `SettingsScreen.SettingsPage.MessageTimerFired` | src/pages/SettingsPage.jsx:31 | the 3000 ms timer clears the banner and nothing else |
| `SettingsScreen.SettingsPage.LoadSettings` | src/pages/SettingsPage.jsx:39-47 | a decoded reply replaces the settings, with null meaning the default; a failure keeps them |
| `SettingsScreen.SettingsPage.LoadAutomations` | src/pages/SettingsPage.jsx:49-58 | a decoded list replaces the automations, and the page stops loading whatever the outcome |
| `SettingsScreen.SettingsPage.LoadSocialAccounts` | src/pages/SettingsPage.jsx:60-68 | a decoded list replaces the social accounts; a failure keeps them |
| `SettingsScreen.SettingsPage.SetJoinLeadMinutes` | src/pages/SettingsPage.jsx:160-165 | the slider changes only the join lead |
| `SettingsScreen.SettingsPage.BeginSaveSettings` | src/pages/SettingsPage.jsx:70-77 | `saving` is raised and the current settings are sent |
| `SettingsScreen.SettingsPage.FinishSaveSettings` | src/pages/SettingsPage.jsx:78-83 | alerts "Settings saved!" or "Error saving settings", and `saving` falls either way |
| `SettingsScreen.SettingsPage.EditPlatform` | src/pages/SettingsPage.jsx:346-348 | the platform select changes only the form's platform; name, prompt and every other field are kept |
| `SettingsScreen.SettingsPage.EditName` | src/pages/SettingsPage.jsx:365-367 | the name input changes only the form's name |
| `SettingsScreen.SettingsPage.EditPrompt` | src/pages/SettingsPage.jsx:381-386 | the prompt textarea changes only the form's custom prompt |
| `SettingsScreen.SettingsPage.BeginCreateAutomation` | src/pages/SettingsPage.jsx:86-101 | a blank name alerts and sends nothing and changes nothing; otherwise `creatingAutomation` is raised and the form's platform, name and custom prompt (as `prompt`) are sent |
| `SettingsScreen.SettingsPage.FinishCreateAutomation` | src/pages/SettingsPage.jsx:102-110 | success appends the created automation and resets the form, failure keeps both; `creatingAutomation` falls either way |
| `SettingsScreen.SettingsPage.DeleteAutomation` | src/pages/SettingsPage.jsx:113-124 | without confirmation nothing is requested or changed; a confirmed delete requests "/api/automations/<id>"; a completed one removes that id's automations; a rejected one only alerts |
| `SettingsScreen.SettingsPage.PlatformButton` | src/pages/SettingsPage.jsx:211-243 | with an account shown, a confirmed, completed disconnect drops the platform's accounts and shows "<Name> disconnected", and a rejected one alerts; without an account it redirects to the OAuth URL, or alerts on failure |

## Left out

- Foreign calls are not modelled: `fetch`, JSON decoding, `alert`, `confirm`, `window.open`, `window.location.href` and `navigator.clipboard.writeText`.
  - Each server call is an `Outcome` parameter.
  - `confirm` is a boolean parameter.
  - Alerts, the opened tab and the redirect are returned values.
- Replies of the wrong shape are not modelled. The pages never check `r.ok`; they store whatever JSON the body holds. An error object from a non-ok reply replaces the events (`src/pages/EventsPage.jsx:19`), the meeting (`src/pages/MeetingDetailPage.jsx:29`), the settings (`src/pages/SettingsPage.jsx:43`) and the other loaded lists. The model's replies are always records of the expected type, so each "a failure keeps …" contract covers only a thrown fetch and a body that is not valid JSON. The exception is the past-meetings page, where `j.sort` throws on a non-array and the catch keeps the list; its `Failure` covers that case too. Only `App.jsx` checks `r.ok`, and `AppShell.AccountsReply` models that check.
- A reply that lacks `j.post`, `j.email` or `j.automation` is not modelled. The source would store `undefined`; the model always stores a record.
- Timers are explicit steps: `CopiedTimerFired` and `MessageTimerFired`. Real time and timer cancellation are not modelled.
  - With two copies less than 2000 ms apart, the first copy's timer clears the second copy's "Copied!" early. The model admits that order of steps but does not name it.
- Async interleaving is not modelled: overlapping requests, stale closures and responses that arrive after unmount.
  - Each handler is one atomic step, or a begin/finish pair around its single await.
  - The mount effects are separate load steps.
- Dates and locales are not modelled. `Meeting.start` is an integer timestamp, and invalid dates (for which the comparator yields NaN) are not modelled.
- PastMeetings.SortNewestFirst: stability is not proved. `Array.prototype.sort` keeps equal start times in their fetched order; the contract gives only the order and the permutation.
- PastMeetings.PastMeetingsPage.FinishLoadMeetings: the stored order of meetings with equal start times is not pinned down (see the line above).
- Rendering is not modelled: JSX, styles and class names. The exceptions are the captions, the navigation links and the wrapper class listed above.
- `src/pages/HomePage.jsx` is presentational and is not part of this model.
- `../config` (`API_URL`) is not part of this model. Only the past-meetings and settings pages prefix it to their request paths; the events, login and meeting-detail pages fetch bare paths. The model omits the prefix and records only the path.
- The test-only expectations are not modelled: the `🟦` platform icon, aria-labelled buttons and attendee lists. The pages do not implement them.
- React Router's URL decoding of `:id` is not modelled.
- The request headers and HTTP methods of POST and DELETE calls are not modelled. Only the request bodies are, and the two paths that carry an id: publishing a post and deleting an automation.
- Meeting-link resolution, recording-bot scheduling and bot-status polling do not happen in this client, so they are not modelled.
- Console logging in the catch blocks is not modelled.
