# Travel onboarding wizard and dashboard — a Dafny model

This project models the two pieces of behaviour in a small travel web
application that can be stated apart from its rendering:

- the onboarding wizard (`NameForm`): four pages that collect a title and a
  name, the current location, the destination and the reason for travelling.
  The next button advances a page or, on page 4, opens the dashboard; the back
  button goes one page back but never below page 1; navigating to the root path
  resets the form. While the location or destination is typed, a place search
  fills a suggestion list with the display names of the city entries of the
  response, and clicking a suggestion copies it into the field.
- the dashboard (`Dashboard` in `layout.tsx`): a greeting chosen by the hour,
  pictures chosen by looking for one of six city names in the lowercased
  location and destination, three cards of which at most one is expanded,
  and a chat log. Submitting a non-blank message appends it with a
  placeholder. A timer later removes the placeholders and appends a templated
  reply.

Files:

- `text.dfy` (module `Text`): the JavaScript string built-ins the components
  use. These are `toLowerCase` (ASCII letters), `includes` and `trim` (the
  ECMAScript white-space and line-terminator characters).
- `onboarding.dfy` (module `Onboarding`): the place-search filter, the form
  state as a value (`FormState`) with its transitions `Next`, `Previous` and
  `Reset`, and the class `NameForm`. The class holds the component's state
  variables and has one method per event handler. Each method's `ensures` ties
  the new state to the transition applied to the old one.
- `dashboard.dfy` (module `Layout`): the greeting, the picture lookups, the card
  toggle, the chat log functions and the class `Dashboard`.

Modelling choices:

- The outcome of a place search is an input value, `Failure` or
  `Success(entries)`. Typing into a field (`ChangeLocation`) and the search
  settling (`LocationSearchSettled`) are separate events, since the response
  arrives later.
- The 500 ms transition inside `handleNext` is applied at once, as part of
  `HandleNext`.
- The 1000 ms reply timer is the method `DeliverReply`. A ghost counter,
  `pendingReplies`, counts the timers scheduled and not yet fired. The
  invariant `Valid()` says there are never more placeholders than pending
  replies, so once every reply has arrived no placeholder is left.
- The hour is a parameter of `Greeting`.

Behaviour of the code worth knowing:

- `resetForm` clears neither the location nor the suggestions (`NameForm.tsx`
  lines 25-32).
- The dashboard receives the name `` `${title} ${name}` `` (line 80), so a
  chosen title appears in the greeting ("Mr. Sam"), and with no title chosen
  the name keeps a leading space.
- The filter test `type === 'city' || class === 'boundary' && type === 'administrative'`
  groups as `city || (boundary && administrative)`, because `&&` binds tighter.
  So a city entry passes whatever its class.
- Clicking the same card twice restores the previous state only when no other
  card was expanded before the first click. If another card was open, two
  clicks leave every card collapsed (`ToggleTwice`,
  `ToggleTwiceFromOtherCard`).

## Model

| member | source | states |
|---|---|---|
| `Text.LowerChar` | app/components/layout/layout.tsx:41 | an ASCII capital becomes the small letter at the same alphabet position; every other character is kept |
| `Text.Lower` | app/components/layout/layout.tsx:41 | lowercasing keeps the length and maps each character by `LowerChar` |
| `Text.LowerIdempotent` | app/components/layout/layout.tsx:41 | lowercasing twice equals lowercasing once |
| `Text.LowerHasNoCapitals` | app/components/layout/layout.tsx:41 | no ASCII capital is left after lowercasing |
| `Text.Includes` | app/components/layout/layout.tsx:42-47 | `String.prototype.includes`: a key that is a prefix is included, an included key is no longer than the string; the exact meaning is `IncludesIff` |
| `Text.IncludesIff` | app/components/layout/layout.tsx:42 | `includes` holds exactly when the key occurs at some position of the string |
| `Text.TrimStart` | app/components/layout/layout.tsx:88 | the result is the suffix that starts at the first non-white-space character; everything dropped is white space |
| `Text.TrimEnd` | app/components/layout/layout.tsx:88 | the result is the prefix that ends at the last non-white-space character; everything dropped is white space |
| `Text.Trim` | app/components/layout/layout.tsx:88 | `trim()` is `TrimEnd` of `TrimStart`: no longer than the input, with no white space left at either end |
| `Text.TrimEmptyIff` | app/components/layout/layout.tsx:88 | `trim()` yields the empty string exactly when every character is white space |
| `Text.TrimIsInnerPiece` | app/components/layout/layout.tsx:88 | the trimmed text is a contiguous piece of the input with no white space at either end |
| `Onboarding.IsCityResult` | app/components/NameForm.tsx:66-69 | the filter test `city || (boundary && administrative)`: every city entry passes, only city or administrative entries pass, and an administrative entry passes exactly when its class is boundary |
| `Onboarding.CityDisplayNames` | app/components/NameForm.tsx:66-71 | at most one suggestion per entry; as many suggestions as entries exactly when every entry passes; none exactly when no entry passes |
| `Onboarding.CityIndices` | app/components/NameForm.tsx:66-69 | the entries that pass the filter, as strictly increasing indices, every passing index included |
| `Onboarding.CityDisplayNamesAppend` | app/components/NameForm.tsx:66-71 | filtering a concatenation is concatenating the filtered parts |
| `Onboarding.CityDisplayNamesSelectsInOrder` | app/components/NameForm.tsx:66-71 | the k-th suggestion is the display name of the k-th passing entry, one per passing entry (duplicates kept, order kept) |
| `Onboarding.CityDisplayNamesMembership` | app/components/NameForm.tsx:66-71 | a name is suggested exactly when some passing entry carries it |
| `Onboarding.SuggestionsFor` | app/components/NameForm.tsx:57-76 | a failed search leaves no suggestions; a successful one suggests exactly the display names of passing entries, no more of them than entries |
| `Onboarding.Next` | app/components/NameForm.tsx:40-51 | suggestions emptied; steps 1-3 advance by one with the dashboard unchanged; step 4 stays 4 and opens the dashboard; validity kept; no other field changes |
| `Onboarding.Previous` | app/components/NameForm.tsx:53-55 | step becomes max(1, step-1), a no-op at step 1, validity kept, no other field changes |
| `Onboarding.Reset` | app/components/NameForm.tsx:25-32 | step 1, empty title, name, destination and reason, dashboard hidden; location and suggestions unchanged |
| `Onboarding.ResetIdempotent` | app/components/NameForm.tsx:25-32 | resetting twice equals resetting once |
| `Onboarding.ResetKeepsOnlyLocationAndSuggestions` | app/components/NameForm.tsx:25-32 | two states reset alike exactly when they agree on location and suggestions |
| `Onboarding.ResetOfInitial` | app/components/NameForm.tsx:8-32 | the initial state is a fixed point of reset; a reset state is the initial one exactly when location and suggestions are empty |
| `Onboarding.PreviousUndoesNext` | app/components/NameForm.tsx:40-55 | from steps 1-3, back after next returns to the same state with the suggestions emptied |
| `Onboarding.NextUndoesPrevious` | app/components/NameForm.tsx:40-55 | from steps 2-4, next after back returns to the same state with the suggestions emptied |
| `Onboarding.Advance` | app/components/NameForm.tsx:40-51 | any number of next presses keeps the step in 1..4 and the drop-downs on their options |
| `Onboarding.AdvanceWithinForm` | app/components/NameForm.tsx:40-51 | the first 4-step presses each advance one page, leave the dashboard alone and change nothing but step and suggestions |
| `Onboarding.AdvanceOpensDashboard` | app/components/NameForm.tsx:40-51 | from step n exactly 5-n presses open the dashboard, the step ending at 4; fewer presses do not open it |
| `Onboarding.ProgressPercent` | app/components/NameForm.tsx:298 | the bar width is (step-1)/4 of 100 percent: 0 exactly at step 1, within 0..75 for steps 1..4 |
| `Onboarding.ProgressIncreases` | app/components/NameForm.tsx:298 | a later step gives a strictly wider bar |
| `Onboarding.DashboardName` | app/components/NameForm.tsx:80 | the name passed on is the title, one space, then the name, each recoverable from its position |
| `Onboarding.NameForm.constructor` | app/components/NameForm.tsx:8-15 | the form starts on step 1, all text fields empty, no suggestions, dashboard hidden |
| `Onboarding.NameForm.HandleNext` | app/components/NameForm.tsx:40-51 | the new state is `Next` of the old one; validity kept |
| `Onboarding.NameForm.HandlePrevious` | app/components/NameForm.tsx:53-55 | the new state is `Previous` of the old one; validity kept |
| `Onboarding.NameForm.ResetForm` | app/components/NameForm.tsx:25-32 | the new state is `Reset` of the old one and valid |
| `Onboarding.NameForm.PathnameChanged` | app/components/NameForm.tsx:34-38 | on a change of path, the form resets exactly when the new path is the root; otherwise nothing changes |
| `Onboarding.NameForm.ChangeTitle` | app/components/NameForm.tsx:104-112 | only the title changes, to one of the drop-down's options |
| `Onboarding.NameForm.ChangeName` | app/components/NameForm.tsx:116-122 | only the name changes |
| `Onboarding.NameForm.ChangeLocation` | app/components/NameForm.tsx:150-156 | only the location changes |
| `Onboarding.NameForm.ChangeDestination` | app/components/NameForm.tsx:201-207 | only the destination changes |
| `Onboarding.NameForm.ChangeTravelReason` | app/components/NameForm.tsx:266-274 | only the reason changes, to one of the drop-down's options |
| `Onboarding.NameForm.LocationSearchSettled` | app/components/NameForm.tsx:57-76 | only the suggestions change, to `SuggestionsFor` the outcome (empty on failure) |
| `Onboarding.NameForm.SelectLocationSuggestion` | app/components/NameForm.tsx:165-168 | for one of the listed suggestions: location becomes the clicked suggestion, suggestions emptied, nothing else changes |
| `Onboarding.NameForm.SelectDestinationSuggestion` | app/components/NameForm.tsx:216-219 | for one of the listed suggestions: destination becomes the clicked suggestion, suggestions emptied, nothing else changes |
| `Onboarding.NameForm.Progress` | app/components/NameForm.tsx:295-299 | the form's bar is within 0..75 percent and equals (step-1)/4 of 100 |
| `Layout.Greeting` | app/components/layout/layout.tsx:32-37 | "Good morning" exactly before 12, "Good afternoon" exactly from 12 to 17, "Good evening" exactly from 18 on |
| `Layout.FirstKey` | app/components/layout/layout.tsx:42-47 | the position found holds a key that occurs, and no earlier key occurs; past the end when none occurs |
| `Layout.ImageFor` | app/components/layout/layout.tsx:40-48 | the fallback when no key occurs in the lowercased name; otherwise the picture of the first key that occurs |
| `Layout.DefaultsAreNoCityImage` | app/components/layout/layout.tsx:42-59 | neither default address is one of the six city pictures, so a default is returned only when no key matches |
| `Layout.DestinationImage` | app/components/layout/layout.tsx:40-49 | the destination default exactly when no key occurs in the lowercased destination; otherwise one of the city pictures |
| `Layout.LocationImage` | app/components/layout/layout.tsx:51-60 | the location default exactly when no key occurs in the lowercased location; otherwise one of the city pictures |
| `Layout.LookupsAgreeExceptDefault` | app/components/layout/layout.tsx:40-60 | both lookups agree on any name containing a key; otherwise each returns its own default, and the two defaults differ |
| `Layout.ImageIgnoresCase` | app/components/layout/layout.tsx:41-52 | a lookup gives the same picture for a name and for its lowercased form |
| `Layout.Toggled` | app/components/layout/layout.tsx:170 | the card collapses exactly when it was the expanded one; otherwise it becomes the expanded one |
| `Layout.ToggleTwice` | app/components/layout/layout.tsx:170 | two clicks on a card restore the state when nothing or that card was expanded |
| `Layout.ToggleTwiceFromOtherCard` | app/components/layout/layout.tsx:170 | two clicks on a card collapse every card when another card was expanded |
| `Layout.CountLoading` | app/components/layout/layout.tsx:94-99 | at most the log's length; zero exactly when no entry is a placeholder |
| `Layout.Submitted` | app/components/layout/layout.tsx:86-95 | the old log is kept as a prefix; the log is unchanged exactly when the text trims to empty; otherwise the user message then a placeholder are appended |
| `Layout.WithoutLoading` | app/components/layout/layout.tsx:99 | every placeholder removed, every other entry kept, nothing else added, length drops by the placeholder count |
| `Layout.WithoutLoadingAppend` | app/components/layout/layout.tsx:99 | removal distributes over concatenation, so the kept entries stay in order |
| `Layout.WithoutLoadingKeepsPlainLog` | app/components/layout/layout.tsx:99 | a log without placeholders is unchanged |
| `Layout.ReplyText` | app/components/layout/layout.tsx:104 | the reply embeds the destination and the reason verbatim at fixed positions; its length is theirs plus 71 |
| `Layout.Replied` | app/components/layout/layout.tsx:97-108 | the log ends in the templated system reply, holds no placeholder, is one longer than the log without its placeholders, and before the reply is exactly the old log with its placeholders removed, in order |
| `Layout.SubmitThenReply` | app/components/layout/layout.tsx:86-108 | on a log with no placeholder, a non-blank submission followed by its reply appends exactly the user message and the reply |
| `Layout.BlankSubmitIsNoOp` | app/components/layout/layout.tsx:88 | a message of white space only leaves the log unchanged |
| `Layout.Dashboard.constructor` | app/components/layout/layout.tsx:17-29 | the log holds only the welcome message, the input is empty, no card is expanded, no reply is pending |
| `Layout.Dashboard.ChangeMessage` | app/components/layout/layout.tsx:250 | only the input text changes |
| `Layout.Dashboard.HandleSubmit` | app/components/layout/layout.tsx:86-96 | the log becomes `Submitted` of the old log and input; the input is cleared unless blank, in which case it is kept; one reply is scheduled for a non-blank input |
| `Layout.Dashboard.DeliverReply` | app/components/layout/layout.tsx:97-108 | the log becomes `Replied` of the old log; one pending reply is consumed; input and cards unchanged |
| `Layout.Dashboard.ClickCard` | app/components/layout/layout.tsx:166-170 | the expanded card becomes `Toggled` of the old one and stays one of the three; the chat is unchanged |
| `Layout.Dashboard.NoPlaceholderWhenIdle` | app/components/layout/layout.tsx:94-108 | with no reply pending, no placeholder is in the log |

## Left out

- The place-search request: the `fetch` call, URL encoding of the query and JSON parsing (`NameForm.tsx` lines 59-63). These are network I/O. Their outcome is the input `FetchOutcome`.
- Logging the search error to the console (line 73). It is a diagnostic side effect with no effect on state.
- The `setTimeout` delays and the `animateText` flag (`NameForm.tsx` lines 42-50). The delayed state change is applied at once in `HandleNext`. The flag only drives an animation.
- The reply timer's 1000 ms delay. The timer's effect is the separate method `DeliverReply`.
- Out-of-order or overlapping search responses and stale closures. These come from the UI event loop's concurrency. Each event is one atomic method here, in whatever order they arrive.
- The page bound of `Next`, `Advance` and `HandleNext` (the page stays within 1..4) is a property of the model, in which each press of the next button is one atomic step. In the program, two presses within 500 ms on page 3 both read page 3 and both schedule `prev => prev + 1`, reaching page 5 (`NameForm.tsx` lines 43-47; the button is never disabled).
- Reading the clock (`new Date().getHours()`). The hour is a parameter of `Greeting`.
- Text.Lower: models `toLowerCase` for ASCII capitals only. Locale rules and non-ASCII case mappings are not modelled.
- All JSX rendering: the page texts, SVGs, CSS classes, the chat bubbles, the "Hello, {name}" headings, the dashboard subtitle and the cards' titles, descriptions and item lists. These are presentation.
- The dashboard's tab switching (`activeTab`, `layout.tsx` lines 147-159). It only selects what is shown.
- The UI wrappers `Button.tsx`, `Card.tsx`, `Input.tsx`, the drag-and-drop wiring in `file.tsx`, and `tailwind.config.js`. They hold no logic of the two components.
