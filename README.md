# OpenHaus, modelled in Dafny

OpenHaus is a Next.js web application for finding and hosting local community
events. This project models three parts of it and proves properties about them:

- **The home page** (`src/pages/index.tsx`). It covers the built-in catalogue
  of six events and the search that filters them by title or location,
  ignoring case. It covers the category selector, which offers "all" followed
  by every tag in the catalogue once. It also covers the "host an event" modal
  and the draft event that its form edits.
- **The theme provider** (`src/components/ThemeProvider.tsx`). It keeps the
  colour theme in three places: the theme it publishes, the `dark` class on
  the document's root element, and the value stored under `theme` in local
  storage. The model covers the initial choice made when it mounts, and
  `toggleTheme`.
- **The `user.created` webhook** (`src/pages/api/webhooks/user-created.ts`).
  It rejects requests that are not POSTs (405) and requests whose signature
  does not verify (400). For a verified "user.created" event, it inserts a
  user record built from the event's data, then answers 200.

Files:

| file | module | contents |
|---|---|---|
| `wrappers.dfy` | `Wrappers` | `Option` |
| `text.dfy` | `Text` | `toLowerCase` (ASCII), `includes`, `trim` |
| `events.dfy` | `Events` | the event record, the filter, `flatMap` of the tags, the distinct tags in first-seen order, the category list |
| `mock_events.dfy` | `MockData` | the six catalogue events and facts about them |
| `home.dfy` | `HomePage` | the draft event, and the `Home` class with the page's state and handlers |
| `theme.dfy` | `Theme` | the theme functions, and the `ThemeProvider` class |
| `user_created.dfy` | `UserCreated` | the request and event types, the handler as a function, the handler as a method over a `UserStore` |

Where code and intent could be read two ways, the model follows what the code
does:

- Opening the modal does not reset the draft; only a submit does.
- Cancel closes the modal and keeps the draft as it was.
- The form has no validation step and no submitting, success or error states.
  A submit closes the modal and resets the draft.
- The categories after "all" appear in the order in which the catalogue first
  mentions them. This is the insertion order of the JavaScript `Set`.
- The theme read back from local storage is not checked. Any non-empty string
  becomes the theme (`UnvalidatedSavedTheme`).

## Model

| member | source | states |
|---|---|---|
| Text.Lower | src/pages/index.tsx:127-128 | `toLowerCase` keeps the length, lower-cases each ASCII letter and leaves other characters alone; no upper-case ASCII letter remains |
| Text.LowerIdempotent | src/pages/index.tsx:127-128 | lower-casing an already lower-cased string changes nothing |
| Text.Contains | src/pages/index.tsx:127-128 | `includes`: a text includes each of its prefixes, and never a term longer than itself |
| Text.ContainsAt | src/pages/index.tsx:127-128 | `includes` is true whenever the term occurs at some position of the text |
| Text.ContainsSomewhere | src/pages/index.tsx:127-128 | conversely, when `includes` is true the term occurs at some position |
| Text.ContainsEmpty | src/pages/index.tsx:127-128 | every text includes the empty term |
| Text.LeadingWhiteSpace | src/pages/api/webhooks/user-created.ts:62 | counts the white-space characters the string starts with: all of them are white space, and the next one is not |
| Text.IsWhiteSpace | src/pages/api/webhooks/user-created.ts:62 | the characters `trim` removes include space, tab, line feed and carriage return, and never an ASCII letter or digit |
| Text.TrimStart | src/pages/api/webhooks/user-created.ts:62 | the leading white space is removed and nothing else |
| Text.TrimEnd | src/pages/api/webhooks/user-created.ts:62 | the result is a prefix of the input; only white space was removed after it; it does not end with white space |
| Text.Trim | src/pages/api/webhooks/user-created.ts:62 | `trim` returns the slice between the leading and trailing white space; only white space lies outside it, and it neither starts nor ends with white space |
| Text.TrimStartWhiteSpacePrefix | src/pages/api/webhooks/user-created.ts:62 | white space followed by a non-white-space character is dropped completely |
| Text.TrimEndWhiteSpaceSuffix | src/pages/api/webhooks/user-created.ts:62 | white space after a non-white-space character is dropped completely |
| Text.TrimAround | src/pages/api/webhooks/user-created.ts:62 | trimming a trimmed string with white space around it gives back exactly that string |
| Events.MatchesSearch | src/pages/index.tsx:127-128 | the empty term matches every event; a matching term is no longer than the title or the location |
| Events.MatchesCategory | src/pages/index.tsx:129 | "all" matches every event; any other category matches iff one of the event's tags equals it |
| Events.Shown | src/pages/index.tsx:130 | with an empty term and "all" every event is shown; a shown event with another category has that category as a tag |
| Events.Filter | src/pages/index.tsx:126-131 | the shown events are never more numerous than the catalogue |
| Events.FilterMembership | src/pages/index.tsx:126-131 | an event is shown iff it is in the catalogue, its lower-cased title or location includes the lower-cased term, and the category is "all" or one of its tags |
| Events.FilterCount | src/pages/index.tsx:126-131 | an event that passes both tests is shown as many times as the catalogue lists it, and one that fails is not shown |
| Events.FilterIsSubsequence | src/pages/index.tsx:126-131 | the shown events keep catalogue order: they are the catalogue with some events left out |
| Events.FilterKeepsAll | src/pages/index.tsx:126-131 | when every event passes both tests, the whole catalogue is shown |
| Events.FilterIdempotent | src/pages/index.tsx:126-131 | filtering the shown events again with the same inputs changes nothing |
| Events.EmptyTermMatches | src/pages/index.tsx:127-128 | the empty search term matches every event |
| Events.FilterShowsEverything | src/pages/index.tsx:105-106 | with the initial search "" and category "all", the whole catalogue is shown |
| Events.FilterIgnoresTermCase | src/pages/index.tsx:127-128 | the search ignores the case of the term |
| Events.FilterAllCategory | src/pages/index.tsx:129 | with category "all", an event is shown iff it matches the term |
| Events.AllTags | src/pages/index.tsx:124 | `flatMap` over the tags: a tag is in the result iff some event has it |
| Events.AllTagsCons | src/pages/index.tsx:124 | the tags of a list are the first event's tags followed by the tags of the rest |
| Events.FirstIndex | src/pages/index.tsx:124 | the position where an element first occurs: it is there and not before |
| Events.FirstIndexAppend | src/pages/index.tsx:124 | appending elements does not move an element's first occurrence |
| Events.Distinct | src/pages/index.tsx:124 | `[...new Set(xs)]` has the same elements as `xs` and no repetitions |
| Events.DistinctSnoc | src/pages/index.tsx:124 | adding an element to a `Set` appends it, unless the `Set` already holds it |
| Events.DistinctNoDuplicates | src/pages/index.tsx:124 | a list without repetitions passes through a `Set` unchanged |
| Events.DistinctAppendFresh | src/pages/index.tsx:124 | appending new, distinct elements appends them to the `Set`'s contents |
| Events.DistinctOneRepeat | src/pages/index.tsx:124 | a single repeated element is dropped and nothing else |
| Events.DistinctFirstSeenOrder | src/pages/index.tsx:124 | the `Set` lists the elements in the order in which `xs` first mentions them |
| Events.FirstSeenOrderUnique | src/pages/index.tsx:124 | two repetition-free lists with the same elements, both in first-seen order, are equal |
| Events.DistinctUnique | src/pages/index.tsx:124 | the `Set`'s contents are the only repetition-free list in first-seen order with those elements |
| Events.Categories | src/pages/index.tsx:124 | the options are "all" then every tag of every event, once each, in first-seen order |
| Events.CategoriesUnique | src/pages/index.tsx:124 | any list with those four properties is the category list |
| MockData.Ids | src/pages/index.tsx:34-101 | the ids of the events, in order |
| MockData.OutdoorEvents | src/pages/index.tsx:34-101 | over the whole catalogue, "Outdoor" with an empty search shows events 4 and 5 |
| MockData.MockTags | src/pages/index.tsx:124 | the catalogue's `flatMap` of tags has eighteen entries, with "Outdoor" twice |
| MockData.MockTagsDistinct | src/pages/index.tsx:124 | the `Set` drops the second "Outdoor" and nothing else |
| MockData.MockCategories | src/pages/index.tsx:124 | the selector offers "all" and seventeen tags in catalogue order, eighteen options in all |
| HomePage.FieldNamed | src/pages/index.tsx:142-145 | the input's `name` finds the field of that name; when none is found, no field has that name |
| HomePage.FieldName | src/pages/index.tsx:437-515 | each field's input `name` is a non-empty lower-case ASCII word |
| HomePage.FieldNameRoundTrip | src/pages/index.tsx:142-145 | each field is found again from its own name |
| HomePage.NewEvent.With | src/pages/index.tsx:144 | `{ ...prev, [name]: value }`: the named field takes the value and every other field keeps its value |
| HomePage.InitialDraftFields | src/pages/index.tsx:110-118 | the initial draft has six empty fields and the default image |
| HomePage.Home.constructor | src/pages/index.tsx:105-118 | the page starts with no search, category "all", the modal closed and the initial draft, so it shows the whole catalogue |
| HomePage.Home.FilteredEvents | src/pages/index.tsx:126-131 | the listed events keep catalogue order; an event that passes the search and category tests for the current inputs is listed as many times as the catalogue lists it, and one that fails is not listed; the list is `Filter` of the current inputs |
| HomePage.Home.CategoryOptions | src/pages/index.tsx:124 | the selector starts with "all"; the other options are the catalogue's tags, each once, in the order the catalogue first mentions them, which by `CategoriesUnique` is the category list |
| HomePage.Home.SetSearchTerm | src/pages/index.tsx:274 | typing sets the search term; category, modal and draft are unchanged |
| HomePage.Home.SetSelectedCategory | src/pages/index.tsx:281 | choosing an option sets the category; search, modal and draft are unchanged |
| HomePage.Home.HandleHostEvent | src/pages/index.tsx:133-140 | a signed-in user opens the modal; otherwise the modal is left as it was; the draft is kept either way |
| HomePage.Home.HandleInputChange | src/pages/index.tsx:142-145 | the field with the input's name takes the value; every field with another name keeps its value; modal and search unchanged |
| HomePage.Home.HandleSubmitEvent | src/pages/index.tsx:147-159 | a submit closes the modal and resets the draft to the initial one |
| HomePage.Home.Cancel | src/pages/index.tsx:528 | Cancel closes the modal and keeps the draft |
| HomePage.CancelKeepsDraft | src/pages/index.tsx:133-145 | after typing a title, Cancel and reopening, the modal is open and shows that title |
| Theme.Toggled | src/components/ThemeProvider.tsx:27 | the new theme is "dark" exactly when the old one is "light", and it is always one of the two |
| Theme.ToggleTwice | src/components/ThemeProvider.tsx:26-31 | toggling twice from "light" or "dark" gives it back |
| Theme.ToggleOther | src/components/ThemeProvider.tsx:27 | any theme other than "light" toggles to "light", then to "dark" |
| Theme.ToggledTimesParity | src/components/ThemeProvider.tsx:26-31 | from either theme, an even number of toggles restores it and an odd number switches it |
| Theme.SystemTheme | src/components/ThemeProvider.tsx:18-20 | "dark" exactly when the system prefers dark; otherwise "light" |
| Theme.InitialTheme | src/components/ThemeProvider.tsx:17-21 | a present, non-empty saved value wins, whatever it is; otherwise the system preference decides |
| Theme.InitialThemeRange | src/components/ThemeProvider.tsx:17-21 | when nothing or "light"/"dark" was saved, the initial theme is one of the two |
| Theme.ThemeProvider.constructor | src/components/ThemeProvider.tsx:14 | before mounting, the theme is "light"; the browser state is untouched |
| Theme.ThemeProvider.Mount | src/components/ThemeProvider.tsx:16-24 | the theme becomes the initial theme, the document's dark flag agrees with it, and storage is untouched |
| Theme.ThemeProvider.ToggleTheme | src/components/ThemeProvider.tsx:26-31 | the theme switches, and theme, dark flag and stored value all agree afterwards |
| Theme.UnvalidatedSavedTheme | src/components/ThemeProvider.tsx:17-23 | a saved "blue" becomes the theme with no dark flag, and the first toggle gives "light" |
| UserCreated.Header | src/pages/api/webhooks/user-created.ts:34-36 | a header is present iff the request carries it, with its value |
| UserCreated.SvixHeadersOf | src/pages/api/webhooks/user-created.ts:34-46 | each of `svix-id`, `svix-timestamp` and `svix-signature` is passed to verification iff the request carries it, with the request's value |
| UserCreated.FirstEmail | src/pages/api/webhooks/user-created.ts:60 | the first address, absent iff the list is missing or empty |
| UserCreated.OrEmpty | src/pages/api/webhooks/user-created.ts:62 | a missing name counts as the empty string: the value when present, otherwise "" |
| UserCreated.DisplayName | src/pages/api/webhooks/user-created.ts:62 | the name neither starts nor ends with white space, and it is no longer than the two names and a space |
| UserCreated.DisplayNameBoth | src/pages/api/webhooks/user-created.ts:62 | two trimmed non-empty names give "First Last" |
| UserCreated.DisplayNameLastOnly | src/pages/api/webhooks/user-created.ts:62 | with the first name missing or empty, the name is the last name, without a leading space |
| UserCreated.DisplayNameFirstOnly | src/pages/api/webhooks/user-created.ts:62 | with the last name missing or empty, the name is the first name, without a trailing space |
| UserCreated.DisplayNameNeither | src/pages/api/webhooks/user-created.ts:62 | with neither name, the name is empty, not a single space |
| UserCreated.ToUserRecord | src/pages/api/webhooks/user-created.ts:55-64 | the record carries the event's id, username and image, the first e-mail address if any, and the trimmed join of first and last name |
| UserCreated.Handle | src/pages/api/webhooks/user-created.ts:30-69 | 405 "Method Not Allowed" for a non-POST; 400 "Invalid webhook" when verification fails; otherwise 200 `{ success: true }`, with a record created iff the event type is "user.created" |
| UserCreated.NonPostIgnoresVerifier | src/pages/api/webhooks/user-created.ts:31 | a non-POST is answered the same way whatever the verifier says |
| UserCreated.CreatedOnlyForUserCreated | src/pages/api/webhooks/user-created.ts:54-66 | a record is created iff the request is a POST that verifies as a "user.created" event |
| UserCreated.SuccessIffVerifiedPost | src/pages/api/webhooks/user-created.ts:41-50 | the answer is 200 iff the request is a POST that verifies |
| UserCreated.Created | src/pages/api/webhooks/user-created.ts:54-66 | the records one request inserts: the created record when there is one, and none otherwise |
| UserCreated.UserStore.constructor | src/pages/api/webhooks/user-created.ts:57 | the store starts empty |
| UserCreated.UserStore.Create | src/pages/api/webhooks/user-created.ts:57-65 | `prisma.user.create` appends the record |
| UserCreated.Handler | src/pages/api/webhooks/user-created.ts:30-69 | the response is the one `Handle` gives, and the store gains exactly the record `Handle` creates, if any |
| UserCreated.ExampleAccount | src/pages/api/webhooks/user-created.ts:55-64 | an event with address "a@b.com" and names "A" and "B" gives a user named "A B" with that address |

## Left out

- Text.Lower: `toLowerCase` is modelled for the ASCII letters only. Other letters are not lower-cased, so a search that differs from a title only in the case of non-ASCII letters does not match in the model.
- Events.Filter: its own contract bounds only the length. Which events are shown and how often is stated by `FilterMembership` and `FilterCount`, and their order by `FilterIsSubsequence`.
- HomePage.Home.HandleInputChange: the draft is a record of its seven fields. An input whose `name` is none of them adds a new key to the JavaScript object; the model keeps the seven fields unchanged and does not represent the extra key.
- HomePage.Home.HandleHostEvent: for a visitor who is not signed in, the page clicks the sign-in button programmatically. That DOM call is outside the model; only "nothing changes here" is stated.
- HomePage.Home.HandleSubmitEvent: the `console.log` of the draft, and the success toast that is shown and hidden by a three-second timer, are not modelled (console output, DOM and a timer).
- The `mounted` flag and the `useEffect` that sets it only gate rendering; they are not modelled.
- Clerk's `useUser` is a parameter: `HandleHostEvent` takes whether the visitor is signed in.
- The JSX rendering, the styling and the other page sections are not modelled, apart from the two input handlers (search box and category selector) and the Cancel button.
- The theme context's consumers and `useTheme` are not modelled.
- The browser's `prefers-color-scheme` query is a parameter of `Mount`. Local storage and the document's class list are fields of `ThemeProvider`.
- React's batching of state updates is not modelled: each handler updates the state at once.
- The Svix signature check (HMAC over the headers and payload, the timestamp tolerance) and the webhook secret are a `Verifier` function passed to the handler. Its result is the parsed event, or nothing when verification throws.
- Reading the raw body with `micro`'s `buffer` is not modelled: the request carries its payload as bytes.
- UserCreated.Handler: the database insert always succeeds in the model. A Prisma error, for example a duplicate `clerkId` or a missing required column, rejects the handler's promise and is not modelled.
- UserCreated.Handle: a verified payload is assumed to have the shape of a Clerk event: `data` is present, `data.id` is a string, and every address entry has `email_address`. The source only casts the parsed value. A verified "user.created" payload without `data` makes the destructuring throw outside the `try`, so the handler's promise rejects instead of answering 200; the model cannot represent that case.
- The `console.error` on a failed verification is not modelled.
- The other API routes, `src/pages/api/Users/[userId].ts`, `me.ts` and `update.ts`, are not part of this model.
- `src/pages/_app.tsx`, `src/components/ThemeToggle.tsx` and `data/mockEvents.ts` are not part of this model. The catalogue the page uses is the one declared in `src/pages/index.tsx`.
