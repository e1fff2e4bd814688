# Sohozseba front end: a verified model of its state rules

Sohozseba is a bilingual (English/Bengali) directory of local tradespeople for
Naogaon, Bangladesh. Apart from its markup, the front end holds a handful of
rules, and this project models them in Dafny and proves what they promise:

- the **catalogue filter** and the page's view state (App.tsx). The filter is a
  conjunction of a category test (`'all'` admits everything), a free-text search
  (lower-cased on the English fields, raw on the Bengali ones) and a simulated
  location test (a case-sensitive substring of a description; `'All Areas'`
  admits everything). It sits beside the language toggle and the booking-status
  styles;
- the **chat controller** (components/ChatBot.tsx). It is an append-only
  conversation seeded with a greeting, with a guarded, optimistic send that is
  split at its `await` into `BeginSend` and `CompleteSend`;
- the **assistant gateway** (services/geminiService.ts). It builds the turn list
  and turns grounding chunks into `{title, uri}` links with a fallback title. Any
  failure becomes a fixed apology. The hosted model and the network are a
  parameter `service: Request -> ServiceResponse`;
- the **mock OTP login** (components/AuthModal.tsx). It has a phone step and a
  code step, a digits-only phone sanitiser and six one-character code boxes;
- the **fixture data** (constants.tsx), with the filter's results on it.

Files: `wrappers.dfy` (Option), `text.dfy` (JavaScript `includes`,
`toLowerCase`, `trim`), `types.dfy` (types.ts), `constants.dfy`, `catalog.dfy`,
`app.dfy`, `gateway.dfy`, `chat.dfy`, `auth.dfy`, `fixtures.dfy`.

The failure apology is always the Bengali text, whatever the display language
(services/geminiService.ts:40); `Gateway.Respond` returns it.

## Model

| member | source | states |
|---|---|---|
| Text.ContainsIffWindow | App.tsx:25-32 | `includes` holds exactly when some window of the string equals the needle |
| Text.ContainsEmpty | App.tsx:24-32 | the empty string is contained in every string |
| Text.ContainsWindow | App.tsx:25-32 | a window equal to the needle makes `includes` true |
| Text.NotContainsMissingChar | App.tsx:25-32 | a needle holding a character the haystack lacks is not contained |
| Text.Lower | App.tsx:24-27 | `toLowerCase` keeps the length and lowers each ASCII capital, leaving other characters alone |
| Text.LowerIdempotent | App.tsx:24-27 | lower-casing twice equals lower-casing once |
| Text.TrimStart | components/ChatBot.tsx:31 | the result is a suffix of the input that does not start with white space, and every dropped leading character is white space |
| Text.TrimEnd | components/ChatBot.tsx:31 | the result is a prefix of the input that does not end with white space, and every dropped trailing character is white space |
| Text.TrimEmptyIffBlank | components/ChatBot.tsx:31 | `trim()` is empty exactly when every character is ECMAScript white space or a line terminator |
| Text.TrimEndKeepsNonSpace | components/ChatBot.tsx:31 | a string starting with a non-space character is not trimmed to empty |
| Catalog.VisibleIsSubsequence | App.tsx:21-35 | the filtered list is a subsequence of the catalogue, in catalogue order, and no longer than it |
| Catalog.VisibleMembership | App.tsx:22-34 | a service is listed if and only if it is in the catalogue and passes category, search and location |
| Catalog.VisibleAppend | App.tsx:22-35 | filtering distributes over concatenation, so relative order is kept |
| Catalog.VisibleSingle | App.tsx:22-34 | one service is kept exactly when it passes all three tests |
| Catalog.VisibleKeepsAllWhenAllMatch | App.tsx:22-35 | when every service passes, the list is the whole catalogue, unchanged |
| Catalog.UnrestrictedShowsAll | App.tsx:11-14 | with `'all'`, the empty query and `'All Areas'`, every catalogue is listed in full |
| Catalog.VisibleCategoryExact | App.tsx:23 | with a category other than `'all'`, every listed service has exactly that category id |
| Catalog.VisibleLocationMentioned | App.tsx:30-32 | with a location other than the exact `'All Areas'`, every listed service has that location verbatim in its English or Bengali description |
| Catalog.EmptyQueryMatches | App.tsx:24-28 | the empty query matches every service |
| Catalog.EnglishMatchIgnoresQueryCase | App.tsx:24-27 | the English-field test depends only on the lower-cased query: queries that lower-case alike match the same services there, and such a match is a search match |
| Catalog.SearchMatchesRawBengali | App.tsx:26-28 | the raw query found in a Bengali field is a match |
| Catalog.ToggleLanguage | App.tsx:18 | the toggle always changes the language (en to bn, bn to en) |
| Catalog.ToggleTwice | App.tsx:18 | toggling twice restores the language |
| Catalog.StatusColorInjective | App.tsx:38-46 | the four booking statuses have four different styles |
| AppState.App.constructor | App.tsx:11-16 | first render: category `'all'`, empty query, `'All Areas'`, services view, Bengali, login closed; the catalogue is the fixture list |
| AppState.App.ToggleLanguage | App.tsx:18 | the language flips and nothing else changes |
| AppState.App.SetSearchQuery | App.tsx:96 | only the query changes |
| AppState.App.SetLocation | App.tsx:104 | only the location changes |
| AppState.App.SelectCategory | components/Layout.tsx:74-90 | the sidebar entries set the category and show the services panel |
| AppState.App.ShowBookings | components/Layout.tsx:94 | the bookings panel is shown and the filters are kept |
| AppState.App.ClearFilters | App.tsx:144 | the three filters return to their initial values and the whole catalogue is listed |
| AppState.App.SetAuthOpen | App.tsx:63 | opens or closes the login dialog and changes nothing else |
| AppState.UnrestrictedListsCatalogue | App.tsx:11-36 | whenever the filters are at their initial values the page lists the whole catalogue |
| Gateway.Contents | services/geminiService.ts:10-13 | the turns are the history unchanged, followed by exactly one user turn whose only part is the prompt |
| Gateway.BuildRequest | services/geminiService.ts:8-27 | the request carries those turns, the fixed model name, search grounding and temperature 0.7 |
| Gateway.ChunkTitle | services/geminiService.ts:33 | the title is the source's title when present and non-empty, otherwise `'Market Rate Source'` |
| Gateway.ExtractLinks | services/geminiService.ts:31-35 | no more links than chunks, and every link has a non-empty URI |
| Gateway.ExtractLinksAppend | services/geminiService.ts:32-35 | extraction distributes over concatenation of chunk lists, so links keep chunk order |
| Gateway.ExtractLinksSingle | services/geminiService.ts:32-35 | one chunk yields its link when it has a URI and nothing otherwise |
| Gateway.ExtractLinksMembership | services/geminiService.ts:32-35 | a link is returned if and only if some chunk with a URI produces it |
| Gateway.ExtractLinksTitles | services/geminiService.ts:33 | every link's title is some chunk's own title or the fallback |
| Gateway.Respond | services/geminiService.ts:30-41 | failure gives the Bengali apology and an empty link list; an answer keeps its text, its link list is exactly the chunks' extracted links (none when there are no chunks), and all links have URIs |
| Gateway.GetResponse | services/geminiService.ts:4-42 | the reply is the normalised outcome of one call of the service with the built request: a failed call yields the apology and no links, an answer yields its text and the links extracted from its chunks |
| Chat.Greeting | components/ChatBot.tsx:16-22 | the seed message is the assistant's, non-empty, without links |
| Chat.HistoryOf | components/ChatBot.tsx:38-41 | the history has one turn per message, in order, with role and text carried over |
| Chat.RequestMatchesConversation | components/ChatBot.tsx:33-43 | the turns sent are exactly the history of the conversation with the new user message appended |
| Chat.ReplyText | components/ChatBot.tsx:47 | a present, non-empty reply text is kept; an absent or empty one becomes `"..."` |
| Chat.ModelMessage | components/ChatBot.tsx:45-50 | the assistant's message has the reply's text, or `"..."` when that is absent or empty, and carries the reply's links unchanged |
| Chat.FailureShowsApology | services/geminiService.ts:38-41 | after a failed call the assistant's message is the apology with an empty link list, and no links are shown |
| Chat.DisplayedLinks | components/ChatBot.tsx:86-88 | at most three links are shown, the first ones of the list, and none when the list is absent |
| Chat.ChatBot.constructor | components/ChatBot.tsx:12-23 | the conversation is exactly the greeting; input empty, not loading, panel closed |
| Chat.ChatBot.ToggleOpen | components/ChatBot.tsx:139 | the panel opens or closes; the conversation, input and loading flag are untouched and the greeting stays first |
| Chat.ChatBot.SetInput | components/ChatBot.tsx:121 | only the input changes; the greeting stays first |
| Chat.ChatBot.BeginSend | components/ChatBot.tsx:30-43 | accepted iff the trimmed input is non-empty and no reply is pending; if rejected nothing changes; if accepted one user message with the untrimmed input is appended, the input is cleared, loading starts, and the prompt and the history of the earlier messages are returned |
| Chat.ChatBot.CompleteSend | components/ChatBot.tsx:45-52 | exactly one assistant message is appended and loading stops |
| Chat.ChatBot.Send | components/ChatBot.tsx:30-53 | an accepted send grows the conversation by exactly the user message and the assistant's reply; the greeting stays first |
| Auth.DigitsOnly | components/AuthModal.tsx:71 | the result holds only ASCII digits and is no longer than the input |
| Auth.DigitsOnlyAppend | components/AuthModal.tsx:71 | sanitising distributes over concatenation, so digits keep their order |
| Auth.DigitsOnlySingle | components/AuthModal.tsx:71 | one character is kept exactly when it is an ASCII digit |
| Auth.DigitsOnlyKeepsDigits | components/AuthModal.tsx:71 | a string of digits is returned unchanged |
| Auth.DigitsOnlyIdempotent | components/AuthModal.tsx:71 | sanitising twice equals sanitising once |
| Auth.LastChar | components/AuthModal.tsx:32 | `slice(-1)` is the last character, or empty for the empty string |
| Auth.AuthModal.constructor | components/AuthModal.tsx:12-14 | phone step, empty phone, six empty code boxes |
| Auth.AuthModal.SetPhone | components/AuthModal.tsx:71 | the phone becomes the digits of what was typed |
| Auth.AuthModal.SendOtp | components/AuthModal.tsx:18-21 | the code step is reached iff the phone has at least ten characters; otherwise the step is unchanged |
| Auth.AuthModal.UpdateOtp | components/AuthModal.tsx:30-33 | box `index` takes the last character typed, other boxes are unchanged, there stay six boxes of at most one character |
| Auth.AuthModal.ChangePhone | components/AuthModal.tsx:101 | back to the phone step with the phone and code kept |
| Auth.AuthModal.Verify | components/AuthModal.tsx:23-28 | the submit handler asks to close the dialog without examining the code |
| FixtureFacts.ServiceCategoriesExist | constants.tsx:4-54 | every service's category id is one of the category ids |
| FixtureFacts.IdsDistinct | constants.tsx:4-54 | service ids are pairwise distinct, and so are category ids |
| FixtureFacts.FirstLocationIsAllAreas | constants.tsx:92-99 | the first location is the filter's `'All Areas'` sentinel |
| FixtureFacts.UiStringsSameKeys | constants.tsx:101-146 | the English and Bengali string tables define the same keys |
| FixtureFacts.BookingStatusLabels | constants.tsx:56-90 | each booking's Bengali status is the label of its status |
| FixtureFacts.VisibleServices | constants.tsx:13-54 | the filter over the four fixture services, service by service |
| FixtureFacts.PlumbingListsPlumber | constants.tsx:24-33 | category `'plumbing'` lists exactly Karim Plumbing |
| FixtureFacts.PaintingListsNothing | constants.tsx:8 | category `'painting'` lists nothing |
| FixtureFacts.ElectricianInSarisahatir | constants.tsx:19 | Rahim Electrical's description names Sarisahatir Mor |
| FixtureFacts.SarisahatirListsElectrician | constants.tsx:14-23 | location `'Sarisahatir Mor'` lists exactly Rahim Electrical |

## Left out

- Markup, CSS classes other than the status styles, the sidebar drawer
  (components/Layout.tsx) and the service cards (components/ServiceCard.tsx).
  Layout's navigation handlers appear as `App.SelectCategory` and `App.ShowBookings`.
- The hosted model call: client construction, the API-key lookup, the persona
  text, `console.error`. The service is a function parameter, and every
  failure, including a failing `response.text`, is the single `Failed` outcome.
- Timestamps (`new Date()`), `scrollIntoView`, `focus`, `alert`: effects outside
  the state.
- Text.Lower: lowers ASCII capitals only. JavaScript's `toLowerCase` also folds
  non-ASCII letters; the fixture's English fields are ASCII.
- Strings are sequences of Unicode code points, while JavaScript strings are
  UTF-16 units. `length` and `slice(-1)` therefore differ only for characters
  outside the Basic Multilingual Plane.
- Auth.AuthModal.SetPhone: the browser's `maxLength={10}` on the phone box is
  not modelled, so the model allows longer phone numbers.
- Chat.ChatBot.Send: runs both halves of a send with nothing in between. In the
  page, typing (and React's batching and re-rendering) can interleave during the
  `await`; concurrency is not modelled.
- Auth.AuthModal.Verify: the browser's `required` check on the code boxes is not
  modelled. In the page the Verify form is not submitted while a box is empty;
  the model's handler closes the dialog whatever the boxes hold.
- Catalog.StatusColor: the `default` branch is unreachable, because the status
  type has exactly four values.
- The greeting is fixed when the chat panel is constructed. A later change of
  the language prop does not reword it, as in the component.
