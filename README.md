# Near-buy marketplace: feed ranking, messaging and listing updates in Dafny

This project models the client-side logic of three pages of a location-based
marketplace whose data lives in a hosted Postgres store:

- **Feed** (`app/feed/page.tsx`). The feed fetches the active listings, newest
  first. It asks the browser for the viewer's position; a denied or failed
  request becomes the coordinate (0, 0). A ranking effect then recomputes the shown list from four
  inputs: the fetched listings, the search text, the selected category and the
  viewer location. It keeps listings whose lower-cased title contains the
  lower-cased query, keeps listings whose category equals the selected one (an
  empty query or category applies no filter), and, once a location is known,
  attaches each listing's distance and stable-sorts by it.
- **Messages** (`app/messages/page.tsx`). The page keeps the user, the loaded
  conversations, the selected conversation, its messages, the draft and a
  loading flag. Two queries replace the lists wholesale: the user's
  conversations, newest summary first with rows lacking one last, and the
  selected conversation's messages, oldest first. `handleSendMessage` ignores a
  blank draft. Otherwise it picks the other participant as receiver and inserts
  the untrimmed draft into the message log. Only after that insert succeeds does
  it update the conversation's `last_message` summary. It then clears the draft
  and ends loading.
- **Dashboard** (`app/dashboard/page.tsx`). The dashboard lists the seller's own
  listings, newest first. It deletes a listing by id. It toggles a listing's
  status: 'active' becomes 'inactive', and anything else, including 'sold',
  becomes 'active'. Both handlers change the page's list only after the store
  reports success.

Modules: `Wrappers` (Option), `Database` (the table rows and the category set),
`Seqs` (filter, subsequence, and a stable insertion sort by integer key with its
stability proof), `Text` (ASCII lower-casing, `includes`, ECMAScript `trim`),
`Feed`, `Messages` and `Dashboard`. Pure expressions of the source are
functions with lemmas. Component state is a class per page, whose methods
state the whole new state. The messaging store is a class holding the
`messages`, `conversations` and `profiles` tables. Its invariant says that
every conversation summary names a message already in the log, and that no
logged message is blank. Inserting a non-blank message preserves it, and so does setting a summary to a content already logged for that conversation; `handleSendMessage` preserves it.

The store's replies and clocks are method parameters: `ok` flags, a
`Reply` of `Ok`, `Failed` (a returned `{ error }`) or `Threw` (an exception),
the server's insert time, and the client's `new Date()`. The browser's
geolocation answer is a parameter too. So is the `confirm()` answer. The
distance function is a parameter, or a constant of the feed page.

Three behaviours of the pages worth noting:

- A denied or failed location request becomes (0, 0), so distances are still attached and sorted.
  The location does not become "unknown".
- The client does not check that the sender takes part in the conversation. Any
  sender other than the buyer gets the buyer as receiver.
- Conversations without a summary time are ordered last, with no secondary
  order by creation time.

## Model

| member | source | states |
|---|---|---|
| `Seqs.Filter` | app/feed/page.tsx:90-96 | `Array.prototype.filter`: the result has exactly the elements of the input that pass, with their multiplicities, and each passes |
| `Seqs.FilterIsSubseq` | app/feed/page.tsx:87-97 | a filtered list keeps the input's relative order |
| `Seqs.SortBy` | app/feed/page.tsx:108 | the sort's result is a permutation of its input, in non-decreasing key order |
| `Seqs.SortByStable` | app/feed/page.tsx:108 | the sort is stable: for every key, the elements with that key keep their input order |
| `Seqs.SortByIdempotent` | app/feed/page.tsx:108 | sorting a sorted list changes nothing |
| `Text.Lower` | app/feed/page.tsx:91 | `Lower`, the ASCII lower-casing, keeps the length of the string |
| `Text.LowerIdempotent` | app/feed/page.tsx:91 | lower-casing twice equals lower-casing once |
| `Text.LowerHasNoUpper` | app/feed/page.tsx:91 | a lower-cased string contains no upper-case ASCII letter |
| `Text.Contains` | app/feed/page.tsx:91 | `includes` is true exactly when the query occurs at some index of the title |
| `Text.TrimEmptyIffAllSpace` | app/messages/page.tsx:152 | `Trim`: `!draft.trim()` holds exactly when every character of the draft is ECMAScript white space |
| `Feed.ActiveListingsSpec` | app/feed/page.tsx:65-74 | `ActiveListings`: the feed query returns exactly the active rows, each as often as in the table, newest `created_at` first |
| `Feed.FeedPage.constructor` | app/feed/page.tsx:33-38 | the page starts with empty lists, loading, no location, and empty query and category |
| `Feed.FeedPage.LocateViewer` | app/feed/page.tsx:48-60 | a granted position is taken as is, a denied or failed request (the error callback) sets (0, 0), and without the API the location stays unknown |
| `Feed.FeedPage.FetchProducts` | app/feed/page.tsx:76-80 | on success both lists get the query's rows, with no distance attached; on error both stay; loading ends either way |
| `Feed.FeedPage.SetSearchQuery` | app/feed/page.tsx:135 | the search box sets the query |
| `Feed.FeedPage.SetSelectedCategory` | app/feed/page.tsx:140-147 | the category picker sets the category, which is "" (all categories) or one of the fixed categories of utils/categories.ts |
| `Feed.FeedPage.RankingEffect` | app/feed/page.tsx:86-112 | replaces only `filteredProducts`, with the ranking of the current four inputs, so running it again with the same inputs gives the same list |
| `Feed.FilteredSpec` | app/feed/page.tsx:89-97 | a listing survives the filters, with its multiplicity, exactly when it passes the title filter (if there is a query) and the category filter (if there is a category) |
| `Feed.FilteredKeepsOrder` | app/feed/page.tsx:87-97 | the filtered list is a subsequence of the fetched list, so a newest-first input stays newest first |
| `Feed.FilteredAllSurvive` | app/feed/page.tsx:89-97 | a list whose every element passes both filters comes through them unchanged |
| `Feed.SortAnnotated` | app/feed/page.tsx:100-108 | annotating and then sorting by distance equals sorting the listings by their distance and then annotating |
| `Feed.RankSurvivors` | app/feed/page.tsx:89-97 | `Rank`: whatever the location, the ranked listings are exactly the fetched ones that pass both filters: for a non-empty query, the case-insensitive title match; for a category, exact equality |
| `Feed.RankNoFilters` | app/feed/page.tsx:87-99 | with empty query and category the ranking is a permutation of the fetched list; without a location it is that list itself |
| `Feed.RankIgnoresQueryCase` | app/feed/page.tsx:89-93 | changing the query's ASCII case does not change the ranking |
| `Feed.RankWithoutLocation` | app/feed/page.tsx:99-111 | `Rank` and `LocationLabel`: without a location no distance is attached, the order is the filtered order, and every card reads "Location unavailable" |
| `Feed.RankWithLocation` | app/feed/page.tsx:99-109 | `Rank`: with a location the result is a permutation of the filtered list; each entry carries its own listing's distance; distances do not decrease; listings at equal distance keep their filtered order |
| `Feed.RerankIsIdentity` | app/feed/page.tsx:86-112 | ranking the listings of a ranked list with the same inputs gives the same ranked list |
| `Feed.RankLabels` | app/feed/page.tsx:188-190 | `LocationLabel` of a `Rank` entry: with a location, each card's distance line is the formatted distance of its own listing |
| `Feed.FetchedListsAgree` | app/feed/page.tsx:77-78 | right after a successful fetch the shown list is the fetched list, with no distance attached |
| `Messages.MessagesPage.constructor` | app/messages/page.tsx:45-52 | the page starts with no user, no conversations, the URL's selection, no messages, an empty draft and loading off |
| `Messages.MessagesPage.SetUser` | app/messages/page.tsx:56-62 | the signed-in user is recorded |
| `Messages.MessagesPage.SelectConversation` | app/messages/page.tsx:210 | clicking a conversation selects its id |
| `Messages.MessagesPage.SetNewMessage` | app/messages/page.tsx:300 | typing sets the draft |
| `Messages.ListRowCounts` | app/messages/page.tsx:67-85 | without the joined names, the loaded rows are the involved rows of the table, each as often as in the table |
| `Messages.ConversationListSpec` | app/messages/page.tsx:67-85 | `ConversationList`: the loaded list holds exactly the rows where the user is buyer or seller, each as often as in the table, each joined with both names; rows with a later `last_message_at` come first, and rows without one come last |
| `Messages.MessagesPage.FetchConversations` | app/messages/page.tsx:64-102 | with a user, a successful fetch (on mount or on any conversations change) replaces the list by the query's result; otherwise the list stays |
| `Messages.MessagesOfSpec` | app/messages/page.tsx:113-123 | `MessagesOf`: the pane holds exactly the selected conversation's messages, with their multiplicities, in non-decreasing `created_at`; equal times keep log order |
| `Messages.MessagesPage.FetchMessages` | app/messages/page.tsx:110-142 | with a selection, a successful fetch (on selection or on an insert notification) replaces the pane by the query's result; otherwise the pane stays |
| `Messages.Find` | app/messages/page.tsx:156 | finds a loaded conversation exactly when one has the id, and what it finds is the first loaded conversation with that id |
| `Messages.Receiver` | app/messages/page.tsx:159-161 | the receiver is a participant: the seller when the sender is the buyer, otherwise the buyer (also for a sender who takes no part); it is never the sender when the sender takes part and the roles differ |
| `Messages.Outgoing` | app/messages/page.tsx:166-172 | the inserted row carries the selected conversation, the sender, the chosen receiver, the conversation's product and the untrimmed draft |
| `Messages.PartnerLabel` | app/messages/page.tsx:233-235 | a buyer sees the seller's name or 'Seller'; anyone else sees the buyer's name or 'Buyer'; an empty name counts as missing, and the label is never empty |
| `Messages.AppendThenSummarise` | app/messages/page.tsx:164-181 | appending a message and then setting its conversation's summary to that content with `SetSummary` keeps every summary backed by a logged message |
| `Messages.SummariseLogged` | app/messages/page.tsx:175-181 | `SetSummary` with a content already logged for that conversation keeps every summary backed by a logged message |
| `Messages.SummaryIsFetchable` | app/messages/page.tsx:113-126 | when summaries are backed, a summary's content is among the messages the message query returns for that conversation |
| `Messages.Store.InsertMessage` | app/messages/page.tsx:164-172 | the log grows by the row exactly when the store accepts the insert; inserting a non-blank message keeps the store's invariant |
| `Messages.Store.UpdateSummary` | app/messages/page.tsx:175-181 | every row with the id gets the content and time as its summary when the store accepts the update; otherwise nothing changes; a summary whose content is already logged for that conversation keeps the store's invariant |
| `Messages.MessagesPage.HandleSendMessage` | app/messages/page.tsx:150-190 | a blank draft, a missing user or no selection changes nothing; a selection missing from the loaded list inserts nothing and leaves loading on; otherwise the draft is inserted, the summary is updated only after a successful insert, the draft is cleared unless the insert failed or the update threw, loading ends false, and the store's invariant is kept |
| `Dashboard.NextStatus` | app/dashboard/page.tsx:71 | the new status is 'inactive' exactly when the current one is 'active', and it is never 'sold' |
| `Dashboard.ToggleTwice` | app/dashboard/page.tsx:71 | toggling twice restores 'active' and 'inactive' but turns 'sold' into 'inactive' |
| `Dashboard.MyListingsSpec` | app/dashboard/page.tsx:42-46 | `MyListings`: the listing query returns exactly the user's rows, with their multiplicities, newest first |
| `Dashboard.DashboardPage.constructor` | app/dashboard/page.tsx:23-25 | the page starts with no user, no listings and loading on |
| `Dashboard.DashboardPage.SetUser` | app/dashboard/page.tsx:29-35 | the signed-in user is recorded |
| `Dashboard.DashboardPage.FetchMyProducts` | app/dashboard/page.tsx:38-52 | without a user it returns early and loading stays on; otherwise a successful query replaces the list and loading ends |
| `Dashboard.WithoutIdSpec` | app/dashboard/page.tsx:66 | `WithoutId`: the new list has exactly the old entries with another id, with their multiplicities, in their old order; deleting again changes nothing |
| `Dashboard.DashboardPage.HandleDelete` | app/dashboard/page.tsx:57-68 | the list loses the id only when the user confirmed and the store succeeded; otherwise it is unchanged |
| `Dashboard.WithStatusSpec` | app/dashboard/page.tsx:79-81 | `WithStatus`: length and order stay, every field but `status` stays, and only entries with the id get the new status |
| `Dashboard.DeleteAfterToggle` | app/dashboard/page.tsx:57-83 | deleting an id after toggling it gives the same list as deleting it directly |
| `Dashboard.DashboardPage.ToggleStatus` | app/dashboard/page.tsx:70-83 | on success the entries with the id take the status computed from the card's status; on error the list is unchanged |

## Left out

- The store client, authentication and the network: query results are functions over in-memory tables, and each call's success or failure is a parameter.
- Realtime channels, their subscription and their teardown. Only their effect is modelled: each notification calls the same fetch, which replaces the list.
- Haversine distance and `formatDistance` (`utils/distance` is not part of this model). The distance is an abstract integer-valued function, and the formatter is a parameter.
- The relative-time text of messages (`date-fns`), the `toFixed(2)` prices, and the joined product title, price and image of a conversation. These are display only.
- The feed card's owner name ('Anonymous' fallback) and the message sender's name. These are display only.
- JSX rendering, `scrollIntoView`, the navbar and the layout. The `confirm()` dialog and the geolocation API enter only as their answers.
- Text.Lower: only ASCII letters are lower-cased. Unicode case mapping is not modelled.
- Conversation creation, which happens outside these pages.
- Ties in the store's `order(...)`: SQL leaves their order open, and the model fixes it as table order.
- Messages.Store.InsertMessage: an insert that throws is taken not to have reached the table.
- Messages.Store.UpdateSummary: an update that throws is likewise taken not to have reached the table.
- Messages.Outgoing: `is_read` takes its column default, which the model takes to be false. The store's `created_at` is the `insertedAt` parameter.
- React's scheduling. Handlers run one after another on the current state. The source's handlers close over the state of the render that created them, so two overlapping handlers can overwrite each other's update. The model does not capture this. The ranking effect is a separate method, meant to run after each change of its inputs.
- The dashboard's delete and update requests to the products table. The model keeps only their success or failure.
- Timestamps are natural numbers, not ISO strings; coordinates and prices are reals that are only carried.
