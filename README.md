# Spacetraveling post listing — pagination model

A Dafny model of the post listing of the Spacetraveling blog front end
(`src/pages/index.tsx`): how `getStaticProps` projects the first page of the
content provider's query onto the listing's `Post` shape, and how the `Home`
component keeps a cursor (`nextPage`) and a list of loaded posts (`posts`),
appends the next page on "Carregar mais posts", and renders the first page's
posts followed by the loaded ones.

Modules:

- `Wrappers` (`wrappers.dfy`): `Option`, used for `string | null`; `None` stands for null.
- `Posts` (`posts.dfy`): raw provider documents and pages, the `Post` and
  `PostPagination` shapes, and the `getStaticProps` projection.
- `Listing` (`listing.dfy`): the component's state as a value, the load-more
  transition `LoadMore`, runs of clicks (`Session`), the rendered cards
  (`Displayed`) and the lemmas about them.
- `HomePage` (`home.dfy`): class `Home` with the fields `nextPage` and `posts`,
  its first render (constructor), the cursor effect (`SyncNextPage`) and the
  click handler (`HandleShowMorePosts`, a loop that copies `posts` and appends
  each fetched document), each proved against `Listing`.

Behaviour kept as the code has it:

- Documents loaded by the button are stored as fetched, not projected
  through the normaliser; they keep every extra field (`LoadMoreAppends`,
  `DocumentCardNormalized` shows the card looks the same either way).
- Duplicate uids are not removed (`LoadMoreKeepsDuplicates`).
- The button is shown when the cursor is truthy, so an empty-string cursor
  hides it just as null does (`Truthy`, `SessionExhausted`). A render that
  throws shows no button either, so no click is possible then
  (`ButtonShown`, `ClickAfterRenderThrows`).
- The cursor is set before the fetched dates are formatted. If `format`
  throws on one date (an invalid date), the cursor has already moved on and
  that page's posts are never added (`LoadMoreFormatThrows`).
- A loaded post's date is formatted when it is loaded and again when it is
  rendered, so the renderer formats a string that is already formatted
  (`LoadedDatesFormattedTwice`); if `format` rejects its own output, a
  load that succeeded makes the next render throw (`RenderAfterLoad`).
  Nothing is assumed about the formatter: it
  is a parameter, neither idempotent nor total.
- Missing titles, subtitles and authors are not defaulted, and documents
  loaded by the button are not normalised; the fields are copied as they are.

I/O is modelled by parameters: the fetch of the cursor's URL is a function
`fetch: string -> FetchOutcome` (`Rejected` when the promise rejects), and
date-fns `format(new Date(x), 'PP', { locale: ptBR })` is a function
`Option<string> -> Option<string>` whose `None` means that `format` throws.

## Model

| member | source | states |
|---|---|---|
| `Posts.NormalizeResults` | src/pages/index.tsx:162-172 | one post per raw result, same count, and the k-th post is the normalisation of the k-th result |
| `Posts.NormalizeResultsAppend` | src/pages/index.tsx:162-172 | the projection of a page is order-preserving: it distributes over concatenation |
| `Posts.NormalizeEntryCopies` | src/pages/index.tsx:163-170 | uid, first_publication_date, title, subtitle and author are copied unchanged |
| `Posts.NormalizeEntryDropsTheRest` | src/pages/index.tsx:163-170 | every other field of the document and of its data is dropped |
| `Posts.NormalizeEntryRoundTrip` | src/pages/index.tsx:163-170 | a post already in the listing shape normalises to itself |
| `Posts.NormalizeEntryIgnoresRest` | src/pages/index.tsx:163-170 | documents agreeing on the five listing fields give the same post |
| `Posts.GetStaticPropsSpec` | src/pages/index.tsx:150-183 | the props carry the response's next_page unchanged, the normalised results in order, and revalidate 1800 seconds |
| `Listing.FormatDates` | src/pages/index.tsx:50-63 | succeeds iff format accepts every date; then one document per result, in order, each with only its date replaced by format's output |
| `Listing.LoadMoreRejected` | src/pages/index.tsx:44-66 | a rejected fetch leaves cursor and posts unchanged |
| `Listing.LoadMoreCursor` | src/pages/index.tsx:47 | a resolved fetch sets the cursor to the page's next_page, null included |
| `Listing.LoadMoreAppends` | src/pages/index.tsx:49-65 | posts become old posts followed by the fetched results in order; earlier entries unchanged; length grows by the result count; each appended date is format of the original and every other field is as fetched |
| `Listing.LoadMoreFormatThrows` | src/pages/index.tsx:47-63 | when format throws on some date, the cursor has advanced and posts are unchanged |
| `Listing.LoadMoreAppendOnly` | src/pages/index.tsx:49-65 | the old posts are a prefix of the new posts for every fetch outcome |
| `Listing.LoadMoreKeepsDuplicates` | src/pages/index.tsx:49-62 | a fetched document is appended even if the same document is already loaded |
| `Listing.SessionAppendOnly` | src/pages/index.tsx:43-67 | along any run of clicks the loaded posts only grow (prefix order) |
| `Listing.SessionExhausted` | src/pages/index.tsx:126-134 | once the cursor is null or empty, or the list fails to render, no click changes the state |
| `Listing.SessionRejected` | src/pages/index.tsx:44-66 | clicks whose fetches all reject leave the state unchanged |
| `Listing.SessionCounts` | src/pages/index.tsx:43-67 | following a chain of pages (button on screen before every click), posts grow by exactly the total result count, keep the old posts in front, and the cursor ends as the last page's next_page |
| `Listing.DisplayedOrder` | src/pages/index.tsx:76-124 | the list shows the first page's posts, then the loaded posts, one card each, in order |
| `Listing.MountedList` | src/pages/index.tsx:76-99 | before any load the list is one card per document of the query response, in order, each shown as that document |
| `Listing.DisplayedAppendOnly` | src/pages/index.tsx:101-124 | a load-more only adds cards after those already shown |
| `Listing.LoadedDatesFormattedTwice` | src/pages/index.tsx:101-114 | the date a loaded card hands to format is format's output for the fetched date |
| `Listing.DocumentCardNormalized` | src/pages/index.tsx:101-124 | rendering an unnormalised loaded document shows the same card as its normalised post |
| `Listing.TwoPageScenario` | src/pages/index.tsx:126-134 | first page [P1] with cursor "/page2" and a formattable date shows the button; loading [P2] with null cursor gives the list P1, P2, which renders when format accepts P2's formatted date, and hides the button |
| `Posts.NormalizeEntry` | src/pages/index.tsx:163-170 | the object literal for one document; its properties are stated by NormalizeEntryCopies, NormalizeEntryDropsTheRest, NormalizeEntryRoundTrip and NormalizeEntryIgnoresRest |
| `Posts.GetStaticProps` | src/pages/index.tsx:150-183 | the props built from the query response; stated by GetStaticPropsSpec and MountedList |
| `Listing.WithFormattedDate` | src/pages/index.tsx:51-60 | a fetched document after line 60 rewrites its date; stated by FormatDates and LoadMoreAppends (only the date changes) |
| `Listing.LoadMore` | src/pages/index.tsx:44-66 | the load-more transition; stated by LoadMoreRejected, LoadMoreCursor, LoadMoreAppends, LoadMoreFormatThrows, LoadMoreAppendOnly, LoadMoreKeepsDuplicates, and by HandleShowMorePosts, which it specifies |
| `Listing.Truthy` | src/pages/index.tsx:126 | JavaScript truthiness of the cursor: null and the empty string are falsy; used by SessionExhausted and TwoPageScenario |
| `Listing.ShowMoreOffered` | src/pages/index.tsx:126-134 | the `nextPage &&` test: the button is rendered iff the cursor is truthy and the render does not throw (`ButtonShown`); stated by Mount, SessionExhausted and TwoPageScenario |
| `Listing.ButtonShown` | src/pages/index.tsx:76-134 | the button is on screen: the cursor is truthy and no `format` call at line 86 or 111 throws; stated by ClickAfterRenderThrows, SessionExhausted and TwoPageScenario |
| `Listing.Click` | src/pages/index.tsx:126-129 | a click reaches the handler only while the button is on screen (cursor truthy and render succeeded); stated by ClickAfterRenderThrows, SessionExhausted and TwoPageScenario |
| `Listing.ClickAfterRenderThrows` | src/pages/index.tsx:76-134 | when a first-page date makes the render throw, the list renders nothing and a click changes nothing, whatever its fetch returns |
| `Listing.Session` | src/pages/index.tsx:43-67 | a run of clicks; stated by SessionAppendOnly, SessionExhausted, SessionRejected, SessionFollowsChain, SessionCounts and SessionContents |
| `Listing.ChainStep` | src/pages/index.tsx:43-134 | along a chain the first click loads the first page, and the rest is again a chain: the button stays on screen because the new dates render (RenderAfterLoad) |
| `Listing.Follow` | src/pages/index.tsx:43-67 | loading pages one after another; stated by FollowContents and SessionFollowsChain |
| `Listing.SessionFollowsChain` | src/pages/index.tsx:43-134 | along a chain (button on screen before every click; the last page's dates need not render again) every click reaches the handler, so the session equals the plain succession of loads |
| `Listing.FollowContents` | src/pages/index.tsx:47-65 | loading pages whose dates format ends on the last page's cursor with the old posts followed by every loaded document in order |
| `Listing.LastLoadBreaksRender` | src/pages/index.tsx:43-114 | a one-page run whose dates format on load is a chain; the click appends the whole page, and when format rejects its own output for a new date the next render throws |
| `Listing.LoadedCount` | src/pages/index.tsx:49-65 | the documents loaded from a run of pages number exactly the documents on those pages |
| `Listing.Loaded` | src/pages/index.tsx:49-65 | the documents a run of fetches appends, page after page; stated by SessionContents |
| `Listing.Displayed` | src/pages/index.tsx:76-124 | the cards the page lists, built by PostCard and DocumentCard; stated by DisplayedOrder, DisplayedAppendOnly, MountedList, LoadedDatesFormattedTwice and DocumentCardNormalized |
| `Listing.PostCard` | src/pages/index.tsx:78-93 | the key, title, subtitle, date argument and author one first-page card shows; stated by DisplayedOrder and DocumentCardNormalized |
| `Listing.DocumentCard` | src/pages/index.tsx:103-118 | the same fields for a loaded post; stated by DisplayedOrder, MountedList and DocumentCardNormalized |
| `Listing.RenderDates` | src/pages/index.tsx:86-88 | the dates the list renders: succeeds iff format accepts the date of every card, and then the k-th text is format of the k-th card's date |
| `Listing.Render` | src/pages/index.tsx:76-124 | rendering the list, None when a format call at line 86 or 111 throws; stated by RenderDates and RenderAfterLoad |
| `Listing.SessionContents` | src/pages/index.tsx:43-67 | following a chain of pages (button on screen before every click), the state ends as the last page's next_page and the old posts followed by every fetched document in fetch order, each with its date formatted |
| `Listing.RenderAfterLoad` | src/pages/index.tsx:101-114 | after a load-more the list renders iff it rendered before and format accepts format's output for each new date: a successful load can make the next render throw |
| `HomePage.Home.constructor` | src/pages/index.tsx:36-37 | first render: cursor null, no loaded posts, no button |
| `HomePage.Home.SyncNextPage` | src/pages/index.tsx:39-41 | the effect sets the cursor to the first page's next_page and leaves posts alone |
| `HomePage.Home.HandleShowMorePosts` | src/pages/index.tsx:43-67 | the handler's new state is LoadMore of the old state and the fetch of the old cursor |
| `HomePage.Mount` | src/pages/index.tsx:35-41 | after mount the cursor is the query response's next_page, posts are empty, and the `nextPage &&` test at line 126 passes iff that cursor is truthy |

## Left out

- Rendering (JSX, `Head`, `Link` markup, CSS modules, icons): only the fields each card shows are modelled (`Card`).
- The network and the Prismic client (`getPrismicClient`, `prismic.query`, its predicate, `fetch` fields and `pageSize: 1`): the query response and each fetch outcome are parameters.
- A fetched body that is JSON but lacks `results`: the cursor would be set and then `.map` would throw; a resolved fetch is always a well-formed page here.
- A raw document without `data`: the projection would throw a TypeError; the model's document type always has `data`, and its title, subtitle and author are strings.
- date-fns `format` with the pt-BR locale: a parameter; which dates it rejects, and whether it can parse its own output, is not modelled. That a rejected date makes the render throw is modelled (`Render`).
- React scheduling and overlapping clicks: at most one load-more is in flight, and each handler run is atomic.
- HomePage.Home.HandleShowMorePosts: the fetched documents are updated as values; the in-place mutation of the fetched objects is not observable afterwards and is not modelled.
- `src/components/Header/index.tsx` and `src/pages/_app.tsx`: presentation only.
- The post detail page and its rich-text conversion (`src/pages/post/[slug].tsx`) are not part of this model.
