/**
 * What the `Home` component of src/pages/index.tsx does with its state,
 * stated on values: the cursor `nextPage`, the loaded `posts`, the
 * "load more" transition and the list of cards the page shows.
 */
module Listing {
  import opened Wrappers
  import opened Posts

  /** date-fns `format(new Date(x), 'PP', { locale: ptBR })`: the date text
      for `x`, or None when the date is invalid and `format` throws. */
  type Formatter = Option<string> -> Option<string>

  /** How `fetch(nextPage).then(response => response.json())` settles: with a
      page, or rejected (network failure, unreadable body). */
  datatype FetchOutcome = Resolved(page: RawPage) | Rejected

  /** The state of one `Home` view: `nextPage` and `posts`. */
  datatype ListingState = ListingState(nextPage: Option<string>, posts: seq<RawDocument>)

  /** JavaScript truthiness of a `string | null`: null and "" are falsy. */
  predicate Truthy(s: Option<string>)
  {
    s.Some? && s.value != ""
  }

  /** The `nextPage &&` test in front of the "Carregar mais posts" button:
      it passes exactly when the cursor is truthy (the button is on screen
      when, in addition, the list renders: `ButtonShown`). */
  predicate ShowMoreOffered(s: ListingState)
  {
    Truthy(s.nextPage)
  }

  /** A fetched document once `format` has rewritten its date in place. */
  function WithFormattedDate(d: RawDocument, format: Formatter): RawDocument
  {
    d.(first_publication_date := format(d.first_publication_date))
  }

  /** Every date of `page` is one that `format` accepts. */
  predicate Formattable(page: RawPage, format: Formatter)
  {
    forall k :: 0 <= k < |page.results| ==> format(page.results[k].first_publication_date).Some?
  }

  /** The documents `data.results.map(...)` pushes, each with its date
      formatted, or None when `format` throws on one of them. */
  function FormatDates(rs: seq<RawDocument>, format: Formatter): (r: Option<seq<RawDocument>>)
    ensures r.Some? <==> forall k :: 0 <= k < |rs| ==> format(rs[k].first_publication_date).Some?
    ensures r.Some? ==> |r.value| == |rs|
    ensures r.Some? ==> forall k :: 0 <= k < |rs| ==> r.value[k] == WithFormattedDate(rs[k], format)
  {
    if rs == [] then Some([])
    else
      match format(rs[0].first_publication_date)
      case None => None
      case Some(_) =>
        match FormatDates(rs[1..], format)
        case None => None
        case Some(tail) => Some([WithFormattedDate(rs[0], format)] + tail)
  }

  /** The state after `handleShowMorePosts` has settled with `outcome`. A
      rejected fetch changes nothing. A resolved one sets the cursor first and
      then appends the page's documents, unnormalised and with their dates
      formatted; if `format` throws on one of them the promise rejects after
      the cursor was set and before the posts were. */
  function LoadMore(s: ListingState, outcome: FetchOutcome, format: Formatter): ListingState
  {
    match outcome
    case Rejected => s
    case Resolved(page) =>
      match FormatDates(page.results, format)
      case Some(loaded) => ListingState(page.next_page, s.posts + loaded)
      case None => ListingState(page.next_page, s.posts)
  }

  /** The button is on screen: the cursor is truthy and rendering the list
      did not throw (a render that throws shows nothing, button included). */
  predicate ButtonShown(first: PostPagination, s: ListingState, format: Formatter)
  {
    ShowMoreOffered(s) && Render(first, s, format).Some?
  }

  /** One click: when the button is not on screen nothing happens. */
  function Click(first: PostPagination, s: ListingState, outcome: FetchOutcome,
                 format: Formatter): ListingState
  {
    if ButtonShown(first, s, format) then LoadMore(s, outcome, format) else s
  }

  /** A run of clicks, the i-th click's fetch settling with `outcomes[i]`. */
  function Session(first: PostPagination, s: ListingState, outcomes: seq<FetchOutcome>,
                   format: Formatter): ListingState
    decreases |outcomes|
  {
    if outcomes == [] then s
    else Session(first, Click(first, s, outcomes[0], format), outcomes[1..], format)
  }

  /** Every stored date of `page`, once formatted, is accepted by `format`
      again when the list is rendered. */
  predicate Reformattable(page: RawPage, format: Formatter)
  {
    forall k :: 0 <= k < |page.results| ==>
      format(format(page.results[k].first_publication_date)).Some?
  }

  /** The number of documents on all of `pages`. */
  function ResultCount(pages: seq<RawPage>): nat
  {
    if pages == [] then 0 else |pages[0].results| + ResultCount(pages[1..])
  }

  /** The fetch outcomes of a run in which every fetch resolves. */
  function AllResolved(pages: seq<RawPage>): (os: seq<FetchOutcome>)
  {
    seq(|pages|, i requires 0 <= i < |pages| => Resolved(pages[i]))
  }

  /** The documents a run of fetches appends, page after page, each with its
      date formatted. */
  function Loaded(pages: seq<RawPage>, format: Formatter): seq<RawDocument>
    requires forall i :: 0 <= i < |pages| ==> Formattable(pages[i], format)
  {
    if pages == [] then []
    else
      assert Formattable(pages[0], format);
      FormatDates(pages[0].results, format).value + Loaded(pages[1..], format)
  }

  /** What one rendered `<Link>` shows: its key (the uid), title, subtitle,
      the value handed to `format` for the date, and the author. */
  datatype Card = Card(key: Option<string>, title: string, subtitle: string,
                       dateArg: Option<string>, author: string)

  function PostCard(p: Post): Card
  {
    Card(p.uid, p.data.title, p.data.subtitle, p.first_publication_date, p.data.author)
  }

  function DocumentCard(d: RawDocument): Card
  {
    Card(d.uid, d.data.title, d.data.subtitle, d.first_publication_date, d.data.author)
  }

  /** The page's list: the first page's posts, then the loaded posts. */
  function Displayed(first: PostPagination, s: ListingState): seq<Card>
  {
    seq(|first.results|, k requires 0 <= k < |first.results| => PostCard(first.results[k]))
    + seq(|s.posts|, k requires 0 <= k < |s.posts| => DocumentCard(s.posts[k]))
  }

  /** The date texts the list renders, card by card: `format(new Date(...))`
      at render time. None when `format` throws on one of them, in which
      case nothing is rendered. */
  function RenderDates(cards: seq<Card>, format: Formatter): (r: Option<seq<string>>)
    ensures r.Some? <==> forall k :: 0 <= k < |cards| ==> format(cards[k].dateArg).Some?
    ensures r.Some? ==> |r.value| == |cards|
    ensures r.Some? ==> forall k :: 0 <= k < |cards| ==> Some(r.value[k]) == format(cards[k].dateArg)
  {
    if cards == [] then Some([])
    else
      match format(cards[0].dateArg)
      case None => None
      case Some(date) =>
        match RenderDates(cards[1..], format)
        case None => None
        case Some(tail) => Some([date] + tail)
  }

  /** Rendering the page's list: the dates shown, or None when rendering throws. */
  function Render(first: PostPagination, s: ListingState, format: Formatter): Option<seq<string>>
  {
    RenderDates(Displayed(first, s), format)
  }

  // ---------------------------------------------------------------------
  // One load-more

  /** A rejected fetch leaves cursor and posts as they were, so a retry
      fetches the same cursor again. */
  lemma LoadMoreRejected(s: ListingState, format: Formatter)
    ensures LoadMore(s, Rejected, format) == s
  {
  }

  /** A resolved fetch always replaces the cursor with the page's `next_page`,
      null included. */
  lemma LoadMoreCursor(s: ListingState, page: RawPage, format: Formatter)
    ensures LoadMore(s, Resolved(page), format).nextPage == page.next_page
  {
  }

  /** When every date formats, the posts are the old posts followed by the
      page's documents in order, each with only its date rewritten to the
      formatter's output. */
  lemma LoadMoreAppends(s: ListingState, page: RawPage, format: Formatter)
    requires Formattable(page, format)
    ensures var t := LoadMore(s, Resolved(page), format);
      && |t.posts| == |s.posts| + |page.results|
      && t.posts[..|s.posts|] == s.posts
      && forall k :: 0 <= k < |page.results| ==>
           && t.posts[|s.posts| + k].first_publication_date
                == format(page.results[k].first_publication_date)
           && t.posts[|s.posts| + k] == page.results[k].(first_publication_date
                := t.posts[|s.posts| + k].first_publication_date)
  {
  }

  /** When `format` throws on some date, the cursor has moved on and the
      posts are unchanged: that page's documents are never shown. */
  lemma LoadMoreFormatThrows(s: ListingState, page: RawPage, format: Formatter, k: nat)
    requires k < |page.results| && format(page.results[k].first_publication_date).None?
    ensures LoadMore(s, Resolved(page), format) == ListingState(page.next_page, s.posts)
  {
  }

  /** Loading never removes or changes a post already loaded. */
  lemma LoadMoreAppendOnly(s: ListingState, outcome: FetchOutcome, format: Formatter)
    ensures s.posts <= LoadMore(s, outcome, format).posts
  {
  }

  /** Duplicate uids are kept: loading a page that repeats a document already
      loaded leaves both copies in the list. */
  lemma LoadMoreKeepsDuplicates(s: ListingState, d: RawDocument, next: Option<string>,
                                format: Formatter)
    requires format(d.first_publication_date).Some?
    ensures var t := LoadMore(s, Resolved(RawPage(next, [d])), format);
      t.posts == s.posts + [WithFormattedDate(d, format)]
  {
  }

  // ---------------------------------------------------------------------
  // Sessions of clicks

  /** Along any run of clicks the loaded posts only grow. */
  lemma {:induction false} SessionAppendOnly(first: PostPagination, s: ListingState,
                                             outcomes: seq<FetchOutcome>, format: Formatter)
    ensures s.posts <= Session(first, s, outcomes, format).posts
    decreases |outcomes|
  {
    if outcomes != [] {
      var c := Click(first, s, outcomes[0], format);
      if ButtonShown(first, s, format) {
        LoadMoreAppendOnly(s, outcomes[0], format);
      }
      SessionAppendOnly(first, c, outcomes[1..], format);
    }
  }

  /** Once the cursor is null or empty, or the list fails to render, the
      button is gone for good: no further click changes anything. */
  lemma {:induction false} SessionExhausted(first: PostPagination, s: ListingState,
                                            outcomes: seq<FetchOutcome>, format: Formatter)
    requires !ShowMoreOffered(s) || Render(first, s, format).None?
    ensures Session(first, s, outcomes, format) == s
    decreases |outcomes|
  {
    if outcomes != [] {
      SessionExhausted(first, s, outcomes[1..], format);
    }
  }

  /** Clicks whose fetches all reject leave the state as it was. */
  lemma {:induction false} SessionRejected(first: PostPagination, s: ListingState,
                                           outcomes: seq<FetchOutcome>, format: Formatter)
    requires forall i :: 0 <= i < |outcomes| ==> outcomes[i].Rejected?
    ensures Session(first, s, outcomes, format) == s
    decreases |outcomes|
  {
    if outcomes != [] {
      SessionRejected(first, s, outcomes[1..], format);
    }
  }

  /** The conditions under which a chain of pages is followed to its end:
      the button is on screen now, each page but the last points on with a
      truthy cursor, every fetched date formats when it is loaded, and the
      dates of every page but the last format again when the list is
      rendered before the next click (no render matters after the last). */
  predicate Chain(first: PostPagination, s: ListingState, pages: seq<RawPage>, format: Formatter)
  {
    && ButtonShown(first, s, format)
    && (forall i :: 0 <= i < |pages| - 1 ==> Truthy(pages[i].next_page))
    && (forall i :: 0 <= i < |pages| ==> Formattable(pages[i], format))
    && (forall i :: 0 <= i < |pages| - 1 ==> Reformattable(pages[i], format))
  }

  /** One step along a chain: the first page loads and, if more pages
      follow, the rest is still a chain from the new state. */
  lemma ChainStep(first: PostPagination, s: ListingState, pages: seq<RawPage>, format: Formatter)
    requires Chain(first, s, pages, format) && pages != []
    ensures AllResolved(pages)[0] == Resolved(pages[0])
    ensures AllResolved(pages)[1..] == AllResolved(pages[1..])
    ensures Session(first, s, AllResolved(pages), format)
              == Session(first, LoadMore(s, Resolved(pages[0]), format),
                         AllResolved(pages[1..]), format)
    ensures |pages| > 1 ==> Chain(first, LoadMore(s, Resolved(pages[0]), format), pages[1..], format)
  {
    var rest := pages[1..];
    var t := LoadMore(s, Resolved(pages[0]), format);
    assert AllResolved(pages)[1..] == AllResolved(rest);
    if |pages| > 1 {
      RenderAfterLoad(first, s, pages[0], format);
      assert Truthy(pages[0].next_page);
      forall i | 0 <= i < |rest| - 1
        ensures Truthy(rest[i].next_page) && Reformattable(rest[i], format)
      {
        assert rest[i] == pages[i + 1];
      }
      forall i | 0 <= i < |rest| ensures Formattable(rest[i], format) {
        assert rest[i] == pages[i + 1];
      }
    }
  }

  /** Loading `pages` one after another, whatever the button shows. */
  function Follow(s: ListingState, pages: seq<RawPage>, format: Formatter): ListingState
    decreases |pages|
  {
    if pages == [] then s else Follow(LoadMore(s, Resolved(pages[0]), format), pages[1..], format)
  }

  /** Along a chain every click reaches the handler: the session is the
      plain succession of loads. */
  lemma {:induction false} SessionFollowsChain(first: PostPagination, s: ListingState,
                                               pages: seq<RawPage>, format: Formatter)
    requires Chain(first, s, pages, format)
    ensures Session(first, s, AllResolved(pages), format) == Follow(s, pages, format)
    decreases |pages|
  {
    if pages != [] {
      ChainStep(first, s, pages, format);
      if |pages| == 1 {
        assert AllResolved(pages[1..]) == [];
      } else {
        SessionFollowsChain(first, LoadMore(s, Resolved(pages[0]), format), pages[1..], format);
      }
    }
  }

  /** Loading pages whose dates all format ends on the last page's cursor
      with the old posts followed by every loaded document, in order. */
  lemma {:induction false} FollowContents(s: ListingState, pages: seq<RawPage>, format: Formatter)
    requires forall i :: 0 <= i < |pages| ==> Formattable(pages[i], format)
    ensures Follow(s, pages, format)
              == ListingState(if pages == [] then s.nextPage else pages[|pages| - 1].next_page,
                              s.posts + Loaded(pages, format))
    decreases |pages|
  {
    if pages == [] {
      assert s.posts + Loaded(pages, format) == s.posts;
    } else {
      var rest := pages[1..];
      assert Formattable(pages[0], format);
      var page := FormatDates(pages[0].results, format).value;
      var t := LoadMore(s, Resolved(pages[0]), format);
      assert t == ListingState(pages[0].next_page, s.posts + page);
      assert forall i :: 0 <= i < |rest| ==> Formattable(rest[i], format) by {
        forall i | 0 <= i < |rest| ensures Formattable(rest[i], format) {
          assert rest[i] == pages[i + 1];
        }
      }
      FollowContents(t, rest, format);
      if rest == [] {
        assert page + Loaded(rest, format) == page;
      } else {
        assert rest[|rest| - 1] == pages[|pages| - 1];
      }
      assert s.posts + page + Loaded(rest, format) == s.posts + (page + Loaded(rest, format));
    }
  }

  /** The loaded documents number exactly the documents on the pages. */
  lemma {:induction false} LoadedCount(pages: seq<RawPage>, format: Formatter)
    requires forall i :: 0 <= i < |pages| ==> Formattable(pages[i], format)
    ensures |Loaded(pages, format)| == ResultCount(pages)
    decreases |pages|
  {
    if pages != [] {
      assert Formattable(pages[0], format);
      var rest := pages[1..];
      forall i | 0 <= i < |rest| ensures Formattable(rest[i], format) {
        assert rest[i] == pages[i + 1];
      }
      LoadedCount(rest, format);
    }
  }

  /** Following a chain of pages, the state ends as the last page's cursor
      and the old posts followed by every fetched document, page after page,
      in order, each with its date formatted. */
  lemma SessionContents(first: PostPagination, s: ListingState, pages: seq<RawPage>,
                        format: Formatter)
    requires Chain(first, s, pages, format)
    ensures Session(first, s, AllResolved(pages), format)
              == ListingState(if pages == [] then s.nextPage else pages[|pages| - 1].next_page,
                              s.posts + Loaded(pages, format))
  {
    SessionFollowsChain(first, s, pages, format);
    FollowContents(s, pages, format);
  }

  /** Following a chain of pages, the posts grow by exactly the number of
      documents fetched, keep the old posts in front, and the cursor ends as
      the last page's `next_page`. */
  lemma SessionCounts(first: PostPagination, s: ListingState, pages: seq<RawPage>,
                      format: Formatter)
    requires Chain(first, s, pages, format)
    ensures s.posts <= Session(first, s, AllResolved(pages), format).posts
    ensures |Session(first, s, AllResolved(pages), format).posts| == |s.posts| + ResultCount(pages)
    ensures Session(first, s, AllResolved(pages), format).nextPage
              == if pages == [] then s.nextPage else pages[|pages| - 1].next_page
  {
    SessionContents(first, s, pages, format);
    LoadedCount(pages, format);
  }

  /** A load can succeed in full and still leave a page that no longer
      renders: when `format` rejects its own output for a new date, the
      click loads the whole page and the next render throws. */
  lemma LastLoadBreaksRender(first: PostPagination, s: ListingState, page: RawPage,
                             format: Formatter, k: nat)
    requires ButtonShown(first, s, format) && Formattable(page, format)
    requires k < |page.results| && format(format(page.results[k].first_publication_date)).None?
    ensures Chain(first, s, [page], format)
    ensures Session(first, s, [Resolved(page)], format)
              == ListingState(page.next_page, s.posts + FormatDates(page.results, format).value)
    ensures Render(first, Session(first, s, [Resolved(page)], format), format).None?
  {
    assert AllResolved([page]) == [Resolved(page)];
    SessionContents(first, s, [page], format);
    assert Loaded([page], format) == FormatDates(page.results, format).value + Loaded([], format);
    RenderAfterLoad(first, s, page, format);
  }

  // ---------------------------------------------------------------------
  // The displayed list

  /** The list shows the first page's posts, then the loaded posts, one card each, in order. */
  lemma DisplayedOrder(first: PostPagination, s: ListingState)
    ensures |Displayed(first, s)| == |first.results| + |s.posts|
    ensures forall k :: 0 <= k < |first.results| ==>
              Displayed(first, s)[k] == PostCard(first.results[k])
    ensures forall k :: 0 <= k < |s.posts| ==>
              Displayed(first, s)[|first.results| + k] == DocumentCard(s.posts[k])
  {
  }

  /** A load-more only adds cards after the ones already shown. */
  lemma DisplayedAppendOnly(first: PostPagination, s: ListingState, outcome: FetchOutcome,
                            format: Formatter)
    ensures Displayed(first, s) <= Displayed(first, LoadMore(s, outcome, format))
  {
  }

  /** A card of a loaded post hands `format` a value that is already
      `format`'s own output: the loaded dates are formatted twice. */
  lemma LoadedDatesFormattedTwice(first: PostPagination, s: ListingState, page: RawPage,
                                  format: Formatter, k: nat)
    requires Formattable(page, format) && k < |page.results|
    ensures var t := LoadMore(s, Resolved(page), format);
      Displayed(first, t)[|first.results| + |s.posts| + k].dateArg
        == format(page.results[k].first_publication_date)
  {
  }

  /** Skipping normalisation for loaded posts shows the same card as
      normalising would have. */
  lemma DocumentCardNormalized(d: RawDocument)
    ensures DocumentCard(d) == PostCard(NormalizeEntry(d))
  {
  }

  /** After mount, before any load, the list shows one card per document of
      the query response, in order, each as that document would show. */
  lemma MountedList(response: RawPage)
    ensures Displayed(GetStaticProps(response).postsPagination, ListingState(response.next_page, []))
              == seq(|response.results|, k requires 0 <= k < |response.results|
                       => DocumentCard(response.results[k]))
  {
  }

  /** After a load-more whose dates all format, the list still renders iff it
      rendered before and `format` accepts each new post's stored date, which
      is `format`'s own output: a load that succeeds can make the next render
      throw. */
  lemma RenderAfterLoad(first: PostPagination, s: ListingState, page: RawPage, format: Formatter)
    requires Formattable(page, format)
    ensures (Render(first, LoadMore(s, Resolved(page), format), format).Some?)
              <==> (Render(first, s, format).Some?
                    && forall k :: 0 <= k < |page.results| ==>
                         format(format(page.results[k].first_publication_date)).Some?)
  {
    var t := LoadMore(s, Resolved(page), format);
    var a := Displayed(first, s);
    var b := Displayed(first, t);
    LoadMoreAppends(s, page, format);
    DisplayedOrder(first, t);
    DisplayedAppendOnly(first, s, Resolved(page), format);
    var n := |a|;
    assert |b| == n + |page.results|;
    forall k | 0 <= k < |page.results|
      ensures b[n + k].dateArg == format(page.results[k].first_publication_date)
    {
      assert b[|first.results| + (|s.posts| + k)] == DocumentCard(t.posts[|s.posts| + k]);
    }
    if Render(first, t, format).Some? {
      forall k | 0 <= k < |a| ensures format(a[k].dateArg).Some? {
        assert a[k] == b[k];
      }
      forall k | 0 <= k < |page.results|
        ensures format(format(page.results[k].first_publication_date)).Some?
      {
        assert format(b[n + k].dateArg).Some?;
      }
    }
    if Render(first, s, format).Some? &&
       forall k :: 0 <= k < |page.results| ==>
         format(format(page.results[k].first_publication_date)).Some? {
      forall k | 0 <= k < |b| ensures format(b[k].dateArg).Some? {
        if k < n {
          assert a[k] == b[k];
        } else {
          assert b[n + (k - n)].dateArg == format(page.results[k - n].first_publication_date);
        }
      }
    }
  }

  /** Two pages of one post each: the first page `{[P1], "/page2"}` shows
      the button; after a load that returns `{[P2], null}` the page renders
      P1, P2 (when `format` accepts P2's formatted date) and the button is
      gone. */
  lemma TwoPageScenario(p1: RawDocument, p2: RawDocument, format: Formatter)
    requires format(p1.first_publication_date).Some?
    requires format(p2.first_publication_date).Some?
    requires format(format(p2.first_publication_date)).Some?
    ensures var first := GetStaticProps(RawPage(Some("/page2"), [p1])).postsPagination;
      var s0 := ListingState(first.next_page, []);
      var s1 := Click(first, s0, Resolved(RawPage(None, [p2])), format);
      && ButtonShown(first, s0, format)
      && !ShowMoreOffered(s1)
      && Displayed(first, s1) == [PostCard(NormalizeEntry(p1)), DocumentCard(WithFormattedDate(p2, format))]
      && Render(first, s1, format).Some?
  {
    var first := GetStaticProps(RawPage(Some("/page2"), [p1])).postsPagination;
    assert Displayed(first, ListingState(first.next_page, [])) == [PostCard(NormalizeEntry(p1))];
  }

  /** A list that fails to render shows no button, so a click, whatever its
      fetch would return, changes nothing. */
  lemma ClickAfterRenderThrows(first: PostPagination, s: ListingState, outcome: FetchOutcome,
                               format: Formatter, k: nat)
    requires k < |first.results| && format(first.results[k].first_publication_date).None?
    ensures Render(first, s, format).None?
    ensures Click(first, s, outcome, format) == s
  {
    DisplayedOrder(first, s);
  }
}
