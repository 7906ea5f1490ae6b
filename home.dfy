/**
 * The `Home` component of src/pages/index.tsx as an object: its props, the
 * two state cells `nextPage` and `posts`, the effect that copies the first
 * page's cursor, and the click handler that loads the next page.
 */
module HomePage {
  import opened Wrappers
  import opened Posts
  import opened Listing

  class Home {
    const postsPagination: PostPagination
    var nextPage: Option<string>
    var posts: seq<RawDocument>

    /** The view's state as a value. */
    function State(): ListingState
      reads this
    {
      ListingState(nextPage, posts)
    }

    /** First render: `useState(null)` and `useState([])`. */
    constructor (postsPagination: PostPagination)
      ensures this.postsPagination == postsPagination
      ensures State() == ListingState(None, [])
      ensures !ShowMoreOffered(State())
    {
      this.postsPagination := postsPagination;
      nextPage := None;
      posts := [];
    }

    /** The effect on `postsPagination.next_page`: the cursor becomes the
        first page's `next_page`; the loaded posts are untouched. */
    method SyncNextPage()
      modifies this
      ensures nextPage == postsPagination.next_page
      ensures posts == old(posts)
    {
      nextPage := postsPagination.next_page;
    }

    /** `handleShowMorePosts`, which only the rendered button can call. The
        page at the cursor is fetched with `fetch`; `format` formats dates. */
    method HandleShowMorePosts(fetch: string -> FetchOutcome, format: Formatter)
      requires ShowMoreOffered(State())
      modifies this
      ensures State() == LoadMore(old(State()), fetch(old(nextPage).value), format)
    {
      var outcome := fetch(nextPage.value);
      match outcome {
        case Rejected =>
        case Resolved(data) =>
          nextPage := data.next_page;
          var updatedPosts := posts;
          var i := 0;
          while i < |data.results|
            invariant 0 <= i <= |data.results|
            invariant |updatedPosts| == |posts| + i
            invariant updatedPosts[..|posts|] == posts
            invariant forall k :: 0 <= k < i ==>
                        && format(data.results[k].first_publication_date).Some?
                        && updatedPosts[|posts| + k] == WithFormattedDate(data.results[k], format)
          {
            var post := data.results[i];
            var formatedDate := format(post.first_publication_date);
            if formatedDate.None? {
              // `format` throws: the promise rejects before `setPosts`.
              return;
            }
            post := post.(first_publication_date := formatedDate);
            updatedPosts := updatedPosts + [post];
            i := i + 1;
          }
          var loaded := FormatDates(data.results, format).value;
          assert updatedPosts == posts + loaded by {
            assert updatedPosts[..|posts|] == posts;
            forall k | 0 <= k < |loaded| ensures updatedPosts[|posts| + k] == loaded[k] { }
          }
          posts := updatedPosts;
      }
    }
  }

  /** A view mounted on the props of `getStaticProps`: after the first render
      and its effect the cursor is the query response's `next_page`, nothing
      is loaded yet, and the `nextPage &&` test before the button passes exactly
      when that cursor is truthy. */
  method Mount(response: RawPage) returns (home: Home)
    ensures fresh(home)
    ensures home.postsPagination == GetStaticProps(response).postsPagination
    ensures home.nextPage == response.next_page && home.posts == []
    ensures ShowMoreOffered(home.State()) <==> Truthy(response.next_page)
  {
    home := new Home(GetStaticProps(response).postsPagination);
    home.SyncNextPage();
  }
}
