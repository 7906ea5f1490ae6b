/**
 * The documents of the listing page (src/pages/index.tsx) and the projection
 * `getStaticProps` applies to the first page of the query.
 */
module Posts {
  import opened Wrappers

  /** A content-provider document's `data` object: the three fields the
      listing uses, and every other field (such as `content`) by name, each
      value kept in its serialised form. */
  datatype RawData = RawData(title: string, subtitle: string, author: string,
                             rest: map<string, string>)

  /** A document as the content provider returns it: `uid` and
      `first_publication_date` may be null (`None`), and the remaining top-level
      properties (`id`, `type`, `last_publication_date`, ...) are in `rest`. */
  datatype RawDocument = RawDocument(uid: Option<string>,
                                     first_publication_date: Option<string>,
                                     data: RawData,
                                     rest: map<string, string>)

  /** One page of a query response: the cursor of the next page (null on the
      last page) and the documents of this page, in the provider's order. */
  datatype RawPage = RawPage(next_page: Option<string>, results: seq<RawDocument>)

  /** The `Post` shape of the listing: exactly five fields. */
  datatype PostData = PostData(title: string, subtitle: string, author: string)
  datatype Post = Post(uid: Option<string>, first_publication_date: Option<string>,
                       data: PostData)

  datatype PostPagination = PostPagination(next_page: Option<string>, results: seq<Post>)

  /** The props `getStaticProps` returns, with its revalidation period in seconds. */
  datatype StaticProps = StaticProps(postsPagination: PostPagination, revalidate: nat)

  const RevalidateSeconds: nat := 60 * 30

  /** The object literal built for one document of the first page. */
  function NormalizeEntry(d: RawDocument): Post
  {
    Post(d.uid, d.first_publication_date,
         PostData(d.data.title, d.data.subtitle, d.data.author))
  }

  /** The raw document that carries a post's five fields and nothing else. */
  function AsRaw(p: Post): RawDocument
  {
    RawDocument(p.uid, p.first_publication_date,
                RawData(p.data.title, p.data.subtitle, p.data.author, map[]),
                map[])
  }

  /** `results.map(...)`: one post per document, in the same order. */
  function NormalizeResults(rs: seq<RawDocument>): (ps: seq<Post>)
    ensures |ps| == |rs|
    ensures forall k :: 0 <= k < |rs| ==> ps[k] == NormalizeEntry(rs[k])
  {
    if rs == [] then [] else [NormalizeEntry(rs[0])] + NormalizeResults(rs[1..])
  }

  /** `getStaticProps` once the query has answered with `response`. */
  function GetStaticProps(response: RawPage): StaticProps
  {
    StaticProps(PostPagination(response.next_page, NormalizeResults(response.results)),
                RevalidateSeconds)
  }

  /** Normalising a document keeps its five listing fields unchanged. */
  lemma NormalizeEntryCopies(d: RawDocument)
    ensures NormalizeEntry(d).uid == d.uid
    ensures NormalizeEntry(d).first_publication_date == d.first_publication_date
    ensures NormalizeEntry(d).data.title == d.data.title
    ensures NormalizeEntry(d).data.subtitle == d.data.subtitle
    ensures NormalizeEntry(d).data.author == d.data.author
  {
  }

  /** ... and nothing else: seen as a raw document again, the normalised post
      is the input with every other field removed. */
  lemma NormalizeEntryDropsTheRest(d: RawDocument)
    ensures AsRaw(NormalizeEntry(d)) == d.(rest := map[], data := d.data.(rest := map[]))
  {
  }

  /** Round trip: a post that is already in the listing shape comes back unchanged. */
  lemma NormalizeEntryRoundTrip(p: Post)
    ensures NormalizeEntry(AsRaw(p)) == p
  {
  }

  /** Two documents that agree on the five listing fields normalise alike. */
  lemma NormalizeEntryIgnoresRest(d: RawDocument, e: RawDocument)
    requires d.uid == e.uid && d.first_publication_date == e.first_publication_date
    requires d.data.title == e.data.title && d.data.subtitle == e.data.subtitle
    requires d.data.author == e.data.author
    ensures NormalizeEntry(d) == NormalizeEntry(e)
  {
  }

  /** Normalising a page distributes over concatenation of its documents. */
  lemma NormalizeResultsAppend(rs: seq<RawDocument>, ts: seq<RawDocument>)
    ensures NormalizeResults(rs + ts) == NormalizeResults(rs) + NormalizeResults(ts)
  {
  }

  /** The props keep the response's cursor, hold one post per document of the
      response in the response's order, and revalidate every 30 minutes. */
  lemma GetStaticPropsSpec(response: RawPage)
    ensures GetStaticProps(response).postsPagination.next_page == response.next_page
    ensures |GetStaticProps(response).postsPagination.results| == |response.results|
    ensures forall k :: 0 <= k < |response.results| ==>
              GetStaticProps(response).postsPagination.results[k]
                == NormalizeEntry(response.results[k])
    ensures GetStaticProps(response).revalidate == 1800
  {
  }
}
