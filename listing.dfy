/**
 The listing page's paginator: a list of post summaries and a cursor to the
 next page, built once from the server-side query and then extended one
 fetched page at a time.
 */
module Listing {
  import opened Wrappers
  import opened Posts

  /** The listing state `(posts, nextPageUrl)`, and the props the server hands the page. */
  datatype PostPagination = PostPagination(results: seq<Post>, nextPage: Option<string>)

  /** A page as the content API returns it, already parsed: raw documents and the next cursor. */
  datatype ApiResponse = ApiResponse(results: seq<RawPost>, nextPage: Option<string>)

  /** The props built on the server from the first query response. */
  function StaticProps(response: ApiResponse): (props: PostPagination)
    ensures |props.results| == |response.results|
    ensures forall i :: 0 <= i < |response.results| ==> props.results[i] == Adapt(response.results[i])
    ensures props.nextPage == response.nextPage
  {
    AdaptAllAt(response.results);
    PostPagination(AdaptAll(response.results), response.nextPage)
  }

  /**
   The "load more" button is rendered when the cursor is truthy: a null
   cursor and an empty string both hide it.
   */
  function Offered(cursor: Option<string>): (shown: bool)
    ensures shown ==> cursor.Some?
  {
    match cursor
    case None => false
    case Some(url) => url != ""
  }

  /** The button test is truthiness, not a null test: a present but empty cursor hides it too. */
  lemma OfferedIsTruthiness(cursor: Option<string>)
    ensures Offered(cursor) <==> cursor != None && cursor != Some("")
  {
  }

  /**
   One load step from the state it is handed: the fetched page's documents,
   adapted and in response order, go after the prior posts, and the cursor
   becomes the page's own next cursor.
   */
  function LoadMore(prior: PostPagination, response: ApiResponse): (next: PostPagination)
    ensures |next.results| == |prior.results| + |response.results|
  {
    PostPagination(prior.results + AdaptAll(response.results), response.nextPage)
  }

  /**
   A load keeps the prior posts as an unchanged prefix, puts the fetched
   documents after them adapted and in response order, and replaces the
   cursor by the page's own; a page without a next cursor hides the button.
   */
  lemma LoadMoreAppends(prior: PostPagination, response: ApiResponse)
    ensures |LoadMore(prior, response).results| == |prior.results| + |response.results|
    ensures LoadMore(prior, response).results[..|prior.results|] == prior.results
    ensures forall i :: 0 <= i < |response.results| ==>
              LoadMore(prior, response).results[|prior.results| + i] == Adapt(response.results[i])
    ensures LoadMore(prior, response).nextPage == response.nextPage
    ensures response.nextPage == None ==> !Offered(LoadMore(prior, response).nextPage)
  {
    AdaptAllAt(response.results);
  }

  /**
   Loads as the page performs them: every step starts again from the state
   the callback captured on the first render, whatever the current state is.
   */
  function StaleRun(captured: PostPagination, current: PostPagination, responses: seq<ApiResponse>): (s: PostPagination)
    decreases |responses|
    ensures responses == [] ==> s == current
    ensures responses != [] ==>
              |s.results| == |captured.results| + |responses[|responses| - 1].results|
  {
    if responses == [] then current
    else StaleRun(captured, LoadMore(captured, responses[0]), responses[1..])
  }

  /** Loads where every step starts from the current state. */
  function FreshRun(current: PostPagination, responses: seq<ApiResponse>): (s: PostPagination)
    decreases |responses|
    ensures |s.results| >= |current.results|
    ensures s.results[..|current.results|] == current.results
  {
    if responses == [] then current
    else FreshRun(LoadMore(current, responses[0]), responses[1..])
  }

  /** The documents of a sequence of pages, page after page. */
  function AllResults(responses: seq<ApiResponse>): (rs: seq<RawPost>) {
    if responses == [] then [] else responses[0].results + AllResults(responses[1..])
  }

  /**
   With the captured state, loads do not accumulate: after any number of
   loads only the initial posts and the last page's posts are listed.
   */
  lemma {:induction false} StaleRunKeepsOnlyLastLoad(captured: PostPagination, current: PostPagination, responses: seq<ApiResponse>)
    requires responses != []
    decreases |responses|
    ensures StaleRun(captured, current, responses) == LoadMore(captured, responses[|responses| - 1])
    ensures StaleRun(captured, current, responses).results ==
              captured.results + AdaptAll(responses[|responses| - 1].results)
  {
    if |responses| > 1 {
      StaleRunKeepsOnlyLastLoad(captured, LoadMore(captured, responses[0]), responses[1..]);
    }
  }

  /**
   With the current state, loads accumulate: the posts are the initial ones
   followed by every page's posts in fetch order, and the cursor is the last
   page's.
   */
  lemma {:induction false} FreshRunAccumulates(current: PostPagination, responses: seq<ApiResponse>)
    ensures FreshRun(current, responses).results == current.results + AdaptAll(AllResults(responses))
    ensures FreshRun(current, responses).nextPage ==
              if responses == [] then current.nextPage else responses[|responses| - 1].nextPage
    decreases |responses|
  {
    if responses == [] {
      assert AdaptAll(AllResults(responses)) == [];
    } else {
      var first, rest := responses[0], responses[1..];
      var next := LoadMore(current, first);
      assert next.results == current.results + AdaptAll(first.results);
      assert FreshRun(current, responses) == FreshRun(next, rest);
      assert AllResults(responses) == first.results + AllResults(rest);
      FreshRunAccumulates(next, rest);
      AdaptAllAppend(first.results, AllResults(rest));
      assert next.results + AdaptAll(AllResults(rest))
          == current.results + (AdaptAll(first.results) + AdaptAll(AllResults(rest)));
      assert rest != [] ==> rest[|rest| - 1] == responses[|responses| - 1];
    }
  }

  /**
   Two posts listed with cursor "url2"; the page fetched there holds one
   document and no further cursor. Afterwards three posts are listed, in
   that order, and the button is gone.
   */
  lemma LoadLastPage(a: Post, b: Post, c: RawPost)
    ensures LoadMore(PostPagination([a, b], Some("url2")), ApiResponse([c], None))
         == PostPagination([a, b, Adapt(c)], None)
    ensures !Offered(LoadMore(PostPagination([a, b], Some("url2")), ApiResponse([c], None)).nextPage)
  {
  }

  /**
   Three pages chained by cursors "u2" and "u3". As written, both clicks
   fetch "u2", so the second click lists the same three posts again, the
   button stays, and the third page is never listed. Loading from the
   current state lists all four posts and ends with no cursor.
   */
  lemma StaleClicksNeverReachThirdPage(a: Post, b: Post, c: RawPost, d: RawPost)
    ensures StaleRun(PostPagination([a, b], Some("u2")), PostPagination([a, b], Some("u2")),
                     [ApiResponse([c], Some("u3")), ApiResponse([c], Some("u3"))])
         == PostPagination([a, b, Adapt(c)], Some("u3"))
    ensures FreshRun(PostPagination([a, b], Some("u2")),
                     [ApiResponse([c], Some("u3")), ApiResponse([d], None)])
         == PostPagination([a, b, Adapt(c), Adapt(d)], None)
  {
    var init := PostPagination([a, b], Some("u2"));
    var page2 := ApiResponse([c], Some("u3"));
    var page3 := ApiResponse([d], None);
    StaleRunKeepsOnlyLastLoad(init, init, [page2, page2]);
    FreshRunAccumulates(init, [page2, page3]);
    assert AllResults([page2, page3]) == [c, d] by {
      assert [page2, page3][1..] == [page3] && [page3][1..] == [];
      assert AllResults([page3]) == [d] + AllResults([]);
    }
  }

  /**
   The listing page's state. `captured` is the state as the load callback
   saw it on the first render; with an empty dependency list the callback
   never sees a later one.
   */
  class Home {
    const captured: PostPagination
    var posts: seq<Post>
    var nextPageUrl: Option<string>

    /** The page's state cells as one `(posts, nextPageUrl)` value. */
    function State(): PostPagination
      reads this
    {
      PostPagination(posts, nextPageUrl)
    }

    /**
     Either the state is still the captured one, or the captured cursor is
     truthy, so the button was offered on the first render.
     */
    ghost predicate Valid()
      reads this
    {
      State() == captured || Offered(captured.nextPage)
    }

    /** The page's first render, from the server-built props. */
    constructor (postsPagination: PostPagination)
      ensures Valid()
      ensures captured == postsPagination
      ensures posts == postsPagination.results && nextPageUrl == postsPagination.nextPage
    {
      captured := postsPagination;
      posts := postsPagination.results;
      nextPageUrl := postsPagination.nextPage;
    }

    /** Whether the "load more" button is rendered. */
    method CanLoadMore() returns (shown: bool)
      ensures shown <==> nextPageUrl.Some? && |nextPageUrl.value| > 0
      ensures shown == Offered(nextPageUrl)
    {
      shown := nextPageUrl != None && nextPageUrl.value != "";
    }

    /**
     The click handler as written: it fetches the captured cursor and appends
     the fetched page to the captured posts. `response` is what the fetch of
     `url` returned.
     */
    method GetNextPage(response: ApiResponse) returns (url: string)
      requires Valid() && Offered(nextPageUrl)
      modifies this
      ensures Valid()
      ensures captured.nextPage == Some(url)
      ensures State() == LoadMore(captured, response)
    {
      url := captured.nextPage.value;
      nextPageUrl := response.nextPage;
      posts := captured.results + AdaptAll(response.results);
    }

    /** The click handler with the current state: fetch its cursor, append to its posts. */
    method GetNextPageFromCurrent(response: ApiResponse) returns (url: string)
      requires Valid() && Offered(nextPageUrl)
      modifies this
      ensures Valid()
      ensures old(nextPageUrl) == Some(url)
      ensures State() == LoadMore(old(State()), response)
    {
      url := nextPageUrl.value;
      nextPageUrl := response.nextPage;
      posts := posts + AdaptAll(response.results);
    }
  }

  /**
   Two clicks on the page as written: both fetch the captured cursor, and
   the result is what one load from the first state with the second page
   gives.
   */
  method ClickTwice(props: PostPagination, first: ApiResponse, second: ApiResponse)
    returns (firstUrl: string, secondUrl: string, last: PostPagination)
    requires Offered(props.nextPage) && Offered(first.nextPage)
    ensures props.nextPage == Some(firstUrl) && firstUrl == secondUrl
    ensures last == StaleRun(props, props, [first, second])
    ensures last.results == props.results + AdaptAll(second.results)
    ensures last.nextPage == second.nextPage
  {
    var home := new Home(props);
    firstUrl := home.GetNextPage(first);
    secondUrl := home.GetNextPage(second);
    last := home.State();
    StaleRunKeepsOnlyLastLoad(props, props, [first, second]);
  }

  /**
   Two clicks loading from the current state: the second fetches the first
   page's cursor, and both pages are kept in fetch order.
   */
  method ClickTwiceFromCurrent(props: PostPagination, first: ApiResponse, second: ApiResponse)
    returns (firstUrl: string, secondUrl: string, last: PostPagination)
    requires Offered(props.nextPage) && Offered(first.nextPage)
    ensures props.nextPage == Some(firstUrl) && first.nextPage == Some(secondUrl)
    ensures last == FreshRun(props, [first, second])
    ensures last.results == props.results + AdaptAll(first.results + second.results)
    ensures last.nextPage == second.nextPage
  {
    var home := new Home(props);
    firstUrl := home.GetNextPageFromCurrent(first);
    secondUrl := home.GetNextPageFromCurrent(second);
    last := home.State();
    assert [first, second][1..] == [second] && [second][1..] == [];
    assert FreshRun(props, [first, second]) == FreshRun(LoadMore(props, first), [second]);
    FreshRunAccumulates(props, [first, second]);
    assert AllResults([first, second]) == first.results + second.results by {
      assert AllResults([second]) == second.results + AllResults([]);
    }
  }

  /**
   Any number of clicks on the page as written, the button being shown
   before each one: every click fetches the captured cursor, and the page
   ends with the initial posts and the last fetched page's posts only.
   */
  method ClickRepeatedly(props: PostPagination, responses: seq<ApiResponse>)
    returns (urls: seq<string>, last: PostPagination)
    requires Offered(props.nextPage)
    requires forall k :: 0 <= k < |responses| - 1 ==> Offered(responses[k].nextPage)
    ensures |urls| == |responses|
    ensures forall k :: 0 <= k < |urls| ==> props.nextPage == Some(urls[k])
    ensures last == StaleRun(props, props, responses)
    ensures responses != [] ==> last == LoadMore(props, responses[|responses| - 1])
  {
    var home := new Home(props);
    urls := [];
    var k := 0;
    while k < |responses|
      invariant 0 <= k <= |responses|
      invariant home.Valid() && home.captured == props
      invariant k < |responses| ==> Offered(home.nextPageUrl)
      invariant StaleRun(props, props, responses) == StaleRun(props, home.State(), responses[k..])
      invariant |urls| == k
      invariant forall j :: 0 <= j < k ==> props.nextPage == Some(urls[j])
    {
      assert responses[k..][0] == responses[k] && responses[k..][1..] == responses[k + 1..];
      var url := home.GetNextPage(responses[k]);
      urls := urls + [url];
      k := k + 1;
    }
    last := home.State();
    assert responses[k..] == [];
    if responses != [] {
      StaleRunKeepsOnlyLastLoad(props, props, responses);
    }
  }
}
