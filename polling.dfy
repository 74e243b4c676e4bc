/**
 * The pure logic of the polling cycle in `updateFeeds`: fetching one feed's
 * posts through an injected transport and stamping them with the feed's id
 * (`fetchPosts`), the filter that keeps only posts whose link the store does
 * not yet hold for that feed, the insertion of the survivors at the front of
 * the post list, and one whole cycle over the registered feeds.
 */
module Polling {
  import opened Common
  import opened Parser

  /**
   * What a request through the proxy settles with: the parsed document of the
   * response's `contents`, or a transport failure (an axios rejection).
   */
  datatype Transport = Success(contents: Document) | NetworkError

  /** What a rejected promise carries: an axios error, or an Error with its message. */
  datatype Thrown = AxiosError | Error(message: string)

  /** The message key of a document that holds a `parsererror` node. */
  const ParsingErrorKey: string := "errors.parsingError"

  /** The message key the submit handler reports for a transport failure. */
  const NetworkErrorKey: string := "errors.networkError"

  /** The message of the TypeError raised by reading `textContent` of a missing element (V8's wording). */
  const NullTextContentMessage: string := "Cannot read properties of null (reading 'textContent')"

  /** The error `parseRss` throws for each kind of parse failure. */
  function ParseFailure(e: ParseError): (t: Thrown)
    ensures t.Error?
    ensures t.message == ParsingErrorKey <==> e == ParserErrorNode
  {
    match e
    case ParserErrorNode => Error(ParsingErrorKey)
    case MissingElement => Error(NullTextContentMessage)
  }

  /**
   * `posts.map(post => ({ ...post, feedId }))`: the same posts, in the same
   * order, each owned by `feedId` and otherwise unchanged.
   */
  function Stamp(posts: seq<Post>, feedId: FeedId): (r: seq<Post>)
    ensures |r| == |posts|
    ensures forall i :: 0 <= i < |posts| ==>
      r[i].feedId == Some(feedId) && r[i].(feedId := posts[i].feedId) == posts[i]
  {
    if posts == [] then [] else [posts[0].(feedId := Some(feedId))] + Stamp(posts[1..], feedId)
  }

  /**
   * `fetchPosts(feedUrl, feedId)`: a transport failure rejects with the axios
   * error, a failed parse rejects with what the parser threw, and a
   * successful parse yields one post per item of the document, in order, each
   * stamped with `feedId` and carrying its item's link.
   */
  function FetchPosts(response: Transport, feedUrl: string, feedId: FeedId, clock: Clock)
    : (r: Result<seq<Post>, Thrown>)
    ensures response.NetworkError? ==> r == Err(AxiosError)
    ensures response.Success? && r.Err? ==>
      var parsed := ParseRss(response.contents, feedUrl, clock);
      parsed.Err? && r.error == ParseFailure(parsed.error)
    ensures r.Ok? <==> response.Success? && ParseRss(response.contents, feedUrl, clock).Ok?
    ensures r.Ok? ==> r.value == Stamp(ParseRss(response.contents, feedUrl, clock).value.posts, feedId)
    ensures r.Ok? ==> |r.value| == |response.contents.items|
    ensures r.Ok? ==> forall i :: 0 <= i < |r.value| ==>
      && r.value[i].feedId == Some(feedId)
      && Some(r.value[i].link) == response.contents.items[i].link
  {
    match response
    case NetworkError => Err(AxiosError)
    case Success(doc) =>
      match ParseRss(doc, feedUrl, clock)
      case Err(e) => Err(ParseFailure(e))
      case Ok(parsed) => Ok(Stamp(parsed.posts, feedId))
  }

  /** The links of `posts`, in order (`.map((post) => post.link)`). */
  function Links(posts: seq<Post>): (r: seq<string>)
    ensures |r| == |posts|
    ensures forall i :: 0 <= i < |posts| ==> r[i] == posts[i].link
  {
    if posts == [] then [] else [posts[0].link] + Links(posts[1..])
  }

  /** The posts of `posts` owned by `feedId`, in order (`.filter((post) => post.feedId === feed.id)`). */
  function OfFeed(posts: seq<Post>, feedId: FeedId): (r: seq<Post>)
    ensures forall p :: p in r <==> p in posts && p.feedId == Some(feedId)
    ensures |r| <= |posts|
  {
    if posts == [] then []
    else (if posts[0].feedId == Some(feedId) then [posts[0]] else []) + OfFeed(posts[1..], feedId)
  }

  /**
   * `existingPostLinks`: the links the store already holds for `feedId`; a
   * link is among them exactly when one of the feed's posts carries it.
   */
  function KnownLinks(posts: seq<Post>, feedId: FeedId): (r: seq<string>)
    ensures forall l :: l in r <==> exists p :: p in posts && p.feedId == Some(feedId) && p.link == l
  {
    assert forall l :: l in Links(OfFeed(posts, feedId)) <==> exists p :: p in OfFeed(posts, feedId) && p.link == l by {
      forall l ensures l in Links(OfFeed(posts, feedId)) <==> exists p :: p in OfFeed(posts, feedId) && p.link == l {
        InLinks(OfFeed(posts, feedId), l);
      }
    }
    Links(OfFeed(posts, feedId))
  }

  /** `newPosts.filter((newPost) => !known.includes(newPost.link))`, in order. */
  function Unknown(fetched: seq<Post>, known: seq<string>): (r: seq<Post>)
    ensures forall p :: p in r <==> p in fetched && p.link !in known
    ensures |r| <= |fetched|
  {
    if fetched == [] then []
    else (if fetched[0].link in known then [] else [fetched[0]]) + Unknown(fetched[1..], known)
  }

  /**
   * `uniqueNewPosts`: the fetched posts whose link is not among the links of
   * the posts the store holds for `feedId`.
   */
  function NewPosts(posts: seq<Post>, feedId: FeedId, fetched: seq<Post>): (r: seq<Post>)
    ensures forall p :: p in r <==> p in fetched && p.link !in KnownLinks(posts, feedId)
    ensures |r| <= |fetched|
  {
    Unknown(fetched, KnownLinks(posts, feedId))
  }

  /**
   * The store's posts after one feed's merge: the new posts in front, the old
   * list behind them unchanged (and the list untouched when nothing is new).
   */
  function MergePosts(posts: seq<Post>, feedId: FeedId, fetched: seq<Post>): (r: seq<Post>)
    ensures |r| >= |posts| && r[|r| - |posts|..] == posts
    ensures r[..|r| - |posts|] == NewPosts(posts, feedId, fetched)
    ensures NewPosts(posts, feedId, fetched) == [] ==> r == posts
  {
    NewPosts(posts, feedId, fetched) + posts
  }

  /** Every post in `posts` is owned by `feedId`. */
  predicate AllOwnedBy(posts: seq<Post>, feedId: FeedId)
  {
    forall p :: p in posts ==> p.feedId == Some(feedId)
  }

  // ---------------------------------------------------------------------------
  // Algebra of the helpers

  lemma {:induction false} LinksAppend(a: seq<Post>, b: seq<Post>)
    ensures Links(a + b) == Links(a) + Links(b)
  {
  }

  lemma {:induction false} OfFeedAppend(a: seq<Post>, b: seq<Post>, feedId: FeedId)
    ensures OfFeed(a + b, feedId) == OfFeed(a, feedId) + OfFeed(b, feedId)
  {
    if a != [] {
      var c := a + b;
      assert c != [] && c[0] == a[0] && c[1..] == a[1..] + b;
      OfFeedAppend(a[1..], b, feedId);
      var head := if a[0].feedId == Some(feedId) then [a[0]] else [];
      assert OfFeed(c, feedId) == head + OfFeed(a[1..] + b, feedId);
      assert OfFeed(a, feedId) == head + OfFeed(a[1..], feedId);
      assert head + (OfFeed(a[1..], feedId) + OfFeed(b, feedId))
          == (head + OfFeed(a[1..], feedId)) + OfFeed(b, feedId);
    } else {
      assert a + b == b;
    }
  }

  lemma {:induction false} OfFeedAllOwned(posts: seq<Post>, feedId: FeedId, other: FeedId)
    requires AllOwnedBy(posts, feedId)
    ensures OfFeed(posts, feedId) == posts
    ensures other != feedId ==> OfFeed(posts, other) == []
  {
    if posts != [] {
      OfFeedAllOwned(posts[1..], feedId, other);
    }
  }

  lemma {:induction false} OfFeedNoneOwned(posts: seq<Post>, feedId: FeedId)
    requires forall q :: q in posts ==> q.feedId != Some(feedId)
    ensures OfFeed(posts, feedId) == []
  {
    if posts != [] {
      assert posts[0] in posts;
      OfFeedNoneOwned(posts[1..], feedId);
    }
  }

  lemma {:induction false} UnknownAllKnown(fetched: seq<Post>, known: seq<string>)
    requires forall i :: 0 <= i < |fetched| ==> fetched[i].link in known
    ensures Unknown(fetched, known) == []
  {
    if fetched != [] {
      UnknownAllKnown(fetched[1..], known);
    }
  }

  lemma {:induction false} OfFeedTwice(posts: seq<Post>, feedId: FeedId)
    ensures OfFeed(OfFeed(posts, feedId), feedId) == OfFeed(posts, feedId)
  {
    OfFeedAllOwned(OfFeed(posts, feedId), feedId, feedId);
  }

  lemma {:induction false} InLinks(posts: seq<Post>, l: string)
    ensures l in Links(posts) <==> exists p :: p in posts && p.link == l
  {
    if l in Links(posts) {
      var i :| 0 <= i < |posts| && Links(posts)[i] == l;
      assert posts[i] in posts;
    }
  }

  // ---------------------------------------------------------------------------
  // Properties of one feed's merge

  /**
   * The filter keeps fetched order: filtering a concatenation is filtering
   * each part, so a post survives or not by its own link alone and the
   * survivors stay in the order they were fetched.
   */
  lemma {:induction false} NewPostsKeepFetchedOrder(posts: seq<Post>, feedId: FeedId, a: seq<Post>, b: seq<Post>)
    ensures NewPosts(posts, feedId, a + b) == NewPosts(posts, feedId, a) + NewPosts(posts, feedId, b)
    ensures NewPosts(posts, feedId, [] ) == []
  {
    UnknownAppend(a, b, KnownLinks(posts, feedId));
  }

  lemma {:induction false} UnknownAppend(a: seq<Post>, b: seq<Post>, known: seq<string>)
    ensures Unknown(a + b, known) == Unknown(a, known) + Unknown(b, known)
  {
    if a != [] {
      var c := a + b;
      assert c != [] && c[0] == a[0] && c[1..] == a[1..] + b;
      UnknownAppend(a[1..], b, known);
      var head := if a[0].link in known then [] else [a[0]];
      assert Unknown(c, known) == head + Unknown(a[1..] + b, known);
      assert Unknown(a, known) == head + Unknown(a[1..], known);
      assert head + (Unknown(a[1..], known) + Unknown(b, known))
          == (head + Unknown(a[1..], known)) + Unknown(b, known);
    } else {
      assert a + b == b;
    }
  }

  /**
   * The filter reads only the merged feed's own posts: posts of other feeds,
   * whatever their links, put in front of the store, neither block nor admit
   * anything.
   */
  lemma {:induction false} OtherFeedsDoNotBlock(others: seq<Post>, posts: seq<Post>, feedId: FeedId, fetched: seq<Post>)
    requires forall q :: q in others ==> q.feedId != Some(feedId)
    ensures NewPosts(others + posts, feedId, fetched) == NewPosts(posts, feedId, fetched)
    ensures NewPosts(posts, feedId, fetched) == NewPosts(OfFeed(posts, feedId), feedId, fetched)
  {
    OfFeedAppend(others, posts, feedId);
    OfFeedNoneOwned(others, feedId);
    assert OfFeed(others + posts, feedId) == OfFeed(posts, feedId);
    OfFeedTwice(posts, feedId);
  }

  /**
   * A merge for one feed leaves every other feed's posts exactly as they were,
   * and the merged feed's posts become the new posts followed by its old ones.
   */
  lemma {:induction false} MergeIsolation(posts: seq<Post>, feedId: FeedId, fetched: seq<Post>, other: FeedId)
    requires AllOwnedBy(fetched, feedId)
    ensures OfFeed(MergePosts(posts, feedId, fetched), feedId)
         == NewPosts(posts, feedId, fetched) + OfFeed(posts, feedId)
    ensures other != feedId ==>
      OfFeed(MergePosts(posts, feedId, fetched), other) == OfFeed(posts, other)
  {
    var added := NewPosts(posts, feedId, fetched);
    OfFeedAppend(added, posts, feedId);
    OfFeedAppend(added, posts, other);
    OfFeedAllOwned(added, feedId, other);
  }

  /** Links the store holds for any feed are still held after any merge. */
  lemma {:induction false} MergeKeepsKnownLinks(posts: seq<Post>, feedId: FeedId, fetched: seq<Post>, g: FeedId, l: string)
    requires l in KnownLinks(posts, g)
    ensures l in KnownLinks(MergePosts(posts, feedId, fetched), g)
  {
    OfFeedAppend(NewPosts(posts, feedId, fetched), posts, g);
    LinksAppend(OfFeed(NewPosts(posts, feedId, fetched), g), OfFeed(posts, g));
  }

  /** After a merge, every fetched link is among the merged feed's known links. */
  lemma {:induction false} MergeCoversFetched(posts: seq<Post>, feedId: FeedId, fetched: seq<Post>)
    requires AllOwnedBy(fetched, feedId)
    ensures forall p :: p in fetched ==> p.link in KnownLinks(MergePosts(posts, feedId, fetched), feedId)
  {
    var added := NewPosts(posts, feedId, fetched);
    MergeIsolation(posts, feedId, fetched, feedId);
    LinksAppend(added, OfFeed(posts, feedId));
    forall p | p in fetched
      ensures p.link in KnownLinks(MergePosts(posts, feedId, fetched), feedId)
    {
      if p in added {
        InLinks(added, p.link);
      }
    }
  }

  /**
   * Re-polling unchanged content is idempotent: after the posts fetched for a
   * feed have been merged, a later fetch carrying only links already fetched
   * (with whatever added ids) adds nothing, and the store is left as it is.
   */
  lemma {:induction false} RepollAddsNothing(posts: seq<Post>, feedId: FeedId, fetched: seq<Post>, refetched: seq<Post>)
    requires AllOwnedBy(fetched, feedId)
    requires Links(refetched) == Links(fetched)
    ensures NewPosts(MergePosts(posts, feedId, fetched), feedId, refetched) == []
    ensures MergePosts(MergePosts(posts, feedId, fetched), feedId, refetched) == MergePosts(posts, feedId, fetched)
  {
    var merged := MergePosts(posts, feedId, fetched);
    MergeCoversFetched(posts, feedId, fetched);
    var r := NewPosts(merged, feedId, refetched);
    if r != [] {
      var p := r[0];
      assert p in refetched;
      InLinks(refetched, p.link);
      InLinks(fetched, p.link);
      assert false;
    }
  }

  /** No link occurs twice among the posts the store holds for `feedId`. */
  predicate LinksUnique(posts: seq<Post>, feedId: FeedId)
  {
    NoDuplicates(KnownLinks(posts, feedId))
  }

  lemma {:induction false} UnknownLinksUnique(fetched: seq<Post>, known: seq<string>)
    requires NoDuplicates(Links(fetched))
    ensures NoDuplicates(Links(Unknown(fetched, known)))
  {
    if fetched != [] {
      var rest := fetched[1..];
      assert Links(rest) == Links(fetched)[1..];
      UnknownLinksUnique(rest, known);
      var head := if fetched[0].link in known then [] else [fetched[0]];
      LinksAppend(head, Unknown(rest, known));
      if head != [] {
        InLinks(Unknown(rest, known), fetched[0].link);
        InLinks(rest, fetched[0].link);
        assert fetched[0].link !in Links(rest) by {
          forall i | 0 <= i < |rest| ensures Links(rest)[i] != fetched[0].link {
            assert Links(fetched)[i + 1] == Links(rest)[i];
          }
        }
      }
    }
  }

  /**
   * A merge keeps the links of a feed unique provided the fetched list has no
   * repeated link: the filter checks each fetched post against the store
   * only, not against the posts fetched with it.
   */
  lemma {:induction false} MergeKeepsLinksUnique(posts: seq<Post>, feedId: FeedId, fetched: seq<Post>)
    requires AllOwnedBy(fetched, feedId)
    requires LinksUnique(posts, feedId)
    requires NoDuplicates(Links(fetched))
    ensures LinksUnique(MergePosts(posts, feedId, fetched), feedId)
  {
    var added := NewPosts(posts, feedId, fetched);
    var known := KnownLinks(posts, feedId);
    MergeIsolation(posts, feedId, fetched, feedId);
    LinksAppend(added, OfFeed(posts, feedId));
    UnknownLinksUnique(fetched, known);
    forall i | 0 <= i < |Links(added)| ensures Links(added)[i] !in known {
      assert added[i] in added;
    }
    NoDuplicatesConcat(Links(added), known);
  }

  /**
   * The converse case, as written: two posts fetched together with the same
   * unknown link are both inserted.
   */
  lemma {:induction false} RepeatedLinkInOneFetchIsKept(posts: seq<Post>, feedId: FeedId, a: Post, b: Post)
    requires a.link == b.link && a.link !in KnownLinks(posts, feedId)
    ensures NewPosts(posts, feedId, [a, b]) == [a, b]
  {
    assert [a, b][1..] == [b];
    assert [b][1..] == [];
  }

  // ---------------------------------------------------------------------------
  // One polling cycle

  /**
   * One feed's part of a cycle: fetch, then merge the new posts on success; a
   * failure (logged in the source) leaves the posts as they are.
   */
  function Step(feed: Feed, response: Transport, clock: Clock, posts: seq<Post>): (r: seq<Post>)
    ensures response.NetworkError? ==> r == posts
    ensures FetchPosts(response, feed.url, feed.id, clock).Err? ==> r == posts
    ensures FetchPosts(response, feed.url, feed.id, clock).Ok? ==>
      r == MergePosts(posts, feed.id, FetchPosts(response, feed.url, feed.id, clock).value)
    ensures |r| >= |posts| && r[|r| - |posts|..] == posts
  {
    match FetchPosts(response, feed.url, feed.id, clock)
    case Ok(fetched) => MergePosts(posts, feed.id, fetched)
    case Err(_) => posts
  }

  /**
   * The posts once feeds i, i + 1, ... of a cycle have settled, starting from
   * `posts`: feed k's request settles with `responses(k)` and its parse reads
   * `clocks(k)`; the merges are applied in feed order.
   */
  function Run(feeds: seq<Feed>, i: nat, responses: nat -> Transport, clocks: nat -> Clock, posts: seq<Post>)
    : seq<Post>
    requires i <= |feeds|
    decreases |feeds| - i
  {
    if i == |feeds| then posts
    else Run(feeds, i + 1, responses, clocks, Step(feeds[i], responses(i), clocks(i), posts))
  }

  /** `tail` is a suffix of `r`. */
  predicate EndsWith(r: seq<Post>, tail: seq<Post>)
  {
    |r| >= |tail| && r[|r| - |tail|..] == tail
  }

  lemma EndsWithTransitive(a: seq<Post>, b: seq<Post>, c: seq<Post>)
    requires EndsWith(b, a) && EndsWith(c, b)
    ensures EndsWith(c, a)
  {
    assert c[|c| - |a|..] == c[|c| - |b|..][|b| - |a|..];
  }

  /** The rest of a cycle only inserts posts in front of the ones it starts from. */
  lemma {:induction false} RunKeepsOldPosts(feeds: seq<Feed>, i: nat, responses: nat -> Transport, clocks: nat -> Clock, posts: seq<Post>)
    requires i <= |feeds|
    ensures EndsWith(Run(feeds, i, responses, clocks, posts), posts)
    decreases |feeds| - i
  {
    if i < |feeds| {
      var next := Step(feeds[i], responses(i), clocks(i), posts);
      assert EndsWith(next, posts);
      RunKeepsOldPosts(feeds, i + 1, responses, clocks, next);
      EndsWithTransitive(posts, next, Run(feeds, i + 1, responses, clocks, next));
    }
  }

  /**
   * One cycle of `updateFeeds` over the feeds registered when it starts: it
   * only inserts posts in front of the old ones.
   */
  function Cycle(feeds: seq<Feed>, responses: nat -> Transport, clocks: nat -> Clock, posts: seq<Post>): (r: seq<Post>)
    ensures |r| >= |posts| && r[|r| - |posts|..] == posts
  {
    RunKeepsOldPosts(feeds, 0, responses, clocks, posts);
    Run(feeds, 0, responses, clocks, posts)
  }

  /**
   * The links of `response`'s items are all among the links the store holds
   * for `feed` (vacuous when the response does not parse).
   */
  ghost predicate Absorbed(feed: Feed, response: Transport, posts: seq<Post>)
  {
    response.Success? && !response.contents.hasParserError && Complete(response.contents) ==>
      forall i :: 0 <= i < |response.contents.items| ==>
        response.contents.items[i].link.value in KnownLinks(posts, feed.id)
  }

  lemma {:induction false} StepAbsorbs(feed: Feed, response: Transport, clock: Clock, posts: seq<Post>)
    ensures Absorbed(feed, response, Step(feed, response, clock, posts))
  {
    var r := FetchPosts(response, feed.url, feed.id, clock);
    if r.Ok? {
      MergeCoversFetched(posts, feed.id, r.value);
      forall i | 0 <= i < |response.contents.items|
        ensures response.contents.items[i].link.value in KnownLinks(Step(feed, response, clock, posts), feed.id)
      {
        assert r.value[i] in r.value;
      }
    }
  }

  lemma {:induction false} StepKeepsAbsorbed(g: Feed, gResponse: Transport, feed: Feed, response: Transport, clock: Clock, posts: seq<Post>)
    requires Absorbed(g, gResponse, posts)
    ensures Absorbed(g, gResponse, Step(feed, response, clock, posts))
  {
    var r := FetchPosts(response, feed.url, feed.id, clock);
    if r.Ok? && gResponse.Success? && !gResponse.contents.hasParserError && Complete(gResponse.contents) {
      forall i | 0 <= i < |gResponse.contents.items|
        ensures gResponse.contents.items[i].link.value in KnownLinks(Step(feed, response, clock, posts), g.id)
      {
        MergeKeepsKnownLinks(posts, feed.id, r.value, g.id, gResponse.contents.items[i].link.value);
      }
    }
  }

  lemma {:induction false} AbsorbedStepIsIdentity(feed: Feed, response: Transport, clock: Clock, posts: seq<Post>)
    requires Absorbed(feed, response, posts)
    ensures Step(feed, response, clock, posts) == posts
  {
    var r := FetchPosts(response, feed.url, feed.id, clock);
    if r.Ok? {
      UnknownAllKnown(r.value, KnownLinks(posts, feed.id));
    }
  }

  /** Links a store already holds for a feed stay held through the rest of a cycle. */
  lemma {:induction false} RunKeepsAbsorbed(g: Feed, gResponse: Transport, feeds: seq<Feed>, i: nat, responses: nat -> Transport, clocks: nat -> Clock, posts: seq<Post>)
    requires i <= |feeds| && Absorbed(g, gResponse, posts)
    ensures Absorbed(g, gResponse, Run(feeds, i, responses, clocks, posts))
    decreases |feeds| - i
  {
    if i < |feeds| {
      StepKeepsAbsorbed(g, gResponse, feeds[i], responses(i), clocks(i), posts);
      RunKeepsAbsorbed(g, gResponse, feeds, i + 1, responses, clocks, Step(feeds[i], responses(i), clocks(i), posts));
    }
  }

  /** After feeds i, i + 1, ... of a cycle, each of them has its parsed links held. */
  lemma {:induction false} RunAbsorbs(feeds: seq<Feed>, i: nat, responses: nat -> Transport, clocks: nat -> Clock, posts: seq<Post>)
    requires i <= |feeds|
    ensures forall j :: i <= j < |feeds| ==> Absorbed(feeds[j], responses(j), Run(feeds, i, responses, clocks, posts))
    decreases |feeds| - i
  {
    if i < |feeds| {
      var next := Step(feeds[i], responses(i), clocks(i), posts);
      RunAbsorbs(feeds, i + 1, responses, clocks, next);
      StepAbsorbs(feeds[i], responses(i), clocks(i), posts);
      RunKeepsAbsorbed(feeds[i], responses(i), feeds, i + 1, responses, clocks, next);
    }
  }

  /** Feeds i, i + 1, ... of a cycle over responses already absorbed change nothing. */
  lemma {:induction false} RunOverAbsorbed(feeds: seq<Feed>, i: nat, responses: nat -> Transport, clocks: nat -> Clock, posts: seq<Post>)
    requires i <= |feeds|
    requires forall j :: i <= j < |feeds| ==> Absorbed(feeds[j], responses(j), posts)
    ensures Run(feeds, i, responses, clocks, posts) == posts
    decreases |feeds| - i
  {
    if i < |feeds| {
      AbsorbedStepIsIdentity(feeds[i], responses(i), clocks(i), posts);
      RunOverAbsorbed(feeds, i + 1, responses, clocks, posts);
    }
  }

  /**
   * Two consecutive cycles over unchanged content: the second one, whatever
   * ids its parses generate, leaves the posts exactly as the first left them.
   */
  lemma {:induction false} SecondCycleAddsNothing(
    feeds: seq<Feed>, responses: nat -> Transport, first: nat -> Clock, second: nat -> Clock, posts: seq<Post>)
    ensures var once := Cycle(feeds, responses, first, posts);
            Cycle(feeds, responses, second, once) == once
  {
    RunAbsorbs(feeds, 0, responses, first, posts);
    RunOverAbsorbed(feeds, 0, responses, second, Cycle(feeds, responses, first, posts));
  }

  /** A step's effect on its own feed's posts needs only those posts. */
  lemma {:induction false} StepProjection(feed: Feed, response: Transport, clock: Clock, posts: seq<Post>, other: FeedId)
    ensures OfFeed(Step(feed, response, clock, posts), feed.id)
         == Step(feed, response, clock, OfFeed(posts, feed.id))
    ensures other != feed.id ==>
      OfFeed(Step(feed, response, clock, posts), other) == OfFeed(posts, other)
  {
    var r := FetchPosts(response, feed.url, feed.id, clock);
    if r.Ok? {
      assert AllOwnedBy(r.value, feed.id) by {
        forall p | p in r.value ensures p.feedId == Some(feed.id) {
          var i :| 0 <= i < |r.value| && r.value[i] == p;
        }
      }
      MergeIsolation(posts, feed.id, r.value, other);
      OtherFeedsDoNotBlock([], posts, feed.id, r.value);
      OfFeedTwice(posts, feed.id);
    }
  }

  /** Feeds i, i + 1, ... of a cycle leave the posts of a feed not among them as they were. */
  lemma {:induction false} RunLeavesOthers(feeds: seq<Feed>, i: nat, responses: nat -> Transport, clocks: nat -> Clock, posts: seq<Post>, other: FeedId)
    requires i <= |feeds|
    requires forall j :: i <= j < |feeds| ==> feeds[j].id != other
    ensures OfFeed(Run(feeds, i, responses, clocks, posts), other) == OfFeed(posts, other)
    decreases |feeds| - i
  {
    if i < |feeds| {
      StepProjection(feeds[i], responses(i), clocks(i), posts, other);
      RunLeavesOthers(feeds, i + 1, responses, clocks, Step(feeds[i], responses(i), clocks(i), posts), other);
    }
  }

  /** No two of `feeds` share an id. */
  predicate DistinctIds(feeds: seq<Feed>)
  {
    forall a, b :: 0 <= a < b < |feeds| ==> feeds[a].id != feeds[b].id
  }

  /**
   * When no other feed among i, i + 1, ... shares feed j's id, the posts the
   * rest of a cycle leaves for feed j are what feed j's own step makes of
   * feed j's posts alone.
   */
  lemma {:induction false} RunIsolation(feeds: seq<Feed>, i: nat, responses: nat -> Transport, clocks: nat -> Clock, posts: seq<Post>, j: nat)
    requires i <= j < |feeds|
    requires forall k :: i <= k < |feeds| && k != j ==> feeds[k].id != feeds[j].id
    ensures OfFeed(Run(feeds, i, responses, clocks, posts), feeds[j].id)
         == Step(feeds[j], responses(j), clocks(j), OfFeed(posts, feeds[j].id))
    decreases |feeds| - i
  {
    var next := Step(feeds[i], responses(i), clocks(i), posts);
    StepProjection(feeds[i], responses(i), clocks(i), posts, feeds[j].id);
    if i == j {
      RunLeavesOthers(feeds, i + 1, responses, clocks, next, feeds[j].id);
    } else {
      RunIsolation(feeds, i + 1, responses, clocks, next, j);
    }
  }

  /**
   * Per-feed isolation of a cycle: when the feeds have distinct ids, the posts
   * a cycle leaves for feed j are what feed j's own step makes of feed j's
   * posts alone. Neither the other feeds' outcomes (a failure included) nor
   * the order in which the merges run changes them.
   */
  lemma {:induction false} CycleIsolation(feeds: seq<Feed>, responses: nat -> Transport, clocks: nat -> Clock, posts: seq<Post>, j: nat)
    requires DistinctIds(feeds) && j < |feeds|
    ensures OfFeed(Cycle(feeds, responses, clocks, posts), feeds[j].id)
         == Step(feeds[j], responses(j), clocks(j), OfFeed(posts, feeds[j].id))
  {
    RunIsolation(feeds, 0, responses, clocks, posts, j);
  }
}
