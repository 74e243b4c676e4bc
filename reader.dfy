/**
 * The application state of the reader (`watchedState`) and the code that
 * changes it: the add-feed submit handler, one cycle of `updateFeeds`, and
 * the change listener's reset of `form.processState` from 'added' to
 * 'filling'.
 *
 * Every write goes through a setter that applies it, appends it to the ghost
 * log `writes` and then runs the change listener, as the observable store
 * does after each mutation. Rendering, which the listener also triggers, is
 * not modelled.
 */
module Reader {
  import opened Common
  import opened Form
  import opened Validation
  import opened Parser
  import opened Polling

  /** One write issued to the watched state. */
  datatype Write =
    | ProcessStateSet(state: ProcessState)
    | ValidSet(valid: bool)
    | FormErrorSet(error: Option<string>)
    | NetworkErrorSet(networkError: Option<string>)
    | FeedUnshifted(feed: Feed)
    | PostsUnshifted(posts: seq<Post>)

  /** `feeds.map((feed) => feed.url)`. */
  function Urls(feeds: seq<Feed>): (r: seq<string>)
    ensures |r| == |feeds|
    ensures forall i :: 0 <= i < |feeds| ==> r[i] == feeds[i].url
  {
    if feeds == [] then [] else [feeds[0].url] + Urls(feeds[1..])
  }

  /**
   * What the submit handler's promise chain settles with for the trimmed
   * address `url`: the new feed and its posts stamped with the feed's id, or
   * what was thrown (a validation error, the transport's axios error, or the
   * parser's error).
   */
  function SubmitOutcome(url: string, existingUrls: seq<string>, isUrl: string -> bool, response: Transport, clock: Clock)
    : (r: Result<Parsed, Thrown>)
    ensures var v := Validate(url, existingUrls, isUrl);
            v.Err? ==> r == Err(Error(Message(v.error)))
    ensures Validate(url, existingUrls, isUrl).Ok? && response.NetworkError? ==> r == Err(AxiosError)
    ensures r.Ok? <==>
      Validate(url, existingUrls, isUrl).Ok? && response.Success? && ParseRss(response.contents, url, clock).Ok?
    ensures r.Ok? ==>
      && r.value.feed.url == url && url !in existingUrls
      && r.value.feed.id == clock.feedId
      && |r.value.posts| == |response.contents.items|
      && AllOwnedBy(r.value.posts, r.value.feed.id)
    ensures r.Ok? ==>
      var p := ParseRss(response.contents, url, clock).value;
      r.value == Parsed(p.feed, Stamp(p.posts, p.feed.id))
  {
    match Validate(url, existingUrls, isUrl)
    case Err(e) => Err(Error(Message(e)))
    case Ok(_) =>
      match response
      case NetworkError => Err(AxiosError)
      case Success(doc) =>
        match ParseRss(doc, url, clock)
        case Err(e) => Err(ParseFailure(e))
        case Ok(parsed) => Ok(Parsed(parsed.feed, Stamp(parsed.posts, parsed.feed.id)))
  }

  /**
   * The catch branch's sorting of a failure: the value `networkError` gets and
   * the value `form.error` gets.
   */
  function Classify(thrown: Thrown): (r: (Option<string>, string))
    ensures r.0.Some? <==> thrown.AxiosError? || thrown.message == ParsingErrorKey
    ensures r.0.Some? ==> r.0.value == r.1
    ensures thrown.AxiosError? ==> r.1 == NetworkErrorKey
    ensures thrown.Error? ==> r.1 == thrown.message
  {
    match thrown
    case AxiosError => (Some(NetworkErrorKey), NetworkErrorKey)
    case Error(m) => if m == ParsingErrorKey then (Some(m), m) else (None, m)
  }

  /** The writes of the catch branch after `valid` and `processState`, in source order. */
  function FailureWrites(thrown: Thrown): seq<Write>
  {
    match thrown
    case AxiosError => [NetworkErrorSet(Some(NetworkErrorKey)), FormErrorSet(Some(NetworkErrorKey))]
    case Error(m) =>
      if m == ParsingErrorKey then [NetworkErrorSet(Some(m)), FormErrorSet(Some(m))]
      else [FormErrorSet(Some(m)), NetworkErrorSet(None)]
  }

  /**
   * The writes a submit issues, in source order: 'sending' and the cleared
   * `networkError`, then those of the callback that runs.
   */
  function SubmitWrites(outcome: Result<Parsed, Thrown>): seq<Write>
  {
    [ProcessStateSet(Sending), NetworkErrorSet(None)] + SettleWrites(outcome)
  }

  /** The writes of the success or of the catch callback of a submit. */
  function SettleWrites(outcome: Result<Parsed, Thrown>): seq<Write>
  {
    match outcome
    case Ok(added) =>
      [FeedUnshifted(added.feed), PostsUnshifted(added.posts),
       ValidSet(true), FormErrorSet(None),
       ProcessStateSet(Added), ProcessStateSet(Filling)]
    case Err(thrown) => [ValidSet(false), ProcessStateSet(Failed)] + FailureWrites(thrown)
  }

  /** The catch branch writes each of the two values `Classify` gives, once. */
  lemma FailureWritesApplyClassify(thrown: Thrown)
    ensures multiset(FailureWrites(thrown))
         == multiset{NetworkErrorSet(Classify(thrown).0), FormErrorSet(Some(Classify(thrown).1))}
  {
  }

  /**
   * What the callbacks of a submit write: 'added' exactly on success, then
   * answered by 'filling'; the feed and its posts only on success; 'failed'
   * on failure; `form.valid` once, true exactly on success.
   */
  lemma SettleWritesReport(outcome: Result<Parsed, Thrown>)
    ensures var r := SettleWrites(outcome);
      && (ProcessStateSet(Added) in r <==> outcome.Ok?)
      && ProcessStateSet(Sending) !in r
      && ValidSet(outcome.Ok?) in r && ValidSet(!outcome.Ok?) !in r
      && (outcome.Ok? ==>
            && FeedUnshifted(outcome.value.feed) in r && PostsUnshifted(outcome.value.posts) in r
            && r[|r| - 1] == ProcessStateSet(Filling))
      && (outcome.Err? ==>
            && ProcessStateSet(Failed) in r
            && forall k :: 0 <= k < |r| ==> !r[k].FeedUnshifted? && !r[k].PostsUnshifted?)
  {
  }

  /**
   * A submit writes 'sending' and clears `networkError` before anything the
   * callbacks write, and writes 'sending' only then.
   */
  lemma SubmitWritesSendingFirst(outcome: Result<Parsed, Thrown>)
    ensures var r := SubmitWrites(outcome);
      && |r| >= 2 && r[0] == ProcessStateSet(Sending) && r[1] == NetworkErrorSet(None)
      && r[2..] == SettleWrites(outcome)
      && ProcessStateSet(Sending) !in r[1..]
  {
    SettleWritesReport(outcome);
    assert SubmitWrites(outcome)[1..] == [NetworkErrorSet(None)] + SettleWrites(outcome);
  }

  /**
   * How each kind of failed submit is reported: a validation error only in
   * the form, with its own key; a transport failure and a `parsererror`
   * document both in the form and as `networkError`, under their keys; a
   * document missing an element the extractor reads falls into the
   * validation branch with the raw TypeError message.
   */
  lemma SubmitFailureClassification(url: string, existingUrls: seq<string>, isUrl: string -> bool, response: Transport, clock: Clock)
    ensures var v := Validate(url, existingUrls, isUrl);
            var r := SubmitOutcome(url, existingUrls, isUrl, response, clock);
            && (v.Err? ==> Classify(r.error) == (None, Message(v.error)))
            && (v.Ok? && response.NetworkError? ==> Classify(r.error) == (Some(NetworkErrorKey), NetworkErrorKey))
            && (v.Ok? && response.Success? && response.contents.hasParserError ==>
                  Classify(r.error) == (Some(ParsingErrorKey), ParsingErrorKey))
            && (v.Ok? && response.Success? && !response.contents.hasParserError && !Complete(response.contents) ==>
                  Classify(r.error) == (None, NullTextContentMessage))
  {
  }

  /**
   * Resubmitting an address that was just added fails as a duplicate, before
   * any request is made.
   */
  lemma ResubmitIsDuplicate(url: string, existingUrls: seq<string>, isUrl: string -> bool,
                            response: Transport, clock: Clock, response': Transport, clock': Clock)
    requires SubmitOutcome(url, existingUrls, isUrl, response, clock).Ok?
    ensures var added := SubmitOutcome(url, existingUrls, isUrl, response, clock).value.feed;
            SubmitOutcome(url, [added.url] + existingUrls, isUrl, response', clock')
              == Err(Error("errors.duplicateUrl"))
  {
  }

  /** `after` is `before` followed by insertions into `posts` only. */
  ghost predicate InsertionsOnly(before: seq<Write>, after: seq<Write>)
  {
    && |after| >= |before| && after[..|before|] == before
    && forall k :: |before| <= k < |after| ==> after[k].PostsUnshifted?
  }

  lemma InsertionsOnlyTransitive(a: seq<Write>, b: seq<Write>, c: seq<Write>)
    requires InsertionsOnly(a, b) && InsertionsOnly(b, c)
    ensures InsertionsOnly(a, c)
  {
    assert c[..|a|] == c[..|b|][..|a|];
  }

  /** The ids of `feeds`. */
  function FeedIds(feeds: seq<Feed>): (r: set<FeedId>)
    ensures forall id :: id in r <==> exists f :: f in feeds && f.id == id
  {
    set f | f in feeds :: f.id
  }

  /** Every post carries the id of one of `feeds`. */
  ghost predicate Owned(posts: seq<Post>, feeds: seq<Feed>)
  {
    forall p :: p in posts ==> p.feedId.Some? && p.feedId.value in FeedIds(feeds)
  }

  /** Registering a feed whose address is new keeps the addresses distinct. */
  lemma AddFeedKeepsUrlsDistinct(feeds: seq<Feed>, feed: Feed)
    requires NoDuplicates(Urls(feeds)) && feed.url !in Urls(feeds)
    ensures NoDuplicates(Urls([feed] + feeds))
  {
    assert Urls([feed] + feeds) == [feed.url] + Urls(feeds) by {
      assert ([feed] + feeds)[1..] == feeds;
    }
    NoDuplicatesConcat([feed.url], Urls(feeds));
  }

  /** Registering a feed together with posts it owns keeps every post owned by a registered feed. */
  lemma AddFeedKeepsPostsOwned(feeds: seq<Feed>, posts: seq<Post>, feed: Feed, added: seq<Post>)
    requires Owned(posts, feeds) && AllOwnedBy(added, feed.id)
    ensures Owned(added + posts, [feed] + feeds)
  {
    assert FeedIds(feeds) <= FeedIds([feed] + feeds);
    assert feed.id in FeedIds([feed] + feeds);
  }

  /** Posts owned by a registered feed, put in front, keep every post owned. */
  lemma AddPostsKeepsStore(feeds: seq<Feed>, posts: seq<Post>, feed: Feed, added: seq<Post>)
    requires Owned(posts, feeds) && feed in feeds && AllOwnedBy(added, feed.id)
    ensures Owned(added + posts, feeds)
  {
  }

  /** The watched state of `src/main.js` (the `ui` part is not modelled). */
  class App {
    var processState: ProcessState
    var valid: bool
    var formError: Option<string>
    var feeds: seq<Feed>
    var posts: seq<Post>
    var networkError: Option<string>
    /** Every write issued to the state, in order. */
    ghost var writes: seq<Write>
    /** How many polling loops a submit has started (`setTimeout(updateFeeds, 5000)`). */
    ghost var pollingLoops: nat

    /**
     * The form never rests in 'added'; no address is registered twice; every
     * post belongs to a registered feed; and exactly one polling loop runs
     * once there is a feed.
     */
    ghost predicate Valid()
      reads this
    {
      && processState != Added
      && NoDuplicates(Urls(feeds))
      && Owned(posts, feeds)
      && pollingLoops == (if feeds == [] then 0 else 1)
    }

    constructor ()
      ensures Valid()
      ensures processState == Filling && valid && formError == None && networkError == None
      ensures feeds == [] && posts == []
      ensures writes == [] && pollingLoops == 0
    {
      processState := Filling;
      valid := true;
      formError := None;
      feeds := [];
      posts := [];
      networkError := None;
      writes := [];
      pollingLoops := 0;
    }

    /**
     * The change listener, run after each write: a write of 'added' to
     * `form.processState` is answered with a write of 'filling'; its own
     * write does not trigger it again, so the reset takes one step.
     */
    method OnChange(w: Write)
      modifies this
      decreases if w == ProcessStateSet(Added) then 1 else 0, 0
      ensures w == ProcessStateSet(Added) ==>
        processState == Filling && writes == old(writes) + [ProcessStateSet(Filling)]
      ensures w != ProcessStateSet(Added) ==>
        processState == old(processState) && writes == old(writes)
      ensures unchanged(this`valid, this`formError, this`feeds, this`posts, this`networkError, this`pollingLoops)
    {
      if w == ProcessStateSet(Added) {
        SetProcessState(Filling);
      }
    }

    /** `watchedState.form.processState = s`; a write of 'added' settles at 'filling'. */
    method SetProcessState(s: ProcessState)
      modifies this
      decreases if s == Added then 1 else 0, 1
      ensures processState == (if s == Added then Filling else s)
      ensures writes == old(writes) + [ProcessStateSet(s)] + (if s == Added then [ProcessStateSet(Filling)] else [])
      ensures unchanged(this`valid, this`formError, this`feeds, this`posts, this`networkError, this`pollingLoops)
    {
      processState := s;
      writes := writes + [ProcessStateSet(s)];
      OnChange(ProcessStateSet(s));
    }

    /** `watchedState.form.valid = b`. */
    method SetValid(b: bool)
      modifies this
      ensures valid == b && writes == old(writes) + [ValidSet(b)]
      ensures unchanged(this`processState, this`formError, this`feeds, this`posts, this`networkError, this`pollingLoops)
    {
      valid := b;
      writes := writes + [ValidSet(b)];
      OnChange(ValidSet(b));
    }

    /** `watchedState.form.error = e`. */
    method SetFormError(e: Option<string>)
      modifies this
      ensures formError == e && writes == old(writes) + [FormErrorSet(e)]
      ensures unchanged(this`processState, this`valid, this`feeds, this`posts, this`networkError, this`pollingLoops)
    {
      formError := e;
      writes := writes + [FormErrorSet(e)];
      OnChange(FormErrorSet(e));
    }

    /** `watchedState.networkError = e`. */
    method SetNetworkError(e: Option<string>)
      modifies this
      ensures networkError == e && writes == old(writes) + [NetworkErrorSet(e)]
      ensures unchanged(this`processState, this`valid, this`formError, this`feeds, this`posts, this`pollingLoops)
    {
      networkError := e;
      writes := writes + [NetworkErrorSet(e)];
      OnChange(NetworkErrorSet(e));
    }

    /** `watchedState.feeds.unshift(feed)`. */
    method UnshiftFeed(feed: Feed)
      modifies this
      ensures feeds == [feed] + old(feeds) && writes == old(writes) + [FeedUnshifted(feed)]
      ensures unchanged(this`processState, this`valid, this`formError, this`posts, this`networkError, this`pollingLoops)
    {
      feeds := [feed] + feeds;
      writes := writes + [FeedUnshifted(feed)];
      OnChange(FeedUnshifted(feed));
    }

    /** `watchedState.posts.unshift(...added)`. */
    method UnshiftPosts(added: seq<Post>)
      modifies this
      ensures posts == added + old(posts) && writes == old(writes) + [PostsUnshifted(added)]
      ensures unchanged(this`processState, this`valid, this`formError, this`feeds, this`networkError, this`pollingLoops)
    {
      posts := added + posts;
      writes := writes + [PostsUnshifted(added)];
      OnChange(PostsUnshifted(added));
    }

    /**
     * The submit handler, with the request's outcome and the parse's clock
     * readings injected. The address is trimmed, the form goes to 'sending'
     * and `networkError` is cleared; then the address is validated against
     * the current feeds' addresses, fetched and parsed. On success the feed
     * goes first in `feeds` and its stamped posts first in `posts`, the form
     * is marked valid without error, passes through 'added' and settles at
     * 'filling', and the first feed starts the polling loop. On failure
     * `feeds` and `posts` are untouched, the form is invalid and 'failed',
     * and the error is sorted by kind.
     */
    method Submit(input: string, isUrl: string -> bool, response: Transport, clock: Clock)
      requires Valid()
      modifies this
      ensures Valid()
      ensures var outcome := SubmitOutcome(Trim(input), Urls(old(feeds)), isUrl, response, clock);
        match outcome
        case Ok(added) =>
          && feeds == [added.feed] + old(feeds)
          && posts == added.posts + old(posts)
          && valid && formError == None && networkError == None && processState == Filling
          && pollingLoops == (if old(feeds) == [] then 1 else old(pollingLoops))
        case Err(thrown) =>
          && feeds == old(feeds) && posts == old(posts)
          && !valid && processState == Failed
          && networkError == Classify(thrown).0 && formError == Some(Classify(thrown).1)
          && pollingLoops == old(pollingLoops)
      ensures writes == old(writes) + SubmitWrites(SubmitOutcome(Trim(input), Urls(old(feeds)), isUrl, response, clock))
    {
      var url := Trim(input);
      SetProcessState(Sending);
      SetNetworkError(None);
      assert writes == old(writes) + [ProcessStateSet(Sending), NetworkErrorSet(None)];
      var existingUrls := Urls(feeds);
      var outcome := SubmitOutcome(url, existingUrls, isUrl, response, clock);
      Settle(outcome);
      assert SubmitWrites(outcome) == [ProcessStateSet(Sending), NetworkErrorSet(None)] + SettleWrites(outcome);
    }

    /** The callbacks of the submit's promise chain: the success one or the catch one. */
    method Settle(outcome: Result<Parsed, Thrown>)
      requires Valid()
      requires outcome.Ok? ==>
        outcome.value.feed.url !in Urls(feeds) && AllOwnedBy(outcome.value.posts, outcome.value.feed.id)
      modifies this
      ensures Valid()
      ensures match outcome
        case Ok(added) =>
          && feeds == [added.feed] + old(feeds)
          && posts == added.posts + old(posts)
          && valid && formError == None && networkError == old(networkError) && processState == Filling
          && pollingLoops == (if old(feeds) == [] then 1 else old(pollingLoops))
        case Err(thrown) =>
          && feeds == old(feeds) && posts == old(posts)
          && !valid && processState == Failed
          && networkError == Classify(thrown).0 && formError == Some(Classify(thrown).1)
          && pollingLoops == old(pollingLoops)
      ensures writes == old(writes) + SettleWrites(outcome)
    {
      match outcome {
        case Ok(added) => Accept(added);
        case Err(thrown) => Reject(thrown);
      }
    }

    /** The success callback of the submit handler, for a feed and posts that passed validation and parsing. */
    method Accept(added: Parsed)
      requires Valid()
      requires added.feed.url !in Urls(feeds) && AllOwnedBy(added.posts, added.feed.id)
      modifies this
      ensures Valid()
      ensures feeds == [added.feed] + old(feeds) && posts == added.posts + old(posts)
      ensures valid && formError == None && processState == Filling
      ensures pollingLoops == (if old(feeds) == [] then 1 else old(pollingLoops))
      ensures writes == old(writes) + [
               FeedUnshifted(added.feed), PostsUnshifted(added.posts),
               ValidSet(true), FormErrorSet(None),
               ProcessStateSet(Added), ProcessStateSet(Filling)]
      ensures unchanged(this`networkError)
    {
      AddFeedKeepsUrlsDistinct(feeds, added.feed);
      AddFeedKeepsPostsOwned(feeds, posts, added.feed, added.posts);
      UnshiftFeed(added.feed);
      UnshiftPosts(added.posts);
      SetValid(true);
      SetFormError(None);
      SetProcessState(Added);
      if |feeds| == 1 {
        pollingLoops := pollingLoops + 1;
      }
    }

    /** The catch callback of the submit handler: the form fails and the error is sorted by kind. */
    method Reject(thrown: Thrown)
      requires Valid()
      modifies this
      ensures Valid()
      ensures !valid && processState == Failed
      ensures networkError == Classify(thrown).0 && formError == Some(Classify(thrown).1)
      ensures writes == old(writes) + [ValidSet(false), ProcessStateSet(Failed)] + FailureWrites(thrown)
      ensures unchanged(this`feeds, this`posts, this`pollingLoops)
    {
      SetValid(false);
      SetProcessState(Failed);
      match thrown {
        case AxiosError =>
          SetNetworkError(Some(NetworkErrorKey));
          SetFormError(Some(NetworkErrorKey));
        case Error(m) =>
          if m == ParsingErrorKey {
            SetNetworkError(Some(m));
            SetFormError(Some(m));
          } else {
            SetFormError(Some(m));
            SetNetworkError(None);
          }
      }
    }

    /**
     * The `.then` of one feed's update: the fetched posts whose link the
     * store does not hold for this feed go, in fetched order, to the front of
     * `posts`; when there are none, `posts` is not written at all.
     */
    method MergeFetched(feed: Feed, fetched: seq<Post>)
      requires Valid()
      requires feed in feeds && AllOwnedBy(fetched, feed.id)
      modifies this
      ensures Valid()
      ensures posts == MergePosts(old(posts), feed.id, fetched)
      ensures var added := NewPosts(old(posts), feed.id, fetched);
              writes == old(writes) + (if added == [] then [] else [PostsUnshifted(added)])
      ensures InsertionsOnly(old(writes), writes)
      ensures unchanged(this`processState, this`valid, this`formError, this`feeds, this`networkError, this`pollingLoops)
    {
      var existingPostLinks := KnownLinks(posts, feed.id);
      var uniqueNewPosts := Unknown(fetched, existingPostLinks);
      assert uniqueNewPosts == NewPosts(posts, feed.id, fetched);
      if |uniqueNewPosts| > 0 {
        AddPostsKeepsStore(feeds, posts, feed, uniqueNewPosts);
        UnshiftPosts(uniqueNewPosts);
      } else {
        assert old(writes) + [] == old(writes);
      }
    }

    /**
     * One feed's update within a cycle (`fetchPosts(...).then(...).catch(...)`):
     * a failure is logged and changes nothing, a success is merged.
     */
    method UpdateFeed(feed: Feed, response: Transport, clock: Clock)
      requires Valid() && feed in feeds
      modifies this
      ensures Valid()
      ensures posts == Step(feed, response, clock, old(posts))
      ensures InsertionsOnly(old(writes), writes)
      ensures unchanged(this`processState, this`valid, this`formError, this`feeds, this`networkError, this`pollingLoops)
    {
      var result := FetchPosts(response, feed.url, feed.id, clock);
      match result {
        case Ok(newPosts) =>
          assert AllOwnedBy(newPosts, feed.id) by {
            forall p | p in newPosts ensures p.feedId == Some(feed.id) {
              var j :| 0 <= j < |newPosts| && newPosts[j] == p;
            }
          }
          MergeFetched(feed, newPosts);
        case Err(_) =>
      }
    }

    /**
     * The i-th iteration of a cycle over `polled`: what the rest of the cycle
     * makes of the posts, `outcome`, is the same before and after it.
     */
    method PollNext(polled: seq<Feed>, i: nat, responses: nat -> Transport, clocks: nat -> Clock, ghost outcome: seq<Post>)
      requires Valid() && feeds == polled && i < |polled|
      requires Run(polled, i, responses, clocks, posts) == outcome
      modifies this
      ensures Valid()
      ensures posts == Step(polled[i], responses(i), clocks(i), old(posts))
      ensures Run(polled, i + 1, responses, clocks, posts) == outcome
      ensures InsertionsOnly(old(writes), writes)
      ensures unchanged(this`processState, this`valid, this`formError, this`feeds, this`networkError, this`pollingLoops)
    {
      UpdateFeed(polled[i], responses(i), clocks(i));
    }

    /**
     * One cycle of `updateFeeds` over the feeds registered when it starts;
     * `responses(i)` is what the request of the i-th of them settles with and
     * `clocks(i)` what its parse reads. A failure is logged and skipped; each
     * success is merged. Only `posts` changes, only by insertions at its front.
     */
    method PollCycle(responses: nat -> Transport, clocks: nat -> Clock)
      requires Valid()
      modifies this
      ensures Valid()
      ensures posts == Cycle(old(feeds), responses, clocks, old(posts))
      ensures InsertionsOnly(old(writes), writes)
      ensures unchanged(this`processState, this`valid, this`formError, this`feeds, this`networkError, this`pollingLoops)
    {
      var polled := feeds;
      var i := 0;
      while i < |polled|
        invariant 0 <= i <= |polled|
        invariant Valid() && feeds == polled
        invariant Run(polled, i, responses, clocks, posts) == Cycle(polled, responses, clocks, old(posts))
        invariant InsertionsOnly(old(writes), writes)
        invariant unchanged(this`processState, this`valid, this`formError, this`networkError, this`pollingLoops)
      {
        ghost var w := writes;
        PollNext(polled, i, responses, clocks, Cycle(polled, responses, clocks, old(posts)));
        InsertionsOnlyTransitive(old(writes), w, writes);
        i := i + 1;
      }
    }
  }
}
