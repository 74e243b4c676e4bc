/**
 * The earlier add-feed controller: its state holds the form and a list of
 * subscriptions (an address and an id, nothing fetched). A submit validates
 * the trimmed address against the current addresses and, on success, puts
 * the new subscription first. The change listener resets 'added' to
 * 'filling', as in the later version.
 */
module LegacyReader {
  import opened Common
  import opened Form
  import opened Validation
  import Parser

  /** A registered address with its id (`{ url: validUrl, id: Date.now() }`). */
  datatype Subscription = Subscription(url: string, id: Parser.FeedId)

  /** One write issued to the watched state. */
  datatype Write =
    | ProcessStateSet(state: ProcessState)
    | ValidSet(valid: bool)
    | ErrorSet(error: Option<string>)
    | FeedUnshifted(feed: Subscription)

  /** `feeds.map((feed) => feed.url)`. */
  function Urls(feeds: seq<Subscription>): (r: seq<string>)
    ensures |r| == |feeds|
    ensures forall i :: 0 <= i < |feeds| ==> r[i] == feeds[i].url
  {
    if feeds == [] then [] else [feeds[0].url] + Urls(feeds[1..])
  }

  /** The writes a submit issues after 'sending', in source order, for a verdict of the validator. */
  function VerdictWrites(verdict: Result<string, ValidationError>, now: Parser.FeedId): seq<Write>
  {
    match verdict
    case Ok(validUrl) =>
      [ValidSet(true), ErrorSet(None), FeedUnshifted(Subscription(validUrl, now)),
       ProcessStateSet(Added), ProcessStateSet(Filling)]
    case Err(e) => [ValidSet(false), ErrorSet(Some(Message(e))), ProcessStateSet(Failed)]
  }

  /**
   * What the callbacks of a submit write: 'added' exactly on success, settling
   * at 'filling', and 'failed' otherwise; `form.valid` once, true exactly on
   * success; the subscription only on success; the rule's key on failure.
   */
  lemma VerdictWritesReport(verdict: Result<string, ValidationError>, now: Parser.FeedId)
    ensures var r := VerdictWrites(verdict, now);
      && (ProcessStateSet(Added) in r <==> verdict.Ok?)
      && ValidSet(verdict.Ok?) in r && ValidSet(!verdict.Ok?) !in r
      && r[|r| - 1] == ProcessStateSet(if verdict.Ok? then Filling else Failed)
      && (verdict.Ok? ==> FeedUnshifted(Subscription(verdict.value, now)) in r)
      && (verdict.Err? ==>
            ErrorSet(Some(Message(verdict.error))) in r && forall k :: 0 <= k < |r| ==> !r[k].FeedUnshifted?)
  {
  }

  /** The watched state of the earlier controller. */
  class LegacyApp {
    var processState: ProcessState
    var valid: bool
    var error: Option<string>
    var feeds: seq<Subscription>
    /** Every write issued to the state, in order. */
    ghost var writes: seq<Write>

    /** The form never rests in 'added', and no address is registered twice. */
    ghost predicate Valid()
      reads this
    {
      processState != Added && NoDuplicates(Urls(feeds))
    }

    constructor ()
      ensures Valid()
      ensures processState == Filling && valid && error == None && feeds == [] && writes == []
    {
      processState := Filling;
      valid := true;
      error := None;
      feeds := [];
      writes := [];
    }

    /**
     * The change listener: a write of 'added' to `form.processState` is
     * answered with one write of 'filling', which does not trigger it again.
     */
    method OnChange(w: Write)
      modifies this
      decreases if w == ProcessStateSet(Added) then 1 else 0, 0
      ensures w == ProcessStateSet(Added) ==>
        processState == Filling && writes == old(writes) + [ProcessStateSet(Filling)]
      ensures w != ProcessStateSet(Added) ==>
        processState == old(processState) && writes == old(writes)
      ensures unchanged(this`valid, this`error, this`feeds)
    {
      if w == ProcessStateSet(Added) {
        SetProcessState(Filling);
      }
    }

    /** `watchedState.form.processState = s`; a write of 'added' settles at 'filling'. */
    method SetProcessState(s: ProcessState)
      modifies this
      decreases if s == Added then 1 else 0, 1
      ensures processState == (if s == Added then Filling else s)
      ensures writes == old(writes) + [ProcessStateSet(s)] + (if s == Added then [ProcessStateSet(Filling)] else [])
      ensures unchanged(this`valid, this`error, this`feeds)
    {
      processState := s;
      writes := writes + [ProcessStateSet(s)];
      OnChange(ProcessStateSet(s));
    }

    /** `watchedState.form.valid = b`. */
    method SetValid(b: bool)
      modifies this
      ensures valid == b && writes == old(writes) + [ValidSet(b)]
      ensures unchanged(this`processState, this`error, this`feeds)
    {
      valid := b;
      writes := writes + [ValidSet(b)];
      OnChange(ValidSet(b));
    }

    /** `watchedState.form.error = e`. */
    method SetError(e: Option<string>)
      modifies this
      ensures error == e && writes == old(writes) + [ErrorSet(e)]
      ensures unchanged(this`processState, this`valid, this`feeds)
    {
      error := e;
      writes := writes + [ErrorSet(e)];
      OnChange(ErrorSet(e));
    }

    /** `watchedState.feeds.unshift(feed)`. */
    method UnshiftFeed(feed: Subscription)
      modifies this
      ensures feeds == [feed] + old(feeds) && writes == old(writes) + [FeedUnshifted(feed)]
      ensures unchanged(this`processState, this`valid, this`error)
    {
      feeds := [feed] + feeds;
      writes := writes + [FeedUnshifted(feed)];
      OnChange(FeedUnshifted(feed));
    }

    /**
     * The submit handler, with the clock reading `now` injected. The form goes
     * to 'sending', then the trimmed address is validated against the current
     * addresses. On success the form is valid without error, the new
     * subscription goes first and the earlier ones keep their order behind
     * it, and the form passes through 'added' to 'filling'. On failure the
     * form is invalid with the rule's message key, 'failed', and `feeds` is
     * untouched.
     */
    method Submit(input: string, isUrl: string -> bool, now: Parser.FeedId)
      requires Valid()
      modifies this
      ensures Valid()
      ensures var verdict := Validate(Trim(input), Urls(old(feeds)), isUrl);
        match verdict
        case Ok(validUrl) =>
          && feeds == [Subscription(validUrl, now)] + old(feeds)
          && validUrl == Trim(input)
          && valid && error == None && processState == Filling
        case Err(e) =>
          && feeds == old(feeds)
          && !valid && error == Some(Message(e)) && processState == Failed
      ensures writes == old(writes) + [ProcessStateSet(Sending)]
                      + VerdictWrites(Validate(Trim(input), Urls(old(feeds)), isUrl), now)
    {
      var url := Trim(input);
      SetProcessState(Sending);
      assert writes == old(writes) + [ProcessStateSet(Sending)];
      var existingUrls := Urls(feeds);
      var verdict := Validate(url, existingUrls, isUrl);
      match verdict {
        case Ok(validUrl) => Accept(validUrl, now);
        case Err(e) => Reject(e);
      }
    }

    /**
     * The success callback: the form is valid without error, a subscription
     * to the validated address goes first, and the form passes through
     * 'added' to 'filling'.
     */
    method Accept(validUrl: string, now: Parser.FeedId)
      requires Valid() && validUrl !in Urls(feeds)
      modifies this
      ensures Valid()
      ensures feeds == [Subscription(validUrl, now)] + old(feeds)
      ensures valid && error == None && processState == Filling
      ensures writes == old(writes) + VerdictWrites(Ok(validUrl), now)
    {
      SetValid(true);
      SetError(None);
      UnshiftFeed(Subscription(validUrl, now));
      SetProcessState(Added);
      assert Urls(feeds) == [validUrl] + Urls(old(feeds)) by {
        assert feeds[1..] == old(feeds);
      }
    }

    /** The catch callback: the form is invalid, shows the rule's key and fails; `feeds` is untouched. */
    method Reject(e: ValidationError)
      requires Valid()
      modifies this
      ensures Valid()
      ensures !valid && error == Some(Message(e)) && processState == Failed
      ensures writes == old(writes) + [ValidSet(false), ErrorSet(Some(Message(e))), ProcessStateSet(Failed)]
      ensures unchanged(this`feeds)
    {
      SetValid(false);
      SetError(Some(Message(e)));
      SetProcessState(Failed);
    }
  }

  /**
   * A white-space-only input is refused as empty: the trim runs before the
   * schema's required rule.
   */
  lemma {:induction false} BlankInputIsRequired(input: string, existingUrls: seq<string>, isUrl: string -> bool)
    requires AllSpace(input)
    ensures Validate(Trim(input), existingUrls, isUrl) == Err(Required)
  {
  }
}
