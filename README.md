# RSS reader core in Dafny

This project models the sequential core of a browser RSS reader. A user
registers feed addresses through a form. Each address is trimmed and
validated. Its RSS document is then fetched through a proxy and parsed into a
feed record and its posts. Once the first feed is added, a polling loop
re-fetches every feed and inserts only the posts whose link the store does
not yet hold for that feed.

Modules, one per part of the program:

- `Common` (`common.dfy`): `Option`, `Result`, and a no-duplicates predicate.
- `Form` (`form.dfy`): the `form.processState` values and JavaScript's
  `String.prototype.trim`, with the white-space set it removes.
- `Validation` (`validation.dfy`): the rule chain required → URL → not a
  duplicate, and its message keys.
- `Parser` (`parser.dfy`): `parseRss` over an abstract parsed document.
- `Polling` (`polling.dfy`): the pure parts of `updateFeeds` in `src/main.js`.
  These are `fetchPosts` with its `feedId` stamp, the link filter, the merge at
  the front of `posts`, and one whole cycle as a fold over the feeds.
- `Reader` (`reader.dfy`): the watched state of `src/main.js` as the class
  `App`. It holds the submit handler with its success and catch callbacks,
  one polling cycle as a loop, and the change listener's reset of 'added' to
  'filling'.
- `LegacyReader` (`legacy.dfy`): the earlier controller of
  `frontend-project-11/src/main.js` as the class `LegacyApp`. Its state holds
  only the form and a list of subscriptions. A submit validates the address
  and puts it first.

How the state is modelled:

- Every write to the watched state goes through a setter. The setter applies
  the write and appends it to a ghost log `writes`. It then runs the change
  listener, as the observable store does.
- The listener and `SetProcessState` are mutually recursive. Their
  termination measure shows that the reset of 'added' to 'filling' takes
  exactly one step.
- The polling cycle is specified by the function `Polling.Cycle`, a fold
  `Polling.Run` of the feed steps in feed order. What is
  proved about `Cycle` carries over to `Reader.App.PollCycle` through its
  postcondition.

Two behaviours of the code worth knowing:

- **Missing elements are not parse errors.** A well-formed document that
  lacks `channel > title`, `channel > description` or an item's `title`,
  `link` or `description` makes the parser read `textContent` of null, which
  throws a TypeError. The submit handler's catch files it in the validation
  branch: the raw message goes to `form.error` and `networkError` becomes
  null. See
  `Parser.ParseError.MissingElement`, `Polling.NullTextContentMessage` and
  `Reader.SubmitFailureClassification`.
- **Links are deduplicated against stored posts only.** A poll filters the
  fetched posts against the links already stored for the feed, not against
  each other. A fetch that repeats a link inserts it twice
  (`Polling.RepeatedLinkInOneFetchIsKept`). The first add inserts every
  parsed post with no filter. Uniqueness is therefore proved only for fetches
  whose own links are distinct (`Polling.MergeKeepsLinksUnique`).

## Model

| member | source | states |
|---|---|---|
| Form.SkipLeading | src/main.js:165 | the index reached from a start position lies within the string, everything skipped is white space, and it stops at the end or at a non-space |
| Form.SkipTrailing | src/main.js:165 | the end index reached going back lies between the bounds, everything dropped is white space, and it stops at the lower bound or after a non-space |
| Form.Trim | src/main.js:165 | the result is the slice of the input between white-space-only ends; it is empty exactly when the input is all white space and otherwise starts and ends with a non-space |
| Form.TrimKeepsTrimmed | frontend-project-11/src/main.js:71 | a string with no white space at either end is left unchanged by trim |
| Form.TrimIdempotent | frontend-project-11/src/main.js:71 | trimming twice gives the same as trimming once |
| Validation.Message | frontend-project-11/src/validation.js:10-12 | each rule's message is an `errors.` key, distinct from the parsing and network keys |
| Validation.MessageInjective | frontend-project-11/src/validation.js:10-12 | distinct rules report distinct keys |
| Validation.Validate | frontend-project-11/src/validation.js:6-16 | required fails exactly on the empty string; invalidUrl exactly on a non-empty non-URL; duplicateUrl exactly on a URL in the list; success exactly otherwise, returning the input unchanged |
| Validation.ValidateAgainstLongerList | frontend-project-11/src/validation.js:7-12 | rebuilding the schema against a longer list changes a verdict only from success to duplicateUrl, and only for an address that was added |
| Validation.AcceptedThenDuplicate | frontend-project-11/src/validation.js:12 | an address accepted against a list is refused as a duplicate once it heads that list |
| Parser.ExtractPosts | src/parser.js:22-28 | succeeds exactly when every item has title, link and description; then one post per item in order, with the item's texts, a null feed id and the clock's id for its position |
| Parser.ParseRss | src/parser.js:4-35 | fails with the parsererror failure exactly when the document holds that node; otherwise fails exactly when an element the extractor reads is missing; on success the feed has the channel's title and description and the given url, and the posts match the items pointwise with null feed ids |
| Parser.ParseIgnoresClock | src/parser.js:27-32 | two parses of one document and address agree on success or failure, and on every feed and post field except the generated ids |
| Polling.ParseFailure | src/parser.js:9-26 | a parse failure is thrown as an Error whose message is `errors.parsingError` exactly for a parsererror document |
| Polling.Stamp | src/main.js:116 | the same posts in the same order, each with `feedId` set to the feed's id and nothing else changed |
| Polling.FetchPosts | src/main.js:110-122 | a transport failure rejects with the axios error; a parse failure rejects with what the parser threw; success exactly when the parse succeeds, and then the posts are the parsed posts, in item order, each stamped with the feed's id (so one post per item, carrying the item's link) |
| Polling.Links | src/main.js:132 | the links of the posts, pointwise and in order |
| Polling.OfFeed | src/main.js:130-131 | a post is kept exactly when it is one of the posts and is owned by the feed |
| Polling.KnownLinks | src/main.js:130-132 | a link is among the feed's known links exactly when one of the store's posts owned by that feed carries it |
| Polling.Unknown | src/main.js:135-137 | a fetched post is kept exactly when its link is not among the known links |
| Polling.NewPosts | src/main.js:130-137 | the posts inserted for a feed are exactly the fetched posts whose link is not among the links of that feed's stored posts |
| Polling.MergePosts | src/main.js:139-142 | the new posts (`uniqueNewPosts`) come first and the old posts follow them unchanged; the list is untouched when nothing is new |
| Polling.LinksAppend | src/main.js:132 | the links of a concatenation are the concatenation of the links |
| Polling.OfFeedAppend | src/main.js:130-131 | the feed filter distributes over concatenation |
| Polling.OfFeedAllOwned | src/main.js:130-131 | posts all owned by a feed pass that feed's filter whole and no other feed's filter |
| Polling.OfFeedNoneOwned | src/main.js:130-131 | posts none of which is owned by a feed pass nothing through its filter |
| Polling.OfFeedTwice | src/main.js:130-131 | filtering by one feed twice is filtering once |
| Polling.InLinks | src/main.js:132 | a link is among the links exactly when some post carries it |
| Polling.UnknownAllKnown | src/main.js:135-137 | fetched posts whose links are all known leave nothing to insert |
| Polling.UnknownAppend | src/main.js:135-137 | the link filter distributes over concatenation |
| Polling.NewPostsKeepFetchedOrder | src/main.js:135-137 | the new posts of a concatenated fetch are the new posts of each part, in fetched order |
| Polling.OtherFeedsDoNotBlock | src/main.js:130-132 | posts of other feeds, even with the same links, do not change which posts are new for a feed; only that feed's posts are read |
| Polling.MergeIsolation | src/main.js:130-142 | after a merge the feed's posts are the new posts followed by its old posts, and every other feed's posts are unchanged |
| Polling.MergeKeepsKnownLinks | src/main.js:139-142 | a link known for any feed before a merge is still known after it |
| Polling.MergeCoversFetched | src/main.js:130-142 | after a merge every fetched link is known for the feed |
| Polling.RepollAddsNothing | src/main.js:125-142 | merging a fetch with the same links again inserts nothing and leaves the posts as they were |
| Polling.UnknownLinksUnique | src/main.js:135-137 | filtering a fetch with distinct links keeps its links distinct |
| Polling.MergeKeepsLinksUnique | src/main.js:130-142 | when the stored links of a feed are distinct and the fetch's links are distinct, the merged links of that feed are distinct |
| Polling.RepeatedLinkInOneFetchIsKept | src/main.js:135-137 | two fetched posts with the same unknown link are both inserted: the filter does not deduplicate within one fetch |
| Polling.Step | src/main.js:126-150 | any failure of the fetch, a transport failure or a parse failure, leaves the posts unchanged; a success makes them the merge of the fetched posts; any step keeps the old posts as a suffix |
| Polling.StepAbsorbs | src/main.js:126-143 | after a feed's step, every link of its parsed response is known for the feed |
| Polling.StepKeepsAbsorbed | src/main.js:126-143 | a step never loses the links another feed had absorbed |
| Polling.AbsorbedStepIsIdentity | src/main.js:126-143 | a step whose response's links are all known changes nothing |
| Polling.RunKeepsOldPosts | src/main.js:125-151 | the rest of a cycle (the fold `Run` of the feed steps in feed order) keeps the posts it starts from as the suffix of its result: it only inserts in front |
| Polling.Cycle | src/main.js:125-158 | one cycle over the feeds registered at its start only inserts posts in front of the old ones |
| Polling.RunKeepsAbsorbed | src/main.js:125-151 | links a store already holds for a feed stay held through the rest of a cycle |
| Polling.RunAbsorbs | src/main.js:125-151 | after the remaining feeds of a cycle have settled, every one of them has its parsed links held |
| Polling.RunOverAbsorbed | src/main.js:125-151 | the remaining feeds of a cycle, over responses whose links are all held, change nothing |
| Polling.SecondCycleAddsNothing | src/main.js:125-158 | a second cycle over unchanged responses leaves the posts exactly as the first left them, whatever ids its parses generate |
| Polling.StepProjection | src/main.js:126-143 | a step's effect on its own feed's posts depends only on those posts, and it leaves every other feed's posts unchanged |
| Polling.RunLeavesOthers | src/main.js:125-151 | the remaining feeds of a cycle leave the posts of any feed not among them unchanged |
| Polling.RunIsolation | src/main.js:125-151 | when no other remaining feed shares feed j's id, the posts the rest of a cycle leaves for feed j are its step applied to its own posts alone |
| Polling.CycleIsolation | src/main.js:125-151 | with distinct feed ids, each feed's posts after a cycle are its step applied to its own posts alone, so the order in which feeds settle does not matter to any feed |
| Reader.Urls | src/main.js:171 | the feeds' urls, pointwise and in order |
| Reader.SubmitOutcome | src/main.js:174-187 | a validation failure rejects with its key; a transport failure with the axios error; success exactly when validation, transport and parse all succeed, with a new url and the clock's feed id, and then the result is the parsed feed (its title and description included) with the parsed posts, in order, each stamped with the feed's id |
| Reader.Classify | src/main.js:204-219 | `networkError` is set exactly for a transport failure and for the `errors.parsingError` Error, and then equals `form.error`; `form.error` is the network key for a transport failure and the thrown message for any Error |
| Reader.FailureWritesApplyClassify | src/main.js:206-218 | the catch branch writes `networkError` and `form.error` once each, with the values `Classify` gives |
| Reader.SettleWritesReport | src/main.js:179-219 | the callbacks write 'added' exactly on success, then 'filling' last; the feed and its posts only on success; 'failed' on failure; `form.valid` true exactly on success; never 'sending' |
| Reader.SubmitWritesSendingFirst | src/main.js:168-219 | a submit writes 'sending' and clears `networkError` before anything the callbacks write, and writes 'sending' only then |
| Reader.SubmitFailureClassification | src/main.js:198-220 | validation errors go only to `form.error` with their key; transport and parsererror failures set both `networkError` and `form.error` to their key; a missing element reaches `form.error` with the TypeError message and clears `networkError` |
| Reader.ResubmitIsDuplicate | src/main.js:171-174 | resubmitting an address just added fails as a duplicate before any request |
| Reader.InsertionsOnlyTransitive | src/main.js:140-142 | runs of post insertions compose |
| Reader.FeedIds | src/main.js:184 | an id is among the registered ids exactly when some feed carries it |
| Reader.AddFeedKeepsUrlsDistinct | src/main.js:171-186 | registering a feed whose address is not yet registered keeps the addresses distinct |
| Reader.AddFeedKeepsPostsOwned | src/main.js:184-187 | registering a feed together with posts stamped with its id keeps every post owned by a registered feed |
| Reader.AddPostsKeepsStore | src/main.js:139-142 | inserting posts stamped with a registered feed's id keeps every post owned by a registered feed |
| Reader.App.constructor | src/main.js:58-73 | the initial state: filling, valid, no errors, no feeds or posts, no polling loop |
| Reader.App.OnChange | src/main.js:77-85 | a write of 'added' is answered with exactly one write of 'filling'; any other write triggers nothing; nothing else changes |
| Reader.App.SetProcessState | src/main.js:82-84 | writing 'added' settles at 'filling' after one extra write; any other value is stored as written |
| Reader.App.SetValid | src/main.js:189 | sets `form.valid` and nothing else |
| Reader.App.SetFormError | src/main.js:190 | sets `form.error` and nothing else |
| Reader.App.SetNetworkError | src/main.js:169 | sets `networkError` and nothing else |
| Reader.App.UnshiftFeed | src/main.js:186 | puts the feed first and the old feeds behind it |
| Reader.App.UnshiftPosts | src/main.js:187 | puts the posts first and the old posts behind them |
| Reader.App.Submit | src/main.js:162-221 | writes 'sending' and clears `networkError` first; on success the feed and its stamped posts go first, the form is valid without error and settles at 'filling', and the first feed starts the single polling loop; on failure feeds and posts are unchanged, the form is invalid and 'failed', and the error is sorted by kind; the state invariant is kept |
| Reader.App.Settle | src/main.js:175-220 | runs the success or the catch callback for the outcome |
| Reader.App.Accept | src/main.js:179-197 | the success callback: feed and posts first, valid, no error, 'added' then 'filling', and polling started when the feed is the only one; urls stay distinct and every post keeps a registered owner |
| Reader.App.Reject | src/main.js:198-220 | the catch callback: invalid, 'failed', errors sorted by kind, feeds and posts unchanged |
| Reader.App.MergeFetched | src/main.js:128-143 | the posts become the merge of the fetched posts for the feed, and `posts` is not written when nothing is new |
| Reader.App.UpdateFeed | src/main.js:126-150 | the posts become the feed's step: a failure changes nothing and a success is merged; only post insertions are written |
| Reader.App.PollNext | src/main.js:126-151 | the posts become the next feed's step, so what the rest of the cycle makes of them is unchanged |
| Reader.App.PollCycle | src/main.js:125-158 | the posts become the cycle over the feeds registered at its start; only `posts` changes, only by insertions at the front, and the state invariant is kept |
| LegacyReader.Urls | frontend-project-11/src/main.js:76 | the subscriptions' urls, pointwise and in order |
| LegacyReader.VerdictWritesReport | frontend-project-11/src/main.js:80-97 | the callbacks write 'added' exactly on success and end at 'filling', otherwise at 'failed'; `form.valid` true exactly on success; the subscription only on success; the rule's key on failure |
| LegacyReader.LegacyApp.constructor | frontend-project-11/src/main.js:46-53 | the initial state: filling, valid, no error, no feeds |
| LegacyReader.LegacyApp.OnChange | frontend-project-11/src/main.js:57-65 | a write of 'added' is answered with exactly one write of 'filling'; any other write triggers nothing |
| LegacyReader.LegacyApp.SetProcessState | frontend-project-11/src/main.js:62-64 | writing 'added' settles at 'filling' after one extra write; any other value is stored as written |
| LegacyReader.LegacyApp.SetValid | frontend-project-11/src/main.js:82 | sets `form.valid` and nothing else |
| LegacyReader.LegacyApp.SetError | frontend-project-11/src/main.js:83 | sets `form.error` and nothing else |
| LegacyReader.LegacyApp.UnshiftFeed | frontend-project-11/src/main.js:85-86 | puts the subscription first and the old ones behind it |
| LegacyReader.LegacyApp.Accept | frontend-project-11/src/main.js:80-90 | the success callback: valid, no error, a subscription with the validated url and the clock's id first, 'added' then 'filling'; urls stay distinct |
| LegacyReader.LegacyApp.Reject | frontend-project-11/src/main.js:91-97 | the catch callback: invalid, the rule's key as error, 'failed', feeds unchanged |
| LegacyReader.LegacyApp.Submit | frontend-project-11/src/main.js:68-98 | writes 'sending' before validating the trimmed input against the current urls; on success a subscription with the validated url goes first, valid, no error, 'added' then 'filling'; on failure feeds are unchanged, invalid, the rule's key as error, 'failed'; urls stay distinct |
| LegacyReader.BlankInputIsRequired | frontend-project-11/src/main.js:71-79 | a white-space-only input fails the required rule, because it is trimmed first |

## Left out

- Rendering (`src/view/render.js`) and the i18next and yup locale tables are
  not modelled. Only the message keys appear.
- Transport: the axios request and the proxy URL builder (`src/main.js:102-107`)
  are not modelled. The outcome of each request is a parameter:
  `Success(document)` or `NetworkError`.
- XML parsing: `DOMParser` and `querySelector` are abstracted. A `Document`
  holds only the answers to the extractor's queries.
- Ids: `Date.now()` and `Date.now() + Math.random()` are clock and random
  readings. They are parameters (`Clock`, `now`) of opaque types.
- The URL format test: yup's URL regex is the uninterpreted parameter `isUrl`.
- Validation.Validate: uses the rule order required → url → notOneOf. yup
  may run its `notOneOf` test first. Then an empty or non-URL string that is
  already in the list would get `errors.duplicateUrl` instead. Neither
  controller can reach that case, because every registered url has already
  passed the required and url rules.
- Concurrency: `setTimeout`, `Promise.allSettled` and the interleaving of
  promise callbacks are not modelled.
  - One polling cycle is a loop that settles the feeds one after another in
    feed order. When the feeds' ids are distinct, `Polling.CycleIsolation`
    shows that no feed's posts depend on that order.
  - Feed ids come from `Date.now()`, so two feeds added in the same
    millisecond share one. Nothing in the model keeps ids distinct. Feeds
    that share an id are merged in feed order. Whichever of them settles
    first can block posts of the other with the same link. The source does
    not fix that order.
  - The timer that re-arms the loop is a ghost count of started loops.
  - Concurrent submits, and submits interleaved with a cycle, are not modelled.
- The preview click handler (`src/main.js:88-98`), `ui.viewedPostsIds` and
  `ui.modal` are not modelled. They are view state with no invariant of the
  core.
- Console logging of failures is not modelled. A failed poll changes nothing.
- The observable store's skipping of writes that do not change a value is not
  modelled. `writes` records every write issued, and the listener is modelled
  as running after each one.
- `src/main.js` imports a `./validation.js` that is not part of this model.
  It is taken to be the same rule chain as
  `frontend-project-11/src/validation.js`.
- Reader.SubmitFailureClassification: the TypeError message for a missing
  element is V8's wording, fixed as one constant. Other engines word it
  differently.
