/**
 * `parseRss(xmlString, feedUrl)`: the extraction of a feed record and its
 * posts from an RSS 2.0 document, after the channel elements `title` and
 * `description` and the `title`, `link` and `description` of each `item`
 * (the "Required channel elements" and "Elements of <item>" sections of the
 * RSS 2.0 specification).
 *
 * XML parsing itself is not modelled: a `Document` is what the DOM parser
 * yields, reduced to the answers of the queries the extractor makes.
 */
module Parser {
  import opened Common

  /** A feed's id (a millisecond clock reading); opaque to the model. */
  type FeedId(==, !new)

  /** A post's id (a clock reading plus a random fraction); opaque to the model. */
  type PostId(==, !new)

  /**
   * One `item` element: the text of the first `title`, `link` and
   * `description` element inside it, `None` when there is no such element.
   */
  datatype ItemNode = ItemNode(title: Option<string>, link: Option<string>, description: Option<string>)

  /**
   * A parsed document: whether a `parsererror` element occurs anywhere in it,
   * the text of `channel > title` and `channel > description` (`None` when
   * missing), and every `item` element in document order.
   */
  datatype Document = Document(
    hasParserError: bool,
    channelTitle: Option<string>,
    channelDescription: Option<string>,
    items: seq<ItemNode>)

  /** A feed record: its channel title and description, the address it was fetched from, its id. */
  datatype Feed = Feed(title: string, description: string, url: string, id: FeedId)

  /** A post record; `feedId` is `None` (null) until the caller stamps the owning feed's id. */
  datatype Post = Post(title: string, link: string, description: string, feedId: Option<FeedId>, id: PostId)

  /**
   * The clock readings one parse consumes: the feed's id, and the id given
   * to the post built from the item at each position.
   */
  datatype Clock = Clock(feedId: FeedId, postId: nat -> PostId)

  /**
   * Why a parse fails: the document holds a `parsererror` node (the source
   * throws an Error whose message is `errors.parsingError`), or an element the
   * extractor reads is missing (the source then reads `textContent` of null
   * and a TypeError escapes).
   */
  datatype ParseError = ParserErrorNode | MissingElement

  /** What a successful parse returns. */
  datatype Parsed = Parsed(feed: Feed, posts: seq<Post>)

  /** The item has the three child elements the extractor reads. */
  predicate ItemComplete(item: ItemNode)
  {
    item.title.Some? && item.link.Some? && item.description.Some?
  }

  /** Every element the extractor reads is present in the document. */
  predicate Complete(doc: Document)
  {
    && doc.channelTitle.Some? && doc.channelDescription.Some?
    && forall i :: 0 <= i < |doc.items| ==> ItemComplete(doc.items[i])
  }

  /**
   * `Array.from(items).map(...)` over `items`, where `items[0]` is the item at
   * position `offset` of the document: one post per item, in order, carrying
   * the item's texts, no feed id and the id the clock gives that position.
   */
  function ExtractPosts(items: seq<ItemNode>, offset: nat, postId: nat -> PostId)
    : (r: Result<seq<Post>, ParseError>)
    ensures r.Ok? <==> forall i :: 0 <= i < |items| ==> ItemComplete(items[i])
    ensures r.Err? ==> r.error == MissingElement
    ensures r.Ok? ==> |r.value| == |items|
    ensures r.Ok? ==> forall i :: 0 <= i < |items| ==>
      && Some(r.value[i].title) == items[i].title
      && Some(r.value[i].link) == items[i].link
      && Some(r.value[i].description) == items[i].description
      && r.value[i].feedId == None
      && r.value[i].id == postId(offset + i)
  {
    if items == [] then Ok([])
    else
      var item := items[0];
      if !ItemComplete(item) then Err(MissingElement)
      else
        match ExtractPosts(items[1..], offset + 1, postId)
        case Err(e) => Err(e)
        case Ok(rest) =>
          Ok([Post(item.title.value, item.link.value, item.description.value, None, postId(offset))] + rest)
  }

  /**
   * `parseRss(doc, feedUrl)`. A `parsererror` node fails the parse before
   * anything is read; otherwise a missing element fails it; otherwise the
   * feed carries the channel's title and description and the given address,
   * and there is one post per item, in document order, with no feed id.
   */
  function ParseRss(doc: Document, feedUrl: string, clock: Clock): (r: Result<Parsed, ParseError>)
    ensures r == Err(ParserErrorNode) <==> doc.hasParserError
    ensures r == Err(MissingElement) <==> !doc.hasParserError && !Complete(doc)
    ensures r.Ok? ==>
      && Some(r.value.feed.title) == doc.channelTitle
      && Some(r.value.feed.description) == doc.channelDescription
      && r.value.feed.url == feedUrl
      && r.value.feed.id == clock.feedId
    ensures r.Ok? ==> |r.value.posts| == |doc.items|
    ensures r.Ok? ==> forall i :: 0 <= i < |doc.items| ==>
      && Some(r.value.posts[i].title) == doc.items[i].title
      && Some(r.value.posts[i].link) == doc.items[i].link
      && Some(r.value.posts[i].description) == doc.items[i].description
      && r.value.posts[i].feedId == None
      && r.value.posts[i].id == clock.postId(i)
  {
    if doc.hasParserError then Err(ParserErrorNode)
    else if doc.channelTitle.None? || doc.channelDescription.None? then Err(MissingElement)
    else
      match ExtractPosts(doc.items, 0, clock.postId)
      case Err(e) => Err(e)
      case Ok(posts) =>
        Ok(Parsed(Feed(doc.channelTitle.value, doc.channelDescription.value, feedUrl, clock.feedId), posts))
  }

  /**
   * Parsing is a function of the document and the address: two parses of the
   * same input agree on the outcome and on every field except the generated ids.
   */
  lemma ParseIgnoresClock(doc: Document, feedUrl: string, c1: Clock, c2: Clock)
    ensures var r1 := ParseRss(doc, feedUrl, c1);
            var r2 := ParseRss(doc, feedUrl, c2);
            && r1.Ok? == r2.Ok?
            && (r1.Err? ==> r1 == r2)
            && (r1.Ok? ==>
                && r1.value.feed.(id := c2.feedId) == r2.value.feed
                && |r1.value.posts| == |r2.value.posts|
                && forall i :: 0 <= i < |r1.value.posts| ==>
                     r1.value.posts[i].(id := c2.postId(i)) == r2.value.posts[i])
  {
  }
}
