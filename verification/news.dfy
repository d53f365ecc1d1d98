/** A news item and the plain builder that assembles one. */
module NewsModel {
  import opened Wrappers

  datatype News = News(
    title: string,
    description: string,
    link: string,
    permanentLink: Option<string>,
    authorEmail: Option<string>,
    categories: Option<seq<string>>,
    media: Option<string>,
    commentsUrl: Option<string>,
    pubDate: Option<string>)

  datatype NewsBuilder = NewsBuilder(
    title: string,
    description: string,
    link: string,
    permanentLink: Option<string>,
    authorEmail: Option<string>,
    categories: Option<seq<string>>,
    media: Option<string>,
    commentsUrl: Option<string>,
    pubDate: Option<string>)

  /** The optional fields, one per setter. */
  datatype Field = PermanentLink | AuthorEmail | Categories | Media | CommentsUrl | PubDate

  /** Whether optional field `f` of `b` holds a value. */
  predicate IsSet(b: NewsBuilder, f: Field) {
    match f
    case PermanentLink => b.permanentLink.Some?
    case AuthorEmail => b.authorEmail.Some?
    case Categories => b.categories.Some?
    case Media => b.media.Some?
    case CommentsUrl => b.commentsUrl.Some?
    case PubDate => b.pubDate.Some?
  }

  /** `a` and `b` agree on every field other than `f`. */
  predicate AgreeExcept(a: NewsBuilder, b: NewsBuilder, f: Field) {
    && a.title == b.title && a.description == b.description && a.link == b.link
    && (f != PermanentLink ==> a.permanentLink == b.permanentLink)
    && (f != AuthorEmail ==> a.authorEmail == b.authorEmail)
    && (f != Categories ==> a.categories == b.categories)
    && (f != Media ==> a.media == b.media)
    && (f != CommentsUrl ==> a.commentsUrl == b.commentsUrl)
    && (f != PubDate ==> a.pubDate == b.pubDate)
  }

  /** `NewsBuilder::new`: the three required fields, nothing optional set. */
  function NewBuilder(title: string, description: string, link: string): (b: NewsBuilder)
    ensures b.title == title && b.description == description && b.link == link
    ensures forall f: Field :: !IsSet(b, f)
  {
    NewsBuilder(title, description, link, None, None, None, None, None, None)
  }

  function WithPermanentLink(b: NewsBuilder, permanentLink: string): (r: NewsBuilder)
    ensures r.permanentLink == Some(permanentLink) && AgreeExcept(b, r, PermanentLink)
  {
    b.(permanentLink := Some(permanentLink))
  }

  function WithAuthorEmail(b: NewsBuilder, authorEmail: string): (r: NewsBuilder)
    ensures r.authorEmail == Some(authorEmail) && AgreeExcept(b, r, AuthorEmail)
  {
    b.(authorEmail := Some(authorEmail))
  }

  function WithCategories(b: NewsBuilder, categories: seq<string>): (r: NewsBuilder)
    ensures r.categories == Some(categories) && AgreeExcept(b, r, Categories)
  {
    b.(categories := Some(categories))
  }

  function WithMedia(b: NewsBuilder, media: string): (r: NewsBuilder)
    ensures r.media == Some(media) && AgreeExcept(b, r, Media)
  {
    b.(media := Some(media))
  }

  function WithCommentsUrl(b: NewsBuilder, commentsUrl: string): (r: NewsBuilder)
    ensures r.commentsUrl == Some(commentsUrl) && AgreeExcept(b, r, CommentsUrl)
  {
    b.(commentsUrl := Some(commentsUrl))
  }

  function WithPubDate(b: NewsBuilder, pubDate: string): (r: NewsBuilder)
    ensures r.pubDate == Some(pubDate) && AgreeExcept(b, r, PubDate)
  {
    b.(pubDate := Some(pubDate))
  }

  /** One call to a setter, with its argument. */
  datatype Setter =
    | SetPermanentLink(text: string)
    | SetAuthorEmail(text: string)
    | SetCategories(list: seq<string>)
    | SetMedia(text: string)
    | SetCommentsUrl(text: string)
    | SetPubDate(text: string)
  {
    function Target(): Field {
      match this
      case SetPermanentLink(_) => PermanentLink
      case SetAuthorEmail(_) => AuthorEmail
      case SetCategories(_) => Categories
      case SetMedia(_) => Media
      case SetCommentsUrl(_) => CommentsUrl
      case SetPubDate(_) => PubDate
    }
  }

  function Apply(b: NewsBuilder, s: Setter): NewsBuilder {
    match s
    case SetPermanentLink(v) => WithPermanentLink(b, v)
    case SetAuthorEmail(v) => WithAuthorEmail(b, v)
    case SetCategories(v) => WithCategories(b, v)
    case SetMedia(v) => WithMedia(b, v)
    case SetCommentsUrl(v) => WithCommentsUrl(b, v)
    case SetPubDate(v) => WithPubDate(b, v)
  }

  /** Calling the same setter twice keeps only the second value. */
  lemma LastSetterWins(b: NewsBuilder, first: Setter, second: Setter)
    requires first.Target() == second.Target()
    ensures Apply(Apply(b, first), second) == Apply(b, second)
  {
  }

  /** Setters of different fields commute. */
  lemma SettersCommute(b: NewsBuilder, s1: Setter, s2: Setter)
    requires s1.Target() != s2.Target()
    ensures Apply(Apply(b, s1), s2) == Apply(Apply(b, s2), s1)
  {
  }

  /** `NewsBuilder::build`: every field copied as it stands. */
  function Build(b: NewsBuilder): (n: News)
    ensures n.title == b.title && n.description == b.description && n.link == b.link
    ensures n.permanentLink == b.permanentLink && n.authorEmail == b.authorEmail
    ensures n.categories == b.categories && n.media == b.media
    ensures n.commentsUrl == b.commentsUrl && n.pubDate == b.pubDate
  {
    News(b.title, b.description, b.link, b.permanentLink, b.authorEmail,
         b.categories, b.media, b.commentsUrl, b.pubDate)
  }
}
