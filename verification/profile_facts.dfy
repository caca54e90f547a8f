/**
 * What `scrape_user` promises about its result, proved of the `Profile` model:
 * missing keys degrade to their defaults, the follower counts are grouped
 * numerals of the counts, at most five videos and five images are built from
 * the first five timeline edges in order, and the ways the call reports
 * failure instead of raising.
 */
module ProfileFacts {
  import opened PyValue
  import opened Http
  import opened Thousands
  import opened Profile

  /** Every key the user dictionary is built from. */
  const UserKeys: set<string> := {
    "username", "full_name", "id", "category_name", "business_category_name",
    "business_phone_number", "business_email", "biography", "bio_links",
    "external_url", "edge_followed_by", "edge_follow", "fbid", "is_private",
    "is_verified", "profile_pic_url_hd", "edge_felix_video_timeline",
    "edge_owner_to_timeline_media", "edge_saved_media", "edge_related_profiles"}

  /** The record of a user object that has none of the keys: every entry its default. */
  const DefaultUser: UserRecord := UserRecord(
    NA, NA, NA, NA, NA, NA, NA, NA, [], NA, "0", "0", NA, NA, NA, NA,
    Int(0), Int(0), Int(0), Int(0), [])

  predicate NoneOf(fields: seq<(string, Json)>, keys: set<string>)
  {
    forall i :: 0 <= i < |fields| ==> fields[i].0 !in keys
  }

  lemma Absent(fields: seq<(string, Json)>, keys: set<string>, k: string)
    requires NoneOf(fields, keys) && k in keys
    ensures !HasKey(fields, k)
  {
  }

  /** A user object with none of the known keys gives the record of defaults. */
  lemma UserDefaults(u: Json)
    requires u.Obj? && NoneOf(u.fields, UserKeys)
    ensures UserOf(u) == Ok(DefaultUser)
  {
    forall k | k in UserKeys ensures !HasKey(u.fields, k) {
      Absent(u.fields, UserKeys, k);
    }
    assert Grouped(0) == "0";
  }

  /** Every key a video or an image record is built from. */
  const MediaKeys: set<string> := {
    "id", "title", "shortcode", "display_url", "video_url", "video_view_count",
    "edge_media_to_tagged_user", "edge_media_to_caption", "edge_media_to_comment",
    "comments_disabled", "taken_at_timestamp", "edge_liked_by", "location",
    "video_duration", "accessibility_caption"}

  const DefaultVideo: Media :=
    Video(NA, NA, NA, NA, NA, Int(0), [], [], Int(0), Bool(false), NA, Int(0), NA, NA)

  const DefaultImage: Media :=
    Image(NA, NA, NA, NA, Int(0), [], [], Int(0), Bool(false), NA, Int(0), NA, NA, NA)

  /** An edge whose node (or the `{}` standing in for a missing one) has none of the keys gives the defaults. */
  lemma VideoDefaults(video: Json)
    requires video.Obj? && Field(video, "node", EmptyObj).Obj?
    requires NoneOf(Field(video, "node", EmptyObj).fields, MediaKeys)
    ensures VideoOf(video) == Ok(DefaultVideo)
  {
    var node := Field(video, "node", EmptyObj);
    forall k | k in MediaKeys ensures !HasKey(node.fields, k) {
      Absent(node.fields, MediaKeys, k);
    }
  }

  lemma ImageDefaults(image: Json)
    requires image.Obj? && Field(image, "node", EmptyObj).Obj?
    requires NoneOf(Field(image, "node", EmptyObj).fields, MediaKeys)
    ensures ImageOf(image) == Ok(DefaultImage)
  {
    var node := Field(image, "node", EmptyObj);
    forall k | k in MediaKeys ensures !HasKey(node.fields, k) {
      Absent(node.fields, MediaKeys, k);
    }
  }

  /** The response whose document wraps such a user object. */
  function Wrapped(u: Json): Response
  {
    Answered(200, Parsed(Obj([("data", Obj([("user", u)]))])))
  }

  /** The call on a response that wraps a truthy user object gives what is built from that object. */
  lemma WrappedScrape(u: Json)
    requires Truthy(u)
    ensures FromUser(u).Ok? ==> Scrape(Wrapped(u)) == FromUser(u).value
    ensures FromUser(u).Err? ==> Scrape(Wrapped(u)) == Failed(Caught(FromUser(u).fault))
  {
    var doc := Wrapped(u).body.doc;
    assert HoldsUser(doc, u);
    ExtractFromUser(doc, u);
  }

  /**
   * A found user with none of the known keys: the defaults, and no media,
   * rather than an exception.
   */
  lemma ScrapeDefaults(u: Json)
    requires u.Obj? && u.fields != [] && NoneOf(u.fields, UserKeys)
    ensures Scrape(Wrapped(u)) == Scraped(Found(DefaultUser), [], [])
  {
    UserDefaults(u);
    Absent(u.fields, UserKeys, "edge_felix_video_timeline");
    Absent(u.fields, UserKeys, "edge_owner_to_timeline_media");
    assert FirstEdges(u, "edge_felix_video_timeline") == Ok([]);
    assert FirstEdges(u, "edge_owner_to_timeline_media") == Ok([]);
    assert FromUser(u) == Ok(Scraped(Found(DefaultUser), [], []));
    WrappedScrape(u);
  }

  /** A status other than 200 is reported with its code, whatever the body. */
  lemma StatusReported(status: int, body: Body)
    requires status != 200
    ensures Scrape(Answered(status, body)) == Failed(StatusText(status))
  {
  }

  /** The code in a status report reads back as the status, for the codes HTTP uses. */
  lemma StatusTextReadsBack(status: nat)
    ensures ValueOf(StatusText(status)[38..]) == status
  {
    DigitsValue(status);
  }

  /** A body that is not JSON is reported as such. */
  lemma DecodeReported(reason: string)
    ensures Scrape(Answered(200, Malformed(reason))) == Failed(DecodeText)
  {
  }

  /** No user, an empty user or a null user is reported as not found. */
  lemma MissingUserReported(doc: Json)
    requires doc.Obj?
    requires Get(doc, "data", EmptyObj).Ok? && Get(doc, "data", EmptyObj).value.Obj?
    requires !Truthy(Get(Get(doc, "data", EmptyObj).value, "user", EmptyObj).value)
    ensures Scrape(Answered(200, Parsed(doc))) == Failed(NotFoundText)
  {
  }

  /** A document that is not a dict raises at `data.get`, and the call reports it. */
  lemma NotDictReported(doc: Json)
    requires !doc.Obj?
    ensures Scrape(Answered(200, Parsed(doc))) == Failed(Caught(NoAttribute(TypeName(doc), "get")))
  {
  }

  /** A `data` member that is present but not a dict raises at `.get("user", {})`, and the call reports it. */
  lemma DataNotDictReported(doc: Json)
    requires doc.Obj? && !Field(doc, "data", EmptyObj).Obj?
    ensures Scrape(Answered(200, Parsed(doc))) ==
      Failed(Caught(NoAttribute(TypeName(Field(doc, "data", EmptyObj)), "get")))
  {
  }

  /** The document `{"data": null}`: the AttributeError of `None.get` is reported. */
  lemma NullDataReported()
    ensures Scrape(Answered(200, Parsed(Obj([("data", Null)])))) == Failed(Caught(NoAttribute("NoneType", "get")))
  {
    var doc := Obj([("data", Null)]);
    assert Lookup(doc.fields, "data") == Some(Null);
    DataNotDictReported(doc);
  }

  /**
   * The follower figures are grouped numerals: when the count is a
   * non-negative int, the commas sit every three digits from the right, the
   * digits are the count's decimal notation, read back as the count, and
   * start with '0' only for zero.
   */
  lemma FollowersDenote(u: Json, n: nat)
    requires Nested(u, "edge_followed_by", "count", Int(0)) == Ok(Int(n))
    ensures UserOf(u).Ok? ==>
      && IsGrouping(UserOf(u).value.followers)
      && Uncomma(UserOf(u).value.followers) == Digits(n)
      && ValueOf(Uncomma(UserOf(u).value.followers)) == n
      && (UserOf(u).value.followers[0] == '0' <==> n == 0)
  {
    GroupedDenotes(n);
    GroupedDigits(n);
  }

  /** The same for the accounts followed. */
  lemma FollowingDenote(u: Json, n: nat)
    requires Nested(u, "edge_follow", "count", Int(0)) == Ok(Int(n))
    ensures UserOf(u).Ok? ==>
      && IsGrouping(UserOf(u).value.following)
      && Uncomma(UserOf(u).value.following) == Digits(n)
      && ValueOf(Uncomma(UserOf(u).value.following)) == n
      && (UserOf(u).value.following[0] == '0' <==> n == 0)
  {
    GroupedDenotes(n);
    GroupedDigits(n);
  }

  /** The user object the document holds, when the two lookups succeed. */
  predicate HoldsUser(doc: Json, u: Json)
  {
    && Get(doc, "data", EmptyObj).Ok?
    && Get(Get(doc, "data", EmptyObj).value, "user", EmptyObj) == Ok(u)
  }

  /** What a comprehension over a prefix of `es` produced, element by element. */
  lemma CollectPrefix<T>(es: seq<Json>, f: Json -> Result<T>, k: nat, ys: seq<T>)
    requires k <= |es| && Collect(es[..k], f) == Ok(ys)
    ensures |ys| == k && forall i :: 0 <= i < k ==> f(es[i]) == Ok(ys[i])
  {
    assert forall i :: 0 <= i < k ==> es[..k][i] == es[i];
  }

  /** The edges a timeline loop visits are the first five of the list. */
  lemma TimelinePrefix(u: Json, timeline: string, es: seq<Json>)
    requires Nested(u, timeline, "edges", EmptyArr) == Ok(Arr(es))
    ensures FirstEdges(u, timeline) == Ok(es[..Min(5, |es|)])
  {
  }

  /**
   * A found user: the videos are built from the first five edges of the video
   * timeline, one per edge, in order.
   */
  lemma VideosFromTimeline(u: Json, es: seq<Json>)
    requires Nested(u, "edge_felix_video_timeline", "edges", EmptyArr) == Ok(Arr(es))
    ensures FromUser(u).Ok? ==>
      && |FromUser(u).value.videos| == Min(5, |es|)
      && forall i :: 0 <= i < |FromUser(u).value.videos| ==> VideoOf(es[i]) == Ok(FromUser(u).value.videos[i])
  {
    var r := FromUser(u);
    if r.Ok? {
      var edges := FirstEdges(u, "edge_felix_video_timeline");
      TimelinePrefix(u, "edge_felix_video_timeline", es);
      assert Collect(edges.value, VideoOf) == Ok(r.value.videos);
      CollectPrefix(es, VideoOf, Min(5, |es|), r.value.videos);
    }
  }

  /** The same for the images and the media timeline. */
  lemma ImagesFromTimeline(u: Json, es: seq<Json>)
    requires Nested(u, "edge_owner_to_timeline_media", "edges", EmptyArr) == Ok(Arr(es))
    ensures FromUser(u).Ok? ==>
      && |FromUser(u).value.images| == Min(5, |es|)
      && forall i :: 0 <= i < |FromUser(u).value.images| ==> ImageOf(es[i]) == Ok(FromUser(u).value.images[i])
  {
    var r := FromUser(u);
    if r.Ok? {
      var edges := FirstEdges(u, "edge_owner_to_timeline_media");
      TimelinePrefix(u, "edge_owner_to_timeline_media", es);
      assert Collect(edges.value, ImageOf) == Ok(r.value.images);
      CollectPrefix(es, ImageOf, Min(5, |es|), r.value.images);
    }
  }

  /** A truthy user object held by the document is what the record and the media come from. */
  lemma ExtractFromUser(doc: Json, u: Json)
    requires HoldsUser(doc, u) && Truthy(u)
    ensures Extract(doc) == FromUser(u)
  {
  }

  /**
   * An exception while building the records of a found user is caught and
   * reported with its message, and no media are returned.
   */
  lemma FaultReported(doc: Json, u: Json)
    requires HoldsUser(doc, u) && Truthy(u)
    ensures FromUser(u).Err? ==> Scrape(Answered(200, Parsed(doc))) == Failed(Caught(FromUser(u).fault))
  {
    ExtractFromUser(doc, u);
  }

  /** A video whose node holds a location that is not a dict raises: `None.get` does not exist. */
  lemma LocationMustBeDict(video: Json)
    requires video.Obj? && Field(video, "node", EmptyObj).Obj?
    requires HasKey(Field(video, "node", EmptyObj).fields, "location")
    requires !Lookup(Field(video, "node", EmptyObj).fields, "location").value.Obj?
    ensures VideoOf(video).Err?
  {
  }

  /** The user object of the example below, a single video whose location is null. */
  function NullLocationUser(): Json
  {
    var node := Obj([("location", Null)]);
    Obj([("edge_felix_video_timeline", Obj([("edges", Arr([Obj([("node", node)])]))]))])
  }

  /** The one video edge of that user raises when its location is asked for a name. */
  lemma NullLocationVideo()
    ensures VideoOf(Obj([("node", Obj([("location", Null)]))])) == Err(NoAttribute("NoneType", "get"))
  {
    var node := Obj([("location", Null)]);
    assert Lookup(node.fields, "location") == Some(Null);
    assert !HasKey(node.fields, "edge_media_to_tagged_user");
    assert !HasKey(node.fields, "edge_media_to_caption");
    assert EdgeNames(node, "edge_media_to_tagged_user", "username") == Ok([]);
    assert EdgeNames(node, "edge_media_to_caption", "text") == Ok([]);
  }

  /** The user record of that user is built without an exception. */
  lemma NullLocationRecord()
    ensures UserOf(NullLocationUser()).Ok?
  {
    var u := NullLocationUser();
    forall k | k in UserKeys - {"edge_felix_video_timeline"} ensures !HasKey(u.fields, k) {
    }
    assert BioLinks(u) == Ok([]);
    assert EdgeNames(u, "edge_related_profiles", "username") == Ok([]);
    assert Grouped(0) == "0";
  }

  /** The video timeline of that user is its one edge. */
  lemma NullLocationEdges()
    ensures FirstEdges(NullLocationUser(), "edge_felix_video_timeline") == Ok([Obj([("node", Obj([("location", Null)]))])])
  {
    var edge := Obj([("node", Obj([("location", Null)]))]);
    var timeline := Obj([("edges", Arr([edge]))]);
    var u := NullLocationUser();
    assert Lookup(u.fields, "edge_felix_video_timeline") == Some(timeline);
    assert Lookup(timeline.fields, "edges") == Some(Arr([edge]));
    assert [edge][..Min(5, 1)] == [edge];
  }

  lemma NullLocationFault()
    ensures FromUser(NullLocationUser()) == Err(NoAttribute("NoneType", "get"))
  {
    var edge := Obj([("node", Obj([("location", Null)]))]);
    NullLocationVideo();
    NullLocationRecord();
    NullLocationEdges();
    CollectStops([edge], VideoOf, 0);
  }

  /** The call on that user reports the AttributeError of `None.get`. */
  lemma NullLocationReported()
    ensures Scrape(Wrapped(NullLocationUser())) == Failed(Caught(NoAttribute("NoneType", "get")))
  {
    var u := NullLocationUser();
    NullLocationFault();
    WrappedScrape(u);
  }

  /** The user object of the example below: a follower count sent as a string. */
  function TextCountUser(): Json
  {
    Obj([("edge_followed_by", Obj([("count", Str("12"))]))])
  }

  /** The user record of that user is not built: grouping the string raises. */
  lemma TextCountRecord()
    ensures UserOf(TextCountUser()) == Err(CommaWithStr)
  {
    var u := TextCountUser();
    assert BioLinks(u) == Ok([]);
    assert Nested(u, "edge_followed_by", "count", Int(0)) == Ok(Str("12"));
    FollowersRaise(u);
  }

  /** A follower count that cannot be grouped makes the record raise with that exception. */
  lemma FollowersRaise(u: Json)
    requires u.Obj? && BioLinks(u).Ok? && Nested(u, "edge_followed_by", "count", Int(0)).Ok?
    requires FormatComma(Nested(u, "edge_followed_by", "count", Int(0)).value).Err?
    ensures UserOf(u) == Err(FormatComma(Nested(u, "edge_followed_by", "count", Int(0)).value).fault)
  {
  }

  lemma TextCountFault()
    ensures FromUser(TextCountUser()) == Err(CommaWithStr)
  {
    TextCountRecord();
  }

  /** A count that is a string cannot be grouped, and the call reports the ValueError. */
  lemma TextCountReported()
    ensures Scrape(Wrapped(TextCountUser())) == Failed(Caught(CommaWithStr))
  {
    var u := TextCountUser();
    TextCountFault();
    WrappedScrape(u);
  }
}
