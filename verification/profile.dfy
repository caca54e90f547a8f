/**
 * `scrape_user(username)`: one request to the profile endpoint, then a flat
 * user record and at most five video and five image records taken from the
 * decoded document.  Every lookup is `dict.get` with a default, so a missing
 * key degrades to its default, but a key present with a value of the wrong
 * type still raises; the outer `except Exception` turns any such exception
 * into an error message.  The result is Python's three-tuple: the user record
 * or a message, then the two media lists, both empty whenever there is a message.
 */
module Profile {
  import opened PyValue
  import opened Http
  import opened Thousands

  /** The "user" dictionary, one field per key, in the order the keys are built. */
  datatype UserRecord = UserRecord(
    username: Json,          // "Username"
    fullName: Json,          // "Full Name"
    id: Json,                // "ID"
    category: Json,          // "Category"
    businessCategory: Json,  // "Business Category"
    phone: Json,             // "Phone"
    email: Json,             // "Email"
    biography: Json,         // "Biography"
    bioLinks: seq<Json>,     // "Bio Links"
    homepage: Json,          // "Homepage"
    followers: string,       // "Followers", comma-grouped
    following: string,       // "Following", comma-grouped
    facebookId: Json,        // "Facebook ID"
    isPrivate: Json,         // "Is Private"
    isVerified: Json,        // "Is Verified"
    profileImage: Json,      // "Profile Image"
    videoCount: Json,        // "Video Count"
    imageCount: Json,        // "Image Count"
    savedCount: Json,        // "Saved Count"
    collectionsCount: Json,  // "Collections Count"
    relatedProfiles: seq<Json>)  // "Related Profiles"

  /** A video or an image dictionary; "Thumbnail" and "URL" belong to videos, "Source" and "Accessibility Caption" to images. */
  datatype Media =
    | Video(id: Json, title: Json, shortcode: Json, thumbnail: Json, url: Json, views: Json,
            tagged: seq<Json>, captions: seq<Json>, commentsCount: Json, commentsDisabled: Json,
            takenAt: Json, likes: Json, location: Json, duration: Json)
    | Image(id: Json, title: Json, shortcode: Json, source: Json, views: Json,
            tagged: seq<Json>, captions: seq<Json>, commentsCount: Json, commentsDisabled: Json,
            takenAt: Json, likes: Json, location: Json, accessibilityCaption: Json, duration: Json)

  /** The first element of the returned tuple. */
  datatype Info = Reported(text: string) | Found(user: UserRecord)

  datatype Scraped = Scraped(info: Info, videos: seq<Media>, images: seq<Media>)

  function Failed(text: string): Scraped { Scraped(Reported(text), [], []) }

  const DecodeText: string := "Error decoding JSON response from the server."
  const NotFoundText: string := "User not found or unable to retrieve data."

  function StatusText(status: int): (r: string)
    ensures |r| > 38 && r[..38] == "Failed to retrieve data. Status code: " && r[38..] == Decimal(status)
  {
    "Failed to retrieve data. Status code: " + Decimal(status)
  }

  /** What the outer `except Exception as e` reports. */
  function Caught(f: Fault): (r: string)
    ensures |r| == 19 + |Message(f)| && r[..19] == "An error occurred: " && r[19..] == Message(f)
  {
    "An error occurred: " + Message(f)
  }

  // ---- lookups ----

  /** `v.get(outer, {}).get(inner, default)`. */
  function Nested(v: Json, outer: string, inner: string, default: Json): (r: Result<Json>)
    ensures !v.Obj? ==> r == Err(NoAttribute(TypeName(v), "get"))
    ensures v.Obj? && !HasKey(v.fields, outer) ==> r == Ok(default)
    ensures v.Obj? && HasKey(v.fields, outer) ==>
      var o := Lookup(v.fields, outer).value;
      && (o.Obj? ==> r == Ok(Field(o, inner, default)))
      && (!o.Obj? ==> r == Err(NoAttribute(TypeName(o), "get")))
  {
    var o :- Get(v, outer, EmptyObj);
    Get(o, inner, default)
  }

  /**
   * A list comprehension whose body may raise: the results in order, or the
   * exception of the first element whose body raises.
   */
  function Collect<T>(xs: seq<Json>, f: Json -> Result<T>): (r: Result<seq<T>>)
    ensures r.Ok? <==> forall i :: 0 <= i < |xs| ==> f(xs[i]).Ok?
    ensures r.Ok? ==> |r.value| == |xs| && forall i :: 0 <= i < |xs| ==> f(xs[i]) == Ok(r.value[i])
    ensures r.Err? ==>
      exists i :: 0 <= i < |xs| && f(xs[i]).Err? && f(xs[i]).fault == r.fault &&
        forall j :: 0 <= j < i ==> f(xs[j]).Ok?
  {
    if xs == [] then Ok([])
    else
      var first :- f(xs[0]);
      var rest :- Collect(xs[1..], f);
      assert forall i :: 1 <= i < |xs| ==> xs[i] == xs[1..][i - 1];
      Ok([first] + rest)
  }

  /** A comprehension none of whose bodies raised gives their results. */
  lemma CollectAll<T>(xs: seq<Json>, f: Json -> Result<T>, ys: seq<T>)
    requires |ys| == |xs| && forall i :: 0 <= i < |xs| ==> f(xs[i]) == Ok(ys[i])
    ensures Collect(xs, f) == Ok(ys)
  {
    var r := Collect(xs, f);
    assert r.Ok?;
    assert forall i :: 0 <= i < |xs| ==> r.value[i] == ys[i];
    assert r.value == ys;
  }

  /** A comprehension stops at the first body that raises. */
  lemma CollectStops<T>(xs: seq<Json>, f: Json -> Result<T>, i: nat)
    requires i < |xs| && f(xs[i]).Err? && forall j :: 0 <= j < i ==> f(xs[j]).Ok?
    ensures Collect(xs, f) == Err(f(xs[i]).fault)
  {
    var r := Collect(xs, f);
    assert r.Err?;
    var k :| 0 <= k < |xs| && f(xs[k]).Err? && f(xs[k]).fault == r.fault && forall j :: 0 <= j < k ==> f(xs[j]).Ok?;
    assert k == i;
  }

  /** `[e.get("node", {}).get(field, "N/A") for e in v.get(outer, {}).get("edges", [])]` */
  function EdgeNames(v: Json, outer: string, field: string): (r: Result<seq<Json>>)
    ensures !v.Obj? ==> r == Err(NoAttribute(TypeName(v), "get"))
    ensures v.Obj? && !HasKey(v.fields, outer) ==> r == Ok([])
    ensures Nested(v, outer, "edges", EmptyArr).Ok? && Nested(v, outer, "edges", EmptyArr).value.Arr? ==>
      var es := Nested(v, outer, "edges", EmptyArr).value.items;
      && (r.Ok? <==> forall i :: 0 <= i < |es| ==> Nested(es[i], "node", field, NA).Ok?)
      && (r.Ok? ==> |r.value| == |es| && forall i :: 0 <= i < |es| ==> Nested(es[i], "node", field, NA) == Ok(r.value[i]))
  {
    var edges :- Nested(v, outer, "edges", EmptyArr);
    var xs :- Iterate(edges);
    Collect(xs, e => Nested(e, "node", field, NA))
  }

  /** The values of `xs` that are truthy, in order. */
  function KeepTruthy(xs: seq<Json>): (r: seq<Json>)
    ensures |r| <= |xs|
    ensures forall x :: x in r ==> x in xs && Truthy(x)
    ensures forall x :: x in xs && Truthy(x) ==> x in r
  {
    if xs == [] then []
    else (if Truthy(xs[0]) then [xs[0]] else []) + KeepTruthy(xs[1..])
  }

  lemma {:induction false} KeepTruthyAppend(a: seq<Json>, b: seq<Json>)
    ensures KeepTruthy(a + b) == KeepTruthy(a) + KeepTruthy(b)
  {
    if a == [] {
      assert a + b == b;
    } else {
      assert (a + b)[1..] == a[1..] + b;
      KeepTruthyAppend(a[1..], b);
    }
  }

  /** `link.get("url")` */
  function UrlOf(link: Json): Result<Json>
  {
    Get(link, "url", Null)
  }

  /**
   * `[link.get("url") for link in user_info.get("bio_links", []) if link.get("url")]`:
   * for a list of dicts, the truthy `url` values in order; the first link that
   * is not a dict raises.
   */
  function BioLinks(u: Json): (r: Result<seq<Json>>)
    ensures r.Ok? ==> forall x :: x in r.value ==> Truthy(x)
    ensures !u.Obj? ==> r == Err(NoAttribute(TypeName(u), "get"))
    ensures u.Obj? && Field(u, "bio_links", EmptyArr).Arr? ==>
      var links := Field(u, "bio_links", EmptyArr).items;
      && ((forall i :: 0 <= i < |links| ==> links[i].Obj?) ==>
            r == Ok(KeepTruthy(seq(|links|, i requires 0 <= i < |links| && links[i].Obj? => Field(links[i], "url", Null)))))
      && (forall k :: 0 <= k < |links| && !links[k].Obj? && (forall j :: 0 <= j < k ==> links[j].Obj?) ==>
            r == Err(NoAttribute(TypeName(links[k]), "get")))
    ensures u.Obj? && (Field(u, "bio_links", EmptyArr).Null? || Field(u, "bio_links", EmptyArr).Bool? || Field(u, "bio_links", EmptyArr).Int?) ==>
      r == Err(NotIterable(TypeName(Field(u, "bio_links", EmptyArr))))
  {
    var links :- Get(u, "bio_links", EmptyArr);
    var xs :- Iterate(links);
    UrlsCollected(xs);
    var urls :- Collect(xs, UrlOf);
    Ok(KeepTruthy(urls))
  }

  /** The `url` lookups over a list of links: the values for dicts, or the first non-dict's exception. */
  lemma UrlsCollected(links: seq<Json>)
    ensures (forall i :: 0 <= i < |links| ==> links[i].Obj?) ==>
      Collect(links, UrlOf) == Ok(seq(|links|, i requires 0 <= i < |links| && links[i].Obj? => Field(links[i], "url", Null)))
    ensures forall k :: 0 <= k < |links| && !links[k].Obj? && (forall j :: 0 <= j < k ==> links[j].Obj?) ==>
      Collect(links, UrlOf) == Err(NoAttribute(TypeName(links[k]), "get"))
  {
    if forall i :: 0 <= i < |links| ==> links[i].Obj? {
      CollectAll(links, UrlOf, seq(|links|, i requires 0 <= i < |links| && links[i].Obj? => Field(links[i], "url", Null)));
    }
    forall k | 0 <= k < |links| && !links[k].Obj? && (forall j :: 0 <= j < k ==> links[j].Obj?)
      ensures Collect(links, UrlOf) == Err(NoAttribute(TypeName(links[k]), "get"))
    {
      CollectStops(links, UrlOf, k);
    }
  }

  // ---- the records ----

  /** The "user" dictionary of lines 63-85, key by key in order. */
  function UserOf(u: Json): (r: Result<UserRecord>)
    ensures !u.Obj? ==> r == Err(NoAttribute(TypeName(u), "get"))
    ensures r.Ok? ==> u.Obj?
    ensures r.Ok? ==> r.value.savedCount == r.value.collectionsCount
    ensures r.Ok? ==>
      && r.value.username == Field(u, "username", NA)
      && r.value.fullName == Field(u, "full_name", NA)
      && r.value.id == Field(u, "id", NA)
      && r.value.category == Field(u, "category_name", NA)
      && r.value.businessCategory == Field(u, "business_category_name", NA)
      && r.value.phone == Field(u, "business_phone_number", NA)
      && r.value.email == Field(u, "business_email", NA)
      && r.value.biography == Field(u, "biography", NA)
      && r.value.homepage == Field(u, "external_url", NA)
      && r.value.facebookId == Field(u, "fbid", NA)
      && r.value.isPrivate == Field(u, "is_private", NA)
      && r.value.isVerified == Field(u, "is_verified", NA)
      && r.value.profileImage == Field(u, "profile_pic_url_hd", NA)
    ensures r.Ok? ==>
      && Nested(u, "edge_followed_by", "count", Int(0)).Ok?
      && FormatComma(Nested(u, "edge_followed_by", "count", Int(0)).value) == Ok(r.value.followers)
      && Nested(u, "edge_follow", "count", Int(0)).Ok?
      && FormatComma(Nested(u, "edge_follow", "count", Int(0)).value) == Ok(r.value.following)
      && Nested(u, "edge_felix_video_timeline", "count", Int(0)) == Ok(r.value.videoCount)
      && Nested(u, "edge_owner_to_timeline_media", "count", Int(0)) == Ok(r.value.imageCount)
      && Nested(u, "edge_saved_media", "count", Int(0)) == Ok(r.value.savedCount)
      && BioLinks(u) == Ok(r.value.bioLinks)
      && EdgeNames(u, "edge_related_profiles", "username") == Ok(r.value.relatedProfiles)
    ensures
      && u.Obj? && BioLinks(u).Ok?
      && Nested(u, "edge_followed_by", "count", Int(0)).Ok?
      && FormatComma(Nested(u, "edge_followed_by", "count", Int(0)).value).Ok?
      && Nested(u, "edge_follow", "count", Int(0)).Ok?
      && FormatComma(Nested(u, "edge_follow", "count", Int(0)).value).Ok?
      && Nested(u, "edge_felix_video_timeline", "count", Int(0)).Ok?
      && Nested(u, "edge_owner_to_timeline_media", "count", Int(0)).Ok?
      && Nested(u, "edge_saved_media", "count", Int(0)).Ok?
      && EdgeNames(u, "edge_related_profiles", "username").Ok?
      ==> r.Ok?
  {
    if !u.Obj? then Err(NoAttribute(TypeName(u), "get"))
    else
      var bioLinks :- BioLinks(u);
      var followedBy :- Nested(u, "edge_followed_by", "count", Int(0));
      var followers :- FormatComma(followedBy);
      var follows :- Nested(u, "edge_follow", "count", Int(0));
      var following :- FormatComma(follows);
      var videoCount :- Nested(u, "edge_felix_video_timeline", "count", Int(0));
      var imageCount :- Nested(u, "edge_owner_to_timeline_media", "count", Int(0));
      var savedCount :- Nested(u, "edge_saved_media", "count", Int(0));
      // the same lookup evaluated a second time, for "Collections Count"
      match Nested(u, "edge_saved_media", "count", Int(0))
      case Err(f) => Err(f)
      case Ok(collectionsCount) =>
        var relatedProfiles :- EdgeNames(u, "edge_related_profiles", "username");
        Ok(UserRecord(
          Field(u, "username", NA), Field(u, "full_name", NA), Field(u, "id", NA),
          Field(u, "category_name", NA), Field(u, "business_category_name", NA),
          Field(u, "business_phone_number", NA), Field(u, "business_email", NA),
          Field(u, "biography", NA), bioLinks, Field(u, "external_url", NA),
          followers, following, Field(u, "fbid", NA), Field(u, "is_private", NA),
          Field(u, "is_verified", NA), Field(u, "profile_pic_url_hd", NA),
          videoCount, imageCount, savedCount, collectionsCount, relatedProfiles))
  }

  /** A video dictionary of lines 91-107, built from one timeline edge. */
  function VideoOf(video: Json): (r: Result<Media>)
    ensures !video.Obj? ==> r == Err(NoAttribute(TypeName(video), "get"))
    ensures video.Obj? && !Field(video, "node", EmptyObj).Obj? ==>
      r == Err(NoAttribute(TypeName(Field(video, "node", EmptyObj)), "get"))
    ensures video.Obj? && Field(video, "node", EmptyObj).Obj? ==>
      var node := Field(video, "node", EmptyObj);
      (&& EdgeNames(node, "edge_media_to_tagged_user", "username").Ok?
       && EdgeNames(node, "edge_media_to_caption", "text").Ok?
       && Nested(node, "edge_media_to_comment", "count", Int(0)).Ok?
       && Nested(node, "edge_liked_by", "count", Int(0)).Ok?
       && Nested(node, "location", "name", NA).Ok?
       ==> r.Ok?)
    ensures r.Ok? ==> r.value.Video? && video.Obj? && Field(video, "node", EmptyObj).Obj?
    ensures r.Ok? ==>
      var node := Field(video, "node", EmptyObj);
      && r.value.id == Field(node, "id", NA)
      && r.value.title == Field(node, "title", NA)
      && r.value.shortcode == Field(node, "shortcode", NA)
      && r.value.thumbnail == Field(node, "display_url", NA)
      && r.value.url == Field(node, "video_url", NA)
      && r.value.views == Field(node, "video_view_count", Int(0))
      && r.value.commentsDisabled == Field(node, "comments_disabled", Bool(false))
      && r.value.takenAt == Field(node, "taken_at_timestamp", NA)
      && r.value.duration == Field(node, "video_duration", NA)
    ensures r.Ok? ==>
      var node := Field(video, "node", EmptyObj);
      && EdgeNames(node, "edge_media_to_tagged_user", "username") == Ok(r.value.tagged)
      && EdgeNames(node, "edge_media_to_caption", "text") == Ok(r.value.captions)
      && Nested(node, "edge_media_to_comment", "count", Int(0)) == Ok(r.value.commentsCount)
      && Nested(node, "edge_liked_by", "count", Int(0)) == Ok(r.value.likes)
      && Nested(node, "location", "name", NA) == Ok(r.value.location)
  {
    var node :- Get(video, "node", EmptyObj);
    if !node.Obj? then Err(NoAttribute(TypeName(node), "get"))
    else
      var tagged :- EdgeNames(node, "edge_media_to_tagged_user", "username");
      var captions :- EdgeNames(node, "edge_media_to_caption", "text");
      var commentsCount :- Nested(node, "edge_media_to_comment", "count", Int(0));
      var likes :- Nested(node, "edge_liked_by", "count", Int(0));
      var location :- Nested(node, "location", "name", NA);
      Ok(Video(Field(node, "id", NA), Field(node, "title", NA), Field(node, "shortcode", NA),
               Field(node, "display_url", NA), Field(node, "video_url", NA),
               Field(node, "video_view_count", Int(0)), tagged, captions, commentsCount,
               Field(node, "comments_disabled", Bool(false)), Field(node, "taken_at_timestamp", NA),
               likes, location, Field(node, "video_duration", NA)))
  }

  /** An image dictionary of lines 113-129, built from one timeline edge. */
  function ImageOf(image: Json): (r: Result<Media>)
    ensures !image.Obj? ==> r == Err(NoAttribute(TypeName(image), "get"))
    ensures image.Obj? && !Field(image, "node", EmptyObj).Obj? ==>
      r == Err(NoAttribute(TypeName(Field(image, "node", EmptyObj)), "get"))
    ensures image.Obj? && Field(image, "node", EmptyObj).Obj? ==>
      var node := Field(image, "node", EmptyObj);
      (&& EdgeNames(node, "edge_media_to_tagged_user", "username").Ok?
       && EdgeNames(node, "edge_media_to_caption", "text").Ok?
       && Nested(node, "edge_media_to_comment", "count", Int(0)).Ok?
       && Nested(node, "edge_liked_by", "count", Int(0)).Ok?
       && Nested(node, "location", "name", NA).Ok?
       ==> r.Ok?)
    ensures r.Ok? ==> r.value.Image? && image.Obj? && Field(image, "node", EmptyObj).Obj?
    ensures r.Ok? ==>
      var node := Field(image, "node", EmptyObj);
      && r.value.id == Field(node, "id", NA)
      && r.value.title == Field(node, "title", NA)
      && r.value.shortcode == Field(node, "shortcode", NA)
      && r.value.source == Field(node, "display_url", NA)
      && r.value.views == Field(node, "video_view_count", Int(0))
      && r.value.commentsDisabled == Field(node, "comments_disabled", Bool(false))
      && r.value.takenAt == Field(node, "taken_at_timestamp", NA)
      && r.value.accessibilityCaption == Field(node, "accessibility_caption", NA)
      && r.value.duration == Field(node, "video_duration", NA)
    ensures r.Ok? ==>
      var node := Field(image, "node", EmptyObj);
      && EdgeNames(node, "edge_media_to_tagged_user", "username") == Ok(r.value.tagged)
      && EdgeNames(node, "edge_media_to_caption", "text") == Ok(r.value.captions)
      && Nested(node, "edge_media_to_comment", "count", Int(0)) == Ok(r.value.commentsCount)
      && Nested(node, "edge_liked_by", "count", Int(0)) == Ok(r.value.likes)
      && Nested(node, "location", "name", NA) == Ok(r.value.location)
  {
    var node :- Get(image, "node", EmptyObj);
    if !node.Obj? then Err(NoAttribute(TypeName(node), "get"))
    else
      var tagged :- EdgeNames(node, "edge_media_to_tagged_user", "username");
      var captions :- EdgeNames(node, "edge_media_to_caption", "text");
      var commentsCount :- Nested(node, "edge_media_to_comment", "count", Int(0));
      var likes :- Nested(node, "edge_liked_by", "count", Int(0));
      var location :- Nested(node, "location", "name", NA);
      Ok(Image(Field(node, "id", NA), Field(node, "title", NA), Field(node, "shortcode", NA),
               Field(node, "display_url", NA), Field(node, "video_view_count", Int(0)),
               tagged, captions, commentsCount, Field(node, "comments_disabled", Bool(false)),
               Field(node, "taken_at_timestamp", NA), likes, location,
               Field(node, "accessibility_caption", NA), Field(node, "video_duration", NA)))
  }

  /** `user_info.get(timeline, {}).get("edges", [])[:5]`, as the `for` loop visits it. */
  function FirstEdges(u: Json, timeline: string): (r: Result<seq<Json>>)
    ensures r.Ok? ==> |r.value| <= 5
    ensures Nested(u, timeline, "edges", EmptyArr).Ok? && Nested(u, timeline, "edges", EmptyArr).value.Arr? ==>
      var edges := Nested(u, timeline, "edges", EmptyArr).value.items;
      r == Ok(edges[..Min(5, |edges|)])
  {
    var edges :- Nested(u, timeline, "edges", EmptyArr);
    var firstFive :- SliceTo(edges, 5);
    Iterate(firstFive)
  }

  // ---- the whole call ----

  /** The body of the `try` once the document is decoded: `Err` is an exception for the `except`. */
  function Extract(doc: Json): (r: Result<Scraped>)
    ensures r.Ok? ==> |r.value.videos| <= 5 && |r.value.images| <= 5
    ensures r.Ok? && r.value.info.Reported? ==> r.value == Failed(NotFoundText)
    ensures !doc.Obj? ==> r == Err(NoAttribute(TypeName(doc), "get"))
    ensures doc.Obj? && !Field(doc, "data", EmptyObj).Obj? ==>
      r == Err(NoAttribute(TypeName(Field(doc, "data", EmptyObj)), "get"))
    ensures doc.Obj? && Field(doc, "data", EmptyObj).Obj? ==>
      var u := Field(Field(doc, "data", EmptyObj), "user", EmptyObj);
      && (!Truthy(u) ==> r == Ok(Failed(NotFoundText)))
      && (Truthy(u) ==> r == FromUser(u))
  {
    var data :- Get(doc, "data", EmptyObj);
    var u :- Get(data, "user", EmptyObj);
    if !Truthy(u) then Ok(Failed(NotFoundText))
    else
      FromUser(u)
  }

  /** The user record, then the videos, then the images of a found user object. */
  function FromUser(u: Json): (r: Result<Scraped>)
    ensures r.Ok? ==> |r.value.videos| <= 5 && |r.value.images| <= 5
    ensures r.Ok? ==>
      && UserOf(u).Ok? && r.value.info == Found(UserOf(u).value)
      && FirstEdges(u, "edge_felix_video_timeline").Ok?
      && Collect(FirstEdges(u, "edge_felix_video_timeline").value, VideoOf) == Ok(r.value.videos)
      && FirstEdges(u, "edge_owner_to_timeline_media").Ok?
      && Collect(FirstEdges(u, "edge_owner_to_timeline_media").value, ImageOf) == Ok(r.value.images)
    ensures
      && UserOf(u).Ok?
      && FirstEdges(u, "edge_felix_video_timeline").Ok?
      && Collect(FirstEdges(u, "edge_felix_video_timeline").value, VideoOf).Ok?
      && FirstEdges(u, "edge_owner_to_timeline_media").Ok?
      && Collect(FirstEdges(u, "edge_owner_to_timeline_media").value, ImageOf).Ok?
      ==> r.Ok?
  {
    var user :- UserOf(u);
    var videos :- FirstEdges(u, "edge_felix_video_timeline");
    var videoInfo :- Collect(videos, VideoOf);
    var images :- FirstEdges(u, "edge_owner_to_timeline_media");
    var imageInfo :- Collect(images, ImageOf);
    Ok(Scraped(Found(user), videoInfo, imageInfo))
  }

  /** `scrape_user` given the response its request received. */
  function Scrape(resp: Response): (s: Scraped)
    ensures s.info.Reported? ==> s.videos == [] && s.images == []
    ensures |s.videos| <= 5 && |s.images| <= 5
  {
    match resp
    case NoAnswer(reason) => Failed(Caught(Raised(reason)))
    case Answered(status, body) =>
      if status != 200 then Failed(StatusText(status))
      else
        match Load(resp)
        case Err(f) => if f.DecodeFailed? then Failed(DecodeText) else Failed(Caught(f))
        case Ok(doc) =>
          match Extract(doc)
          case Ok(s) => s
          case Err(f) => Failed(Caught(f))
  }

  /**
   * A `for` loop that builds one record per edge and appends it to a list; an
   * exception from a body leaves the loop (and the `try`).
   */
  method AppendEach(edges: seq<Json>, build: Json -> Result<Media>) returns (r: Result<seq<Media>>)
    ensures r == Collect(edges, build)
  {
    var built := [];
    for i := 0 to |edges|
      invariant |built| == i
      invariant forall j :: 0 <= j < i ==> build(edges[j]) == Ok(built[j])
    {
      var record := build(edges[i]);
      if record.Err? {
        CollectStops(edges, build, i);
        return Err(record.fault);
      }
      built := built + [record.value];
    }
    CollectAll(edges, build, built);
    return Ok(built);
  }

  /** The same call written as the source runs it: early returns, then two `for` loops that append. */
  method ScrapeUser(resp: Response) returns (info: Info, videoInfo: seq<Media>, imageInfo: seq<Media>)
    ensures Scraped(info, videoInfo, imageInfo) == Scrape(resp)
  {
    if resp.NoAnswer? {
      return Reported(Caught(Raised(resp.reason))), [], [];
    }
    if resp.status != 200 {
      return Reported(StatusText(resp.status)), [], [];
    }
    var loaded := Load(resp);
    if loaded.Err? {
      if loaded.fault.DecodeFailed? {
        return Reported(DecodeText), [], [];
      }
      return Reported(Caught(loaded.fault)), [], [];
    }
    var doc := loaded.value;
    var data := Get(doc, "data", EmptyObj);
    if data.Err? {
      return Reported(Caught(data.fault)), [], [];
    }
    var u := Get(data.value, "user", EmptyObj);
    if u.Err? {
      return Reported(Caught(u.fault)), [], [];
    }
    if !Truthy(u.value) {
      return Reported(NotFoundText), [], [];
    }
    var user := UserOf(u.value);
    if user.Err? {
      return Reported(Caught(user.fault)), [], [];
    }
    var videos := FirstEdges(u.value, "edge_felix_video_timeline");
    if videos.Err? {
      return Reported(Caught(videos.fault)), [], [];
    }
    var builtVideos := AppendEach(videos.value, VideoOf);
    if builtVideos.Err? {
      return Reported(Caught(builtVideos.fault)), [], [];
    }
    var images := FirstEdges(u.value, "edge_owner_to_timeline_media");
    if images.Err? {
      return Reported(Caught(images.fault)), [], [];
    }
    var builtImages := AppendEach(images.value, ImageOf);
    if builtImages.Err? {
      return Reported(Caught(builtImages.fault)), [], [];
    }
    videoInfo, imageInfo := builtVideos.value, builtImages.value;
    info := Found(user.value);
  }
}
