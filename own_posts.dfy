/** The own-post splitter (`get_own_posts`): every post counts as a post, and
    each post is also filed as a media post, a link post or a text-only post by
    looking for marker substrings in the text of its values. */
module OwnPosts {
  import opened Json
  import opened Collect

  const AllKey: string := "own_posts_all"
  const MediaKey: string := "own_posts_media"
  const TextOnlyKey: string := "own_posts_text_only"
  const LinksKey: string := "own_posts_links"

  const MediaMarker: string := "media"
  const LinkMarker: string := "external_context"

  /** A post as the splitter sees it: its timestamp and the text of
      `str(item.values())`. */
  datatype Post = Post(seconds: int, text: string)

  /** The three filters, each written as the source writes its condition. */
  predicate InMedia(p: Post) {
    Contains(p.text, MediaMarker)
  }

  predicate InTextOnly(p: Post) {
    !Contains(p.text, LinkMarker) && !Contains(p.text, MediaMarker)
  }

  predicate InLinks(p: Post) {
    Contains(p.text, LinkMarker) && !Contains(p.text, MediaMarker)
  }

  datatype PostKind = Media | Link | TextOnly

  /** The classification the three filters implement: the media marker wins
      whatever else the post holds, then the link marker, and a post with
      neither is text only. */
  function Kind(p: Post): (k: PostKind)
    ensures k == Media <==> InMedia(p)
    ensures k == Link <==> InLinks(p)
    ensures k == TextOnly <==> InTextOnly(p)
  {
    if Contains(p.text, MediaMarker) then Media
    else if Contains(p.text, LinkMarker) then Link
    else TextOnly
  }

  /** `[datetime.fromtimestamp(item["timestamp"]) for item in json_file]`,
      keeping each item's rendered values for the filters. */
  function DecodePosts(items: seq<Json>, render: Json -> string): (r: Result<seq<Post>>)
    ensures r.Ok? ==> |r.value| == |items|
    ensures r.Ok? ==> forall i :: 0 <= i < |items| ==>
              Key(items[i], "timestamp").Ok? &&
              Seconds(Key(items[i], "timestamp").value) == Ok(r.value[i].seconds) &&
              r.value[i].text == render(items[i])
    ensures r.Err? ==> exists i :: 0 <= i < |items| && Undatable(items[i])
    decreases |items|
  {
    if items == [] then Ok([])
    else
      match Key(items[0], "timestamp")
      case Err(e) => Err(e)
      case Ok(v) =>
        match Seconds(v)
        case Err(e) => Err(e)
        case Ok(t) =>
          match DecodePosts(items[1..], render)
          case Err(e) =>
            assert forall i :: 1 <= i < |items| ==> items[i] == items[1..][i - 1];
            Err(e)
          case Ok(rest) =>
            assert forall i :: 1 <= i < |items| ==> items[i] == items[1..][i - 1];
            Ok([Post(t, render(items[0]))] + rest)
  }

  function AllDates(posts: seq<Post>, toDate: int -> Date): seq<Date>
    decreases |posts|
  {
    if posts == [] then [] else [toDate(posts[0].seconds)] + AllDates(posts[1..], toDate)
  }

  function MediaDates(posts: seq<Post>, toDate: int -> Date): seq<Date>
    decreases |posts|
  {
    if posts == [] then []
    else (if InMedia(posts[0]) then [toDate(posts[0].seconds)] else []) + MediaDates(posts[1..], toDate)
  }

  function TextOnlyDates(posts: seq<Post>, toDate: int -> Date): seq<Date>
    decreases |posts|
  {
    if posts == [] then []
    else (if InTextOnly(posts[0]) then [toDate(posts[0].seconds)] else []) + TextOnlyDates(posts[1..], toDate)
  }

  function LinkDates(posts: seq<Post>, toDate: int -> Date): seq<Date>
    decreases |posts|
  {
    if posts == [] then []
    else (if InLinks(posts[0]) then [toDate(posts[0].seconds)] else []) + LinkDates(posts[1..], toDate)
  }

  /** `get_own_posts`: None for a missing or empty file; otherwise the four
      lists, `own_posts_all` holding one date per post in file order. */
  function GetOwnPosts(file: Json, render: Json -> string, toDate: int -> Date): (r: Result<Option<map<string, seq<Date>>>>)
    ensures r == Ok(None) <==> Falsy(file)
    ensures r.Err? <==> !Falsy(file) && (Items(file).Err? || DecodePosts(Items(file).value, render).Err?)
    ensures r.Err? ==> r.error == (if Items(file).Err? then Items(file).error
                                   else DecodePosts(Items(file).value, render).error)
    ensures r.Ok? && r.value.Some? ==>
              Items(file).Ok? && DecodePosts(Items(file).value, render).Ok? &&
              r.value.value == Split(DecodePosts(Items(file).value, render).value, toDate)
    ensures r.Ok? && r.value.Some? ==>
              Items(file).Ok? && |r.value.value[AllKey]| == |Items(file).value| &&
              forall i :: 0 <= i < |Items(file).value| ==>
                Key(Items(file).value[i], "timestamp").Ok? &&
                Seconds(Key(Items(file).value[i], "timestamp").value).Ok? &&
                r.value.value[AllKey][i] == toDate(Seconds(Key(Items(file).value[i], "timestamp").value).value)
  {
    if Falsy(file) then Ok(None)
    else
      match Items(file)
      case Err(e) => Err(e)
      case Ok(items) =>
        match DecodePosts(items, render)
        case Err(e) => Err(e)
        case Ok(posts) =>
          AllDatesAt(posts, toDate);
          Ok(Some(Split(posts, toDate)))
  }

  /** The four lists of the result dict. */
  function Split(posts: seq<Post>, toDate: int -> Date): (m: map<string, seq<Date>>)
    ensures m.Keys == {AllKey, MediaKey, TextOnlyKey, LinksKey}
    ensures m[AllKey] == AllDates(posts, toDate) && m[MediaKey] == MediaDates(posts, toDate)
    ensures m[TextOnlyKey] == TextOnlyDates(posts, toDate) && m[LinksKey] == LinkDates(posts, toDate)
  {
    map[AllKey := AllDates(posts, toDate),
        MediaKey := MediaDates(posts, toDate),
        TextOnlyKey := TextOnlyDates(posts, toDate),
        LinksKey := LinkDates(posts, toDate)]
  }

  /** `own_posts_all` holds exactly one date per post, in order. */
  lemma {:induction false} AllDatesAt(posts: seq<Post>, toDate: int -> Date)
    ensures |AllDates(posts, toDate)| == |posts|
    ensures forall i :: 0 <= i < |posts| ==> AllDates(posts, toDate)[i] == toDate(posts[i].seconds)
    decreases |posts|
  {
    if posts != [] {
      AllDatesAt(posts[1..], toDate);
    }
  }

  /** The media, text-only and link lists partition the posts: together they
      hold every date of `own_posts_all` exactly as often, so their lengths add
      up to the number of posts. */
  lemma {:induction false} SplitIsPartition(posts: seq<Post>, toDate: int -> Date)
    ensures multiset(MediaDates(posts, toDate)) + multiset(TextOnlyDates(posts, toDate)) +
            multiset(LinkDates(posts, toDate)) == multiset(AllDates(posts, toDate))
    ensures |MediaDates(posts, toDate)| + |TextOnlyDates(posts, toDate)| + |LinkDates(posts, toDate)| == |posts|
    decreases |posts|
  {
    if posts != [] {
      SplitIsPartition(posts[1..], toDate);
      AllDatesAt(posts, toDate);
      var k := Kind(posts[0]);
      var d := toDate(posts[0].seconds);
      assert AllDates(posts, toDate) == [d] + AllDates(posts[1..], toDate);
      assert multiset(AllDates(posts, toDate)) == multiset{d} + multiset(AllDates(posts[1..], toDate));
    }
  }

  /** The splitter's result on a file: the three sub-lists partition
      `own_posts_all`. */
  lemma OwnPostsPartition(file: Json, render: Json -> string, toDate: int -> Date)
    requires GetOwnPosts(file, render, toDate).Ok? && GetOwnPosts(file, render, toDate).value.Some?
    ensures var m := GetOwnPosts(file, render, toDate).value.value;
            multiset(m[MediaKey]) + multiset(m[TextOnlyKey]) + multiset(m[LinksKey]) == multiset(m[AllKey]) &&
            |m[MediaKey]| + |m[TextOnlyKey]| + |m[LinksKey]| == |m[AllKey]|
  {
    var posts := DecodePosts(Items(file).value, render).value;
    SplitIsPartition(posts, toDate);
    AllDatesAt(posts, toDate);
    assert GetOwnPosts(file, render, toDate).value.value == Split(posts, toDate);
  }
}
