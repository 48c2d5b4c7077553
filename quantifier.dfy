/** The quantifier itself: its constructor runs every extractor on the
    archive, one data attribute per activity, and the attributes in the order
    they are assigned are what the counting table is built from. */
module FacebookQuantifier {
  import opened Json
  import Timestamps
  import OwnPosts
  import Messages
  import Views
  import Frame

  /** An archive after loading: the parsed JSON of each file the constructor
      names (a file that does not exist is absent here and loads as `JNull`),
      and the message files in the order the folder walk yields them. */
  datatype Archive = Archive(files: map<string, Json>, messageFiles: seq<Json>)

  /** `load_file`: the parsed file, or None when there is no such file. */
  function Load(archive: Archive, name: string): (j: Json)
    ensures name !in archive.files ==> j == JNull
  {
    if name in archive.files then archive.files[name] else JNull
  }

  /** One attribute filled by `get_timestamps`: its name, the file it reads
      and the field that holds the timestamps. */
  datatype Source = Source(attribute: string, file: string, field: string)

  /** The attributes filled by `get_timestamps`, in the order the constructor
      assigns them. */
  const Sources: seq<Source> := [
    Source("added_friend", "file_friend_added", Timestamps.DefaultField),
    Source("received_friend_request", "file_received_friend_request", Timestamps.DefaultField),
    Source("rejected_friend_reject", "file_rejected_friend_reject", Timestamps.DefaultField),
    Source("removed_friend", "file_friend_removed", Timestamps.DefaultField),
    Source("installed_app", "file_app_installs", "added_timestamp"),
    Source("apps_posts", "file_posts_apps", Timestamps.DefaultField),
    Source("commented", "file_comments", Timestamps.DefaultField),
    Source("reactions", "file_reactions", Timestamps.DefaultField),
    Source("liked_page", "file_liked_pages", Timestamps.DefaultField),
    Source("created_page", "file_created_page", Timestamps.DefaultField),
    Source("liked_external_pages", "file_liked_external", Timestamps.DefaultField),
    Source("others_posts_timeline", "file_others_posts", Timestamps.DefaultField),
    Source("created_note", "file_notes", "created_timestamp"),
    Source("responded_event", "file_eventresponse", "start_timestamp"),
    Source("event_invitation", "file_event_invites", "start_timestamp"),
    Source("group_membership_activity", "file_group_membership", Timestamps.DefaultField),
    Source("group_posts", "file_group_posts", Timestamps.DefaultField),
    Source("profile_updated", "file_profile_update", Timestamps.DefaultField),
    Source("searched", "file_searches", Timestamps.DefaultField),
    Source("ad_interaction", "file_ad_interaction", Timestamps.DefaultField),
    Source("poked", "file_poke", Timestamps.DefaultField),
    Source("voted", "file_polls", Timestamps.DefaultField),
    Source("saved_item", "file_saved_items", Timestamps.DefaultField),
    Source("followed_sb_st", "file_following", Timestamps.DefaultField),
    Source("addressbook_entry", "file_addressbook", "created_timestamp")
  ]

  /** The four attributes filled by the dedicated extractors, assigned after
      the others. */
  const OwnPostsName: string := "own_posts"
  const MessagesName: string := "messages"
  const ViewedName: string := "viewed"
  const VisitedName: string := "visited"

  /** The data attributes of a quantifier (every attribute but `folder` and
      `user`), in the order they are assigned, `sources` being the
      `get_timestamps` ones. */
  function AttributeNames(sources: seq<Source>): (names: seq<string>)
    ensures |names| == |sources| + 4
    ensures forall i :: 0 <= i < |sources| ==> names[i] == sources[i].attribute
  {
    seq(|sources|, i requires 0 <= i < |sources| => sources[i].attribute) +
    [OwnPostsName, MessagesName, ViewedName, VisitedName]
  }

  /** A quantifier after construction: the normalised user name and each data
      attribute with its value. */
  datatype Quantifier = Quantifier(user: string, activities: seq<(string, Frame.Activity)>)

  /** An attribute holding `Optional[List[date]]`. */
  function ListActivity(v: Option<seq<Date>>): Frame.Activity {
    match v
    case None => Frame.Absent
    case Some(ds) => Frame.Dates(ds)
  }

  /** An attribute holding `Optional[Dict[str, List[date]]]`. */
  function DictActivity(v: Option<map<string, seq<Date>>>): Frame.Activity {
    match v
    case None => Frame.Absent
    case Some(m) => Frame.Columns(m)
  }

  /** The `get_timestamps` attributes of `sources`, assigned in order; the
      first call that raises makes the constructor raise. */
  function Stamped(archive: Archive, sources: seq<Source>, toDate: int -> Date): (r: Result<seq<(string, Frame.Activity)>>)
    ensures r.Ok? ==> |r.value| == |sources|
    decreases |sources|
  {
    if sources == [] then Ok([])
    else
      var s := sources[|sources| - 1];
      match Stamped(archive, sources[..|sources| - 1], toDate)
      case Err(e) => Err(e)
      case Ok(prev) =>
        match Timestamps.GetTimestamps(Load(archive, s.file), s.field, toDate)
        case Err(e) => Err(e)
        case Ok(v) => Ok(prev + [(s.attribute, ListActivity(v))])
  }

  /** What the constructor builds, or the first error an extractor raises,
      `sources` being the table of `get_timestamps` attributes (`Sources` in
      the constructor). */
  function Quantify(user: string, archive: Archive, sources: seq<Source>, toDate: int -> Date, render: Json -> string): (r: Result<Quantifier>)
    ensures r.Ok? ==> r.value.user == Messages.Normalize(user) && |r.value.activities| == |sources| + 4
  {
    var name := Messages.Normalize(user);
    match Stamped(archive, sources, toDate)
    case Err(e) => Err(e)
    case Ok(stamps) =>
      match OwnPosts.GetOwnPosts(Load(archive, "file_own_posts"), render, toDate)
      case Err(e) => Err(e)
      case Ok(posts) =>
        match Messages.Expected(name, archive.messageFiles, toDate)
        case Err(e) => Err(e)
        case Ok(messages) =>
          match Views.ViewedExpected(Load(archive, "file_viewed"), toDate)
          case Err(e) => Err(e)
          case Ok(viewed) =>
            match Views.VisitedExpected(Load(archive, "file_visited"), toDate)
            case Err(e) => Err(e)
            case Ok(visited) => Ok(Quantifier(name, Assembled(stamps, posts, messages, viewed, visited)))
  }

  /** The data attributes in assignment order: the `get_timestamps` ones, then
      the four filled by the dedicated extractors. */
  function Assembled(stamps: seq<(string, Frame.Activity)>, posts: Option<map<string, seq<Date>>>,
                     messages: Option<map<string, seq<Date>>>, viewed: Option<map<string, seq<Date>>>,
                     visited: Option<map<string, seq<Date>>>): (acts: seq<(string, Frame.Activity)>)
    ensures |acts| == |stamps| + 4 && acts[..|stamps|] == stamps
    ensures acts[|stamps|].0 == OwnPostsName && acts[|stamps| + 1].0 == MessagesName
    ensures acts[|stamps| + 2].0 == ViewedName && acts[|stamps| + 3].0 == VisitedName
  {
    stamps + [(OwnPostsName, DictActivity(posts)),
              (MessagesName, DictActivity(messages)),
              (ViewedName, DictActivity(viewed)),
              (VisitedName, DictActivity(visited))]
  }

  /** The constructor: normalises the user name, fills the `get_timestamps`
      attributes, then runs the four dedicated extractors. */
  method Init(user: string, archive: Archive, toDate: int -> Date, render: Json -> string) returns (r: Result<Quantifier>)
    ensures r == Quantify(user, archive, Sources, toDate, render)
  {
    var name := Messages.Normalize(user);
    var stamps := Stamped(archive, Sources, toDate);
    if stamps.Err? {
      return Err(stamps.error);
    }
    var posts := OwnPosts.GetOwnPosts(Load(archive, "file_own_posts"), render, toDate);
    if posts.Err? {
      return Err(posts.error);
    }
    var messages := Messages.GetMessages(name, archive.messageFiles, toDate);
    if messages.Err? {
      return Err(messages.error);
    }
    var viewed := Views.GetViewed(Load(archive, "file_viewed"), toDate);
    if viewed.Err? {
      return Err(viewed.error);
    }
    var visited := Views.GetVisited(Load(archive, "file_visited"), toDate);
    if visited.Err? {
      return Err(visited.error);
    }
    return Ok(Quantifier(name, Assembled(stamps.value, posts.value, messages.value, viewed.value, visited.value)));
  }

  /** The `get_timestamps` attributes succeed exactly when every call does;
      then attribute `i` is named after source `i` and holds what
      `get_timestamps` returns on that source's file and field. */
  lemma {:induction false} StampedAttributes(archive: Archive, sources: seq<Source>, toDate: int -> Date)
    ensures Stamped(archive, sources, toDate).Ok? <==>
            forall i :: 0 <= i < |sources| ==>
              Timestamps.GetTimestamps(Load(archive, sources[i].file), sources[i].field, toDate).Ok?
    ensures Stamped(archive, sources, toDate).Ok? ==>
              var acts := Stamped(archive, sources, toDate).value;
              |acts| == |sources| &&
              forall i :: 0 <= i < |sources| ==>
                acts[i].0 == sources[i].attribute &&
                acts[i].1 == ListActivity(Timestamps.GetTimestamps(Load(archive, sources[i].file), sources[i].field, toDate).value)
    decreases |sources|
  {
    if sources != [] {
      var n := |sources| - 1;
      var prev := sources[..n];
      StampedAttributes(archive, prev, toDate);
      assert forall i :: 0 <= i < n ==> sources[i] == prev[i];
      StampedStep(archive, sources, prev, toDate);
    }
  }

  /** One more source: the attributes so far, then that source's one. */
  lemma StampedStep(archive: Archive, sources: seq<Source>, prev: seq<Source>, toDate: int -> Date)
    requires sources != [] && prev == sources[..|sources| - 1]
    ensures var s := sources[|sources| - 1];
            var v := Timestamps.GetTimestamps(Load(archive, s.file), s.field, toDate);
            (Stamped(archive, sources, toDate).Ok? <==> Stamped(archive, prev, toDate).Ok? && v.Ok?) &&
            (Stamped(archive, sources, toDate).Ok? ==>
               Stamped(archive, sources, toDate).value == Stamped(archive, prev, toDate).value + [(s.attribute, ListActivity(v.value))])
  {
  }

  /** A constructed quantifier: its user name is normalised and its data
      attributes are named and ordered as the constructor assigns them. */
  lemma QuantifierNames(user: string, archive: Archive, sources: seq<Source>, toDate: int -> Date, render: Json -> string)
    requires Quantify(user, archive, sources, toDate, render).Ok?
    ensures var q := Quantify(user, archive, sources, toDate, render).value;
            q.user == Messages.Normalize(user) && Messages.IsNormal(q.user) &&
            |q.activities| == |AttributeNames(sources)| &&
            forall i :: 0 <= i < |q.activities| ==> q.activities[i].0 == AttributeNames(sources)[i]
  {
    StampedAttributes(archive, sources, toDate);
    var stamps := Stamped(archive, sources, toDate).value;
    var q := Quantify(user, archive, sources, toDate, render).value;
    var tail := q.activities[|sources|..];
    assert q.activities == stamps + tail;
    NamesAppended(stamps, sources, tail);
  }

  /** Attributes named after `sources` followed by the four dedicated ones
      are named as `AttributeNames` lists them. */
  lemma NamesAppended(stamps: seq<(string, Frame.Activity)>, sources: seq<Source>, tail: seq<(string, Frame.Activity)>)
    requires |stamps| == |sources| && forall i :: 0 <= i < |sources| ==> stamps[i].0 == sources[i].attribute
    requires |tail| == 4 && tail[0].0 == OwnPostsName && tail[1].0 == MessagesName
    requires tail[2].0 == ViewedName && tail[3].0 == VisitedName
    ensures |stamps + tail| == |AttributeNames(sources)|
    ensures forall i :: 0 <= i < |stamps + tail| ==> (stamps + tail)[i].0 == AttributeNames(sources)[i]
  {
    var names := AttributeNames(sources);
    assert names[|sources|..] == [OwnPostsName, MessagesName, ViewedName, VisitedName];
  }

  /** The values of a constructed quantifier's data attributes: each
      `get_timestamps` attribute holds what `get_timestamps` returns on its
      file and field, and the last four hold what the dedicated extractors
      return, the message attributor running with the normalised user name. */
  lemma QuantifierValues(user: string, archive: Archive, sources: seq<Source>, toDate: int -> Date, render: Json -> string)
    requires Quantify(user, archive, sources, toDate, render).Ok?
    ensures |Quantify(user, archive, sources, toDate, render).value.activities| == |sources| + 4
    ensures var q := Quantify(user, archive, sources, toDate, render).value;
            forall i :: 0 <= i < |sources| ==>
              Timestamps.GetTimestamps(Load(archive, sources[i].file), sources[i].field, toDate).Ok? &&
              q.activities[i].1 == ListActivity(Timestamps.GetTimestamps(Load(archive, sources[i].file), sources[i].field, toDate).value)
    ensures var q := Quantify(user, archive, sources, toDate, render).value;
            var n := |sources|;
            var posts := OwnPosts.GetOwnPosts(Load(archive, "file_own_posts"), render, toDate);
            var messages := Messages.Expected(Messages.Normalize(user), archive.messageFiles, toDate);
            var viewed := Views.ViewedExpected(Load(archive, "file_viewed"), toDate);
            var visited := Views.VisitedExpected(Load(archive, "file_visited"), toDate);
            posts.Ok? && messages.Ok? && viewed.Ok? && visited.Ok? &&
            q.activities[n].1 == DictActivity(posts.value) &&
            q.activities[n + 1].1 == DictActivity(messages.value) &&
            q.activities[n + 2].1 == DictActivity(viewed.value) &&
            q.activities[n + 3].1 == DictActivity(visited.value)
  {
    StampedAttributes(archive, sources, toDate);
    var stamps := Stamped(archive, sources, toDate).value;
    var q := Quantify(user, archive, sources, toDate, render).value;
    assert q.activities[..|sources|] == stamps;
  }

  /** The `get_timestamps` attributes read only the named files. */
  lemma {:induction false} StampedFilesOnly(archive: Archive, other: Archive, sources: seq<Source>, toDate: int -> Date)
    requires archive.files == other.files
    ensures Stamped(archive, sources, toDate) == Stamped(other, sources, toDate)
    decreases |sources|
  {
    if sources != [] {
      StampedFilesOnly(archive, other, sources[..|sources| - 1], toDate);
    }
  }

  /** The message columns count the same whatever the order of the message
      files. */
  lemma MessageCountsOrderFree(user: string, files: seq<Json>, other: seq<Json>, toDate: int -> Date)
    requires multiset(files) == multiset(other)
    ensures Messages.Expected(user, files, toDate).Ok? <==> Messages.Expected(user, other, toDate).Ok?
    ensures Messages.Expected(user, files, toDate).Ok? ==>
              Frame.Counted(Frame.Contribution(MessagesName, DictActivity(Messages.Expected(user, files, toDate).value))) ==
              Frame.Counted(Frame.Contribution(MessagesName, DictActivity(Messages.Expected(user, other, toDate).value)))
  {
    Messages.MessagesOrderFree(user, files, other, toDate);
    var r := Messages.Expected(user, files, toDate);
    var r' := Messages.Expected(user, other, toDate);
    if r.Ok? && r.value.Some? {
      Frame.CountedPermutation(r.value.value, r'.value.value);
    }
  }

  /** Two assemblies differing only in the message attribute, whose columns
      count the same, contribute the same counts everywhere. */
  lemma AssembledCounts(stamps: seq<(string, Frame.Activity)>, posts: Option<map<string, seq<Date>>>,
                        messages: Option<map<string, seq<Date>>>, messages': Option<map<string, seq<Date>>>,
                        viewed: Option<map<string, seq<Date>>>, visited: Option<map<string, seq<Date>>>)
    requires Frame.Counted(Frame.Contribution(MessagesName, DictActivity(messages))) ==
             Frame.Counted(Frame.Contribution(MessagesName, DictActivity(messages')))
    ensures Frame.SameCounts(Assembled(stamps, posts, messages, viewed, visited),
                             Assembled(stamps, posts, messages', viewed, visited))
  {
    var acts := Assembled(stamps, posts, messages, viewed, visited);
    var acts' := Assembled(stamps, posts, messages', viewed, visited);
    forall i | 0 <= i < |acts| && i != |stamps| + 1
      ensures acts[i] == acts'[i]
    {
      if i < |stamps| {
        assert acts[i] == acts[..|stamps|][i] && acts'[i] == acts'[..|stamps|][i];
      }
    }
  }

  /** The constructor succeeds exactly when every extractor does, and then
      holds their results in assignment order. */
  lemma QuantifyParts(user: string, archive: Archive, sources: seq<Source>, toDate: int -> Date, render: Json -> string)
    ensures var stamps := Stamped(archive, sources, toDate);
            var posts := OwnPosts.GetOwnPosts(Load(archive, "file_own_posts"), render, toDate);
            var messages := Messages.Expected(Messages.Normalize(user), archive.messageFiles, toDate);
            var viewed := Views.ViewedExpected(Load(archive, "file_viewed"), toDate);
            var visited := Views.VisitedExpected(Load(archive, "file_visited"), toDate);
            var q := Quantify(user, archive, sources, toDate, render);
            (q.Ok? <==> stamps.Ok? && posts.Ok? && messages.Ok? && viewed.Ok? && visited.Ok?) &&
            (q.Ok? ==> q.value.activities == Assembled(stamps.value, posts.value, messages.value, viewed.value, visited.value))
  {
  }

  /** The folder walk may yield the message files in any order: the
      constructor raises or not regardless, and the counting table built from
      the quantifier is the same. */
  lemma TableOrderFree(user: string, archive: Archive, other: seq<Json>, sources: seq<Source>, toDate: int -> Date, render: Json -> string)
    requires multiset(archive.messageFiles) == multiset(other)
    ensures var q := Quantify(user, archive, sources, toDate, render);
            var q' := Quantify(user, Archive(archive.files, other), sources, toDate, render);
            (q.Ok? <==> q'.Ok?) &&
            (q.Ok? ==> Frame.Frame(q.value.activities) == Frame.Frame(q'.value.activities))
  {
    var archive' := Archive(archive.files, other);
    var name := Messages.Normalize(user);
    StampedFilesOnly(archive, archive', sources, toDate);
    MessageCountsOrderFree(name, archive.messageFiles, other, toDate);
    QuantifyParts(user, archive, sources, toDate, render);
    QuantifyParts(user, archive', sources, toDate, render);
    assert Load(archive', "file_own_posts") == Load(archive, "file_own_posts");
    assert Load(archive', "file_viewed") == Load(archive, "file_viewed");
    assert Load(archive', "file_visited") == Load(archive, "file_visited");
    var q := Quantify(user, archive, sources, toDate, render);
    if q.Ok? {
      var stamps := Stamped(archive, sources, toDate).value;
      var posts := OwnPosts.GetOwnPosts(Load(archive, "file_own_posts"), render, toDate).value;
      var viewed := Views.ViewedExpected(Load(archive, "file_viewed"), toDate).value;
      var visited := Views.VisitedExpected(Load(archive, "file_visited"), toDate).value;
      var messages := Messages.Expected(name, archive.messageFiles, toDate).value;
      var messages' := Messages.Expected(name, other, toDate).value;
      AssembledCounts(stamps, posts, messages, messages', viewed, visited);
      Frame.FrameCountsOnly(Assembled(stamps, posts, messages, viewed, visited),
                            Assembled(stamps, posts, messages', viewed, visited));
    }
  }

  // ---------------------------------------------------------------------
  // The constructor as written

  /** The `get_timestamps` attributes with `get_timestamps` as written, whose
      tier 2 raises on a file holding a list. */
  function StampedAsWritten(archive: Archive, sources: seq<Source>, toDate: int -> Date): (r: Result<seq<(string, Frame.Activity)>>)
    ensures r.Ok? ==> |r.value| == |sources|
    decreases |sources|
  {
    if sources == [] then Ok([])
    else
      var s := sources[|sources| - 1];
      match StampedAsWritten(archive, sources[..|sources| - 1], toDate)
      case Err(e) => Err(e)
      case Ok(prev) =>
        match Timestamps.GetTimestampsAsWritten(Load(archive, s.file), s.field, toDate)
        case Err(e) => Err(e)
        case Ok(v) => Ok(prev + [(s.attribute, ListActivity(v))])
  }

  /** The constructor as written: `get_timestamps` with its raising tier 2,
      and `get_viewed` and `get_visited` deleting from the dict they iterate. */
  function QuantifyAsWritten(user: string, archive: Archive, sources: seq<Source>, toDate: int -> Date, render: Json -> string): (r: Result<Quantifier>)
    ensures r.Ok? ==> r.value.user == Messages.Normalize(user) && |r.value.activities| == |sources| + 4
  {
    var name := Messages.Normalize(user);
    match StampedAsWritten(archive, sources, toDate)
    case Err(e) => Err(e)
    case Ok(stamps) =>
      match OwnPosts.GetOwnPosts(Load(archive, "file_own_posts"), render, toDate)
      case Err(e) => Err(e)
      case Ok(posts) =>
        match Messages.Expected(name, archive.messageFiles, toDate)
        case Err(e) => Err(e)
        case Ok(messages) =>
          match Views.ViewedAsWritten(Load(archive, "file_viewed"), toDate)
          case Err(e) => Err(e)
          case Ok(viewed) =>
            match Views.VisitedAsWritten(Load(archive, "file_visited"), toDate)
            case Err(e) => Err(e)
            case Ok(visited) => Ok(Quantifier(name, Assembled(stamps, posts, messages, viewed, visited)))
  }

  /** Where every `get_timestamps` call as written raises nothing, the
      intended calls give the same attributes. */
  lemma {:induction false} StampedAsWrittenRefined(archive: Archive, sources: seq<Source>, toDate: int -> Date)
    requires StampedAsWritten(archive, sources, toDate).Ok?
    ensures Stamped(archive, sources, toDate) == StampedAsWritten(archive, sources, toDate)
    decreases |sources|
  {
    if sources != [] {
      var s := sources[|sources| - 1];
      StampedAsWrittenRefined(archive, sources[..|sources| - 1], toDate);
      Timestamps.AsWrittenRefined(Load(archive, s.file), s.field, toDate);
    }
  }

  /** Where the constructor as written raises nothing, the intended one builds
      the same quantifier; so an archive on which the intended constructor
      raises makes the one as written raise too. */
  lemma QuantifyAsWrittenRefined(user: string, archive: Archive, sources: seq<Source>, toDate: int -> Date, render: Json -> string)
    requires QuantifyAsWritten(user, archive, sources, toDate, render).Ok?
    ensures Quantify(user, archive, sources, toDate, render) == QuantifyAsWritten(user, archive, sources, toDate, render)
  {
    StampedAsWrittenRefined(archive, sources, toDate);
  }

  /** Once a `get_timestamps` call as written raises, the constructor's
      attributes raise that error. */
  lemma {:induction false} StampedAsWrittenErrPersists(archive: Archive, sources: seq<Source>, k: nat, toDate: int -> Date)
    requires k <= |sources| && StampedAsWritten(archive, sources[..k], toDate).Err?
    ensures StampedAsWritten(archive, sources, toDate) == StampedAsWritten(archive, sources[..k], toDate)
    decreases |sources|
  {
    if k < |sources| {
      var prev := sources[..|sources| - 1];
      assert prev[..k] == sources[..k];
      StampedAsWrittenErrPersists(archive, prev, k, toDate);
    } else {
      assert sources[..k] == sources;
    }
  }

  /** The archive whose only file is `{"friends": []}`, as the added-friends
      file. */
  const FriendsOnly: Archive := Archive(map["file_friend_added" := JObj([("friends", JArr([]))])], [])

  /** On that archive, the constructor as written raises AttributeError in its
      first `get_timestamps` call. */
  lemma EmptyFriendListConstructorRaises(user: string, toDate: int -> Date, render: Json -> string)
    ensures QuantifyAsWritten(user, FriendsOnly, Sources, toDate, render) == Err(AttributeError)
  {
    Timestamps.EmptyFriendListRaises(toDate);
    assert Load(FriendsOnly, Sources[0].file) == JObj([("friends", JArr([]))]);
    assert Sources[..1][..0] == [];
    assert StampedAsWritten(FriendsOnly, Sources[..1], toDate) == Err(AttributeError);
    StampedAsWrittenErrPersists(FriendsOnly, Sources, 1, toDate);
  }

  /** On the same archive, the intended constructor builds a quantifier. */
  lemma EmptyFriendListConstructed(user: string, toDate: int -> Date, render: Json -> string)
    ensures Quantify(user, FriendsOnly, Sources, toDate, render).Ok?
  {
    StampedAttributes(FriendsOnly, Sources, toDate);
    forall i | 0 <= i < |Sources|
      ensures Timestamps.GetTimestamps(Load(FriendsOnly, Sources[i].file), Sources[i].field, toDate).Ok?
    {
      FriendsOnlyLoads(Sources[i].file, Sources[i].field, toDate);
    }
  }

  /** Every file of that archive, the friends file included, gives
      `get_timestamps` no error, whatever the field. */
  lemma FriendsOnlyLoads(name: string, field: string, toDate: int -> Date)
    ensures Timestamps.GetTimestamps(Load(FriendsOnly, name), field, toDate).Ok?
  {
    if name == "file_friend_added" {
      Timestamps.ShallowWithoutStampsRaises(JObj([("friends", JArr([]))]), field, toDate);
    }
  }
}
