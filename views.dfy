/** The two extractors that read a fixed layout by position (`get_viewed` and
    `get_visited`): each fills a dict of three or four date lists and then
    removes the keys whose list stayed empty. */
module Views {
  import opened Json
  import opened Collect

  const VideoKey: string := "viewed_video"
  const ArticleKey: string := "viewed_article"
  const MarketKey: string := "viewed_marketplace_item"

  const ProfileKey: string := "visited_profile"
  const PageKey: string := "visited_page"
  const EventKey: string := "visited_event_page"
  const GroupKey: string := "visited_group_page"

  /** The column names of each dict are distinct. */
  lemma ViewedKeysDistinct()
    ensures VideoKey != ArticleKey && VideoKey != MarketKey && ArticleKey != MarketKey
  {
    assert |VideoKey| == 12 && |ArticleKey| == 14 && |MarketKey| == 23;
  }

  lemma VisitedKeysDistinct()
    ensures ProfileKey != PageKey && ProfileKey != EventKey && ProfileKey != GroupKey
    ensures PageKey != EventKey && PageKey != GroupKey && EventKey != GroupKey
  {
    assert |ProfileKey| == 15 && |PageKey| == 12 && |EventKey| == 18 && |GroupKey| == 18;
    assert EventKey[8] == 'e' && GroupKey[8] == 'g';
  }

  /** The position, inside each video category, of the block of viewing
      times; marketplace categories hold a single block. */
  const VideoBlock: nat := 2
  const MarketBlock: nat := 0

  /** `for key in block` when each key is then used as `block[key]`: the keys
      of a dict in order. An empty list or string yields no key; subscripting
      any other non-dict with its own elements is taken to raise TypeError. */
  function CategoryKeys(block: Json): (r: Result<seq<string>>)
    ensures block.JObj? ==> r.Ok? && |r.value| == |block.members| &&
                            forall i :: 0 <= i < |block.members| ==> r.value[i] == block.members[i].0
  {
    match block
    case JObj(m) => Ok(seq(|m|, i requires 0 <= i < |m| => m[i].0))
    case JArr(e) => if e == [] then Ok([]) else Err(TypeError)
    case JStr(s) => if s == [] then Ok([]) else Err(TypeError)
    case _ => Err(TypeError)
  }

  /** One category: a list-valued one contributes the entries of its block at
      position `at`; any other value is skipped. */
  function CategoryDates(block: Json, key: string, at: nat, toDate: int -> Date): Result<seq<Date>> {
    match Key(block, key)
    case Err(e) => Err(e)
    case Ok(category) =>
      if !category.JArr? then Ok([])
      else
        match Index(category, at)
        case Err(e) => Err(e)
        case Ok(b) => EntryDates(b, toDate)
  }

  function CategoryParts(block: Json, keys: seq<string>, at: nat, toDate: int -> Date): (parts: seq<Result<seq<Date>>>)
    ensures |parts| == |keys|
    ensures forall i :: 0 <= i < |keys| ==> parts[i] == CategoryDates(block, keys[i], at, toDate)
  {
    seq(|keys|, i requires 0 <= i < |keys| => CategoryDates(block, keys[i], at, toDate))
  }

  /** The loop over the categories of one block, extending `views[column]`
      with each list-valued category's dates. */
  method ExtendCategories(views: map<string, seq<Date>>, column: string, block: Json, keys: seq<string>, at: nat, toDate: int -> Date)
    returns (r: Result<map<string, seq<Date>>>)
    requires column in views
    ensures r == match Gather(CategoryParts(block, keys, at, toDate))
                 case Err(e) => Err(e)
                 case Ok(d) => Ok(views[column := views[column] + d])
  {
    ghost var parts := CategoryParts(block, keys, at, toDate);
    var result := views;
    ghost var added: seq<Date> := [];
    assert views[column] + added == views[column];
    assert views[column := views[column] + added] == views;
    var i := 0;
    while i < |keys|
      invariant 0 <= i <= |keys|
      invariant Gather(parts[..i]) == Ok(added)
      invariant result == views[column := views[column] + added]
    {
      GatherStep(parts, i);
      assert parts[i] == CategoryDates(block, keys[i], at, toDate);
      var category := Key(block, keys[i]);
      if category.Err? {
        GatherErrPersists(parts, i + 1);
        return Err(category.error);
      }
      if category.value.JArr? {
        var b := Index(category.value, at);
        if b.Err? {
          GatherErrPersists(parts, i + 1);
          return Err(b.error);
        }
        var d := EntryDates(b.value, toDate);
        assert parts[i] == d;
        if d.Err? {
          GatherErrPersists(parts, i + 1);
          return Err(d.error);
        }
        ExtendAgain(views, column, added, d.value);
        result := result[column := result[column] + d.value];
        added := added + d.value;
      } else {
        assert parts[i] == Ok([]);
        assert added + [] == added;
      }
      i := i + 1;
    }
    assert parts[..i] == parts;
    return Ok(result);
  }

  /** Extending a column twice is extending it once by both lists. */
  lemma ExtendAgain(views: map<string, seq<Date>>, column: string, first: seq<Date>, second: seq<Date>)
    requires column in views
    ensures var once := views[column := views[column] + first];
            once[column := once[column] + second] == views[column := views[column] + (first + second)]
  {
    assert views[column] + first + second == views[column] + (first + second);
  }

  /** One `d[column].extend(dates)` on the dict built so far, where `dates`
      is the list comprehension computed for it: the first error wins. */
  function Extended(acc: Result<map<string, seq<Date>>>, column: string, dates: Result<seq<Date>>): (r: Result<map<string, seq<Date>>>)
    requires acc.Ok? ==> column in acc.value
    ensures r.Ok? <==> acc.Ok? && dates.Ok?
    ensures r.Ok? ==> r.value == acc.value[column := acc.value[column] + dates.value]
  {
    match acc
    case Err(e) => Err(e)
    case Ok(m) =>
      match dates
      case Err(e) => Err(e)
      case Ok(d) => Ok(m[column := m[column] + d])
  }

  /** The categories of `things[i]`, each list-valued one read at position `at`. */
  function CategoriesAt(things: Json, i: nat, at: nat, toDate: int -> Date): Result<seq<Date>> {
    match Index(things, i)
    case Err(e) => Err(e)
    case Ok(block) =>
      match CategoryKeys(block)
      case Err(e) => Err(e)
      case Ok(keys) => Gather(CategoryParts(block, keys, at, toDate))
  }

  /** `things[i]["entries"]`, dated. */
  function Slot(things: Json, i: nat, toDate: int -> Date): Result<seq<Date>> {
    match Index(things, i)
    case Err(e) => Err(e)
    case Ok(block) => EntryDates(block, toDate)
  }

  const ViewedInit: map<string, seq<Date>> := map[VideoKey := [], ArticleKey := [], MarketKey := []]

  /** The three lists of `get_viewed` before the clean-up, or the first error:
      videos from the categories of block 0, articles from block 1,
      marketplace items from the categories of block 2. */
  function ViewedCollected(file: Json, toDate: int -> Date): Result<map<string, seq<Date>>> {
    match Key(file, "viewed_things")
    case Err(e) => Err(e)
    case Ok(things) =>
      var videos := Extended(Ok(ViewedInit), VideoKey, CategoriesAt(things, 0, VideoBlock, toDate));
      var articles := Extended(videos, ArticleKey, Slot(things, 1, toDate));
      Extended(articles, MarketKey, CategoriesAt(things, 2, MarketBlock, toDate))
  }

  /** The end of both extractors: None for a falsy file, otherwise the
      collected lists with the empty keys removed as intended. */
  function Cleaned(file: Json, collected: Result<map<string, seq<Date>>>): Result<Option<map<string, seq<Date>>>> {
    if Falsy(file) then Ok(None)
    else
      match collected
      case Err(e) => Err(e)
      case Ok(m) => Ok(Some(NonEmpty(m)))
  }

  /** The same end as written, deleting while iterating: where it succeeds it
      agrees with the intended clean-up, and once the lists are collected it
      raises RuntimeError exactly when some list stayed empty. */
  function CleanedAsWritten(file: Json, collected: Result<map<string, seq<Date>>>): (r: Result<Option<map<string, seq<Date>>>>)
    ensures r.Ok? ==> r == Cleaned(file, collected)
    ensures !Falsy(file) && collected.Ok? ==> (r.Err? <==> exists k :: k in collected.value && collected.value[k] == [])
    ensures r.Err? && Cleaned(file, collected).Ok? ==> r.error == RuntimeError
  {
    if Falsy(file) then Ok(None)
    else
      match collected
      case Err(e) => Err(e)
      case Ok(m) =>
        match DropEmptyAsWritten(m)
        case Err(e) => Err(e)
        case Ok(d) => Ok(Some(d))
  }

  /** What `get_viewed` returns once empty keys are removed as intended. */
  function ViewedExpected(file: Json, toDate: int -> Date): Result<Option<map<string, seq<Date>>>> {
    Cleaned(file, ViewedCollected(file, toDate))
  }

  /** What `get_viewed` returns as written. */
  function ViewedAsWritten(file: Json, toDate: int -> Date): (r: Result<Option<map<string, seq<Date>>>>)
    ensures r.Ok? ==> r == ViewedExpected(file, toDate)
    ensures !Falsy(file) && ViewedCollected(file, toDate).Ok? ==>
              (r.Err? <==> exists k :: k in ViewedCollected(file, toDate).value && ViewedCollected(file, toDate).value[k] == [])
  {
    CleanedAsWritten(file, ViewedCollected(file, toDate))
  }

  /** `get_viewed`: the video categories, the articles and the marketplace
      categories in that order, then the clean-up. */
  method GetViewed(file: Json, toDate: int -> Date) returns (r: Result<Option<map<string, seq<Date>>>>)
    ensures r == ViewedExpected(file, toDate)
  {
    if Falsy(file) {
      return Ok(None);
    }
    var views := ViewedInit;
    var things := Key(file, "viewed_things");
    if things.Err? {
      return Err(things.error);
    }
    ghost var videos := Extended(Ok(ViewedInit), VideoKey, CategoriesAt(things.value, 0, VideoBlock, toDate));
    ghost var articles := Extended(videos, ArticleKey, Slot(things.value, 1, toDate));
    var block := Index(things.value, 0);
    if block.Err? {
      return Err(block.error);
    }
    var keys := CategoryKeys(block.value);
    if keys.Err? {
      return Err(keys.error);
    }
    var extended := ExtendCategories(views, VideoKey, block.value, keys.value, VideoBlock, toDate);
    if extended.Err? {
      return Err(extended.error);
    }
    views := extended.value;
    assert Ok(views) == videos;
    var a := Slot(things.value, 1, toDate);
    if a.Err? {
      return Err(a.error);
    }
    views := views[ArticleKey := views[ArticleKey] + a.value];
    assert Ok(views) == articles;
    block := Index(things.value, 2);
    if block.Err? {
      return Err(block.error);
    }
    keys := CategoryKeys(block.value);
    if keys.Err? {
      return Err(keys.error);
    }
    extended := ExtendCategories(views, MarketKey, block.value, keys.value, MarketBlock, toDate);
    if extended.Err? {
      return Err(extended.error);
    }
    views := extended.value;
    assert Ok(views) == ViewedCollected(file, toDate);
    views := DropEmpty(views);
    return Ok(Some(views));
  }

  const VisitedInit: map<string, seq<Date>> := map[ProfileKey := [], PageKey := [], EventKey := [], GroupKey := []]

  /** The four lists of `get_visited` before the clean-up: profiles, pages,
      event pages and group pages are the blocks at positions 0 to 3. */
  function VisitedCollected(file: Json, toDate: int -> Date): Result<map<string, seq<Date>>> {
    match Key(file, "visited_things")
    case Err(e) => Err(e)
    case Ok(things) =>
      var profiles := Extended(Ok(VisitedInit), ProfileKey, Slot(things, 0, toDate));
      var pages := Extended(profiles, PageKey, Slot(things, 1, toDate));
      var events := Extended(pages, EventKey, Slot(things, 2, toDate));
      Extended(events, GroupKey, Slot(things, 3, toDate))
  }

  function VisitedExpected(file: Json, toDate: int -> Date): Result<Option<map<string, seq<Date>>>> {
    Cleaned(file, VisitedCollected(file, toDate))
  }

  /** What `get_visited` returns as written. */
  function VisitedAsWritten(file: Json, toDate: int -> Date): (r: Result<Option<map<string, seq<Date>>>>)
    ensures r.Ok? ==> r == VisitedExpected(file, toDate)
    ensures !Falsy(file) && VisitedCollected(file, toDate).Ok? ==>
              (r.Err? <==> exists k :: k in VisitedCollected(file, toDate).value && VisitedCollected(file, toDate).value[k] == [])
  {
    CleanedAsWritten(file, VisitedCollected(file, toDate))
  }

  /** `get_visited`: four `extend` calls, then the clean-up. */
  method GetVisited(file: Json, toDate: int -> Date) returns (r: Result<Option<map<string, seq<Date>>>>)
    ensures r == VisitedExpected(file, toDate)
  {
    if Falsy(file) {
      return Ok(None);
    }
    var visited := VisitedInit;
    var things := Key(file, "visited_things");
    if things.Err? {
      return Err(things.error);
    }
    ghost var profiles := Extended(Ok(VisitedInit), ProfileKey, Slot(things.value, 0, toDate));
    ghost var pages := Extended(profiles, PageKey, Slot(things.value, 1, toDate));
    ghost var events := Extended(pages, EventKey, Slot(things.value, 2, toDate));
    var dates := Slot(things.value, 0, toDate);
    if dates.Err? {
      return Err(dates.error);
    }
    visited := visited[ProfileKey := visited[ProfileKey] + dates.value];
    assert Ok(visited) == profiles;
    dates := Slot(things.value, 1, toDate);
    if dates.Err? {
      return Err(dates.error);
    }
    visited := visited[PageKey := visited[PageKey] + dates.value];
    assert Ok(visited) == pages;
    dates := Slot(things.value, 2, toDate);
    if dates.Err? {
      return Err(dates.error);
    }
    visited := visited[EventKey := visited[EventKey] + dates.value];
    assert Ok(visited) == events;
    dates := Slot(things.value, 3, toDate);
    if dates.Err? {
      return Err(dates.error);
    }
    visited := visited[GroupKey := visited[GroupKey] + dates.value];
    assert Ok(visited) == VisitedCollected(file, toDate);
    visited := DropEmpty(visited);
    return Ok(Some(visited));
  }

  /** A category whose value is not a list is skipped: leaving it out of the
      keys changes nothing. */
  lemma NonListCategoryIgnored(block: Json, keys: seq<string>, k: nat, at: nat, toDate: int -> Date)
    requires k < |keys| && Key(block, keys[k]).Ok? && !Key(block, keys[k]).value.JArr?
    ensures Gather(CategoryParts(block, keys, at, toDate)) ==
            Gather(CategoryParts(block, keys[..k] + keys[k + 1..], at, toDate))
  {
    var parts := CategoryParts(block, keys, at, toDate);
    GatherSkipsEmpty(parts, k);
    assert parts[..k] + parts[k + 1..] == CategoryParts(block, keys[..k] + keys[k + 1..], at, toDate);
  }

  /** After the clean-up, `column` holds `dates` if they are not empty and is
      absent otherwise. */
  predicate ColumnFrom(m: map<string, seq<Date>>, column: string, dates: seq<Date>) {
    (column in m <==> dates != []) && (column in m ==> m[column] == dates)
  }

  /** The four `extend` calls of `get_visited` on lists computed without
      error: each column holds exactly its own list. */
  lemma VisitedFour(d0: Result<seq<Date>>, d1: Result<seq<Date>>, d2: Result<seq<Date>>, d3: Result<seq<Date>>)
    requires Extended(Extended(Extended(Extended(Ok(VisitedInit), ProfileKey, d0), PageKey, d1), EventKey, d2), GroupKey, d3).Ok?
    ensures d0.Ok? && d1.Ok? && d2.Ok? && d3.Ok?
    ensures var c := Extended(Extended(Extended(Extended(Ok(VisitedInit), ProfileKey, d0), PageKey, d1), EventKey, d2), GroupKey, d3).value;
            c.Keys == {ProfileKey, PageKey, EventKey, GroupKey} &&
            c[ProfileKey] == d0.value && c[PageKey] == d1.value && c[EventKey] == d2.value && c[GroupKey] == d3.value
  {
    VisitedKeysDistinct();
    assert [] + d0.value == d0.value && [] + d1.value == d1.value;
    assert [] + d2.value == d2.value && [] + d3.value == d3.value;
  }

  /** When `visited_things` reads without error, column `i` holds the dates
      of block `i`. */
  lemma VisitedCollectedOk(file: Json, toDate: int -> Date)
    requires VisitedCollected(file, toDate).Ok?
    ensures Key(file, "visited_things").Ok?
    ensures var things := Key(file, "visited_things").value;
            var c := VisitedCollected(file, toDate).value;
            Slot(things, 0, toDate).Ok? && Slot(things, 1, toDate).Ok? &&
            Slot(things, 2, toDate).Ok? && Slot(things, 3, toDate).Ok? &&
            c.Keys == {ProfileKey, PageKey, EventKey, GroupKey} &&
            c[ProfileKey] == Slot(things, 0, toDate).value && c[PageKey] == Slot(things, 1, toDate).value &&
            c[EventKey] == Slot(things, 2, toDate).value && c[GroupKey] == Slot(things, 3, toDate).value
  {
    var things := Key(file, "visited_things").value;
    VisitedFour(Slot(things, 0, toDate), Slot(things, 1, toDate), Slot(things, 2, toDate), Slot(things, 3, toDate));
  }

  /** The dict `get_visited` returns: blocks 0 to 3 of `visited_things` give
      the profile, page, event page and group page columns one date per entry,
      and each column is present exactly when its block has an entry. */
  lemma VisitedShape(file: Json, toDate: int -> Date)
    requires VisitedExpected(file, toDate).Ok? && VisitedExpected(file, toDate).value.Some?
    ensures Key(file, "visited_things").Ok?
    ensures var m := VisitedExpected(file, toDate).value.value;
            var things := Key(file, "visited_things").value;
            m.Keys <= {ProfileKey, PageKey, EventKey, GroupKey} &&
            Slot(things, 0, toDate).Ok? && ColumnFrom(m, ProfileKey, Slot(things, 0, toDate).value) &&
            Slot(things, 1, toDate).Ok? && ColumnFrom(m, PageKey, Slot(things, 1, toDate).value) &&
            Slot(things, 2, toDate).Ok? && ColumnFrom(m, EventKey, Slot(things, 2, toDate).value) &&
            Slot(things, 3, toDate).Ok? && ColumnFrom(m, GroupKey, Slot(things, 3, toDate).value)
  {
    VisitedCollectedOk(file, toDate);
  }

  /** The dict `get_viewed` returns: videos come from the categories of block
      0, articles from block 1 and marketplace items from the categories of
      block 2, and each column is present exactly when it got a date. */
  lemma ViewedShape(file: Json, toDate: int -> Date)
    requires ViewedExpected(file, toDate).Ok? && ViewedExpected(file, toDate).value.Some?
    ensures Key(file, "viewed_things").Ok?
    ensures var m := ViewedExpected(file, toDate).value.value;
            var things := Key(file, "viewed_things").value;
            var videos := CategoriesAt(things, 0, VideoBlock, toDate);
            var articles := Slot(things, 1, toDate);
            var market := CategoriesAt(things, 2, MarketBlock, toDate);
            m.Keys <= {VideoKey, ArticleKey, MarketKey} &&
            videos.Ok? && articles.Ok? && market.Ok? &&
            ColumnFrom(m, VideoKey, videos.value) && ColumnFrom(m, ArticleKey, articles.value) &&
            ColumnFrom(m, MarketKey, market.value)
  {
    ViewedKeysDistinct();
    var things := Key(file, "viewed_things").value;
    assert [] + CategoriesAt(things, 0, VideoBlock, toDate).value == CategoriesAt(things, 0, VideoBlock, toDate).value;
    assert [] + Slot(things, 1, toDate).value == Slot(things, 1, toDate).value;
    assert [] + CategoriesAt(things, 2, MarketBlock, toDate).value == CategoriesAt(things, 2, MarketBlock, toDate).value;
  }

  /** As written, `get_visited` raises as soon as one block has no entry,
      where the intended clean-up simply drops that column. */
  lemma VisitedEmptyBlockRaises(toDate: int -> Date)
    ensures var empty := JObj([("entries", JArr([]))]);
            var one := JObj([("entries", JArr([JObj([("timestamp", JNum(5))])]))]);
            var file := JObj([("visited_things", JArr([one, empty, empty, empty]))]);
            VisitedAsWritten(file, toDate) == Err(RuntimeError) &&
            VisitedExpected(file, toDate) == Ok(Some(map[ProfileKey := [toDate(5)]]))
  {
    var empty := JObj([("entries", JArr([]))]);
    var one := JObj([("entries", JArr([JObj([("timestamp", JNum(5))])]))]);
    var file := JObj([("visited_things", JArr([one, empty, empty, empty]))]);
    var m := EmptyBlockCollected(file, toDate);
    assert !Falsy(file);
    assert PageKey in m && m[PageKey] == [];
    OnlyProfileLeft(m, toDate);
  }

  lemma OnlyProfileLeft(m: map<string, seq<Date>>, toDate: int -> Date)
    requires m.Keys == {ProfileKey, PageKey, EventKey, GroupKey}
    requires m[ProfileKey] == [toDate(5)] && m[PageKey] == [] && m[EventKey] == [] && m[GroupKey] == []
    ensures NonEmpty(m) == map[ProfileKey := [toDate(5)]]
  {
    VisitedKeysDistinct();
    var n := NonEmpty(m);
    assert n.Keys == {ProfileKey};
  }

  /** The lists collected from one block with an entry at second 5 and three
      blocks without entries. */
  lemma EmptyBlockCollected(file: Json, toDate: int -> Date) returns (m: map<string, seq<Date>>)
    requires var empty := JObj([("entries", JArr([]))]);
             var one := JObj([("entries", JArr([JObj([("timestamp", JNum(5))])]))]);
             file == JObj([("visited_things", JArr([one, empty, empty, empty]))])
    ensures VisitedCollected(file, toDate) == Ok(m)
    ensures m.Keys == {ProfileKey, PageKey, EventKey, GroupKey}
    ensures m[ProfileKey] == [toDate(5)] && m[PageKey] == [] && m[EventKey] == [] && m[GroupKey] == []
  {
    var empty := JObj([("entries", JArr([]))]);
    var one := JObj([("entries", JArr([JObj([("timestamp", JNum(5))])]))]);
    var things := JArr([one, empty, empty, empty]);
    OneEntryBlock(one, toDate);
    EmptyBlock(empty, toDate);
    assert Slot(things, 0, toDate) == Ok([toDate(5)]);
    assert Slot(things, 1, toDate) == Ok([]) && Slot(things, 2, toDate) == Ok([]) && Slot(things, 3, toDate) == Ok([]);
    assert Key(file, "visited_things") == Ok(things);
    VisitedFour(Ok([toDate(5)]), Ok([]), Ok([]), Ok([]));
    m := VisitedCollected(file, toDate).value;
  }

  lemma OneEntryBlock(one: Json, toDate: int -> Date)
    requires one == JObj([("entries", JArr([JObj([("timestamp", JNum(5))])]))])
    ensures EntryDates(one, toDate) == Ok([toDate(5)])
  {
    var item := JObj([("timestamp", JNum(5))]);
    assert Key(item, "timestamp") == Ok(JNum(5));
    assert [toDate(5)] + [] == [toDate(5)];
    assert StampDates([item], toDate) == Ok([toDate(5)]);
    assert Key(one, "entries") == Ok(JArr([item]));
  }

  lemma EmptyBlock(empty: Json, toDate: int -> Date)
    requires empty == JObj([("entries", JArr([]))])
    ensures EntryDates(empty, toDate) == Ok([])
  {
    assert Key(empty, "entries") == Ok(JArr([]));
  }

  /** The three `extend` calls of `get_viewed` on lists computed without
      error: each column holds exactly its own list. */
  lemma ViewedThree(d0: Result<seq<Date>>, d1: Result<seq<Date>>, d2: Result<seq<Date>>)
    requires Extended(Extended(Extended(Ok(ViewedInit), VideoKey, d0), ArticleKey, d1), MarketKey, d2).Ok?
    ensures d0.Ok? && d1.Ok? && d2.Ok?
    ensures var c := Extended(Extended(Extended(Ok(ViewedInit), VideoKey, d0), ArticleKey, d1), MarketKey, d2).value;
            c.Keys == {VideoKey, ArticleKey, MarketKey} &&
            c[VideoKey] == d0.value && c[ArticleKey] == d1.value && c[MarketKey] == d2.value
  {
    ViewedKeysDistinct();
    assert [] + d0.value == d0.value && [] + d1.value == d1.value && [] + d2.value == d2.value;
  }

  /** A block with no category contributes nothing. */
  lemma NoCategories(things: Json, i: nat, at: nat, toDate: int -> Date)
    requires things.JArr? && i < |things.elems| && things.elems[i] == JObj([])
    ensures CategoriesAt(things, i, at, toDate) == Ok([])
  {
    assert CategoryKeys(JObj([])) == Ok([]);
    assert CategoryParts(JObj([]), [], at, toDate) == [];
  }

  /** As written, `get_viewed` raises as soon as one of its three lists stays
      empty; here all three do, and the intended clean-up leaves an empty
      dict. */
  lemma ViewedEmptyRaises(toDate: int -> Date)
    ensures var file := JObj([("viewed_things", JArr([JObj([]), JObj([("entries", JArr([]))]), JObj([])]))]);
            ViewedAsWritten(file, toDate) == Err(RuntimeError) &&
            ViewedExpected(file, toDate) == Ok(Some(map[]))
  {
    var empty := JObj([("entries", JArr([]))]);
    var things := JArr([JObj([]), empty, JObj([])]);
    var file := JObj([("viewed_things", things)]);
    assert !Falsy(file);
    assert Key(file, "viewed_things") == Ok(things);
    NoCategories(things, 0, VideoBlock, toDate);
    NoCategories(things, 2, MarketBlock, toDate);
    EmptyBlock(empty, toDate);
    assert Slot(things, 1, toDate) == Ok([]);
    ViewedThree(Ok([]), Ok([]), Ok([]));
    var c := ViewedCollected(file, toDate).value;
    assert VideoKey in c && c[VideoKey] == [];
    assert NonEmpty(c).Keys == {};
  }
}
