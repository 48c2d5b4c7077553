/** Pieces shared by the extractors that fill a dict of date lists: dating the
    items of an `entries` list, gathering per-category date lists the way
    repeated `extend` calls do, and removing the keys whose list stayed
    empty. */
module Collect {
  import opened Json

  /** An item `datetime.fromtimestamp(item["timestamp"])` raises on. */
  predicate Undatable(item: Json) {
    Key(item, "timestamp").Err? || Seconds(Key(item, "timestamp").value).Err?
  }

  /** `[datetime.fromtimestamp(item["timestamp"]).date() for item in items]`:
      one date per item, in order, or the error of the first item that has no
      usable timestamp. */
  function StampDates(items: seq<Json>, toDate: int -> Date): (r: Result<seq<Date>>)
    ensures r.Ok? ==> |r.value| == |items|
    ensures r.Ok? ==> forall i :: 0 <= i < |items| ==>
              !Undatable(items[i]) &&
              r.value[i] == toDate(Seconds(Key(items[i], "timestamp").value).value)
    ensures r.Err? ==> exists i :: 0 <= i < |items| && Undatable(items[i])
    decreases |items|
  {
    if items == [] then Ok([])
    else
      match Key(items[0], "timestamp")
      case Err(e) => Err(e)
      case Ok(v) =>
        match Seconds(v)
        case Err(e) => Err(e)
        case Ok(t) =>
          match StampDates(items[1..], toDate)
          case Err(e) =>
            assert forall i :: 1 <= i < |items| ==> items[i] == items[1..][i - 1];
            Err(e)
          case Ok(rest) =>
            assert forall i :: 1 <= i < |items| ==> items[i] == items[1..][i - 1];
            Ok([toDate(t)] + rest)
  }

  /** The dates of `block["entries"]`. */
  function EntryDates(block: Json, toDate: int -> Date): (r: Result<seq<Date>>)
    ensures r.Ok? ==> Key(block, "entries").Ok? && Items(Key(block, "entries").value).Ok? &&
                      r == StampDates(Items(Key(block, "entries").value).value, toDate)
  {
    match Key(block, "entries")
    case Err(e) => Err(e)
    case Ok(entries) =>
      match Items(entries)
      case Err(e) => Err(e)
      case Ok(items) => StampDates(items, toDate)
  }

  /** Successive `extend` calls with the given parts: the first part that
      raises stops the run, otherwise the parts are concatenated in order. */
  function Gather(parts: seq<Result<seq<Date>>>): Result<seq<Date>>
    decreases |parts|
  {
    if parts == [] then Ok([])
    else
      match Gather(parts[..|parts| - 1])
      case Err(e) => Err(e)
      case Ok(prev) =>
        match parts[|parts| - 1]
        case Err(e) => Err(e)
        case Ok(d) => Ok(prev + d)
  }

  /** Total length of the parts that succeeded. */
  function TotalLength(parts: seq<Result<seq<Date>>>): nat
    decreases |parts|
  {
    if parts == [] then 0
    else TotalLength(parts[..|parts| - 1]) + (if parts[|parts| - 1].Ok? then |parts[|parts| - 1].value| else 0)
  }

  /** Gathering succeeds exactly when every part does, and then holds every
      part's dates. */
  lemma {:induction false} GatherOk(parts: seq<Result<seq<Date>>>)
    ensures Gather(parts).Ok? <==> forall i :: 0 <= i < |parts| ==> parts[i].Ok?
    ensures Gather(parts).Ok? ==> |Gather(parts).value| == TotalLength(parts)
    decreases |parts|
  {
    if parts != [] {
      var prev := parts[..|parts| - 1];
      GatherOk(prev);
      assert forall i :: 0 <= i < |prev| ==> parts[i] == prev[i];
    }
  }

  /** One more `extend`. */
  lemma GatherStep(parts: seq<Result<seq<Date>>>, i: nat)
    requires i < |parts|
    ensures Gather(parts[..i + 1]) ==
            match Gather(parts[..i])
            case Err(e) => Err(e)
            case Ok(prev) => (match parts[i] case Err(e) => Err(e) case Ok(d) => Ok(prev + d))
  {
    assert parts[..i + 1][..i] == parts[..i];
  }

  /** Once a prefix of the parts raises, the run raises that error. */
  lemma {:induction false} GatherErrPersists(parts: seq<Result<seq<Date>>>, k: nat)
    requires k <= |parts| && Gather(parts[..k]).Err?
    ensures Gather(parts) == Gather(parts[..k])
    decreases |parts| - k
  {
    if k < |parts| {
      GatherStep(parts, k);
      GatherErrPersists(parts, k + 1);
    } else {
      assert parts[..k] == parts;
    }
  }

  /** A part that adds nothing can be left out without changing the
      gathered result. */
  lemma {:induction false} GatherSkipsEmpty(parts: seq<Result<seq<Date>>>, k: nat)
    requires k < |parts| && parts[k] == Ok([])
    ensures Gather(parts) == Gather(parts[..k] + parts[k + 1..])
    decreases |parts|
  {
    var n := |parts| - 1;
    var prev := parts[..n];
    var q := parts[..k] + parts[k + 1..];
    if k == n {
      assert q == prev;
      if Gather(prev).Ok? {
        assert Gather(prev).value + [] == Gather(prev).value;
      }
    } else {
      GatherSkipsEmpty(prev, k);
      assert q[..|q| - 1] == prev[..k] + prev[k + 1..];
      assert q[|q| - 1] == parts[n];
    }
  }

  /** The dict left once every key with an empty list is gone. */
  function NonEmpty(m: map<string, seq<Date>>): (r: map<string, seq<Date>>)
    ensures r.Keys <= m.Keys
    ensures forall k :: k in r ==> r[k] == m[k] && r[k] != []
    ensures forall k :: k in m && m[k] != [] ==> k in r
  {
    map k | k in m && m[k] != [] :: m[k]
  }

  /** `for key in d: if not d[key]: del d[key]` as written: in Python 3 the
      dict iterator raises RuntimeError on the step after a deletion, so the
      loop raises whenever it deletes anything, and returns the dict unchanged
      otherwise. */
  function DropEmptyAsWritten(m: map<string, seq<Date>>): (r: Result<map<string, seq<Date>>>)
    ensures r.Err? <==> exists k :: k in m && m[k] == []
    ensures r.Err? ==> r.error == RuntimeError
    ensures r.Ok? ==> r.value == m && r.value == NonEmpty(m)
  {
    if exists k :: k in m && m[k] == [] then Err(RuntimeError) else Ok(m)
  }

  /** The same clean-up done as intended: every empty key is removed, one key
      at a time, whatever the order the keys are visited in. */
  method DropEmpty(views: map<string, seq<Date>>) returns (m: map<string, seq<Date>>)
    ensures m == NonEmpty(views)
  {
    m := views;
    var pending := views.Keys;
    while pending != {}
      invariant pending <= views.Keys
      invariant forall k :: k in m <==> k in views && (k in pending || views[k] != [])
      invariant forall k :: k in m ==> m[k] == views[k]
      decreases |pending|
    {
      var k :| k in pending;
      if m[k] == [] {
        m := m - {k};
      }
      pending := pending - {k};
    }
  }
}
