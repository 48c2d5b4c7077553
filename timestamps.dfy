/** The generic timestamp extractor (`get_timestamps`): pulls a named
    timestamp field out of a file shaped `Dict[List[Dict]]` (tier 1) or, when
    that finds nothing, `Dict[Dict[List[Dict]]]` (tier 2). */
module Timestamps {
  import opened Json

  /** The field name used unless a file kind overrides it. */
  const DefaultField: string := "timestamp"

  /** One step of the comprehension: an item that passes `timestr in item`
      yields `item[timestr]` as seconds; any other item is skipped. */
  function ItemStamp(item: Json, field: string): Result<Option<int>> {
    match Member(item, field)
    case Err(e) => Err(e)
    case Ok(carries) =>
      if !carries then Ok(None)
      else
        match Key(item, field)
        case Err(e) => Err(e)
        case Ok(v) =>
          match Seconds(v)
          case Err(e) => Err(e)
          case Ok(t) => Ok(Some(t))
  }

  /** `[item[timestr] for item in items if timestr in item]`, stopping at the
      first item that raises. */
  function ScanItems(items: seq<Json>, field: string): (r: Result<seq<int>>)
    ensures r.Ok? ==> |r.value| <= |items|
    decreases |items|
  {
    if items == [] then Ok([])
    else
      match ItemStamp(items[0], field)
      case Err(e) => Err(e)
      case Ok(o) =>
        match ScanItems(items[1..], field)
        case Err(e) => Err(e)
        case Ok(rest) => Ok(if o.Some? then [o.value] + rest else rest)
  }

  /** `for value in values for item in value if timestr in item`. */
  function ScanEach(values: seq<Json>, field: string): Result<seq<int>>
    decreases |values|
  {
    if values == [] then Ok([])
    else
      match Items(values[0])
      case Err(e) => Err(e)
      case Ok(items) =>
        match ScanItems(items, field)
        case Err(e) => Err(e)
        case Ok(first) =>
          match ScanEach(values[1..], field)
          case Err(e) => Err(e)
          case Ok(rest) => Ok(first + rest)
  }

  /** Tier 1: `for value in json_file.values() for item in value`. */
  function Tier1(file: Json, field: string): (r: Result<seq<int>>)
    ensures r.Ok? ==> file.JObj?
  {
    match Values(file)
    case Err(e) => Err(e)
    case Ok(values) => ScanEach(values, field)
  }

  /** Tier 2 as the source writes it: `json_file.get(key).values()` for every
      key, which raises AttributeError on a value that is not a dict. */
  function ScanNestedAsWritten(values: seq<Json>, field: string): (r: Result<seq<int>>)
    ensures r.Ok? ==> forall i :: 0 <= i < |values| ==> values[i].JObj?
    decreases |values|
  {
    if values == [] then Ok([])
    else
      match Values(values[0])
      case Err(e) => Err(e)
      case Ok(inner) =>
        match ScanEach(inner, field)
        case Err(e) => Err(e)
        case Ok(first) =>
          assert forall i :: 1 <= i < |values| ==> values[i] == values[1..][i - 1];
          match ScanNestedAsWritten(values[1..], field)
          case Err(e) => Err(e)
          case Ok(rest) => Ok(first + rest)
  }

  /** Tier 2 as intended: values that are not dicts hold no nested lists and
      contribute nothing. */
  function ScanNested(values: seq<Json>, field: string): Result<seq<int>>
    decreases |values|
  {
    if values == [] then Ok([])
    else
      match (if values[0].JObj? then ScanEach(Values(values[0]).value, field) else Ok([]))
      case Err(e) => Err(e)
      case Ok(first) =>
        match ScanNested(values[1..], field)
        case Err(e) => Err(e)
        case Ok(rest) => Ok(first + rest)
  }

  /** Tier 2 as written succeeds only on a dict all of whose values are
      dicts. */
  function Tier2AsWritten(file: Json, field: string): (r: Result<seq<int>>)
    ensures r.Ok? ==> file.JObj? && forall i :: 0 <= i < |file.members| ==> file.members[i].1.JObj?
  {
    match Values(file)
    case Err(e) => Err(e)
    case Ok(values) => ScanNestedAsWritten(values, field)
  }

  function Tier2(file: Json, field: string): Result<seq<int>> {
    match Values(file)
    case Err(e) => Err(e)
    case Ok(values) => ScanNested(values, field)
  }

  /** `get_timestamps` as written: a missing or empty file gives None; tier 2
      runs only when tier 1 is empty; None when neither finds anything. */
  function GetTimestampsAsWritten(file: Json, field: string, toDate: int -> Date): (r: Result<Option<seq<Date>>>)
    ensures r.Ok? && !Falsy(file) && Tier1(file, field) == Ok([]) ==>
              file.JObj? && forall i :: 0 <= i < |file.members| ==> file.members[i].1.JObj?
  {
    if Falsy(file) then Ok(None)
    else
      match Tier1(file, field)
      case Err(e) => Err(e)
      case Ok(t1) =>
        if t1 != [] then Ok(Some(ToDates(t1, toDate)))
        else
          match Tier2AsWritten(file, field)
          case Err(e) => Err(e)
          case Ok(t2) => if t2 == [] then Ok(None) else Ok(Some(ToDates(t2, toDate)))
  }

  /** `get_timestamps` with tier 2 skipping values that are not dicts. */
  function GetTimestamps(file: Json, field: string, toDate: int -> Date): (r: Result<Option<seq<Date>>>)
    ensures r == Ok(None) <==> Falsy(file) || (Tier1(file, field) == Ok([]) && Tier2(file, field) == Ok([]))
    ensures r.Ok? && r.value.Some? ==> r.value.value != []
    ensures !Falsy(file) && Tier1(file, field).Ok? && Tier1(file, field).value != [] ==>
              r == Ok(Some(ToDates(Tier1(file, field).value, toDate)))
    ensures r.Ok? && r.value.Some? && Tier1(file, field) == Ok([]) ==>
              Tier2(file, field).Ok? && r.value.value == ToDates(Tier2(file, field).value, toDate)
    ensures !Falsy(file) && Tier1(file, field).Err? ==> r == Err(Tier1(file, field).error)
    ensures !Falsy(file) && Tier1(file, field) == Ok([]) && Tier2(file, field).Err? ==>
              r == Err(Tier2(file, field).error)
    ensures !Falsy(file) && Tier1(file, field) == Ok([]) && Tier2(file, field).Ok? && Tier2(file, field).value != [] ==>
              r == Ok(Some(ToDates(Tier2(file, field).value, toDate)))
  {
    if Falsy(file) then Ok(None)
    else
      match Tier1(file, field)
      case Err(e) => Err(e)
      case Ok(t1) =>
        if t1 != [] then Ok(Some(ToDates(t1, toDate)))
        else
          match Tier2(file, field)
          case Err(e) => Err(e)
          case Ok(t2) => if t2 == [] then Ok(None) else Ok(Some(ToDates(t2, toDate)))
  }

  // ---------------------------------------------------------------------
  // The two dialects

  /** An event record: a dict whose timestamp field, when present, is a number. */
  predicate Event(e: Json, field: string) {
    e.JObj? && (Lookup(e.members, field).None? || Lookup(e.members, field).value.JNum?)
  }

  /** The seconds an event carries, if it carries the field as a number. */
  function Stamp(e: Json, field: string): Option<int> {
    if !e.JObj? then None
    else
      match Lookup(e.members, field)
      case Some(JNum(n)) => Some(n)
      case _ => None
  }

  predicate EventList(v: Json, field: string) {
    v.JArr? && forall j :: 0 <= j < |v.elems| ==> Event(v.elems[j], field)
  }

  /** Tier-1 dialect: every value of the top-level dict is a list of events. */
  predicate Shallow(file: Json, field: string) {
    file.JObj? && forall i :: 0 <= i < |file.members| ==> EventList(file.members[i].1, field)
  }

  /** Tier-2 dialect: every value is a dict of event lists whose keys do not
      themselves contain the field name (tier 1 iterates those keys as strings
      and tests `timestr in key`). */
  predicate Nested(file: Json, field: string) {
    file.JObj? &&
    forall i :: 0 <= i < |file.members| ==> NestedValue(file.members[i].1, field)
  }

  predicate NestedValue(v: Json, field: string) {
    v.JObj? &&
    forall k :: 0 <= k < |v.members| ==>
      !Contains(v.members[k].0, field) && EventList(v.members[k].1, field)
  }

  /** On a list of events, the scan raises nothing and yields exactly the
      timestamps the events carry: every carried timestamp appears, and nothing
      else does. */
  lemma {:induction false} ScanEventsMembers(items: seq<Json>, field: string)
    requires forall j :: 0 <= j < |items| ==> Event(items[j], field)
    ensures ScanItems(items, field).Ok?
    ensures forall x :: x in ScanItems(items, field).value <==>
              exists j :: 0 <= j < |items| && Stamp(items[j], field) == Some(x)
    decreases |items|
  {
    if items != [] {
      var rest := items[1..];
      ScanEventsMembers(rest, field);
      assert forall j :: 1 <= j < |items| ==> items[j] == rest[j - 1];
      var e := items[0];
      assert ItemStamp(e, field) == Ok(Stamp(e, field));
      forall x | x in ScanItems(items, field).value
        ensures exists j :: 0 <= j < |items| && Stamp(items[j], field) == Some(x)
      {
        if Stamp(e, field) != Some(x) {
          var j :| 0 <= j < |rest| && Stamp(rest[j], field) == Some(x);
          assert Stamp(items[j + 1], field) == Some(x);
        }
      }
      forall x | exists j :: 0 <= j < |items| && Stamp(items[j], field) == Some(x)
        ensures x in ScanItems(items, field).value
      {
        var j :| 0 <= j < |items| && Stamp(items[j], field) == Some(x);
        if j > 0 {
          assert Stamp(rest[j - 1], field) == Some(x);
        }
      }
    }
  }

  /** The timestamps a list of records carries, in list order, one per record
      that carries the field, repeats kept: two events on the same second are
      two events. */
  function Carried(items: seq<Json>, field: string): (r: seq<int>)
    ensures |r| <= |items|
    decreases |items|
  {
    if items == [] then []
    else (match Stamp(items[0], field) case Some(t) => [t] case None => []) + Carried(items[1..], field)
  }

  /** On a list of events the scan raises nothing and yields exactly the
      carried timestamps, in order and with repeats. */
  lemma {:induction false} ScanEventsExact(items: seq<Json>, field: string)
    requires forall j :: 0 <= j < |items| ==> Event(items[j], field)
    ensures ScanItems(items, field) == Ok(Carried(items, field))
    decreases |items|
  {
    if items != [] {
      var rest := items[1..];
      assert forall j :: 0 <= j < |rest| ==> rest[j] == items[j + 1];
      ScanEventsExact(rest, field);
      assert ItemStamp(items[0], field) == Ok(Stamp(items[0], field));
      if Stamp(items[0], field).None? {
        assert Carried(items, field) == [] + Carried(rest, field);
        assert [] + Carried(rest, field) == Carried(rest, field);
        assert ScanItems(items, field) == Ok(Carried(rest, field));
      } else {
        assert ScanItems(items, field) == Ok([Stamp(items[0], field).value] + Carried(rest, field));
      }
    }
  }

  /** When every record carries the field, the timestamps are the records'
      own, one per record and in order. */
  lemma {:induction false} CarriedAll(items: seq<Json>, field: string)
    requires forall j :: 0 <= j < |items| ==> Stamp(items[j], field).Some?
    ensures Carried(items, field) == seq(|items|, j requires 0 <= j < |items| => Stamp(items[j], field).value)
    decreases |items|
  {
    if items != [] {
      var rest := items[1..];
      assert forall j :: 0 <= j < |rest| ==> rest[j] == items[j + 1];
      CarriedAll(rest, field);
    }
  }

  /** The timestamps carried by the events of each list in turn; a value that
      is not a list carries none. */
  function CarriedLists(values: seq<Json>, field: string): seq<int>
    decreases |values|
  {
    if values == [] then []
    else (if values[0].JArr? then Carried(values[0].elems, field) else []) + CarriedLists(values[1..], field)
  }

  /** On event lists the scan yields every list's carried timestamps, list
      after list. */
  lemma {:induction false} ScanEventListsExact(values: seq<Json>, field: string)
    requires forall i :: 0 <= i < |values| ==> EventList(values[i], field)
    ensures ScanEach(values, field) == Ok(CarriedLists(values, field))
    decreases |values|
  {
    if values != [] {
      var rest := values[1..];
      assert forall i :: 0 <= i < |rest| ==> rest[i] == values[i + 1];
      ScanEventListsExact(rest, field);
      ScanEventsExact(values[0].elems, field);
    }
  }

  /** Tier 1 on a tier-1 dialect file: the timestamps of every list of the
      file, in document order, repeats kept. */
  lemma ShallowTier1Exact(file: Json, field: string)
    requires Shallow(file, field)
    ensures Tier1(file, field) == Ok(CarriedLists(Values(file).value, field))
  {
    ScanEventListsExact(Values(file).value, field);
  }

  /** The timestamps carried by the event lists of each nested dict in turn;
      a value that is not a dict carries none. */
  function CarriedNested(values: seq<Json>, field: string): seq<int>
    decreases |values|
  {
    if values == [] then []
    else (if values[0].JObj? then CarriedLists(Values(values[0]).value, field) else []) + CarriedNested(values[1..], field)
  }

  /** Tier 2 on the values of a tier-2 dialect file: every inner list's
      timestamps, in document order, repeats kept. */
  lemma {:induction false} NestedTier2Exact(values: seq<Json>, field: string)
    requires forall i :: 0 <= i < |values| ==> NestedValue(values[i], field)
    ensures ScanNested(values, field) == Ok(CarriedNested(values, field))
    decreases |values|
  {
    if values != [] {
      var rest := values[1..];
      assert forall i :: 0 <= i < |rest| ==> rest[i] == values[i + 1];
      NestedTier2Exact(rest, field);
      ScanEventListsExact(Values(values[0]).value, field);
    }
  }

  /** Items lacking the field never contribute: dropping a dict without the
      field from any position leaves the scan unchanged. */
  lemma {:induction false} LackingFieldIgnored(items: seq<Json>, k: nat, field: string)
    requires k < |items|
    requires items[k].JObj? && Lookup(items[k].members, field).None?
    ensures ScanItems(items, field) == ScanItems(items[..k] + items[k + 1..], field)
    decreases k
  {
    if k == 0 {
      assert ItemStamp(items[0], field) == Ok(None);
      assert items[..0] + items[1..] == items[1..];

    } else {
      var rest := items[1..];
      LackingFieldIgnored(rest, k - 1, field);
      var dropped := items[..k] + items[k + 1..];
      assert dropped[0] == items[0];
      assert dropped[1..] == rest[..k - 1] + rest[k..];
    }
  }

  /** Scanning a list of event lists raises nothing, and a date is in its
      result exactly when some event of some list carries it. */
  lemma {:induction false} ScanEventListsMembers(values: seq<Json>, field: string)
    requires forall i :: 0 <= i < |values| ==> EventList(values[i], field)
    ensures ScanEach(values, field).Ok?
    ensures forall x :: x in ScanEach(values, field).value <==>
              exists i, j :: 0 <= i < |values| && EventList(values[i], field) && 0 <= j < |values[i].elems| &&
                Stamp(values[i].elems[j], field) == Some(x)
    decreases |values|
  {
    if values != [] {
      var rest := values[1..];
      ScanEventListsMembers(rest, field);
      assert forall i :: 1 <= i < |values| ==> values[i] == rest[i - 1];
      var first := values[0].elems;
      ScanEventsMembers(first, field);
      forall x | x in ScanEach(values, field).value
        ensures exists i, j :: 0 <= i < |values| && EventList(values[i], field) && 0 <= j < |values[i].elems| &&
                  Stamp(values[i].elems[j], field) == Some(x)
      {
        if x in ScanItems(first, field).value {
          var j :| 0 <= j < |first| && Stamp(first[j], field) == Some(x);
          assert Stamp(values[0].elems[j], field) == Some(x);
        } else {
          var i, j :| 0 <= i < |rest| && EventList(rest[i], field) && 0 <= j < |rest[i].elems| &&
                      Stamp(rest[i].elems[j], field) == Some(x);
          assert Stamp(values[i + 1].elems[j], field) == Some(x);
        }
      }
      forall x | exists i, j :: 0 <= i < |values| && EventList(values[i], field) && 0 <= j < |values[i].elems| &&
                   Stamp(values[i].elems[j], field) == Some(x)
        ensures x in ScanEach(values, field).value
      {
        var i, j :| 0 <= i < |values| && EventList(values[i], field) && 0 <= j < |values[i].elems| &&
                   Stamp(values[i].elems[j], field) == Some(x);
        if i == 0 {
          assert Stamp(first[j], field) == Some(x);
        } else {
          assert Stamp(rest[i - 1].elems[j], field) == Some(x);
        }
      }
    }
  }

  /** Tier 1 on a tier-1 dialect file raises nothing, and a date is in its
      result exactly when some event of some list carries it. */
  lemma ShallowTier1(file: Json, field: string)
    requires Shallow(file, field)
    ensures Tier1(file, field).Ok?
    ensures forall x :: x in Tier1(file, field).value <==>
              exists i, j :: 0 <= i < |file.members| && EventList(file.members[i].1, field) && 0 <= j < |file.members[i].1.elems| &&
                Stamp(file.members[i].1.elems[j], field) == Some(x)
  {
    var values := Values(file).value;
    ScanEventListsMembers(values, field);
  }

  /** A tier-1 dialect file with at least one timestamped event yields exactly
      tier 1's timestamps; one without any yields None. */
  lemma ShallowResult(file: Json, field: string, toDate: int -> Date)
    requires Shallow(file, field)
    ensures Tier1(file, field).Ok?
    ensures (exists i, j :: 0 <= i < |file.members| && EventList(file.members[i].1, field) && 0 <= j < |file.members[i].1.elems| &&
               Stamp(file.members[i].1.elems[j], field).Some?)
            ==> GetTimestamps(file, field, toDate) == Ok(Some(ToDates(Tier1(file, field).value, toDate)))
    ensures (forall i, j :: 0 <= i < |file.members| && EventList(file.members[i].1, field) && 0 <= j < |file.members[i].1.elems| ==>
               Stamp(file.members[i].1.elems[j], field).None?)
            ==> GetTimestamps(file, field, toDate) == Ok(None)
  {
    ShallowTier1(file, field);
    var t1 := Tier1(file, field).value;
    if exists i, j :: 0 <= i < |file.members| && EventList(file.members[i].1, field) && 0 <= j < |file.members[i].1.elems| &&
         Stamp(file.members[i].1.elems[j], field).Some? {
      var i, j :| 0 <= i < |file.members| && EventList(file.members[i].1, field) && 0 <= j < |file.members[i].1.elems| &&
         Stamp(file.members[i].1.elems[j], field).Some?;
      assert Stamp(file.members[i].1.elems[j], field).value in t1;
    } else {
      var values := Values(file).value;
      NoStampsEach(values, field);
      ShallowNoNested(values, field);
    }
  }

  /** Tier 2 over lists (the tier-1 dialect) finds nothing and raises nothing. */
  lemma {:induction false} ShallowNoNested(values: seq<Json>, field: string)
    requires forall i :: 0 <= i < |values| ==> EventList(values[i], field)
    ensures ScanNested(values, field) == Ok([])
    decreases |values|
  {
    if values != [] {
      ShallowNoNested(values[1..], field);
      var none: seq<int> := [];
      assert none + none == none;
    }
  }

  /** Events none of which carries the field contribute nothing. */
  lemma {:induction false} NoStamps(items: seq<Json>, field: string)
    requires forall j :: 0 <= j < |items| ==> Event(items[j], field) && Stamp(items[j], field).None?
    ensures ScanItems(items, field) == Ok([])
    decreases |items|
  {
    if items != [] {
      NoStamps(items[1..], field);
      assert ItemStamp(items[0], field) == Ok(None);
    }
  }

  lemma {:induction false} NoStampsEach(values: seq<Json>, field: string)
    requires forall i :: 0 <= i < |values| ==> EventList(values[i], field)
    requires forall i, j :: 0 <= i < |values| && EventList(values[i], field) && 0 <= j < |values[i].elems| ==>
               Stamp(values[i].elems[j], field).None?
    ensures ScanEach(values, field) == Ok([])
    decreases |values|
  {
    if values != [] {
      NoStampsEach(values[1..], field);
      assert forall i :: 1 <= i < |values| ==> values[i] == values[1..][i - 1];
      NoStamps(values[0].elems, field);
      var none: seq<int> := [];
      assert none + none == none;
    }
  }

  /** Tier 1 iterates the keys of a dict value as strings; keys that do not
      contain the field name are skipped without raising. */
  lemma {:induction false} KeysSkipped(keys: seq<Json>, field: string)
    requires forall j :: 0 <= j < |keys| ==> keys[j].JStr? && !Contains(keys[j].s, field)
    ensures ScanItems(keys, field) == Ok([])
    decreases |keys|
  {
    if keys != [] {
      KeysSkipped(keys[1..], field);
      assert ItemStamp(keys[0], field) == Ok(None);
    }
  }

  lemma {:induction false} NestedTier1Empty(values: seq<Json>, field: string)
    requires forall i :: 0 <= i < |values| ==> NestedValue(values[i], field)
    ensures ScanEach(values, field) == Ok([])
    decreases |values|
  {
    if values != [] {
      NestedTier1Empty(values[1..], field);
      assert forall i :: 1 <= i < |values| ==> values[i] == values[1..][i - 1];
      KeysSkipped(Items(values[0]).value, field);
      var none: seq<int> := [];
      assert none + none == none;
    }
  }

  lemma {:induction false} NestedTier2Ok(values: seq<Json>, field: string)
    requires forall i :: 0 <= i < |values| ==> NestedValue(values[i], field)
    ensures ScanNested(values, field).Ok?
    decreases |values|
  {
    if values != [] {
      NestedTier2Ok(values[1..], field);
      assert forall i :: 1 <= i < |values| ==> values[i] == values[1..][i - 1];
      ScanEventListsMembers(Values(values[0]).value, field);
    }
  }

  /** Tier fallback: on a tier-2 dialect file tier 1 finds nothing, tier 2
      raises nothing, and the result is tier 2's timestamps (None when tier 2
      is empty too, which includes the empty dict). */
  lemma NestedResult(file: Json, field: string, toDate: int -> Date)
    requires Nested(file, field)
    ensures Tier1(file, field) == Ok([])
    ensures Tier2(file, field).Ok?
    ensures Tier2(file, field).value != [] ==>
              GetTimestamps(file, field, toDate) == Ok(Some(ToDates(Tier2(file, field).value, toDate)))
    ensures Tier2(file, field).value == [] ==> GetTimestamps(file, field, toDate) == Ok(None)
    ensures Tier2(file, field) == Ok(CarriedNested(Values(file).value, field))
  {
    var values := Values(file).value;
    NestedTier1Empty(values, field);
    NestedTier2Ok(values, field);
    NestedTier2Exact(values, field);
  }

  // ---------------------------------------------------------------------
  // Tier 2 as written

  /** Where the source's tier 2 raises nothing, the corrected tier 2 computes
      the same timestamps. */
  lemma {:induction false} NestedAsWrittenRefined(values: seq<Json>, field: string)
    requires ScanNestedAsWritten(values, field).Ok?
    ensures ScanNested(values, field) == ScanNestedAsWritten(values, field)
    decreases |values|
  {
    if values != [] {
      NestedAsWrittenRefined(values[1..], field);
    }
  }

  /** The corrected extractor agrees with the source on every file the source
      processes without raising. */
  lemma AsWrittenRefined(file: Json, field: string, toDate: int -> Date)
    requires GetTimestampsAsWritten(file, field, toDate).Ok?
    ensures GetTimestamps(file, field, toDate) == GetTimestampsAsWritten(file, field, toDate)
  {
    if !Falsy(file) && Tier1(file, field) == Ok([]) {
      NestedAsWrittenRefined(Values(file).value, field);
    }
  }

  /** As written, a tier-1 dialect file none of whose events carries the field
      raises AttributeError in tier 2 (a list has no `.values()`), instead of
      being reported as holding no timestamps; the corrected extractor gives
      None. */
  lemma ShallowWithoutStampsRaises(file: Json, field: string, toDate: int -> Date)
    requires Shallow(file, field) && file.members != []
    requires forall i, j :: 0 <= i < |file.members| && EventList(file.members[i].1, field) &&
                           0 <= j < |file.members[i].1.elems|
                           ==> Stamp(file.members[i].1.elems[j], field).None?
    ensures GetTimestampsAsWritten(file, field, toDate) == Err(AttributeError)
    ensures GetTimestamps(file, field, toDate) == Ok(None)
  {
    var values := Values(file).value;
    NoStampsEach(values, field);
    ShallowResult(file, field, toDate);
  }

  /** The smallest instance: `{"friends": []}`. */
  lemma EmptyFriendListRaises(toDate: int -> Date)
    ensures GetTimestampsAsWritten(JObj([("friends", JArr([]))]), DefaultField, toDate) == Err(AttributeError)
    ensures GetTimestamps(JObj([("friends", JArr([]))]), DefaultField, toDate) == Ok(None)
  {
    ShallowWithoutStampsRaises(JObj([("friends", JArr([]))]), DefaultField, toDate);
  }
}
