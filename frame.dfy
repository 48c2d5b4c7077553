/** The counting table (`create_dataframe`): one column per activity list,
    holding how many events of that activity fall on each date. A table is a
    map from column name to the per-date counts of that column; a date with no
    event in a column has no count there (pandas shows NaN). */
module Frame {
  import opened Json

  type Counts = map<Date, nat>
  type Table = map<string, Counts>

  /** The value of one data attribute of the quantifier. */
  datatype Activity =
    | Absent                                  // None
    | Dates(dates: seq<Date>)                 // a list of dates
    | Columns(columns: map<string, seq<Date>>) // a dict of named date lists

  /** Python's `not attribute`. */
  predicate FalsyActivity(a: Activity) {
    match a
    case Absent => true
    case Dates(ds) => ds == []
    case Columns(m) => m == map[]
  }

  /** `pd.Series(dates).value_counts()`, counted one date at a time. */
  function Tally(dates: seq<Date>): Counts
    decreases |dates|
  {
    if dates == [] then map[]
    else
      var c := Tally(dates[..|dates| - 1]);
      var last := dates[|dates| - 1];
      c[last := (if last in c then c[last] else 0) + 1]
  }

  /** The counts are what `value_counts` promises: each date that occurs,
      with the number of times it occurs. */
  lemma {:induction false} TallyCounts(dates: seq<Date>)
    ensures forall d :: d in Tally(dates) <==> d in dates
    ensures forall d :: d in Tally(dates) ==> Tally(dates)[d] == multiset(dates)[d]
    decreases |dates|
  {
    if dates != [] {
      var prev := dates[..|dates| - 1];
      TallyCounts(prev);
      assert dates == prev + [dates[|dates| - 1]];
    }
  }

  /** Counting does not depend on the order of the dates. */
  lemma TallyPermutation(a: seq<Date>, b: seq<Date>)
    requires multiset(a) == multiset(b)
    ensures Tally(a) == Tally(b)
  {
    TallyCounts(a);
    TallyCounts(b);
    assert forall d :: d in a <==> d in multiset(a);
    assert forall d :: d in b <==> d in multiset(b);
  }

  /** Counting one more date adds one to its count. */
  lemma TallyStep(dates: seq<Date>, i: nat)
    requires i < |dates|
    ensures var c := Tally(dates[..i]);
            Tally(dates[..i + 1]) == c[dates[i] := (if dates[i] in c then c[dates[i]] else 0) + 1]
  {
    assert dates[..i + 1][..i] == dates[..i];
  }

  /** Dicts with the same keys whose lists hold the same dates, order
      aside, give the same count columns. */
  lemma CountedPermutation(cols: map<string, seq<Date>>, others: map<string, seq<Date>>)
    requires cols.Keys == others.Keys
    requires forall k :: k in cols ==> multiset(cols[k]) == multiset(others[k])
    ensures Counted(cols) == Counted(others)
  {
    forall k | k in cols
      ensures Tally(cols[k]) == Tally(others[k])
    {
      TallyPermutation(cols[k], others[k]);
    }
  }

  /** The counting loop: every date adds one to its count. */
  method ValueCounts(dates: seq<Date>) returns (c: Counts)
    ensures c == Tally(dates)
  {
    c := map[];
    var i := 0;
    while i < |dates|
      invariant 0 <= i <= |dates|
      invariant c == Tally(dates[..i])
    {
      TallyStep(dates, i);
      var d := dates[i];
      if d in c {
        c := c[d := c[d] + 1];
      } else {
        c := c[d := 1];
      }
      i := i + 1;
    }
    assert dates[..i] == dates;
  }

  /** One count column per date list. */
  function Counted(cols: map<string, seq<Date>>): (t: Table)
    ensures t.Keys == cols.Keys
    ensures forall k :: k in cols ==> t[k] == Tally(cols[k])
  {
    map k | k in cols :: Tally(cols[k])
  }

  /** Outer joins of one column per date list in `cols`: a column name the
      table already has makes pandas raise. */
  function Join(table: Table, cols: map<string, seq<Date>>): (r: Result<Table>)
    ensures r.Ok? <==> cols.Keys !! table.Keys
    ensures r.Ok? ==> r.value.Keys == table.Keys + cols.Keys
    ensures r.Ok? ==> forall k :: k in table ==> r.value[k] == table[k]
    ensures r.Ok? ==> forall k :: k in cols ==> r.value[k] == Tally(cols[k])
  {
    if cols.Keys !! table.Keys then Ok(table + Counted(cols))
    else Err(ValueError)
  }

  /** The columns one attribute contributes: none when it is falsy, one named
      after the attribute for a list, one per key for a dict. */
  function Contribution(name: string, a: Activity): (cols: map<string, seq<Date>>)
    ensures FalsyActivity(a) ==> cols == map[]
  {
    match a
    case Absent => map[]
    case Dates(ds) => if ds == [] then map[] else map[name := ds]
    case Columns(m) => m
  }

  /** The table after the attributes in `acts` have been joined in order. */
  function Frame(acts: seq<(string, Activity)>): (r: Result<Table>)
    ensures r.Ok? ==> r.value.Keys == AllLabels(acts)
    ensures r.Err? ==> r.error == ValueError
    decreases |acts|
  {
    if acts == [] then Ok(map[])
    else
      match Frame(acts[..|acts| - 1])
      case Err(e) => Err(e)
      case Ok(t) => Join(t, Contribution(acts[|acts| - 1].0, acts[|acts| - 1].1))
  }

  /** A table holding the old columns and the counts of every new list is
      the joined table. */
  lemma JoinedAll(table: Table, cols: map<string, seq<Date>>, t: Table)
    requires cols.Keys !! table.Keys && t.Keys == table.Keys + cols.Keys
    requires forall k :: k in table ==> t[k] == table[k]
    requires forall k :: k in cols ==> t[k] == Tally(cols[k])
    ensures Join(table, cols) == Ok(t)
  {
    var expected := table + Counted(cols);
    assert t.Keys == expected.Keys;
    forall k | k in t
      ensures t[k] == expected[k]
    {
      if k in cols {
        assert expected[k] == Tally(cols[k]);
      }
    }
    assert t == expected;
  }

  /** Part way through the inner loop: the old columns are untouched and each
      key already visited has its count column. */
  ghost predicate Joining(table: Table, cols: map<string, seq<Date>>, pending: set<string>, t: Table) {
    pending <= cols.Keys &&
    (forall k :: k in cols && k !in pending ==> k !in table) &&
    (forall k :: k in t <==> k in table || (k in cols && k !in pending)) &&
    (forall k :: k in table ==> t[k] == table[k]) &&
    (forall k :: k in cols && k !in pending ==> t[k] == Tally(cols[k]))
  }

  lemma JoiningStep(table: Table, cols: map<string, seq<Date>>, pending: set<string>, t: Table, key: string)
    requires Joining(table, cols, pending, t) && key in pending && key !in t
    ensures Joining(table, cols, pending - {key}, t[key := Tally(cols[key])])
  {
  }

  lemma JoiningDone(table: Table, cols: map<string, seq<Date>>, t: Table)
    requires Joining(table, cols, {}, t)
    ensures Join(table, cols) == Ok(t)
  {
    JoinedAll(table, cols, t);
  }

  lemma JoiningClash(table: Table, cols: map<string, seq<Date>>, pending: set<string>, t: Table, key: string)
    requires Joining(table, cols, pending, t) && key in pending && key in t
    ensures Join(table, cols) == Err(ValueError)
  {
    assert key in cols.Keys && key in table.Keys;
  }

  /** The inner loop over a dict attribute, one join per key, in whatever
      order the keys come. */
  method JoinColumns(table: Table, cols: map<string, seq<Date>>) returns (r: Result<Table>)
    ensures r == Join(table, cols)
  {
    var t := table;
    var pending := cols.Keys;
    while pending != {}
      invariant Joining(table, cols, pending, t)
      decreases |pending|
    {
      var key :| key in pending;
      if key in t {
        JoiningClash(table, cols, pending, t, key);
        return Err(ValueError);
      }
      var counts := ValueCounts(cols[key]);
      JoiningStep(table, cols, pending, t, key);
      t := t[key := counts];
      pending := pending - {key};
    }
    JoiningDone(table, cols, t);
    return Ok(t);
  }

  /** `create_dataframe`: for each data attribute in order, skip it when it is
      falsy, otherwise join its column or columns. */
  method CreateDataframe(acts: seq<(string, Activity)>) returns (r: Result<Table>)
    ensures r == Frame(acts)
  {
    var table: Table := map[];
    var i := 0;
    while i < |acts|
      invariant 0 <= i <= |acts|
      invariant Frame(acts[..i]) == Ok(table)
    {
      assert acts[..i + 1][..i] == acts[..i];
      var (name, attribute) := acts[i];
      if !FalsyActivity(attribute) {
        var joined: Result<Table>;
        if attribute.Dates? {
          joined := JoinColumns(table, map[name := attribute.dates]);
        } else {
          joined := JoinColumns(table, attribute.columns);
        }
        if joined.Err? {
          FrameErrPersists(acts, i + 1);
          return joined;
        }
        table := joined.value;
      } else {
        assert Contribution(name, attribute) == map[];
        assert table + Counted(map[]) == table;
      }
      i := i + 1;
    }
    assert acts[..i] == acts;
    return Ok(table);
  }

  /** Two attribute lists whose attributes contribute, position by position,
      the same column names with the same counts. */
  predicate SameCounts(acts: seq<(string, Activity)>, others: seq<(string, Activity)>) {
    |acts| == |others| &&
    forall i :: 0 <= i < |acts| ==>
      Counted(Contribution(acts[i].0, acts[i].1)) == Counted(Contribution(others[i].0, others[i].1))
  }

  /** The table depends only on the counts each attribute contributes, not on
      the order of the dates within a list. */
  lemma {:induction false} FrameCountsOnly(acts: seq<(string, Activity)>, others: seq<(string, Activity)>)
    requires SameCounts(acts, others)
    ensures Frame(acts) == Frame(others)
    decreases |acts|
  {
    if acts != [] {
      var n := |acts| - 1;
      assert SameCounts(acts[..n], others[..n]) by {
        forall i | 0 <= i < n
          ensures acts[..n][i] == acts[i] && others[..n][i] == others[i]
        {
        }
      }
      FrameCountsOnly(acts[..n], others[..n]);
      var cols := Contribution(acts[n].0, acts[n].1);
      var cols' := Contribution(others[n].0, others[n].1);
      assert Counted(cols) == Counted(cols');
      assert cols.Keys == Counted(cols).Keys == cols'.Keys;
    }
  }

  /** Once a join raises, the whole table raises. */
  lemma {:induction false} FrameErrPersists(acts: seq<(string, Activity)>, k: nat)
    requires k <= |acts| && Frame(acts[..k]).Err?
    ensures Frame(acts) == Frame(acts[..k])
    decreases |acts| - k
  {
    if k < |acts| {
      assert acts[..k + 1][..k] == acts[..k];
      FrameErrPersists(acts, k + 1);
    } else {
      assert acts[..k] == acts;
    }
  }

  /** The column names an attribute contributes. */
  function Labels(name: string, a: Activity): set<string> {
    Contribution(name, a).Keys
  }

  /** No two attributes contribute a column of the same name. */
  predicate DistinctLabels(acts: seq<(string, Activity)>) {
    forall i, j :: 0 <= i < j < |acts| ==> Labels(acts[i].0, acts[i].1) !! Labels(acts[j].0, acts[j].1)
  }

  /** Every column name contributed by the attributes in `acts`. */
  function AllLabels(acts: seq<(string, Activity)>): set<string>
    decreases |acts|
  {
    if acts == [] then {} else AllLabels(acts[..|acts| - 1]) + Labels(acts[|acts| - 1].0, acts[|acts| - 1].1)
  }

  /** Two attributes contributing a column of the same name make the outer
      join of the later one raise ValueError, and the table with it. */
  lemma {:induction false} FrameClash(acts: seq<(string, Activity)>)
    requires !DistinctLabels(acts)
    ensures Frame(acts) == Err(ValueError)
    decreases |acts|
  {
    var n := |acts| - 1;
    var prev := acts[..n];
    if !DistinctLabels(prev) {
      FrameClash(prev);
    } else {
      var i, j :| 0 <= i < j < |acts| && !(Labels(acts[i].0, acts[i].1) !! Labels(acts[j].0, acts[j].1));
      if j < n {
        assert false;
      }
      LaterClash(prev, acts[n], i);
      assert acts == prev + [acts[n]];
    }
  }

  /** A last attribute sharing a column name with attribute `i` of an
      otherwise joinable list makes its join raise. */
  lemma LaterClash(prev: seq<(string, Activity)>, last: (string, Activity), i: nat)
    requires DistinctLabels(prev) && i < |prev|
    requires !(Labels(prev[i].0, prev[i].1) !! Labels(last.0, last.1))
    ensures Frame(prev + [last]) == Err(ValueError)
  {
    var k :| k in Labels(prev[i].0, prev[i].1) && k in Labels(last.0, last.1);
    FrameJoinable(prev);
    LabelsIncluded(prev, i);
    assert (prev + [last])[..|prev|] == prev;
    assert k in Frame(prev).value.Keys && k in Contribution(last.0, last.1).Keys;
  }

  /** Attributes with distinct column names join without error. */
  lemma FrameJoinable(acts: seq<(string, Activity)>)
    requires DistinctLabels(acts)
    ensures Frame(acts).Ok?
  {
    FrameColumns(acts);
  }

  lemma {:induction false} LabelsIncluded(acts: seq<(string, Activity)>, i: nat)
    requires i < |acts|
    ensures Labels(acts[i].0, acts[i].1) <= AllLabels(acts)
    decreases |acts|
  {
    if i < |acts| - 1 {
      var prev := acts[..|acts| - 1];
      LabelsIncluded(prev, i);
      assert prev[i] == acts[i];
    }
  }

  lemma {:induction false} LabelOwner(acts: seq<(string, Activity)>, k: string) returns (i: nat)
    requires k in AllLabels(acts)
    ensures i < |acts| && k in Labels(acts[i].0, acts[i].1)
    decreases |acts|
  {
    var n := |acts| - 1;
    if k in Labels(acts[n].0, acts[n].1) {
      i := n;
    } else {
      var prev := acts[..n];
      i := LabelOwner(prev, k);
      assert prev[i] == acts[i];
    }
  }

  lemma DistinctPrefix(acts: seq<(string, Activity)>, n: nat)
    requires DistinctLabels(acts) && n <= |acts|
    ensures DistinctLabels(acts[..n])
  {
    var prev := acts[..n];
    forall i, j | 0 <= i < j < |prev|
      ensures Labels(prev[i].0, prev[i].1) !! Labels(prev[j].0, prev[j].1)
    {
      assert prev[i] == acts[i] && prev[j] == acts[j];
    }
  }

  /** With distinct column names the table is built without error; it has
      exactly the contributed columns, and each holds the counts of its list. */
  lemma {:induction false} FrameColumns(acts: seq<(string, Activity)>)
    requires DistinctLabels(acts)
    ensures Frame(acts).Ok?
    ensures Frame(acts).value.Keys == AllLabels(acts)
    ensures forall i, k :: 0 <= i < |acts| && k in Contribution(acts[i].0, acts[i].1) ==>
              k in Frame(acts).value && Frame(acts).value[k] == Tally(Contribution(acts[i].0, acts[i].1)[k])
    decreases |acts|
  {
    if acts != [] {
      var n := |acts| - 1;
      var prev := acts[..n];
      DistinctPrefix(acts, n);
      FrameColumns(prev);
      var t := Frame(prev).value;
      var cols := Contribution(acts[n].0, acts[n].1);
      assert cols.Keys !! t.Keys by {
        forall k | k in cols.Keys && k in t.Keys ensures false {
          var i := LabelOwner(prev, k);
        }
      }
      assert Frame(acts) == Join(t, cols);
      forall i, k | 0 <= i < |acts| && k in Contribution(acts[i].0, acts[i].1)
        ensures k in Frame(acts).value && Frame(acts).value[k] == Tally(Contribution(acts[i].0, acts[i].1)[k])
      {
        if i < n {
          assert prev[i] == acts[i];
        }
      }
    }
  }

  /** A cell of the table: the number of events of column `k` on date `d`,
      whose row exists when at least one column has an event that day. */
  lemma CellCounts(acts: seq<(string, Activity)>, i: nat, k: string, d: Date)
    requires DistinctLabels(acts) && i < |acts| && k in Contribution(acts[i].0, acts[i].1)
    ensures Frame(acts).Ok? && k in Frame(acts).value
    ensures var column := Frame(acts).value[k];
            var dates := Contribution(acts[i].0, acts[i].1)[k];
            (d in column <==> d in dates) && (d in column ==> column[d] == multiset(dates)[d])
  {
    FrameColumns(acts);
    TallyCounts(Contribution(acts[i].0, acts[i].1)[k]);
  }
}
