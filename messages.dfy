/** The message attributor (`get_messages`): every message of every message
    file is dated and filed as sent (its normalised sender is the user) or
    received (it is not). When no message is found to be sent, the two lists
    collapse into one unattributed list. */
module Messages {
  import opened Json

  const SentKey: string := "message_sent"
  const ReceivedKey: string := "message_received"
  const EitherKey: string := "message_received_or_sent"

  /** `str.lower` on one character, for the ASCII letters. */
  function LowerChar(c: char): char {
    if 'A' <= c <= 'Z' then (c as int + 32) as char else c
  }

  /** A name with no spaces and no upper-case ASCII letters. */
  predicate IsNormal(name: string) {
    forall i :: 0 <= i < |name| ==> name[i] != ' ' && !('A' <= name[i] <= 'Z')
  }

  /** `name.replace(" ", "").lower()`, applied to the configured user name and
      to every sender name. */
  function Normalize(name: string): (r: string)
    ensures IsNormal(r)
    ensures |r| <= |name|
    decreases |name|
  {
    if name == [] then []
    else if name[0] == ' ' then Normalize(name[1..])
    else [LowerChar(name[0])] + Normalize(name[1..])
  }

  /** A name already in normal form is left unchanged. */
  lemma {:induction false} NormalFixed(name: string)
    requires IsNormal(name)
    ensures Normalize(name) == name
    decreases |name|
  {
    if name != [] {
      assert IsNormal(name[1..]) by {
        forall i | 0 <= i < |name[1..]| ensures name[1..][i] != ' ' && !('A' <= name[1..][i] <= 'Z') {
          assert name[1..][i] == name[i + 1];
        }
      }
      NormalFixed(name[1..]);
      assert name == [name[0]] + name[1..];
    }
  }

  /** Normalising twice is normalising once. */
  lemma NormalizeIdempotent(name: string)
    ensures Normalize(Normalize(name)) == Normalize(name)
  {
    NormalFixed(Normalize(name));
  }

  /** Normalising a concatenation normalises each part on its own: the
      characters are handled one at a time, in place. */
  lemma {:induction false} NormalizeAppend(a: string, b: string)
    ensures Normalize(a + b) == Normalize(a) + Normalize(b)
    decreases |a|
  {
    if a == [] {
      assert a + b == b;
    } else {
      assert (a + b)[0] == a[0];
      assert (a + b)[1..] == a[1..] + b;
      NormalizeAppend(a[1..], b);
    }
  }

  /** One character: a space is dropped, anything else is kept lower-cased. */
  lemma NormalizeChar(c: char)
    ensures c == ' ' ==> Normalize([c]) == []
    ensures c != ' ' ==> Normalize([c]) == [LowerChar(c)]
  {
    assert [c][1..] == [];
  }

  /** A space removed from anywhere in a name leaves its normal form
      unchanged. */
  lemma SpaceDropped(a: string, b: string)
    ensures Normalize(a + " " + b) == Normalize(a + b)
  {
    NormalizeAppend(a + " ", b);
    NormalizeAppend(a, " ");
    NormalizeAppend(a, b);
    NormalizeChar(' ');
  }

  /** `message["sender_name"]`, which must be a string since it is
      `.replace`d. */
  function Sender(m: Json): (r: Result<string>)
    ensures r.Ok? <==> Key(m, "sender_name").Ok? && Key(m, "sender_name").value.JStr?
    ensures r.Ok? ==> r.value == Key(m, "sender_name").value.s
  {
    match Key(m, "sender_name")
    case Err(e) => Err(e)
    case Ok(name) => if name.JStr? then Ok(name.s) else Err(AttributeError)
  }

  /** `message["timestamp_ms"] / 1000`, the seconds the date is taken from. */
  function SentAt(m: Json): Result<int> {
    match Key(m, "timestamp_ms")
    case Err(e) => Err(e)
    case Ok(ms) => MillisToSeconds(ms)
  }

  /** A message both comprehensions can read. */
  predicate Readable(m: Json) {
    Sender(m).Ok? && SentAt(m).Ok?
  }

  /** The filter at facebook_quantifier.py:317 when `sent`, and its negation
      at :325 otherwise. */
  predicate Selected(user: string, m: Json, sent: bool)
    requires Sender(m).Ok?
  {
    (Normalize(Sender(m).value) == user) == sent
  }

  /** One of the two comprehensions over a file's messages. The filter is
      evaluated first, so every sender is read; only a selected message's
      timestamp is read. */
  function Pass(user: string, items: seq<Json>, sent: bool, toDate: int -> Date): (r: Result<seq<Date>>)
    ensures r.Ok? ==> |r.value| <= |items|
    decreases |items|
  {
    if items == [] then Ok([])
    else
      match Sender(items[0])
      case Err(e) => Err(e)
      case Ok(name) =>
        if (Normalize(name) == user) != sent then Pass(user, items[1..], sent, toDate)
        else
          match SentAt(items[0])
          case Err(e) => Err(e)
          case Ok(t) =>
            match Pass(user, items[1..], sent, toDate)
            case Err(e) => Err(e)
            case Ok(rest) => Ok([toDate(t)] + rest)
  }

  /** `json_file["messages"]`, iterated. */
  function MessageItems(file: Json): Result<seq<Json>> {
    match Key(file, "messages")
    case Err(e) => Err(e)
    case Ok(list) => Items(list)
  }

  /** One file's contribution: the sent comprehension, then the received one. */
  function FileDates(user: string, file: Json, toDate: int -> Date): (r: Result<(seq<Date>, seq<Date>)>)
    ensures r.Ok? ==> MessageItems(file).Ok? &&
                      |r.value.0| <= |MessageItems(file).value| && |r.value.1| <= |MessageItems(file).value|
  {
    match MessageItems(file)
    case Err(e) => Err(e)
    case Ok(items) =>
      match Pass(user, items, true, toDate)
      case Err(e) => Err(e)
      case Ok(sent) =>
        match Pass(user, items, false, toDate)
        case Err(e) => Err(e)
        case Ok(received) => Ok((sent, received))
  }

  /** `message_sent` and `message_received` after the given files, file after
      file; the first file that raises decides. */
  function Gathered(user: string, files: seq<Json>, toDate: int -> Date): Result<(seq<Date>, seq<Date>)>
    decreases |files|
  {
    if files == [] then Ok(([], []))
    else
      match Gathered(user, files[..|files| - 1], toDate)
      case Err(e) => Err(e)
      case Ok(prev) =>
        match FileDates(user, files[|files| - 1], toDate)
        case Err(e) => Err(e)
        case Ok(d) => Ok((prev.0 + d.0, prev.1 + d.1))
  }

  /** The dict `get_messages` returns once every file is read. */
  function Attribute(sent: seq<Date>, received: seq<Date>): (m: map<string, seq<Date>>)
    ensures sent == [] ==> m.Keys == {EitherKey} && m[EitherKey] == received
    ensures sent != [] ==> m.Keys == {SentKey, ReceivedKey} && m[SentKey] == sent && m[ReceivedKey] == received
  {
    if sent == [] then map[EitherKey := received]
    else map[SentKey := sent, ReceivedKey := received]
  }

  /** Once a prefix of the files raises, the whole run raises that error. */
  lemma {:induction false} GatheredErrPersists(user: string, files: seq<Json>, k: nat, toDate: int -> Date)
    requires k <= |files| && Gathered(user, files[..k], toDate).Err?
    ensures Gathered(user, files, toDate) == Gathered(user, files[..k], toDate)
    decreases |files| - k
  {
    if k < |files| {
      assert files[..k + 1][..k] == files[..k];
      GatheredErrPersists(user, files, k + 1, toDate);
    } else {
      assert files[..k] == files;
    }
  }

  /** The tail of `get_messages`: with no sent message, `message_sent` is
      deleted and `message_received` popped into `message_received_or_sent`. */
  method Collapse(messages: map<string, seq<Date>>) returns (m: map<string, seq<Date>>)
    requires messages.Keys == {SentKey, ReceivedKey}
    ensures m == Attribute(messages[SentKey], messages[ReceivedKey])
  {
    m := messages;
    if m[SentKey] == [] {
      m := m - {SentKey};
      var received := m[ReceivedKey];
      m := m - {ReceivedKey};
      assert m == map[];
      m := m[EitherKey := received];
    } else {
      assert m == map[SentKey := m[SentKey], ReceivedKey := m[ReceivedKey]];
    }
  }

  /** What `get_messages` returns: None without message files, the first
      error a file raises, or the attributed dict. */
  function Expected(user: string, files: seq<Json>, toDate: int -> Date): Result<Option<map<string, seq<Date>>>> {
    if files == [] then Ok(None)
    else
      match Gathered(user, files, toDate)
      case Err(e) => Err(e)
      case Ok(g) => Ok(Some(Attribute(g.0, g.1)))
  }

  /** `get_messages`: for each file, extends `message_sent` by the sent
      comprehension and then `message_received` by the received one; at the
      end folds the two lists into one when nothing was sent. */
  method GetMessages(user: string, files: seq<Json>, toDate: int -> Date)
    returns (r: Result<Option<map<string, seq<Date>>>>)
    ensures r == Expected(user, files, toDate)
  {
    if files == [] {
      return Ok(None);
    }
    var messages: map<string, seq<Date>> := map[SentKey := [], ReceivedKey := []];
    var i := 0;
    while i < |files|
      invariant 0 <= i <= |files|
      invariant messages.Keys == {SentKey, ReceivedKey}
      invariant Gathered(user, files[..i], toDate) == Ok((messages[SentKey], messages[ReceivedKey]))
    {
      GatheredNext(user, files, i, toDate);
      var items := MessageItems(files[i]);
      if items.Err? {
        GatheredErrPersists(user, files, i + 1, toDate);
        return Err(items.error);
      }
      var sent := Pass(user, items.value, true, toDate);
      if sent.Err? {
        GatheredErrPersists(user, files, i + 1, toDate);
        return Err(sent.error);
      }
      messages := messages[SentKey := messages[SentKey] + sent.value];
      var received := Pass(user, items.value, false, toDate);
      if received.Err? {
        GatheredErrPersists(user, files, i + 1, toDate);
        return Err(received.error);
      }
      messages := messages[ReceivedKey := messages[ReceivedKey] + received.value];
      i := i + 1;
    }
    assert files[..i] == files;
    messages := Collapse(messages);
    return Ok(Some(messages));
  }

  /** Every message of the list is readable. */
  predicate AllReadable(items: seq<Json>) {
    forall i :: 0 <= i < |items| ==> Readable(items[i])
  }

  /** The user sent none of a readable file's messages. */
  predicate NoneSentIn(user: string, items: seq<Json>)
    requires AllReadable(items)
  {
    forall j :: 0 <= j < |items| ==> !Selected(user, items[j], true)
  }

  /** The dates of readable messages, in order. */
  function AllDates(items: seq<Json>, toDate: int -> Date): (r: seq<Date>)
    requires AllReadable(items)
    ensures |r| == |items|
    decreases |items|
  {
    if items == [] then []
    else
      assert Readable(items[0]);
      [toDate(SentAt(items[0]).value)] + AllDates(items[1..], toDate)
  }

  /** Each comprehension succeeds on readable messages. */
  lemma {:induction false} PassReadable(user: string, items: seq<Json>, sent: bool, toDate: int -> Date)
    requires AllReadable(items)
    ensures Pass(user, items, sent, toDate).Ok?
    decreases |items|
  {
    if items != [] {
      assert Readable(items[0]);
      PassReadable(user, items[1..], sent, toDate);
    }
  }

  /** The two comprehensions both succeed only when every message is
      readable: each message is read by the one that selects it. */
  lemma {:induction false} PassNeedsReadable(user: string, items: seq<Json>, toDate: int -> Date)
    requires Pass(user, items, true, toDate).Ok? && Pass(user, items, false, toDate).Ok?
    ensures AllReadable(items)
    decreases |items|
  {
    if items != [] {
      var rest := items[1..];
      PassNeedsReadable(user, rest, toDate);
      assert Readable(items[0]);
      forall i | 0 <= i < |items| ensures Readable(items[i]) {
        if i > 0 {
          assert items[i] == rest[i - 1];
        }
      }
    }
  }

  /** The first message goes to exactly one of the two comprehensions. */
  lemma PassHead(user: string, items: seq<Json>, toDate: int -> Date)
    requires items != [] && Readable(items[0])
    requires Pass(user, items[1..], true, toDate).Ok? && Pass(user, items[1..], false, toDate).Ok?
    ensures var d := toDate(SentAt(items[0]).value);
            var s := Pass(user, items[1..], true, toDate).value;
            var r := Pass(user, items[1..], false, toDate).value;
            if Selected(user, items[0], true)
            then Pass(user, items, true, toDate) == Ok([d] + s) && Pass(user, items, false, toDate) == Ok(r)
            else Pass(user, items, true, toDate) == Ok(s) && Pass(user, items, false, toDate) == Ok([d] + r)
  {
  }

  /** The rest of a readable list is readable. */
  lemma RestReadable(items: seq<Json>)
    requires items != [] && AllReadable(items)
    ensures Readable(items[0]) && AllReadable(items[1..])
  {
    assert Readable(items[0]);
    forall i | 0 <= i < |items[1..]| ensures Readable(items[1..][i]) {
      assert items[1..][i] == items[i + 1];
    }
  }

  /** On readable messages the two comprehensions split the dates between
      them, each message landing in exactly one. */
  lemma {:induction false} PassPartition(user: string, items: seq<Json>, toDate: int -> Date)
    requires AllReadable(items)
    ensures Pass(user, items, true, toDate).Ok? && Pass(user, items, false, toDate).Ok?
    ensures multiset(Pass(user, items, true, toDate).value) + multiset(Pass(user, items, false, toDate).value) ==
            multiset(AllDates(items, toDate))
    decreases |items|
  {
    PassReadable(user, items, true, toDate);
    PassReadable(user, items, false, toDate);
    if items != [] {
      var rest := items[1..];
      RestReadable(items);
      PassPartition(user, rest, toDate);
      PassHead(user, items, toDate);
      var d := toDate(SentAt(items[0]).value);
      assert AllDates(items, toDate) == [d] + AllDates(rest, toDate);
      assert multiset(AllDates(items, toDate)) == multiset{d} + multiset(AllDates(rest, toDate));
    }
  }

  /** On readable messages the sent comprehension yields nothing exactly when
      the user sent none of them. */
  lemma {:induction false} PassNoneSent(user: string, items: seq<Json>, toDate: int -> Date)
    requires AllReadable(items)
    ensures Pass(user, items, true, toDate).Ok?
    ensures Pass(user, items, true, toDate).value == [] <==> NoneSentIn(user, items)
    decreases |items|
  {
    PassReadable(user, items, true, toDate);
    PassReadable(user, items, false, toDate);
    if items != [] {
      var rest := items[1..];
      RestReadable(items);
      PassNoneSent(user, rest, toDate);
      PassReadable(user, rest, true, toDate);
      PassReadable(user, rest, false, toDate);
      PassHead(user, items, toDate);
      if NoneSentIn(user, rest) && !Selected(user, items[0], true) {
        forall j | 0 <= j < |items| ensures !Selected(user, items[j], true) {
          if j > 0 {
            assert items[j] == rest[j - 1];
          }
        }
      }
      if NoneSentIn(user, items) {
        forall j | 0 <= j < |rest| ensures !Selected(user, rest[j], true) {
          assert rest[j] == items[j + 1];
        }
      }
    }
  }

  /** A message file both comprehensions can read in full. */
  predicate FileReadable(file: Json) {
    MessageItems(file).Ok? && AllReadable(MessageItems(file).value)
  }

  /** The dates of all messages of readable files, file after file. */
  function FilesDates(files: seq<Json>, toDate: int -> Date): seq<Date>
    requires forall i :: 0 <= i < |files| ==> FileReadable(files[i])
    decreases |files|
  {
    if files == [] then []
    else
      assert FileReadable(files[|files| - 1]);
      FilesDates(files[..|files| - 1], toDate) + AllDates(MessageItems(files[|files| - 1]).value, toDate)
  }

  /** The user sent none of the messages of the files. */
  predicate NoneSent(user: string, files: seq<Json>)
    requires forall i :: 0 <= i < |files| ==> FileReadable(files[i])
  {
    forall i :: 0 <= i < |files| ==> FileReadable(files[i]) && NoneSentIn(user, MessageItems(files[i]).value)
  }

  /** A file is read without error exactly when it is readable. */
  lemma FileDatesOk(user: string, file: Json, toDate: int -> Date)
    ensures FileDates(user, file, toDate).Ok? <==> FileReadable(file)
  {
    if MessageItems(file).Ok? {
      var items := MessageItems(file).value;
      if Pass(user, items, true, toDate).Ok? && Pass(user, items, false, toDate).Ok? {
        PassNeedsReadable(user, items, toDate);
      }
      if AllReadable(items) {
        PassReadable(user, items, true, toDate);
        PassReadable(user, items, false, toDate);
      }
    }
  }

  /** Reading the files succeeds exactly when every file is readable. */
  lemma {:induction false} GatheredOk(user: string, files: seq<Json>, toDate: int -> Date)
    ensures Gathered(user, files, toDate).Ok? <==> forall i :: 0 <= i < |files| ==> FileReadable(files[i])
    decreases |files|
  {
    if files != [] {
      var prev := files[..|files| - 1];
      GatheredOk(user, prev, toDate);
      GatheredStep(user, files, prev, toDate);
      ReadableSplit(files, prev);
      FileDatesOk(user, files[|files| - 1], toDate);
    }
  }

  /** Reading the files succeeds exactly when reading all but the last and
      then the last one do. */
  lemma GatheredStep(user: string, files: seq<Json>, prev: seq<Json>, toDate: int -> Date)
    requires files != [] && prev == files[..|files| - 1]
    ensures Gathered(user, files, toDate).Ok? <==>
            Gathered(user, prev, toDate).Ok? && FileDates(user, files[|files| - 1], toDate).Ok?
  {
  }

  /** Reading one more file: the prefix so far, then that file's two lists. */
  lemma GatheredNext(user: string, files: seq<Json>, i: nat, toDate: int -> Date)
    requires i < |files|
    ensures Gathered(user, files[..i + 1], toDate) ==
              match Gathered(user, files[..i], toDate)
              case Err(e) => Err(e)
              case Ok(prev) =>
                match FileDates(user, files[i], toDate)
                case Err(e) => Err(e)
                case Ok(d) => Ok((prev.0 + d.0, prev.1 + d.1))
  {
    assert files[..i + 1][..i] == files[..i];
  }

  /** The files are readable exactly when all but the last and the last are. */
  lemma ReadableSplit(files: seq<Json>, prev: seq<Json>)
    requires files != [] && prev == files[..|files| - 1]
    ensures (forall i :: 0 <= i < |files| ==> FileReadable(files[i])) <==>
            (forall i :: 0 <= i < |prev| ==> FileReadable(prev[i])) && FileReadable(files[|files| - 1])
  {
    assert forall i :: 0 <= i < |prev| ==> files[i] == prev[i];
  }

  /** One more readable file extends both lists by its comprehensions. */
  lemma GatheredSnoc(user: string, prev: seq<Json>, file: Json, toDate: int -> Date)
    requires FileReadable(file) && Gathered(user, prev, toDate).Ok?
    ensures Pass(user, MessageItems(file).value, true, toDate).Ok?
    ensures Pass(user, MessageItems(file).value, false, toDate).Ok?
    ensures Gathered(user, prev + [file], toDate) ==
              Ok((Gathered(user, prev, toDate).value.0 + Pass(user, MessageItems(file).value, true, toDate).value,
                  Gathered(user, prev, toDate).value.1 + Pass(user, MessageItems(file).value, false, toDate).value))
  {
    PassReadable(user, MessageItems(file).value, true, toDate);
    PassReadable(user, MessageItems(file).value, false, toDate);
    assert (prev + [file])[..|prev|] == prev;
  }

  /** A prefix of readable files is readable. */
  lemma PrefixReadable(files: seq<Json>, prev: seq<Json>)
    requires files != [] && forall i :: 0 <= i < |files| ==> FileReadable(files[i])
    requires prev == files[..|files| - 1]
    ensures FileReadable(files[|files| - 1])
    ensures forall i :: 0 <= i < |prev| ==> FileReadable(prev[i])
    ensures files == prev + [files[|files| - 1]]
  {
    assert FileReadable(files[|files| - 1]);
  }

  lemma NoneSentSnoc(user: string, prev: seq<Json>, file: Json)
    requires FileReadable(file) && forall i :: 0 <= i < |prev| ==> FileReadable(prev[i])
    ensures forall i :: 0 <= i < |prev + [file]| ==> FileReadable((prev + [file])[i])
    ensures NoneSent(user, prev + [file]) <==> NoneSent(user, prev) && NoneSentIn(user, MessageItems(file).value)
  {
    var files := prev + [file];
    assert forall i :: 0 <= i < |prev| ==> files[i] == prev[i];
    assert files[|prev|] == file;
  }

  /** Over readable files, `message_sent` and `message_received` together hold
      every message's date exactly once. */
  lemma {:induction false} GatheredPartition(user: string, files: seq<Json>, toDate: int -> Date)
    requires forall i :: 0 <= i < |files| ==> FileReadable(files[i])
    ensures Gathered(user, files, toDate).Ok?
    ensures multiset(Gathered(user, files, toDate).value.0) + multiset(Gathered(user, files, toDate).value.1) ==
            multiset(FilesDates(files, toDate))
    ensures |Gathered(user, files, toDate).value.0| + |Gathered(user, files, toDate).value.1| == |FilesDates(files, toDate)|
    decreases |files|
  {
    GatheredOk(user, files, toDate);
    if files != [] {
      var prev := files[..|files| - 1];
      var items := MessageItems(files[|files| - 1]).value;
      PrefixReadable(files, prev);
      GatheredOk(user, prev, toDate);
      GatheredSnoc(user, prev, files[|files| - 1], toDate);
      GatheredPartition(user, prev, toDate);
      PassPartition(user, items, toDate);
      assert FilesDates(files, toDate) == FilesDates(prev, toDate) + AllDates(items, toDate);
      var g := Gathered(user, files, toDate).value;
      assert |multiset(g.0) + multiset(g.1)| == |multiset(FilesDates(files, toDate))|;
    }
  }

  /** Over readable files, `message_sent` ends empty exactly when the user
      sent none of the messages. */
  lemma {:induction false} GatheredNoneSent(user: string, files: seq<Json>, toDate: int -> Date)
    requires forall i :: 0 <= i < |files| ==> FileReadable(files[i])
    ensures Gathered(user, files, toDate).Ok?
    ensures Gathered(user, files, toDate).value.0 == [] <==> NoneSent(user, files)
    decreases |files|
  {
    GatheredOk(user, files, toDate);
    if files != [] {
      var prev := files[..|files| - 1];
      var items := MessageItems(files[|files| - 1]).value;
      PrefixReadable(files, prev);
      GatheredOk(user, prev, toDate);
      GatheredSnoc(user, prev, files[|files| - 1], toDate);
      NoneSentSnoc(user, prev, files[|files| - 1]);
      GatheredNoneSent(user, prev, toDate);
      PassNoneSent(user, items, toDate);
    }
  }

  /** The dict `get_messages` returns loses no message: its lists hold every
      message's date exactly once, and it has the unattributed shape exactly
      when the user sent none of the messages. */
  lemma GetMessagesComplete(user: string, files: seq<Json>, toDate: int -> Date)
    requires Expected(user, files, toDate).Ok? && Expected(user, files, toDate).value.Some?
    ensures forall i :: 0 <= i < |files| ==> FileReadable(files[i])
    ensures var m := Expected(user, files, toDate).value.value;
            (EitherKey in m <==> NoneSent(user, files)) &&
            (SentKey in m ==> ReceivedKey in m &&
                              multiset(m[SentKey]) + multiset(m[ReceivedKey]) == multiset(FilesDates(files, toDate))) &&
            (EitherKey in m ==> multiset(m[EitherKey]) == multiset(FilesDates(files, toDate)))
    ensures var m := Expected(user, files, toDate).value.value;
            SentKey in m ==> ReceivedKey in m && |m[SentKey]| + |m[ReceivedKey]| == |FilesDates(files, toDate)|
  {
    GatheredOk(user, files, toDate);
    GatheredPartition(user, files, toDate);
    GatheredNoneSent(user, files, toDate);
    var g := Gathered(user, files, toDate).value;
    assert Gathered(user, files, toDate) == Ok(g);
    assert Expected(user, files, toDate) == Ok(Some(Attribute(g.0, g.1)));
    var m := Attribute(g.0, g.1);
    if g.0 == [] {
      assert m == map[EitherKey := g.1];
      assert SentKey !in m by {
        assert |SentKey| != |EitherKey|;
      }
      assert multiset(g.0) == multiset{};
    } else {
      assert m == map[SentKey := g.0, ReceivedKey := g.1];
      assert EitherKey !in m by {
        assert |SentKey| != |EitherKey| && |ReceivedKey| != |EitherKey|;
      }
    }
  }

  // ---------------------------------------------------------------------
  // How many messages land in each list

  /** The message was sent by the user: its sender, normalised, is the user. */
  predicate SentBy(user: string, m: Json) {
    Sender(m).Ok? && Normalize(Sender(m).value) == user
  }

  /** How many of the messages the user sent. */
  function SentCount(user: string, items: seq<Json>): (n: nat)
    ensures n <= |items|
    decreases |items|
  {
    if items == [] then 0 else (if SentBy(user, items[0]) then 1 else 0) + SentCount(user, items[1..])
  }

  /** On readable messages the sent comprehension keeps one date per message
      the user sent, and the received one a date per every other message. */
  lemma {:induction false} PassCounts(user: string, items: seq<Json>, toDate: int -> Date)
    requires AllReadable(items)
    ensures Pass(user, items, true, toDate).Ok? && Pass(user, items, false, toDate).Ok?
    ensures |Pass(user, items, true, toDate).value| == SentCount(user, items)
    ensures |Pass(user, items, false, toDate).value| == |items| - SentCount(user, items)
    decreases |items|
  {
    PassReadable(user, items, true, toDate);
    PassReadable(user, items, false, toDate);
    if items != [] {
      var rest := items[1..];
      RestReadable(items);
      PassCounts(user, rest, toDate);
      PassHead(user, items, toDate);
    }
  }

  /** How many messages of the files the user sent. */
  function FilesSent(user: string, files: seq<Json>): nat
    decreases |files|
  {
    if files == [] then 0
    else
      FilesSent(user, files[..|files| - 1]) +
      (match MessageItems(files[|files| - 1]) case Ok(items) => SentCount(user, items) case Err(_) => 0)
  }

  /** Over readable files, `message_sent` holds one date per message the user
      sent and `message_received` one per every other message. */
  lemma {:induction false} GatheredCounts(user: string, files: seq<Json>, toDate: int -> Date)
    requires forall i :: 0 <= i < |files| ==> FileReadable(files[i])
    ensures Gathered(user, files, toDate).Ok?
    ensures |Gathered(user, files, toDate).value.0| == FilesSent(user, files)
    ensures |Gathered(user, files, toDate).value.1| == |FilesDates(files, toDate)| - FilesSent(user, files)
    decreases |files|
  {
    GatheredOk(user, files, toDate);
    if files != [] {
      var prev := files[..|files| - 1];
      var items := MessageItems(files[|files| - 1]).value;
      PrefixReadable(files, prev);
      GatheredOk(user, prev, toDate);
      GatheredSnoc(user, prev, files[|files| - 1], toDate);
      GatheredCounts(user, prev, toDate);
      PassCounts(user, items, toDate);
      assert FilesDates(files, toDate) == FilesDates(prev, toDate) + AllDates(items, toDate);
    }
  }

  /** The sizes of the returned lists: as many sent dates as messages the user
      sent, and the rest received; in the unattributed shape, every message. */
  lemma GetMessagesCounts(user: string, files: seq<Json>, toDate: int -> Date)
    requires Expected(user, files, toDate).Ok? && Expected(user, files, toDate).value.Some?
    ensures forall i :: 0 <= i < |files| ==> FileReadable(files[i])
    ensures var m := Expected(user, files, toDate).value.value;
            SentKey in m ==> ReceivedKey in m && |m[SentKey]| == FilesSent(user, files) &&
                             |m[ReceivedKey]| == |FilesDates(files, toDate)| - FilesSent(user, files)
    ensures var m := Expected(user, files, toDate).value.value;
            EitherKey in m ==> FilesSent(user, files) == 0 && |m[EitherKey]| == |FilesDates(files, toDate)|
  {
    GatheredOk(user, files, toDate);
    GatheredCounts(user, files, toDate);
    var g := Gathered(user, files, toDate).value;
    assert Expected(user, files, toDate) == Ok(Some(Attribute(g.0, g.1)));
    if g.0 == [] {
      assert SentKey !in Attribute(g.0, g.1) by { assert |SentKey| != |EitherKey|; }
    } else {
      assert EitherKey !in Attribute(g.0, g.1) by { assert |SentKey| != |EitherKey| && |ReceivedKey| != |EitherKey|; }
    }
  }

  // ---------------------------------------------------------------------
  // The order of the message files

  /** What one file adds to `message_sent` (when `sent`) or to
      `message_received`, order forgotten; a file that raises adds nothing. */
  function FileBag(user: string, file: Json, toDate: int -> Date, sent: bool): multiset<Date> {
    match FileDates(user, file, toDate)
    case Err(_) => multiset{}
    case Ok(d) => if sent then multiset(d.0) else multiset(d.1)
  }

  /** What all the files add to one list, order forgotten. */
  function Bag(user: string, files: seq<Json>, toDate: int -> Date, sent: bool): multiset<Date>
    decreases |files|
  {
    if files == [] then multiset{}
    else Bag(user, files[..|files| - 1], toDate, sent) + FileBag(user, files[|files| - 1], toDate, sent)
  }

  /** Each list holds, order forgotten, what the files add to it. */
  lemma {:induction false} GatheredBag(user: string, files: seq<Json>, toDate: int -> Date)
    requires Gathered(user, files, toDate).Ok?
    ensures multiset(Gathered(user, files, toDate).value.0) == Bag(user, files, toDate, true)
    ensures multiset(Gathered(user, files, toDate).value.1) == Bag(user, files, toDate, false)
    decreases |files|
  {
    if files != [] {
      GatheredBag(user, files[..|files| - 1], toDate);
    }
  }

  /** One more file adds its own dates. */
  lemma BagSnoc(user: string, files: seq<Json>, x: Json, toDate: int -> Date, sent: bool)
    ensures Bag(user, files + [x], toDate, sent) == Bag(user, files, toDate, sent) + FileBag(user, x, toDate, sent)
  {
    assert (files + [x])[..|files|] == files;
  }

  lemma {:induction false} BagAppend(user: string, a: seq<Json>, b: seq<Json>, toDate: int -> Date, sent: bool)
    ensures Bag(user, a + b, toDate, sent) == Bag(user, a, toDate, sent) + Bag(user, b, toDate, sent)
    decreases |b|
  {
    if b == [] {
      assert a + b == a;
    } else {
      var front, y := b[..|b| - 1], b[|b| - 1];
      assert b == front + [y];
      assert a + b == (a + front) + [y];
      BagSnoc(user, a + front, y, toDate, sent);
      BagSnoc(user, front, y, toDate, sent);
      BagAppend(user, a, front, toDate, sent);
    }
  }

  /** Taking one file out of the middle takes out exactly its dates. */
  lemma BagRemove(user: string, files: seq<Json>, j: nat, toDate: int -> Date, sent: bool)
    requires j < |files|
    ensures Bag(user, files, toDate, sent) ==
            Bag(user, files[..j] + files[j + 1..], toDate, sent) + FileBag(user, files[j], toDate, sent)
  {
    var left, right := files[..j], files[j + 1..];
    assert files == (left + [files[j]]) + right;
    BagAppend(user, left, right, toDate, sent);
    BagAppend(user, left + [files[j]], right, toDate, sent);
    BagSnoc(user, left, files[j], toDate, sent);
  }

  /** Removing the same element from two sequences with the same elements
      leaves two sequences with the same elements. */
  lemma RemoveSame(files: seq<Json>, other: seq<Json>, j: nat)
    requires files != [] && multiset(files) == multiset(other)
    requires j < |other| && other[j] == files[|files| - 1]
    ensures multiset(files[..|files| - 1]) == multiset(other[..j] + other[j + 1..])
  {
    var n := |files| - 1;
    var x := files[n];
    var left, right := other[..j], other[j + 1..];
    assert files == files[..n] + [x];
    assert other == left + [x] + right;
    assert multiset(files) == multiset(files[..n]) + multiset{x};
    assert multiset(other) == multiset(left) + multiset{x} + multiset(right);
    assert multiset(left + right) == multiset(left) + multiset(right);
    assert multiset(files[..n]) == multiset(files) - multiset{x};
    assert multiset(left + right) == multiset(other) - multiset{x};
  }

  /** What the files add to a list does not depend on their order. */
  lemma {:induction false} BagPermutation(user: string, files: seq<Json>, other: seq<Json>, toDate: int -> Date, sent: bool)
    requires multiset(files) == multiset(other)
    ensures Bag(user, files, toDate, sent) == Bag(user, other, toDate, sent)
    decreases |files|
  {
    if files == [] {
      assert |other| == |multiset(other)| == 0;
    } else {
      var n := |files| - 1;
      assert files[n] in multiset(other) by {
        assert files[n] in multiset(files);
      }
      var j :| 0 <= j < |other| && other[j] == files[n];
      RemoveSame(files, other, j);
      BagPermutation(user, files[..n], other[..j] + other[j + 1..], toDate, sent);
      BagRemove(user, other, j, toDate, sent);
    }
  }

  /** Files holding the same elements are readable together or not at all. */
  lemma SameFilesReadable(files: seq<Json>, other: seq<Json>)
    requires multiset(files) == multiset(other)
    ensures (forall i :: 0 <= i < |files| ==> FileReadable(files[i])) <==>
            (forall j :: 0 <= j < |other| ==> FileReadable(other[j]))
  {
    forall j | 0 <= j < |other|
      ensures other[j] in files
    {
      assert other[j] in multiset(other);
    }
    forall i | 0 <= i < |files|
      ensures files[i] in other
    {
      assert files[i] in multiset(files);
    }
  }

  /** Reading the files in another order succeeds alike and fills each list
      with the same dates, counted with repeats. */
  lemma GatheredOrderFree(user: string, files: seq<Json>, other: seq<Json>, toDate: int -> Date)
    requires multiset(files) == multiset(other)
    ensures Gathered(user, files, toDate).Ok? <==> Gathered(user, other, toDate).Ok?
    ensures Gathered(user, files, toDate).Ok? ==>
              multiset(Gathered(user, files, toDate).value.0) == multiset(Gathered(user, other, toDate).value.0) &&
              multiset(Gathered(user, files, toDate).value.1) == multiset(Gathered(user, other, toDate).value.1)
  {
    GatheredOk(user, files, toDate);
    GatheredOk(user, other, toDate);
    SameFilesReadable(files, other);
    if Gathered(user, files, toDate).Ok? {
      GatheredBag(user, files, toDate);
      GatheredBag(user, other, toDate);
      BagPermutation(user, files, other, toDate, true);
      BagPermutation(user, files, other, toDate, false);
    }
  }

  /** The folder walk may yield the message files in any order: the
      attribution raises or not regardless, keeps the same keys, and each key
      holds the same dates, counted with repeats. */
  lemma MessagesOrderFree(user: string, files: seq<Json>, other: seq<Json>, toDate: int -> Date)
    requires multiset(files) == multiset(other)
    ensures Expected(user, files, toDate).Ok? <==> Expected(user, other, toDate).Ok?
    ensures Expected(user, files, toDate) == Ok(None) <==> Expected(user, other, toDate) == Ok(None)
    ensures Expected(user, files, toDate).Ok? && Expected(user, files, toDate).value.Some? ==>
              var m := Expected(user, files, toDate).value.value;
              var m' := Expected(user, other, toDate).value.value;
              m.Keys == m'.Keys && forall k :: k in m ==> multiset(m[k]) == multiset(m'[k])
  {
    assert |files| == |multiset(files)| == |other|;
    GatheredOrderFree(user, files, other, toDate);
    if files != [] && Gathered(user, files, toDate).Ok? {
      var g := Gathered(user, files, toDate).value;
      var h := Gathered(user, other, toDate).value;
      assert g.0 == [] <==> h.0 == [] by {
        assert |g.0| == |multiset(g.0)| && |h.0| == |multiset(h.0)|;
      }
      assert Expected(user, files, toDate) == Ok(Some(Attribute(g.0, g.1)));
      assert Expected(user, other, toDate) == Ok(Some(Attribute(h.0, h.1)));
    }
  }
}
