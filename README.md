# FacebookQuantifier, modelled in Dafny

This project models the extraction and counting engine of `FacebookQuantifier`
(facebook_quantifier.py). The quantifier reads the JSON files of a Facebook
data download. It turns each kind of activity into a list of dates, or into a
dict of named date lists. It then counts, for every activity column and every
day, how many events fall on that day.

The model works on JSON that is already parsed. Python operations that can
raise return a `Result` that carries the exception kind.

The source has three defects, listed under "## Findings": `get_timestamps`
raises in its tier 2 on a file holding a list, and `get_viewed` and
`get_visited` delete from the dict they are iterating over. Each is modelled
twice: as written (the members named `...AsWritten`) and as intended. The
extractors `GetTimestamps`, `GetViewed` and `GetVisited`, and the constructor
`Init`/`Quantify` built from them, are the intended versions.
`QuantifyAsWritten` is the constructor as written. `QuantifyAsWrittenRefined`
proves that the two agree wherever the one as written does not raise.

| file | module | what it models |
|---|---|---|
| `json.dfy` | `Json` | JSON values, and the Python operations the quantifier uses on them: truthiness, `[]`, iteration, `.values()`, `in`, and the argument check of `datetime.fromtimestamp` |
| `timestamps.dfy` | `Timestamps` | `get_timestamps`: a tier-1 scan, and a tier-2 scan used only as a fallback |
| `messages.dfy` | `Messages` | user-name normalisation and `get_messages`, which files each message as sent or received |
| `own_posts.dfy` | `OwnPosts` | `get_own_posts`: all posts, plus a media, link or text-only split |
| `collect.dfy` | `Collect` | the pieces `get_viewed` and `get_visited` share: dating an `entries` list, repeated `extend`, and dropping empty keys |
| `views.dfy` | `Views` | `get_viewed` and `get_visited` |
| `frame.dfy` | `Frame` | the counting meaning of `create_dataframe` |
| `quantifier.dfy` | `FacebookQuantifier` | the constructor: which attribute reads which file with which field, and in which order |

How the source is represented:
- **Pure code.** The list comprehensions of `get_timestamps` and
  `get_own_posts` are functions.
- **Imperative code.** `get_messages`, `get_viewed`, `get_visited`, the
  counting loop and the constructor are methods. Each method carries
  `ensures r == <specification function>`. The properties the source promises
  are proved as lemmas about those specification functions.
- **Dates.** `datetime.fromtimestamp(t).date()` is a parameter
  `toDate: int -> Date`, because it depends on the local time zone.
- **Post text.** `str(item.values())` is a parameter `render: Json -> string`.

## Model

| member | source | states |
|---|---|---|
| Timestamps.GetTimestamps | facebook_quantifier.py:214-264 | The result is None exactly when the file is absent or empty, or when neither tier finds a timestamp. A list result is never empty. When tier 1 finds timestamps, the result is tier 1's list in source order with duplicates kept. Tier 2 is used only when tier 1 found nothing: then the result is tier 2's dates when it finds some. When tier 1 raises, the call raises that error. When tier 1 is empty and tier 2 raises, the call raises tier 2's error. |
| Timestamps.ScanItems | facebook_quantifier.py:241-248 | One list comprehension of tier 1 yields at most one timestamp per item. |
| Timestamps.Tier1 | facebook_quantifier.py:241-248 | Tier 1 succeeds only on a dict file, because it calls `.values()` on it. |
| Timestamps.ScanNestedAsWritten | facebook_quantifier.py:253-259 | Tier 2 as written succeeds only when every top-level value is a dict, because it calls `.values()` on each. |
| Timestamps.Tier2AsWritten | facebook_quantifier.py:250-259 | Tier 2 as written succeeds only on a dict file all of whose values are dicts. |
| Timestamps.GetTimestampsAsWritten | facebook_quantifier.py:214-264 | When the file is non-empty and tier 1 finds nothing, the function as written succeeds only if the file is a dict of dicts. |
| Timestamps.Carried | facebook_quantifier.py:241-248 | The reference list of the timestamps a list of records carries, in order, repeats kept, has at most one entry per record. |
| Timestamps.ScanEventsExact | facebook_quantifier.py:241-248 | On a list of event dicts, the comprehension raises nothing and yields exactly the carried timestamps, in list order, with repeats. |
| Timestamps.CarriedAll | facebook_quantifier.py:241-248 | When every record has the field, the carried list is the records' timestamps, one per record, in order. |
| Timestamps.ScanEventListsExact | facebook_quantifier.py:243-248 | Over several event lists, the scan raises nothing. It yields each list's carried timestamps, list after list. |
| Timestamps.ShallowTier1Exact | facebook_quantifier.py:241-248 | Tier 1 on a `Dict[List[Dict]]` file yields the carried timestamps of each top-level list, in the dict's order. |
| Timestamps.NestedTier2Exact | facebook_quantifier.py:253-259 | The intended tier 2 on the values of a `Dict[Dict[List[Dict]]]` file yields the carried timestamps of every inner list, in order. |
| Timestamps.ScanEventsMembers | facebook_quantifier.py:241-248 | On a list of event dicts, the comprehension raises nothing. A timestamp is in its result exactly when some event carries it. |
| Timestamps.LackingFieldIgnored | facebook_quantifier.py:247 | Removing an item that lacks the field, from any position, leaves the scan unchanged. |
| Timestamps.ScanEventListsMembers | facebook_quantifier.py:243-248 | Over several event lists, the scan raises nothing. A timestamp is in its result exactly when some event of some list carries it. |
| Timestamps.ShallowTier1 | facebook_quantifier.py:241-248 | Tier 1 on a `Dict[List[Dict]]` file raises nothing. It yields exactly the timestamps the events carry. |
| Timestamps.ShallowResult | facebook_quantifier.py:236-264 | For a `Dict[List[Dict]]` file: if any event carries the field, the result is tier 1's dates. If no event does, the result is None. |
| Timestamps.ShallowNoNested | facebook_quantifier.py:253-259 | The intended tier 2 finds nothing in lists of events, and raises nothing. |
| Timestamps.NoStamps | facebook_quantifier.py:247 | Events none of which carries the field contribute nothing. |
| Timestamps.NoStampsEach | facebook_quantifier.py:243-248 | Lists of events none of which carries the field contribute nothing. |
| Timestamps.KeysSkipped | facebook_quantifier.py:245-247 | Tier 1 iterates a dict value's keys as strings. Keys that do not contain the field name are skipped without raising. |
| Timestamps.NestedTier1Empty | facebook_quantifier.py:241-248 | Tier 1 finds nothing in a `Dict[Dict[List[Dict]]]` file. |
| Timestamps.NestedTier2Ok | facebook_quantifier.py:253-259 | Tier 2 raises nothing on a `Dict[Dict[List[Dict]]]` file. |
| Timestamps.NestedResult | facebook_quantifier.py:250-264 | For any `Dict[Dict[List[Dict]]]` file, tier 1 is empty. Tier 2 yields exactly the carried timestamps of every inner list, in order. The result is tier 2's dates, or None when tier 2 is empty too, as for the empty dict. |
| Timestamps.NestedAsWrittenRefined | facebook_quantifier.py:253-259 | Whenever tier 2 as written does not raise, it agrees with the intended tier 2. |
| Timestamps.AsWrittenRefined | facebook_quantifier.py:214-264 | Whenever `get_timestamps` as written does not raise, it agrees with the corrected version. |
| Timestamps.ShallowWithoutStampsRaises | facebook_quantifier.py:250-259 | A non-empty `Dict[List[Dict]]` file with no timestamped event makes tier 2 as written raise AttributeError. The corrected version returns None. |
| Timestamps.EmptyFriendListRaises | facebook_quantifier.py:253-259 | On `{"friends": []}`, the function as written raises AttributeError. The corrected version returns None. |
| Messages.Normalize | facebook_quantifier.py:120 | The normalised name has no space and no upper-case ASCII letter, and is never longer than the input. |
| Messages.NormalFixed | facebook_quantifier.py:120 | A name already in normal form is unchanged by normalising. |
| Messages.NormalizeIdempotent | facebook_quantifier.py:120 | Normalising twice gives the same result as normalising once. |
| Messages.NormalizeAppend | facebook_quantifier.py:120 | Normalising a concatenation normalises each part: the mapping works character by character. |
| Messages.NormalizeChar | facebook_quantifier.py:120 | A space is removed. Every other character is kept and lower-cased. |
| Messages.SpaceDropped | facebook_quantifier.py:120 | A space anywhere in a name does not change its normal form, so `John Doe` and `JohnDoe` normalise alike. |
| Messages.Sender | facebook_quantifier.py:317 | Reading the sender succeeds exactly when the message has a string `sender_name`. It then yields that string. |
| Messages.Pass | facebook_quantifier.py:312-327 | One comprehension yields at most one date per message. |
| Messages.FileDates | facebook_quantifier.py:310-327 | A file is read only if it has a `messages` list. Each of its two lists has at most one date per message. |
| Messages.Attribute | facebook_quantifier.py:329-340 | With no sent message, the dict has the single key `message_received_or_sent`, holding the received list. Otherwise it has exactly `message_sent` and `message_received`. |
| Messages.Collapse | facebook_quantifier.py:329-338 | The `del` and `pop` turn the two-key dict into the shape `Attribute` describes. |
| Messages.GetMessages | facebook_quantifier.py:283-340 | The loop returns None without message files. Otherwise it returns the first error a file raises, or the attributed dict of every file's sent and received dates, file after file. |
| Messages.GatheredErrPersists | facebook_quantifier.py:309-327 | Once a file raises, the whole run raises that error. |
| Messages.PassReadable | facebook_quantifier.py:312-327 | Each comprehension succeeds on messages that all have a string sender and a numeric timestamp. |
| Messages.PassNeedsReadable | facebook_quantifier.py:312-327 | If both comprehensions succeed, every message has a string sender and a numeric timestamp. Each message's timestamp is read by the comprehension that selects it. |
| Messages.PassHead | facebook_quantifier.py:317-325 | The two filters are complements: each message goes to exactly one of the two lists. |
| Messages.PassPartition | facebook_quantifier.py:312-327 | Within a file, the sent and received lists together hold every message's date exactly once, as a multiset. |
| Messages.PassNoneSent | facebook_quantifier.py:312-318 | Within a file, the sent list is empty exactly when the user sent none of the messages. |
| Messages.FileDatesOk | facebook_quantifier.py:310-327 | A file is read without error exactly when it has a `messages` list whose messages are all readable. |
| Messages.GatheredOk | facebook_quantifier.py:309-327 | Reading the files succeeds exactly when every file is readable. |
| Messages.GatheredSnoc | facebook_quantifier.py:312-327 | One more file extends `message_sent` by its sent list and `message_received` by its received list. |
| Messages.GatheredPartition | facebook_quantifier.py:309-327 | Across all files, the two lists together hold every message's date exactly once, so their lengths sum to the number of messages. |
| Messages.GatheredNoneSent | facebook_quantifier.py:309-329 | `message_sent` ends empty exactly when the user sent none of the messages. |
| Messages.GetMessagesComplete | facebook_quantifier.py:301-340 | The returned dict loses no message. Its lists hold every message's date exactly once, and with both keys their lengths sum to the number of messages. It has the single-key shape exactly when the user sent nothing. |
| Messages.PassCounts | facebook_quantifier.py:312-327 | Within a file of readable messages, the sent list has one date per message whose normalised sender is the user, and the received list one per other message. |
| Messages.GatheredCounts | facebook_quantifier.py:309-327 | Across readable files, `message_sent` has one date per message the user sent, and `message_received` one per other message. |
| Messages.GetMessagesCounts | facebook_quantifier.py:301-340 | In the returned dict, `message_sent` counts the user's messages and `message_received` the others. With the single-key shape, the user sent nothing and the one list holds every message. |
| Messages.GatheredBag | facebook_quantifier.py:309-327 | The gathered lists hold, as multisets, the per-file dates summed over the files. |
| Messages.BagPermutation | facebook_quantifier.py:296-327 | The summed per-file dates do not depend on the order of the files. |
| Messages.GatheredOrderFree | facebook_quantifier.py:296-327 | Reading the same files in another order succeeds exactly when the first order does, and gives the same lists up to order. |
| Messages.MessagesOrderFree | facebook_quantifier.py:296-340 | The order in which `rglob` yields the message files changes neither whether `get_messages` raises, nor whether it returns None, nor the returned keys. Each key's list is the same up to order. |
| OwnPosts.Kind | facebook_quantifier.py:377-401 | A post is media exactly when the media filter holds. It is a link post exactly when the link filter holds, and text-only exactly when the text-only filter holds. So media wins over a link marker. |
| OwnPosts.DecodePosts | facebook_quantifier.py:370-375 | On success, there is one post per item, in order, with that item's timestamp and rendered values. On failure, some item has no usable timestamp. |
| OwnPosts.GetOwnPosts | facebook_quantifier.py:342-403 | The result is None exactly when the file is absent or empty. The call raises exactly when a non-empty file has no item list or has an item without a usable timestamp, and it raises that lookup's error. Otherwise `own_posts_all` holds one date per item, in file order, and the dict holds the four lists of `Split`. |
| OwnPosts.Split | facebook_quantifier.py:363-401 | The dict has exactly the four keys, each holding the dates its filter selects. |
| OwnPosts.AllDatesAt | facebook_quantifier.py:370-375 | `own_posts_all` has one date per post, in order. |
| OwnPosts.SplitIsPartition | facebook_quantifier.py:377-401 | The media, text-only and link lists together hold the dates of `own_posts_all` exactly as often, and their lengths sum to the number of posts. |
| OwnPosts.OwnPostsPartition | facebook_quantifier.py:342-403 | On the returned dict, the three sub-lists partition `own_posts_all`, by multiset and by length. |
| Collect.StampDates | facebook_quantifier.py:470-475 | On success, there is one date per item, in order, each the date of that item's `timestamp`. On failure, some item has no usable timestamp. |
| Collect.EntryDates | facebook_quantifier.py:473 | The dates of a block are those of its `entries` list. |
| Collect.GatherOk | facebook_quantifier.py:422-429 | Repeated `extend` succeeds exactly when every list comprehension does. The result's length is then the total of theirs. |
| Collect.GatherErrPersists | facebook_quantifier.py:422-429 | Once a comprehension raises, the loop raises that error. |
| Collect.GatherSkipsEmpty | facebook_quantifier.py:423 | A category that contributes nothing can be left out without changing the result. |
| Collect.NonEmpty | facebook_quantifier.py:451-453 | The clean-up as intended keeps exactly the keys whose list is non-empty, with their lists unchanged. |
| Collect.DropEmptyAsWritten | facebook_quantifier.py:451-453 | Deleting while iterating raises exactly when some key has an empty list, and then raises RuntimeError. Otherwise it returns the dict unchanged, which is the intended clean-up. |
| Collect.DropEmpty | facebook_quantifier.py:451-453 | Removing the empty keys one at a time, in any order, gives the intended clean-up. |
| Views.CategoryKeys | facebook_quantifier.py:422-423 | For a dict block, the categories are its keys, in order. |
| Views.ExtendCategories | facebook_quantifier.py:422-429 | The loop over one block's categories extends the column by every list-valued category's dates, in order, or raises the first error. |
| Views.Extended | facebook_quantifier.py:470-475 | One `extend` succeeds exactly when the dict and the list both do. It changes only its own column, by appending. |
| Views.GetViewed | facebook_quantifier.py:405-455 | As intended (see Findings, :451-453): the extractor returns None for an absent or empty file. Otherwise it returns the first error, or the three lists with empty keys removed. |
| Views.GetVisited | facebook_quantifier.py:457-503 | As intended (see Findings, :499-501): the extractor returns None for an absent or empty file. Otherwise it returns the first error, or the four lists with empty keys removed. |
| Views.CleanedAsWritten | facebook_quantifier.py:451-455 | The shared clean-up as written, on a non-empty file whose columns were collected, raises exactly when a column is empty, and then raises RuntimeError. When it succeeds, it agrees with the intended clean-up. |
| Views.ViewedAsWritten | facebook_quantifier.py:405-455 | `get_viewed` as written raises exactly when a collected column is empty. When it succeeds, it agrees with the intended extractor. |
| Views.VisitedAsWritten | facebook_quantifier.py:457-503 | `get_visited` as written raises exactly when a collected column is empty. When it succeeds, it agrees with the intended extractor. |
| Views.NonListCategoryIgnored | facebook_quantifier.py:423 | A category whose value is not a list is skipped: leaving it out changes nothing. |
| Views.VisitedFour | facebook_quantifier.py:470-496 | After the four `extend` calls, each visited column holds exactly its own block's dates. |
| Views.VisitedCollectedOk | facebook_quantifier.py:470-496 | Column `i` of `get_visited` holds the dates of `visited_things[i]`. |
| Views.VisitedShape | facebook_quantifier.py:457-503 | The returned dict has the profile, page, event-page and group-page columns from blocks 0 to 3. Each column is present exactly when its block has an entry. |
| Views.ViewedShape | facebook_quantifier.py:405-455 | The returned dict has three columns: videos from element 2 of block 0's list-valued categories, articles from block 1, and marketplace items from element 0 of block 2's. Each column is present exactly when it got a date. |
| Views.VisitedEmptyBlockRaises | facebook_quantifier.py:499-501 | A file with one dated profile visit and three empty blocks makes `get_visited` as written raise RuntimeError. The intended clean-up returns only the profile column. |
| Views.ViewedEmptyRaises | facebook_quantifier.py:451-453 | A viewed file whose three blocks yield no date makes `get_viewed` as written raise RuntimeError. The intended clean-up returns an empty dict. |
| Frame.TallyCounts | facebook_quantifier.py:530-535 | `value_counts` has a count for a date exactly when the date occurs, and that count is the number of occurrences. |
| Frame.TallyPermutation | facebook_quantifier.py:530-535 | The counts do not depend on the order of the dates. |
| Frame.CountedPermutation | facebook_quantifier.py:540-547 | Reordering the list under each key of a dict does not change its columns of counts. |
| Frame.ValueCounts | facebook_quantifier.py:530-531 | The counting loop yields the counts of `value_counts`. |
| Frame.Join | facebook_quantifier.py:535 | An outer join succeeds exactly when the new column names are not in the table yet. It then keeps the old columns and adds one column of counts per list. |
| Frame.Contribution | facebook_quantifier.py:526-547 | An absent or empty attribute contributes no column. |
| Frame.JoinColumns | facebook_quantifier.py:540-547 | Joining a dict's lists one key at a time gives the join of all of them. |
| Frame.CreateDataframe | facebook_quantifier.py:505-551 | The loop skips falsy attributes and joins each list, or each key of a dict, in attribute order. It gives the table `Frame` describes. |
| Frame.FrameErrPersists | facebook_quantifier.py:526-549 | Once a join raises, building the table raises. |
| Frame.FrameColumns | facebook_quantifier.py:526-549 | When no two attributes contribute the same column name, the table is built without error. It has exactly the contributed columns, and each holds the counts of its list. |
| Frame.FrameClash | facebook_quantifier.py:526-549 | When two attributes contribute a column of the same name, building the table raises ValueError. With `FrameColumns`, the table is built exactly when the column names are distinct. |
| Frame.LaterClash | facebook_quantifier.py:535-549 | A last attribute sharing a column name with an earlier one makes its outer join raise ValueError. |
| Frame.FrameJoinable | facebook_quantifier.py:526-549 | Attributes with distinct column names join without error. |
| Frame.CellCounts | facebook_quantifier.py:526-549 | A cell holds the number of occurrences of its date in its column's list, and exists exactly when that number is positive. |
| Frame.Frame | facebook_quantifier.py:526-549 | When the table is built, its columns are exactly the contributed column names. When it is not, the join raised ValueError. |
| Frame.FrameCountsOnly | facebook_quantifier.py:526-549 | Two attribute lists with the same names and the same columns of counts build the same table, or fail alike. |
| FacebookQuantifier.Load | facebook_quantifier.py:266-281 | A file that does not exist loads as None. |
| FacebookQuantifier.Init | facebook_quantifier.py:105-212 | As intended, with the three defects under Findings corrected: the constructor builds the quantifier `Quantify` describes, or raises the first error an extractor raises. |
| FacebookQuantifier.StampedAttributes | facebook_quantifier.py:181-205 | The `get_timestamps` attributes succeed exactly when every call does. Attribute `i` is then named after source `i` and holds `get_timestamps` of that source's file and field. |
| FacebookQuantifier.QuantifierNames | facebook_quantifier.py:105-212 | A constructed quantifier's user name is normalised. Its data attributes have the assigned names, in assignment order. |
| FacebookQuantifier.QuantifierValues | facebook_quantifier.py:181-212 | Each `get_timestamps` attribute holds what the intended `get_timestamps` returns on its file and field. The last four hold what the intended dedicated extractors return. The message attributor runs with the normalised user name. |
| FacebookQuantifier.Stamped | facebook_quantifier.py:181-205 | When every `get_timestamps` call succeeds, there is one attribute per source. |
| FacebookQuantifier.Quantify | facebook_quantifier.py:105-212 | The intended constructor: a constructed quantifier's user name is normalised, and it has one attribute per `get_timestamps` source plus the four dedicated ones. |
| FacebookQuantifier.Assembled | facebook_quantifier.py:181-212 | The attribute list starts with the `get_timestamps` attributes and ends with `own_posts`, `messages`, `viewed` and `visited`, in that order. |
| FacebookQuantifier.QuantifyParts | facebook_quantifier.py:105-212 | The constructor succeeds exactly when every extractor call does. Its attributes are then those calls' results, assembled in order. |
| FacebookQuantifier.StampedFilesOnly | facebook_quantifier.py:181-205 | The `get_timestamps` attributes depend only on the named files, not on the message files. |
| FacebookQuantifier.MessageCountsOrderFree | facebook_quantifier.py:283-340 | Whatever order the message files come in, `get_messages` raises alike, and on success it contributes the same columns of counts. |
| FacebookQuantifier.TableOrderFree | facebook_quantifier.py:105-212 | Whatever order the message files come in, the constructor raises alike. On success, `create_dataframe` builds the same table. |
| FacebookQuantifier.StampedAsWritten | facebook_quantifier.py:181-205 | With `get_timestamps` as written, when every call succeeds there is one attribute per source. |
| FacebookQuantifier.QuantifyAsWritten | facebook_quantifier.py:105-212 | The constructor as written: a constructed quantifier's user name is normalised, and it has one attribute per `get_timestamps` source plus the four dedicated ones. |
| FacebookQuantifier.StampedAsWrittenRefined | facebook_quantifier.py:181-205 | Where every `get_timestamps` call as written succeeds, the intended calls give the same attributes. |
| FacebookQuantifier.QuantifyAsWrittenRefined | facebook_quantifier.py:105-212 | Where the constructor as written succeeds, the intended constructor builds the same quantifier. So wherever the intended one raises, the one as written raises too. |
| FacebookQuantifier.StampedAsWrittenErrPersists | facebook_quantifier.py:181-205 | Once a `get_timestamps` call as written raises, the constructor raises that error. |
| FacebookQuantifier.EmptyFriendListConstructorRaises | facebook_quantifier.py:181-205 | On an archive whose added-friends file is `{"friends": []}`, the constructor as written raises AttributeError. |
| FacebookQuantifier.EmptyFriendListConstructed | facebook_quantifier.py:181-212 | On the same archive, the intended constructor builds a quantifier. |

## Left out

- File access is not modelled: `is_file`, `open`, `json.load`, the path table and the `rglob` over the messages folder (facebook_quantifier.py:122-179, 266-281, 298-300). The archive is a map from the constructor's file keys to parsed JSON, plus the message files in walk order.
- `datetime.fromtimestamp(...).date()` is the parameter `toDate`, because it depends on the local time zone. `timestamp_ms / 1000` is floor division to whole seconds, not float division. JSON numbers are integers.
- Json.ToDates: `datetime.fromtimestamp` raises OverflowError, OSError or ValueError for a timestamp outside the platform's range. The model takes `toDate` as a total function, so that error path is not modelled.
- FacebookQuantifier.Quantify: this is the intended constructor, built from the corrected `get_timestamps`, `get_viewed` and `get_visited`. It does not raise where the source's constructor raises because of the three defects under "## Findings". The constructor as written is `FacebookQuantifier.QuantifyAsWritten`.
- `str(item.values())` is the parameter `render`, because Python's repr is not modelled.
- `str.lower` is modelled on ASCII letters only. Other Unicode case mappings are not modelled.
- `print` calls, `write_csv`, `summarize_data`, `setup` and the command line are left out: they are output and plumbing.
- pandas mechanics are left out: row order, `sort_index`, NaN cells and column order. A table is a map from column name to per-date counts. A missing count stands for NaN.
- Reflection over `self.__dict__` is replaced by an explicit ordered list of (attribute name, value). The `folder` attribute is not modelled.
- Views.CategoryKeys: iterating a non-dict block and subscripting it with its own elements is approximated. A non-empty list or string raises TypeError, whatever Python would do for integer elements.
- Json.Lookup: a parsed object is taken to have distinct keys. Duplicate keys are not modelled.
- Which exception a failing lookup raises is kept as a kind (KeyError, IndexError, TypeError, AttributeError). Messages are not modelled.
- That the constructor's column names are pairwise distinct, so that `create_dataframe` never raises on a constructed quantifier, is not proved. Frame.FrameColumns and Frame.CellCounts take it as a requirement.

## Findings

| source | as written | input that shows it | evidently intended | confidence | as-written member | corrected member |
|---|---|---|---|---|---|---|
| facebook_quantifier.py:253-259 | Tier 2 calls `json_file.get(key).values()` on every top-level value. This raises AttributeError when a value is a list, and tier 2 runs exactly when tier 1 found nothing. | `{"friends": []}`, or any `Dict[List[Dict]]` file whose events lack the field | Values that are not dicts contribute nothing, and the result is None | high (not executed) | Timestamps.EmptyFriendListRaises | Timestamps.GetTimestamps |
| facebook_quantifier.py:499-501 | `for key in d: if not d[key]: del d[key]` deletes from a dict while iterating over it. CPython raises RuntimeError on the next step, so the function raises whenever a list is empty. | A visited file with one dated entry in block 0 and empty `entries` in blocks 1 to 3 | Keys with empty lists are removed and the dict is returned | high (not executed) | Views.VisitedEmptyBlockRaises | Collect.DropEmpty |
| facebook_quantifier.py:451-453 | `get_viewed` ends with the same `for key in views: if not views[key]: del views[key]`. It raises RuntimeError whenever a viewed column is empty. | `{"viewed_things": [{}, {"entries": []}, {}]}` | Keys with empty lists are removed and the dict is returned | high (not executed) | Views.ViewedEmptyRaises | Collect.DropEmpty |
