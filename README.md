# MagTag COVID-19 statistics display, modelled in Dafny

`code/code.py` is a CircuitPython script for the Adafruit MagTag e-paper
badge. The script does four things:

- It registers fourteen text slots on the display.
- It connects to Wi-Fi and synchronises the clock.
- It writes a "Last updated" timestamp, plus a "Battery low" warning when the cell is under 3.5 V.
- It fetches the all-Canada summary and the first province of the split summary from api.covid19tracker.ca. It writes the six figures of each, grouped with thousands separators, into slots 0-11, refreshing the panel only on the last write.

Every path that does not raise ends in a four-hour deep sleep.

The project models that script:

- `wrappers.dfy`: `Option` and `Result`.
- `decimal.dfy` (module `Decimal`): Python's `str()` and `int()` for integers.
- `format.dfy` (module `Format`):
  - the `{:,d}` thousands grouping;
  - the `{:02d}` minutes;
  - the `"Last updated: D-M-YYYY H:MM"` timestamp, with a parser that inverts it.
- `pyjson.dfy` (module `PyJson`):
  - decoded JSON values;
  - Python subscripting of lists and dicts, with negative indices;
  - `int()` coercion of a JSON value;
  - the exception kinds the script can meet.
- `feed.dfy` (module `Feed`): the two API URLs and `get_data`. The network is a function from URL to decoded body or exception.
- `slots.dfy` (module `Slots`): the fourteen `add_text` registrations as a table.
- `device.dfy` (module `Device`):
  - `Cycle`, a specification function giving the effects and the ending of one run of lines 137-184, from what the collaborators answer.
  - The lemmas about `Cycle`.
  - The class `MagTag`, which models the global `magtag` object. It holds the registered slots, their fourteen texts, a panel-refresh counter and a ghost trace of effects. Its methods perform the script step by step and are proved against `Cycle`.

A cycle's effects form a trace of `Event`s:

- registrations;
- connect;
- time sync;
- fetches;
- `set_text` writes;
- the 2 s wait;
- the deep sleep.

The slot texts, the layout and the refresh count are folds over that trace. An exception that no handler catches ends the run as `Raised(kind)`, with no sleep afterwards.

Behaviour of `code.py` worth noting:

- A failure of `get_local_time()` or of a fetch is treated like any other exception in the outer `try`. It is caught only when it is a `ValueError` or `RuntimeError`. In that case the timestamp and battery slots keep whatever was written before the failure, and the script still waits and sleeps.
- The outer handler does not catch a `KeyError` from a record with a missing field, so the script stops without sleeping (`Device.MissingFieldEscapes`).
- Nor does it catch the `TypeError` that `int()` raises on a JSON `null` field (`Device.NullFieldEscapes`), or the `IndexError` of an empty `data` list (`Device.EmptyDataEscapes`); in both cases the script stops without sleeping.
- A field sent as text that is not an integer raises `ValueError`, which is caught: the script waits and sleeps with the data slots unchanged (`Device.UnparsableFieldSleeps`).
- After a caught connect failure, the script deep-sleeps at line 145 and never reaches line 147.

## Model

| member | source | states |
|---|---|---|
| Decimal.Digits | code/code.py:166-177 | the decimal digits of a natural number: at least one digit, no leading zero, and length bounds by magnitude |
| Decimal.ParseDigitsOfDigits | code/code.py:166-177 | reading back the digits of `n` gives `n` |
| Decimal.DigitsInjective | code/code.py:166-177 | different numbers have different digit strings |
| Decimal.Str | code/code.py:166-177 | `str()` of an integer: non-empty, a leading `-` exactly for negatives, then at least one digit with no leading zero |
| Decimal.ParseInt | code/code.py:43 | `int()` of a string: accepts exactly an optional `+` or `-` followed by at least one ASCII digit (`IntLiteral`); the value is the digits' value, negated after `-` |
| Decimal.IntLiteral | code/code.py:43 | the strings `int()` accepts here; `Decimal.ParseInt` states that exactly these parse |
| Decimal.ParseIntOfStr | code/code.py:43 | `int(str(n)) == n` for every integer |
| Decimal.ParseIntOfSigned | code/code.py:43 | a `-` followed by digits parses to the negated digit value |
| Decimal.ParseIntOfUnsigned | code/code.py:43 | a digit string parses to its digit value |
| Format.RemoveCommasAppend | code/code.py:166-177 | removing separators distributes over concatenation |
| Format.RemoveCommasOfDigits | code/code.py:166-177 | a digit string has no separators to remove |
| Format.Group | code/code.py:166-177 | grouping d digits inserts (d-1)/3 commas; a comma stands exactly at every fourth position from the right, the first character is a digit, and every other character is a digit |
| Format.UngroupGroup | code/code.py:166-177 | removing the commas from a grouped digit string gives back the digits |
| Format.Grouped | code/code.py:166-177 | `"{:,d}".format(n)`: without commas it is `str(n)`; it has a sign exactly for negatives; the character after the sign (or the first, with none) is a digit; it has only digits besides; after the sign, a comma stands exactly at every fourth place from the right; it has no comma when abs(n) < 1000 |
| Format.SignedGroup | code/code.py:166-177 | a sign (or none) in front of a grouping keeps the commas every fourth place from the right, is followed directly by a digit, and drops to the sign and the digits |
| Format.SignKeepsCommas | code/code.py:166-177 | a prefix in front of a grouping leaves its commas where they were, counted from the right |
| Format.GroupedRoundTrip | code/code.py:166-177 | a grouped number reads back as the same number |
| Format.Pad2 | code/code.py:152-153 | `{:02d}`: two digits below 100, the plain digits from 10 on, and the same value |
| Format.Timestamp | code/code.py:153 | the slot-12 text starts with `Last updated: `, and its last three characters are `:` and the zero-padded minutes |
| Format.SplitAt | code/code.py:153 | splitting at the first separator gives the text before it, which has no separator, and the rest (part of the parser that inverts the timestamp for `TimestampRoundTrip`; the script itself never parses it) |
| Format.SplitAtJoin | code/code.py:153 | splitting a separator-free part joined to a rest recovers both (part of the parser that inverts the timestamp for `TimestampRoundTrip`; the script itself never parses it) |
| Format.Number | code/code.py:153 | a timestamp field reads back only when it is all digits, and then as their value (part of the parser that inverts the timestamp for `TimestampRoundTrip`; the script itself never parses it) |
| Format.Fields | code/code.py:153 | splitting at n separators gives n+1 numbers (part of the parser that inverts the timestamp for `TimestampRoundTrip`; the script itself never parses it) |
| Format.Values | code/code.py:153 | each field's value is its digits' value (part of the parser that inverts the timestamp for `TimestampRoundTrip`; the script itself never parses it) |
| Format.LeadingNumberJoin | code/code.py:153 | the first field of a joined timestamp tail is read and the rest returned (part of the parser that inverts the timestamp for `TimestampRoundTrip`; the script itself never parses it) |
| Format.FieldsOfJoin | code/code.py:153 | splitting a digits-and-separators join gives back each part's value (part of the parser that inverts the timestamp for `TimestampRoundTrip`; the script itself never parses it) |
| Format.NoSeparatorInDigits | code/code.py:153 | no separator character occurs in a digit string (part of the parser that inverts the timestamp for `TimestampRoundTrip`; the script itself never parses it) |
| Format.TimestampParts | code/code.py:153 | the five numeric fields of a timestamp are non-empty digit strings |
| Format.TimestampJoin | code/code.py:153 | the timestamp is the prefix followed by day, month, year, hour and minutes with `-`, `-`, space and `:` between them |
| Format.JoinFive | code/code.py:153 | joining five fields with the timestamp separators puts them in that order |
| Format.NumberOfDigits | code/code.py:153 | a number's digit string reads back as that number (part of the parser that inverts the timestamp for `TimestampRoundTrip`; the script itself never parses it) |
| Format.TimestampRoundTrip | code/code.py:153 | parsing the timestamp gives back the day, month, year, hour and minute it was made from |
| Format.TimestampInjective | code/code.py:153 | two different local times never show the same timestamp |
| PyJson.ListIndex | code/code.py:43 | `xs[i]` succeeds exactly for -len <= i < len, counting negative indices from the end, and raises `IndexError` otherwise |
| PyJson.Lookup | code/code.py:43 | `v[key]` succeeds exactly on a dict holding the key; otherwise it raises `KeyError` on a dict and `TypeError` on anything else |
| PyJson.Element | code/code.py:43 | `v[i]`: a list indexes as `ListIndex` does; a string succeeds exactly for -len <= i < len, giving the one-character string, and raises `IndexError` otherwise; a dict raises `KeyError`; null, bools, ints and floats raise `TypeError` |
| PyJson.Truncate | code/code.py:43 | `int()` of a float rounds toward zero |
| PyJson.IntOf | code/code.py:43 | `int()` of a JSON value: ints pass through; bools give 1 or 0; floats truncate toward zero; a string converts exactly when it parses, to the parsed value, and raises `ValueError` otherwise; null, lists and dicts raise `TypeError` |
| PyJson.IntOfText | code/code.py:43 | a numeric string converts to its number |
| PyJson.IntOfEncodings | code/code.py:43 | every way the API could send the integer n (a JSON int, its decimal text, or a float with no fraction) converts back to n |
| Feed.SourceOf | code/code.py:36-41 | index -1 fetches the all-Canada URL and reads element 0; any other index fetches the province URL and reads that element |
| Feed.Record | code/code.py:42-43 | `json_data["data"][idx]`: succeeds exactly when both subscripts do; a failed `["data"]` passes its exception on, and otherwise the result is that of `[idx]` on the `data` value |
| Feed.CoerceAll | code/code.py:43 | all six coercions succeed exactly when each field coerces, with the values in order; a failure carries the first failing field's error |
| Feed.GetData | code/code.py:36-43 | `get_data(idx)` itself; its contract is stated by `Feed.GetDataSpec`, `Feed.GetDataReadsOnlySource` and `Feed.GetDataOfPayload` |
| Feed.Coerce | code/code.py:43 | `int(record[name])`: succeeds exactly when the record is a dict holding the name and its value converts; on a dict holding the name the result is `int()` of that value, whatever it raises; a missing name raises `KeyError` and a non-dict record `TypeError` |
| Feed.GetDataSpec | code/code.py:36-43 | `get_data` returns the six coerced fields in order exactly when the fetch, both subscripts and all six coercions succeed; a fetch error and a subscript error are passed on unchanged; a coercion failure raises the exception of the first field that fails, every earlier field converting |
| Feed.GetDataFirstFailure | code/code.py:43 | when field k is the first of the six that fails to convert, `get_data` raises exactly that field's exception |
| Feed.GetDataReadsOnlySource | code/code.py:36-43 | `get_data` depends only on the answer for the URL its index selects |
| Feed.Encode | code/code.py:43 | an encoded record carries all six field names |
| Feed.GetDataOfPayload | code/code.py:36-43 | for a well-formed response, `get_data` returns the record at the selected element, field for field, negative elements counting from the end |
| Slots.SlotTable | code/code.py:51-135 | fourteen slots: 0-5 at x 120 and 6-11 at x 210, both in the data font with y = 42 + 12*(i mod 6); slot 12 at (10, 118) and slot 13 at (235, 118), both in the label font and not data |
| Slots.SlotOf | code/code.py:51-122 | field k of a region lies in a data slot below 12, in the left column exactly for Canada, at row y = 42 + 12k |
| Slots.FieldAt | code/code.py:51-122 | every data slot holds some region's field |
| Slots.SlotOfInjective | code/code.py:51-122 | no two region fields share a slot |
| Device.SlotValue | code/code.py:166-177 | data slot i shows the value of the field that `FieldAt(i)` names |
| Device.DataTexts | code/code.py:166-177 | there are twelve data texts |
| Device.InOrder | code/code.py:166-177 | the data writes go to slots 0, 1, 2, ... in order, and only the last write auto-refreshes |
| Device.DataWrites | code/code.py:166-177 | the twelve data writes of two records; `Device.FetchedShape` and `Device.CycleWrites` state where they occur |
| Device.ConnectHandled | code/code.py:141-145 | the three kinds the handler around `connect()` catches; `Device.Cycle` and `Device.ConnectFailureSleeps` state what catching them does |
| Device.CycleHandled | code/code.py:179-180 | the two kinds the outer handler catches; `Device.Cycle` and `Device.MissingFieldEscapes` state what catching them, or not, does |
| Device.BatteryLow | code/code.py:157 | a voltage strictly below 3.5; `Device.BatterySlot` states its effect on slot 13 |
| Device.Staging | code/code.py:153-158 | the timestamp write, then the warning write when low; `Device.StagingWrites` and `Device.CycleTextsFor` state what they write |
| Device.StagedWrites | code/code.py:150-158 | the staged writes for a local time and a voltage; see `Device.TimestampSlot` and `Device.BatterySlot` |
| Device.Fetched | code/code.py:162-177 | the two requests and the data writes; `Device.FetchedShape` and `Device.CycleWrites` state their shape |
| Device.Attempt | code/code.py:150-177 | the outer `try` body after connecting; `Device.AttemptRaised` and `Device.AttemptClosed` state what it raises and leaves |
| Device.SleepTail | code/code.py:182-184 | the wait and the sleep after the outer `try`, unless an exception escaped; `Device.SleepConvergence` states it |
| Device.FirstFailure | code/code.py:137-177 | the first collaborator call that raises, in the order connect, time sync, Canada fetch, province fetch; `Device.Cycle` and `Device.AttemptRaised` use it |
| Device.Cycle | code/code.py:137-184 | a run starts by connecting; it sleeps 14400 s when nothing raised or the first failure was caught by the handler in scope (the connect handler at line 141, the outer handler at line 179), and otherwise it ends raising that failure |
| Device.Ask | code/code.py:162-163 | the answers of the two `get_data` calls (Canada, then province index 0); `Device.MissingFieldEscapes` and its neighbours state what they lead to |
| Device.Caught | code/code.py:141-180 | whether the handler in scope at a failure's stage catches it (line 141 for the connect, line 179 afterwards); `Device.Cycle`'s ending is stated through it |
| Device.AttemptRaised | code/code.py:150-177 | the outer `try` body raises exactly the first failure after connecting |
| Device.CycleSplit | code/code.py:137-184 | an unfolding of `Cycle`'s body: a connected run is the connect, the `try` body, and then the wait and sleep unless an uncaught exception escaped |
| Device.FetchedShape | code/code.py:162-177 | an unfolding of `Fetched`'s body: a failed Canada fetch stops after one request; a failed province fetch stops after two; otherwise the twelve data writes follow both requests |
| Device.WritesOfWrites | code/code.py:153-177 | a list made only of writes is its own write list and registers nothing |
| Device.RefreshesNone | code/code.py:153-176 | writes with auto-refresh off never refresh the panel |
| Device.CycleWrites | code/code.py:137-184 | a run's display writes are exactly these, in order: the timestamp, then the battery warning when low, both once the clock is synced; then the twelve data writes once both fetches succeed. A run registers no slot |
| Device.CycleRefreshes | code/code.py:137-184 | a run refreshes the panel exactly once when nothing raises, and never otherwise |
| Device.AutoRefreshOnlyLast | code/code.py:147-177 | only the last write of a run refreshes the panel, and it is the write of slot 11 in a successful run |
| Device.CycleTextsFor | code/code.py:150-177 | the texts written to each slot over a run, slot by slot |
| Device.TimestampSlot | code/code.py:150-153 | slot 12 receives the timestamp exactly once the clock is synced |
| Device.BatterySlot | code/code.py:157-158 | slot 13 receives "Battery low" exactly when the voltage is strictly below 3.5 and the run reached that line |
| Device.DataSlot | code/code.py:162-177 | each region field's slot is written once, with the grouped field, exactly in a successful run |
| Device.CycleShow | code/code.py:137-184 | the slot texts held after a run: the grouped values only after a successful run, the timestamp once synced, the warning only when low, and otherwise the previous texts; the panel shows them only after the refresh of a successful run (`Device.CycleRefreshes`) |
| Device.SleepConvergence | code/code.py:179-184 | every non-raising run ends with a 14400 s deep sleep; after a connect, that sleep follows the 2 s wait |
| Device.ConnectFailureSleeps | code/code.py:139-145 | a caught connect failure sleeps at once, with no write |
| Device.MissingFieldEscapes | code/code.py:43 | whenever the Canada record is a dict lacking one of the six fields and every earlier field converts, `get_data` raises `KeyError`; line 179 does not catch it, so the run stops after the first fetch without sleeping |
| Device.CanadaFailure | code/code.py:162-184 | when the Canada request raises, the run stops after it: it waits and sleeps when line 179 catches the exception, and ends raising it otherwise |
| Device.NullFieldEscapes | code/code.py:43 | a Canada field that is JSON `null`, every earlier field converting, raises `TypeError`; line 179 does not catch it, so the run stops after the first fetch without sleeping |
| Device.UnparsableFieldSleeps | code/code.py:43 | a Canada field sent as text that is not an integer, every earlier field converting, raises `ValueError`; line 179 catches it, so the run waits and sleeps after the first fetch |
| Device.EmptyDataEscapes | code/code.py:43 | an empty `data` list in the Canada response raises `IndexError`, which line 179 does not catch: no sleep follows |
| Device.DataTextsInOrder | code/code.py:162-177 | the twelve data texts are the six Canada fields and then the six province fields, in `get_data`'s order, each grouped |
| Device.GroupAll | code/code.py:166-177 | `Grouped` mapped over the values, in order |
| Device.MetricsInOrder | code/code.py:43 | the six fields in the order `get_data` returns them |
| Device.Registrations | code/code.py:51-135 | one registration per slot spec |
| Device.RegistrationsFacts | code/code.py:51-135 | registering the slots gives that layout, fourteen empty texts and no refresh |
| Device.CycleExtends | code/code.py:137-184 | a run appended to any trace keeps the layout and the number of slots, and adds only its own refreshes |
| Device.ConnectedCycle | code/code.py:147-184 | a connected run's texts and refreshes are those of its `try` body |
| Device.AttemptClosed | code/code.py:150-177 | the texts and refresh count after the `try` body, in closed form |
| Device.SucceedsFetched | code/code.py:150-163 | once connected and synced, a run succeeds exactly when both fetches do |
| Device.MagTag.constructor | code/code.py:29-31 | a new handle has no slots, no texts, no refreshes |
| Device.MagTag.AddText | code/code.py:51-135 | `add_text` appends one slot with an empty text and refreshes nothing |
| Device.MagTag.SetText | code/code.py:153 | `set_text` keeps the handle consistent and replaces exactly the indexed slot's text, and refreshes the panel exactly when asked |
| Device.MagTag.Log | code/code.py:140-184 | records a collaborator call (connect, time sync, fetch, wait, deep sleep, never a registration or a write) in the trace, keeping the handle consistent and changing no slot |
| Device.MagTag.RefreshCycle | code/code.py:137-184 | one run keeps the handle consistent and the layout unchanged; it leaves the texts, refresh count and ending that `Cycle` prescribes |
| Device.MagTag.ConnectAndRun | code/code.py:137-184 | the connect with its handler, and then the rest, as `Cycle` prescribes |
| Device.MagTag.TryThenSleep | code/code.py:150-184 | the `try` body, then the wait and the sleep unless the exception escaped line 179 |
| Device.MagTag.RunAttempt | code/code.py:150-177 | time sync, staged writes, fetches and data writes; the texts end as `AttemptTexts` says |
| Device.MagTag.FetchAndShow | code/code.py:162-177 | the two requests, then the data texts in slots 0-11 and one refresh only when both succeed |
| Device.MagTag.WriteStaged | code/code.py:153-158 | the timestamp into slot 12, then the warning into slot 13 when the voltage is low, without a refresh |
| Device.MagTag.WriteData | code/code.py:166-177 | slots 0-11 take the twelve values, with exactly one refresh |
| Device.MagTag.WriteCanada | code/code.py:166-171 | slots 0-5 take the six Canada values in order, without a refresh |
| Device.MagTag.WriteProvince | code/code.py:172-177 | slots 6-11 take the six province values in order; only the last write refreshes the panel |
| Device.Setup | code/code.py:29-135 | the handle after the registrations has the table's layout, fourteen empty texts and no refresh |
| Device.Script | code/code.py:29-184 | the whole script: the table's layout, and the texts, refresh count and ending of one cycle from empty slots |

## Left out

- The MagTag library itself is not part of this model: fonts, bitmap background and panel rendering. Only the slot table and each slot's text are kept.
- HTTP and JSON decoding: `network.fetch(url).json()` is one function from URL to decoded JSON or exception kind, given as input.
- The time protocol behind `get_local_time()` is not modelled. The resulting local time, or the exception it raised, is an input.
- The battery voltage is an input read once as an exact real. 3.5 is exact in binary, so `<` gives the same answer as on the float.
- `int()` on strings with surrounding whitespace or underscores is not modelled: the model accepts only an optional sign followed by ASCII digits. `int()` of infinite or NaN floats is also not modelled: floats are exact reals.
- Exception classes are reduced to kinds. Subclass relations beyond the listed kinds are not modelled, and `OtherError` stands for the rest.
- `time.sleep(2)` and `exit_and_deep_sleep(14400)` are trace events only; waking up and re-running the script is not modelled.
- The two `print` calls (lines 152 and 180) have no effect on the display and are not modelled.
