/** The script's top level: registering the fourteen text slots, then one
    refresh cycle (connect, time sync, battery check, two fetches, twelve data
    writes with a single display refresh) ending in deep sleep. */
module Device {
  import opened Wrappers
  import Decimal
  import opened PyJson
  import opened Format
  import opened Feed
  import opened Slots

  /** Four hours, in seconds: the deep-sleep length on every path. */
  const TIME_BETWEEN_REFRESHES: nat := 4 * 60 * 60
  /** Seconds waited for the e-paper panel to finish before sleeping. */
  const DISPLAY_SETTLE: nat := 2
  const LOW_BATTERY_VOLTS: real := 3.5
  const BATTERY_LOW_TEXT: string := "Battery low"
  /** The province read from the split feed. */
  const PROVINCE_INDEX: int := 0

  /** What `magtag.network.connect()` did. */
  datatype ConnectResult = Connected | ConnectFailed(error: Exc)

  /** Everything the cycle learns from its collaborators. `clock` is the
      local time after `get_local_time()`, or what that call raised;
      `battery` is the voltage the peripherals report; `network` answers
      each URL fetched. */
  datatype Inputs = Inputs(
    connect: ConnectResult,
    clock: Result<LocalTime, Exc>,
    battery: real,
    network: Network)

  /** The same, with the network replaced by what the two `get_data` calls
      of lines 162-163 return for it. */
  datatype Answers = Answers(
    connect: ConnectResult,
    clock: Result<LocalTime, Exc>,
    battery: real,
    canada: Result<Metrics, Exc>,
    province: Result<Metrics, Exc>)

  function Ask(io: Inputs): Answers
  {
    Answers(io.connect, io.clock, io.battery, GetData(CANADA, io.network), GetData(PROVINCE_INDEX, io.network))
  }

  /** The externally visible effects, in the order they happen. */
  datatype Event =
    | AddText(spec: SlotSpec)
    | Connect
    | SyncTime
    | Fetch(url: string)
    | SetText(index: nat, text: string, autoRefresh: bool)
    | Wait(seconds: nat)
    | DeepSleep(seconds: nat)

  /** How the script stops: in deep sleep, or with an exception no handler caught. */
  datatype Ending = Asleep(seconds: nat) | Raised(error: Exc)

  datatype Run = Run(events: seq<Event>, ending: Ending)

  /** Effects of the outer `try` body after connecting, and what it raised. */
  datatype Partial = Partial(events: seq<Event>, raised: Option<Exc>)

  /** The classes the handler around `connect()` catches. */
  predicate ConnectHandled(e: Exc) {
    e == ConnectionError || e == ValueError || e == RuntimeError
  }

  /** The classes the outer handler catches. */
  predicate CycleHandled(e: Exc) {
    e == ValueError || e == RuntimeError
  }

  predicate BatteryLow(volts: real) {
    volts < LOW_BATTERY_VOLTS
  }

  // ---------------------------------------------------------------------
  // Folds over an effect trace

  /** The display writes of a trace, in order. */
  function Writes(es: seq<Event>): seq<Event>
  {
    if es == [] then []
    else Writes(es[..|es| - 1]) + (if es[|es| - 1].SetText? then [es[|es| - 1]] else [])
  }

  /** The number of display refreshes a trace causes. */
  function Refreshes(es: seq<Event>): nat
  {
    if es == [] then 0
    else Refreshes(es[..|es| - 1]) + (if es[|es| - 1].SetText? && es[|es| - 1].autoRefresh then 1 else 0)
  }

  /** The slot registrations of a trace, in order. */
  function Layout(es: seq<Event>): seq<SlotSpec>
  {
    if es == [] then []
    else Layout(es[..|es| - 1]) + (if es[|es| - 1].AddText? then [es[|es| - 1].spec] else [])
  }

  /** The slot texts after one effect. */
  function Step(texts: seq<string>, e: Event): seq<string>
  {
    match e
    case AddText(_) => texts + [""]
    case SetText(i, s, _) => if i < |texts| then texts[i := s] else texts
    case _ => texts
  }

  /** The slot texts after a trace, starting from `texts`. */
  function Show(texts: seq<string>, es: seq<Event>): seq<string>
  {
    if es == [] then texts else Step(Show(texts, es[..|es| - 1]), es[|es| - 1])
  }

  /** The texts written to slot i, in order. */
  function TextsFor(es: seq<Event>, i: nat): seq<string>
  {
    if es == [] then []
    else TextsFor(es[..|es| - 1], i)
         + (if es[|es| - 1].SetText? && es[|es| - 1].index == i then [es[|es| - 1].text] else [])
  }

  lemma {:induction false} WritesAppend(a: seq<Event>, b: seq<Event>)
    ensures Writes(a + b) == Writes(a) + Writes(b)
    decreases |b|
  {
    if b == [] {
      assert a + b == a;
    } else {
      assert (a + b)[..|a + b| - 1] == a + b[..|b| - 1];
      WritesAppend(a, b[..|b| - 1]);
    }
  }

  lemma {:induction false} RefreshesAppend(a: seq<Event>, b: seq<Event>)
    ensures Refreshes(a + b) == Refreshes(a) + Refreshes(b)
    decreases |b|
  {
    if b == [] {
      assert a + b == a;
    } else {
      assert (a + b)[..|a + b| - 1] == a + b[..|b| - 1];
      RefreshesAppend(a, b[..|b| - 1]);
    }
  }

  lemma {:induction false} ShowAppend(t: seq<string>, a: seq<Event>, b: seq<Event>)
    ensures Show(t, a + b) == Show(Show(t, a), b)
    decreases |b|
  {
    if b == [] {
      assert a + b == a;
    } else {
      assert (a + b)[..|a + b| - 1] == a + b[..|b| - 1];
      ShowAppend(t, a, b[..|b| - 1]);
    }
  }

  lemma {:induction false} TextsForAppend(a: seq<Event>, b: seq<Event>, i: nat)
    ensures TextsFor(a + b, i) == TextsFor(a, i) + TextsFor(b, i)
    decreases |b|
  {
    if b == [] {
      assert a + b == a;
    } else {
      assert (a + b)[..|a + b| - 1] == a + b[..|b| - 1];
      TextsForAppend(a, b[..|b| - 1], i);
    }
  }

  lemma SingleEvent(t: seq<string>, e: Event, i: nat)
    ensures Show(t, [e]) == Step(t, e)
    ensures TextsFor([e], i) == if e.SetText? && e.index == i then [e.text] else []
  {
    assert [e][..0] == [];
  }

  /** Effects that neither register nor write a slot. */
  predicate Quiet(es: seq<Event>) {
    forall k :: 0 <= k < |es| ==> !es[k].SetText? && !es[k].AddText?
  }

  /** Effects that register no slot. */
  predicate NoRegistration(es: seq<Event>) {
    forall k :: 0 <= k < |es| ==> !es[k].AddText?
  }

  lemma NoRegistrationAppend(a: seq<Event>, b: seq<Event>)
    requires NoRegistration(a) && NoRegistration(b)
    ensures NoRegistration(a + b)
  {
  }

  /** A quiet stretch changes none of the folds. */
  lemma {:induction false} QuietFacts(t: seq<string>, es: seq<Event>, i: nat)
    requires Quiet(es)
    ensures Show(t, es) == t && Refreshes(es) == 0 && Writes(es) == [] && TextsFor(es, i) == []
    ensures NoRegistration(es)
    decreases |es|
  {
    if es != [] {
      QuietFacts(t, es[..|es| - 1], i);
    }
  }

  /** Writes to slots 0, 1, 2, ... in order replace exactly those texts. */
  lemma {:induction false} ShowInOrder(t: seq<string>, es: seq<Event>)
    requires |es| <= |t|
    requires forall k :: 0 <= k < |es| ==> es[k].SetText? && es[k].index == k
    ensures Show(t, es) == seq(|t|, j requires 0 <= j < |t| => if j < |es| then es[j].text else t[j])
    decreases |es|
  {
    if es != [] {
      ShowInOrder(t, es[..|es| - 1]);
    }
  }

  /** Writes to slots 0, 1, 2, ... in order write each of those slots once. */
  lemma {:induction false} TextsForInOrder(es: seq<Event>, i: nat)
    requires forall k :: 0 <= k < |es| ==> es[k].SetText? && es[k].index == k
    ensures TextsFor(es, i) == if i < |es| then [es[i].text] else []
    decreases |es|
  {
    if es != [] {
      TextsForInOrder(es[..|es| - 1], i);
    }
  }

  // ---------------------------------------------------------------------
  // The cycle

  /** The value shown in data slot i: field i % 6 of Canada for the first
      six slots, of the province for the next six. */
  function SlotValue(ca: Metrics, prov: Metrics, i: nat): (v: int)
    requires i < 12
    ensures var rf := FieldAt(i); v == Field(if rf.0 == Canada then ca else prov, rf.1)
  {
    Field(if i < 6 then ca else prov, i % 6)
  }

  /** Lines 166-177: the twelve grouped values, slot by slot. */
  function DataTexts(ca: Metrics, prov: Metrics): (vs: seq<string>)
    ensures |vs| == 12
  {
    seq(12, i requires 0 <= i < 12 => Grouped(SlotValue(ca, prov, i)))
  }

  /** Writes of `vals` into slots 0, 1, 2, ... in order, with only the last
      one refreshing the panel (line 177 is the only data write that keeps
      the default auto_refresh). */
  function InOrder(vals: seq<string>): (es: seq<Event>)
    ensures |es| == |vals|
    ensures forall k :: 0 <= k < |es| ==> es[k] == SetText(k, vals[k], k == |vals| - 1)
  {
    seq(|vals|, k requires 0 <= k < |vals| => SetText(k, vals[k], k == |vals| - 1))
  }

  /** Lines 166-177: the twelve data writes. */
  function DataWrites(ca: Metrics, prov: Metrics): seq<Event>
  {
    InOrder(DataTexts(ca, prov))
  }

  /** Lines 153-158: the timestamp write, then the battery warning when
      `low`; neither refreshes the panel. */
  function Staging(stamp: string, low: bool): seq<Event>
  {
    [SetText(TIMESTAMP_SLOT, stamp, false)]
    + (if low then [SetText(BATTERY_SLOT, BATTERY_LOW_TEXT, false)] else [])
  }

  function StagedWrites(t: LocalTime, battery: real): seq<Event>
  {
    Staging(Timestamp(t), BatteryLow(battery))
  }

  /** Lines 162-177: the two requests, then the twelve data writes once
      both succeeded. */
  function Fetched(io: Answers): Partial
  {
    var first := [Fetch(SourceOf(CANADA).url)];
    match io.canada
    case Err(e) => Partial(first, Some(e))
    case Ok(ca) =>
      var both := first + [Fetch(SourceOf(PROVINCE_INDEX).url)];
      match io.province
      case Err(e) => Partial(both, Some(e))
      case Ok(prov) => Partial(both + DataWrites(ca, prov), None)
  }

  /** Both requests answered with a complete record. */
  predicate BothFetched(io: Answers) {
    io.canada.Ok? && io.province.Ok?
  }

  /** The outer `try` body after a successful connect (lines 150-177): time
      sync, the staged writes, then the requests and data writes. */
  function Attempt(io: Answers): Partial
  {
    match io.clock
    case Err(e) => Partial([SyncTime], Some(e))
    case Ok(t) =>
      var f := Fetched(io);
      Partial([SyncTime] + StagedWrites(t, io.battery) + f.events, f.raised)
  }

  /** What follows the outer `try` statement: the settle wait and the deep
      sleep, unless the body raised something its handler does not catch. */
  function SleepTail(raised: Option<Exc>): seq<Event>
  {
    if raised.Some? && !CycleHandled(raised.value) then []
    else [Wait(DISPLAY_SETTLE), DeepSleep(TIME_BETWEEN_REFRESHES)]
  }

  /** Where a cycle first fails. */
  datatype Stage = AtConnect | AtTimeSync | AtFetchCanada | AtFetchProvince

  datatype Failure = Failure(stage: Stage, error: Exc)

  /** The first collaborator call that raises, if any. */
  function FirstFailure(io: Answers): Option<Failure>
  {
    if io.connect.ConnectFailed? then Some(Failure(AtConnect, io.connect.error))
    else if io.clock.Err? then Some(Failure(AtTimeSync, io.clock.error))
    else if io.canada.Err? then Some(Failure(AtFetchCanada, io.canada.error))
    else if io.province.Err? then Some(Failure(AtFetchProvince, io.province.error))
    else None
  }

  /** Whether the handler in scope at that stage catches the failure. */
  predicate Caught(f: Failure) {
    if f.stage == AtConnect then ConnectHandled(f.error) else CycleHandled(f.error)
  }

  /** A cycle in which nothing raises. */
  predicate Succeeds(io: Answers) {
    FirstFailure(io).None?
  }

  /** Connected and the clock synchronised: slots 12 and 13 are reached. */
  predicate Staged(io: Answers) {
    io.connect.Connected? && io.clock.Ok?
  }

  /** One cycle of lines 137-184. It ends in deep sleep exactly when nothing
      raised or the first exception was caught by the handler in scope, and
      otherwise with that exception. */
  function Cycle(io: Answers): (r: Run)
    ensures |r.events| >= 1 && r.events[0] == Connect
    ensures r.ending == match FirstFailure(io)
                        case None => Asleep(TIME_BETWEEN_REFRESHES)
                        case Some(f) => if Caught(f) then Asleep(TIME_BETWEEN_REFRESHES) else Raised(f.error)
  {
    match io.connect
    case ConnectFailed(e) =>
      if ConnectHandled(e) then Run([Connect, DeepSleep(TIME_BETWEEN_REFRESHES)], Asleep(TIME_BETWEEN_REFRESHES))
      else Run([Connect], Raised(e))
    case Connected =>
      var p := Attempt(io);
      AttemptRaised(io);
      Run([Connect] + p.events + SleepTail(p.raised),
          if p.raised.Some? && !CycleHandled(p.raised.value) then Raised(p.raised.value)
          else Asleep(TIME_BETWEEN_REFRESHES))
  }

  // ---------------------------------------------------------------------
  // Properties of a cycle

  /** The `try` body raises exactly the first failure after connecting. */
  lemma AttemptRaised(io: Answers)
    requires io.connect.Connected?
    ensures Attempt(io).raised == if Succeeds(io) then None else Some(FirstFailure(io).value.error)
  {
  }

  /** The pieces a connected cycle is made of. */
  lemma CycleSplit(io: Answers)
    requires io.connect.Connected?
    ensures Cycle(io).events == [Connect] + Attempt(io).events + SleepTail(Attempt(io).raised)
  {
  }

  /** The shape of the `try` body's effects, case by case. */
  lemma FetchedShape(io: Answers)
    ensures io.canada.Err? ==> Fetched(io).events == [Fetch(SourceOf(CANADA).url)]
    ensures io.canada.Ok? && io.province.Err? ==>
      Fetched(io).events == [Fetch(SourceOf(CANADA).url), Fetch(SourceOf(PROVINCE_INDEX).url)]
    ensures BothFetched(io) ==>
      Fetched(io).events == [Fetch(SourceOf(CANADA).url), Fetch(SourceOf(PROVINCE_INDEX).url)]
                            + DataWrites(io.canada.value, io.province.value)
  {
  }

  lemma {:induction false} WritesOfWrites(es: seq<Event>)
    requires forall k :: 0 <= k < |es| ==> es[k].SetText?
    ensures Writes(es) == es && NoRegistration(es)
    decreases |es|
  {
    if es != [] {
      WritesOfWrites(es[..|es| - 1]);
    }
  }

  lemma {:induction false} RefreshesNone(es: seq<Event>)
    requires forall k :: 0 <= k < |es| ==> !(es[k].SetText? && es[k].autoRefresh)
    ensures Refreshes(es) == 0
    decreases |es|
  {
    if es != [] {
      RefreshesNone(es[..|es| - 1]);
    }
  }

  /** The staged writes are all writes, and none refreshes the panel. */
  lemma StagingWrites(stamp: string, low: bool)
    ensures Writes(Staging(stamp, low)) == Staging(stamp, low)
    ensures NoRegistration(Staging(stamp, low))
    ensures Refreshes(Staging(stamp, low)) == 0
  {
    WritesOfWrites(Staging(stamp, low));
    RefreshesNone(Staging(stamp, low));
  }

  /** Slot 12 gets the stamp, slot 13 the warning when `low`. */
  lemma StagingTexts(stamp: string, low: bool, i: nat)
    ensures TextsFor(Staging(stamp, low), i) ==
      (if i == TIMESTAMP_SLOT then [stamp] else [])
      + (if i == BATTERY_SLOT && low then [BATTERY_LOW_TEXT] else [])
  {
    var w12 := [SetText(TIMESTAMP_SLOT, stamp, false)];
    var bat := if low then [SetText(BATTERY_SLOT, BATTERY_LOW_TEXT, false)] else [];
    SingleEvent([], w12[0], i);
    TextsForAppend(w12, bat, i);
    if low {
      SingleEvent([], bat[0], i);
    }
  }

  lemma StagingShow(stamp: string, low: bool, texts: seq<string>)
    requires |texts| == SLOT_COUNT
    ensures Show(texts, Staging(stamp, low)) ==
      texts[..TIMESTAMP_SLOT] + [stamp] + [if low then BATTERY_LOW_TEXT else texts[BATTERY_SLOT]]
  {
    var w12 := [SetText(TIMESTAMP_SLOT, stamp, false)];
    var bat := if low then [SetText(BATTERY_SLOT, BATTERY_LOW_TEXT, false)] else [];
    SingleEvent(texts, w12[0], 0);
    ShowAppend(texts, w12, bat);
    if low {
      SingleEvent(Show(texts, w12), bat[0], 0);
    } else {
      assert w12 + bat == w12;
    }
  }

  /** Writes in order are all writes, and exactly the last refreshes. */
  lemma InOrderWrites(vals: seq<string>)
    requires 1 <= |vals|
    ensures Writes(InOrder(vals)) == InOrder(vals)
    ensures NoRegistration(InOrder(vals))
    ensures Refreshes(InOrder(vals)) == 1
  {
    var es := InOrder(vals);
    WritesOfWrites(es);
    var first := es[..|es| - 1];
    var last := es[|es| - 1];
    assert es == first + [last];
    RefreshesNone(first);
    RefreshesAppend(first, [last]);
    assert Refreshes([last]) == 1 by {
      assert [last][..0] == [];
    }
  }

  /** Writes in order put each value into its own slot, once. */
  lemma InOrderTexts(vals: seq<string>, i: nat)
    ensures TextsFor(InOrder(vals), i) == if i < |vals| then [vals[i]] else []
  {
    TextsForInOrder(InOrder(vals), i);
  }

  lemma InOrderShow(vals: seq<string>, texts: seq<string>)
    requires |vals| <= |texts|
    ensures Show(texts, InOrder(vals)) == vals + texts[|vals|..]
  {
    ShowInOrder(texts, InOrder(vals));
  }

  /** The requests and data writes: the data writes only, once both
      requests succeeded. */
  lemma FetchedWrites(io: Answers)
    ensures Writes(Fetched(io).events) == if BothFetched(io) then DataWrites(io.canada.value, io.province.value) else []
    ensures NoRegistration(Fetched(io).events)
  {
    FetchedShape(io);
    var both := [Fetch(SourceOf(CANADA).url), Fetch(SourceOf(PROVINCE_INDEX).url)];
    QuietFacts([], both, 0);
    if io.canada.Err? {
      QuietFacts([], Fetched(io).events, 0);
    } else if BothFetched(io) {
      var dw := DataWrites(io.canada.value, io.province.value);
      InOrderWrites(DataTexts(io.canada.value, io.province.value));
      WritesAppend(both, dw);
      NoRegistrationAppend(both, dw);
    }
  }

  /** The display writes of the `try` body, and that it registers no slot. */
  lemma AttemptWrites(io: Answers)
    ensures Writes(Attempt(io).events) ==
      if io.clock.Err? then []
      else StagedWrites(io.clock.value, io.battery)
           + (if BothFetched(io) then DataWrites(io.canada.value, io.province.value) else [])
    ensures NoRegistration(Attempt(io).events)
  {
    if io.clock.Err? {
      QuietFacts([], [SyncTime], 0);
    } else {
      var sw := StagedWrites(io.clock.value, io.battery);
      StagingWrites(Timestamp(io.clock.value), BatteryLow(io.battery));
      FetchedWrites(io);
      SyncedWrites(sw, Fetched(io).events);
    }
  }

  /** The time sync writes nothing: after it come the writes of the staged
      stretch, then those of the requests. */
  lemma SyncedWrites(sw: seq<Event>, f: seq<Event>)
    requires NoRegistration(sw) && NoRegistration(f)
    ensures Writes([SyncTime] + sw + f) == Writes(sw) + Writes(f)
    ensures NoRegistration([SyncTime] + sw + f)
  {
    QuietFacts([], [SyncTime], 0);
    WritesAppend([SyncTime], sw);
    WritesAppend([SyncTime] + sw, f);
    NoRegistrationAppend([SyncTime], sw);
    NoRegistrationAppend([SyncTime] + sw, f);
  }

  /** The display writes of a cycle that got past the time sync: the staged
      writes, then the data writes when there is data. */
  function Assembled(stamp: string, low: bool, data: Option<seq<string>>): seq<Event>
  {
    Staging(stamp, low) + (if data.Some? then InOrder(data.value) else [])
  }

  /** The data a cycle puts on the panel, when both fetches succeeded. */
  function CycleData(io: Answers): Option<seq<string>>
  {
    if Succeeds(io) then Some(DataTexts(io.canada.value, io.province.value)) else None
  }

  lemma AssembledRefreshes(stamp: string, low: bool, data: Option<seq<string>>)
    requires data.Some? ==> |data.value| == 12
    ensures Refreshes(Assembled(stamp, low, data)) == if data.Some? then 1 else 0
  {
    StagingWrites(stamp, low);
    if data.Some? {
      InOrderWrites(data.value);
      RefreshesAppend(Staging(stamp, low), InOrder(data.value));
    } else {
      assert Assembled(stamp, low, data) == Staging(stamp, low);
    }
  }

  lemma AssembledTexts(stamp: string, low: bool, data: Option<seq<string>>, i: nat)
    requires data.Some? ==> |data.value| == 12
    ensures TextsFor(Assembled(stamp, low, data), i) ==
      if i == TIMESTAMP_SLOT then [stamp]
      else if i == BATTERY_SLOT then (if low then [BATTERY_LOW_TEXT] else [])
      else if i < 12 && data.Some? then [data.value[i]]
      else []
  {
    StagingTexts(stamp, low, i);
    if data.Some? {
      InOrderTexts(data.value, i);
      TextsForAppend(Staging(stamp, low), InOrder(data.value), i);
    } else {
      assert Assembled(stamp, low, data) == Staging(stamp, low);
    }
  }

  lemma AssembledShow(stamp: string, low: bool, data: Option<seq<string>>, texts: seq<string>)
    requires |texts| == SLOT_COUNT
    requires data.Some? ==> |data.value| == 12
    ensures Show(texts, Assembled(stamp, low, data)) ==
      (if data.Some? then data.value else texts[..12]) + [stamp] + [if low then BATTERY_LOW_TEXT else texts[BATTERY_SLOT]]
  {
    StagingShow(stamp, low, texts);
    var staged := Show(texts, Staging(stamp, low));
    if data.Some? {
      InOrderShow(data.value, staged);
      ShowAppend(texts, Staging(stamp, low), InOrder(data.value));
    } else {
      assert Assembled(stamp, low, data) == Staging(stamp, low);
    }
  }

  /** Every display write a cycle makes, in order: the timestamp, then
      "Battery low" if the voltage is under 3.5, both only once the clock is
      synchronised; the twelve data writes only once both fetches succeeded.
      A failed connect writes nothing. */
  function WriteList(io: Answers): seq<Event>
  {
    if !Staged(io) then [] else Assembled(Timestamp(io.clock.value), BatteryLow(io.battery), CycleData(io))
  }

  lemma CycleWrites(io: Answers)
    ensures Writes(Cycle(io).events) == WriteList(io)
    ensures NoRegistration(Cycle(io).events)
  {
    if io.connect.ConnectFailed? {
      QuietFacts([], Cycle(io).events, 0);
    } else {
      ConnectedWrites(io);
    }
  }

  /** Quiet effects around a stretch add no writes and no registrations. */
  lemma Bracketed(mid: seq<Event>, tail: seq<Event>)
    requires Quiet(tail) && NoRegistration(mid)
    ensures Writes([Connect] + mid + tail) == Writes(mid)
    ensures NoRegistration([Connect] + mid + tail)
  {
    QuietFacts([], [Connect], 0);
    QuietFacts([], tail, 0);
    WritesAppend([Connect], mid);
    WritesAppend([Connect] + mid, tail);
    NoRegistrationAppend([Connect], mid);
    NoRegistrationAppend([Connect] + mid, tail);
  }

  lemma AttemptWriteList(io: Answers)
    requires io.connect.Connected?
    ensures Writes(Attempt(io).events) == WriteList(io)
    ensures NoRegistration(Attempt(io).events)
  {
    AttemptWrites(io);
  }

  lemma ConnectedWrites(io: Answers)
    requires io.connect.Connected?
    ensures Writes(Cycle(io).events) == WriteList(io)
    ensures NoRegistration(Cycle(io).events)
  {
    CycleSplit(io);
    AttemptWriteList(io);
    Bracketed(Attempt(io).events, SleepTail(Attempt(io).raised));
  }

  lemma {:induction false} RefreshesOfWrites(es: seq<Event>)
    ensures Refreshes(es) == Refreshes(Writes(es))
    decreases |es|
  {
    if es != [] {
      var init := es[..|es| - 1];
      var last := es[|es| - 1];
      RefreshesOfWrites(init);
      RefreshesAppend(Writes(init), if last.SetText? then [last] else []);
    }
  }

  lemma {:induction false} TextsForOfWrites(es: seq<Event>, i: nat)
    ensures TextsFor(es, i) == TextsFor(Writes(es), i)
    decreases |es|
  {
    if es != [] {
      var init := es[..|es| - 1];
      var last := es[|es| - 1];
      TextsForOfWrites(init, i);
      TextsForAppend(Writes(init), if last.SetText? then [last] else [], i);
    }
  }

  lemma {:induction false} ShowOfWrites(t: seq<string>, es: seq<Event>)
    requires NoRegistration(es)
    ensures Show(t, es) == Show(t, Writes(es))
    decreases |es|
  {
    if es != [] {
      var init := es[..|es| - 1];
      var last := es[|es| - 1];
      ShowOfWrites(t, init);
      ShowAppend(t, Writes(init), if last.SetText? then [last] else []);
    }
  }

  /** The write list refreshes the panel once on success, never otherwise. */
  lemma WriteListRefreshes(io: Answers)
    ensures Refreshes(WriteList(io)) == if Succeeds(io) then 1 else 0
  {
    if Staged(io) {
      AssembledRefreshes(Timestamp(io.clock.value), BatteryLow(io.battery), CycleData(io));
    }
  }

  /** A cycle refreshes the panel exactly once when every step succeeds and
      never otherwise. */
  lemma CycleRefreshes(io: Answers)
    ensures Refreshes(Cycle(io).events) == if Succeeds(io) then 1 else 0
  {
    CycleWrites(io);
    RefreshesOfWrites(Cycle(io).events);
    WriteListRefreshes(io);
  }

  /** Of all the writes a cycle makes, only the very last one refreshes the
      panel, and it is the write of slot 11 on a successful cycle. */
  lemma AutoRefreshOnlyLast(io: Answers)
    ensures var ws := Writes(Cycle(io).events);
      forall k :: 0 <= k < |ws| && ws[k].SetText? && ws[k].autoRefresh ==>
        k == |ws| - 1 && ws[k].index == 11 && Succeeds(io)
  {
    CycleWrites(io);
    if Staged(io) {
      AssembledAutoRefresh(Timestamp(io.clock.value), BatteryLow(io.battery), CycleData(io));
    }
  }

  lemma AssembledAutoRefresh(stamp: string, low: bool, data: Option<seq<string>>)
    requires data.Some? ==> |data.value| == 12
    ensures var ws := Assembled(stamp, low, data);
      forall k :: 0 <= k < |ws| && ws[k].SetText? && ws[k].autoRefresh ==>
        k == |ws| - 1 && ws[k].index == 11 && data.Some?
  {
  }

  /** The texts a cycle writes into each slot, in order. */
  lemma CycleTextsFor(io: Answers, i: nat)
    ensures TextsFor(Cycle(io).events, i) ==
      if !Staged(io) then []
      else if i == TIMESTAMP_SLOT then [Timestamp(io.clock.value)]
      else if i == BATTERY_SLOT then (if BatteryLow(io.battery) then [BATTERY_LOW_TEXT] else [])
      else if i < 12 && Succeeds(io) then [Grouped(SlotValue(io.canada.value, io.province.value, i))]
      else []
  {
    CycleWrites(io);
    TextsForOfWrites(Cycle(io).events, i);
    if Staged(io) {
      AssembledTexts(Timestamp(io.clock.value), BatteryLow(io.battery), CycleData(io), i);
    }
  }

  /** Slot 12 receives the timestamp once the clock is synchronised, and
      nothing otherwise. */
  lemma TimestampSlot(io: Answers)
    ensures TextsFor(Cycle(io).events, TIMESTAMP_SLOT) == if Staged(io) then [Timestamp(io.clock.value)] else []
  {
    CycleTextsFor(io, TIMESTAMP_SLOT);
  }

  /** Slot 13 is written, with "Battery low", exactly when the voltage is
      strictly below 3.5 (and the cycle got that far). */
  lemma BatterySlot(io: Answers)
    ensures TextsFor(Cycle(io).events, BATTERY_SLOT) == if Staged(io) && io.battery < 3.5 then ["Battery low"] else []
  {
    CycleTextsFor(io, BATTERY_SLOT);
  }

  /** Each data slot is written once, with its region's grouped field, when
      both fetches succeed, and never otherwise. */
  lemma DataSlot(io: Answers, r: Region, k: nat)
    requires k < 6
    ensures TextsFor(Cycle(io).events, SlotOf(r, k)) ==
      if Succeeds(io) then [Grouped(Field((if r == Canada then io.canada else io.province).value, k))] else []
  {
    CycleTextsFor(io, SlotOf(r, k));
  }

  /** The texts the fourteen slots hold after a cycle: the grouped values in
      the data slots only when both fetches succeeded, the timestamp once the
      clock is synchronised, the warning only when the battery is low, and
      otherwise what they held before. The panel shows them only after the
      refresh of a successful cycle (`CycleRefreshes`). */
  lemma CycleShow(texts: seq<string>, io: Answers)
    requires |texts| == SLOT_COUNT
    ensures Show(texts, Cycle(io).events) ==
      if !Staged(io) then texts
      else (if Succeeds(io) then DataTexts(io.canada.value, io.province.value) else texts[..12])
           + [Timestamp(io.clock.value)]
           + [if BatteryLow(io.battery) then BATTERY_LOW_TEXT else texts[BATTERY_SLOT]]
  {
    CycleWrites(io);
    ShowOfWrites(texts, Cycle(io).events);
    if Staged(io) {
      AssembledShow(Timestamp(io.clock.value), BatteryLow(io.battery), CycleData(io), texts);
    }
  }

  /** Every path that does not raise ends the same way: a deep sleep of
      TIME_BETWEEN_REFRESHES as the last effect; after connecting, a caught
      error waits for the panel first, exactly like a success. */
  lemma SleepConvergence(io: Answers)
    ensures var r := Cycle(io);
      r.ending.Asleep? ==> r.ending.seconds == TIME_BETWEEN_REFRESHES
                           && r.events[|r.events| - 1] == DeepSleep(TIME_BETWEEN_REFRESHES)
    ensures var r := Cycle(io);
      r.ending.Asleep? && io.connect.Connected? ==> r.events[|r.events| - 2] == Wait(DISPLAY_SETTLE)
  {
  }

  /** A connect failure of a handled kind sleeps at once, before any write. */
  lemma ConnectFailureSleeps(io: Answers)
    requires io.connect.ConnectFailed? && ConnectHandled(io.connect.error)
    ensures Cycle(io) == Run([Connect, DeepSleep(TIME_BETWEEN_REFRESHES)], Asleep(TIME_BETWEEN_REFRESHES))
  {
  }

  /** When the Canada request raises, the run stops after it: the outer
      handler either catches the exception and the run waits and sleeps, or
      it escapes and the run ends with it. */
  lemma CanadaFailure(io: Inputs, e: Exc)
    requires io.connect.Connected? && io.clock.Ok?
    requires GetData(CANADA, io.network) == Err(e)
    ensures Cycle(Ask(io)).ending == if CycleHandled(e) then Asleep(TIME_BETWEEN_REFRESHES) else Raised(e)
    ensures Cycle(Ask(io)).events ==
      [Connect] + ([SyncTime] + StagedWrites(io.clock.value, io.battery) + [Fetch(DATA_SOURCE_CA)])
      + SleepTail(Some(e))
  {
    var a := Ask(io);
    assert a.canada == Err(e);
    CycleSplit(a);
    FetchedShape(a);
  }

  /** A Canada record missing one of the six fields, all fields before it
      being convertible, makes `get_data` raise `KeyError`; the outer handler
      does not catch it, so the script stops after the first request without
      sleeping. */
  lemma MissingFieldEscapes(io: Inputs, rec: Json, k: nat)
    requires io.connect.Connected? && io.clock.Ok?
    requires io.network(DATA_SOURCE_CA).Ok? && Record(io.network(DATA_SOURCE_CA).value, 0) == Ok(rec)
    requires k < 6 && rec.Dict? && FIELDS[k] !in rec.entries
    requires forall j :: 0 <= j < k ==> Coerce(rec, FIELDS[j]).Ok?
    ensures Cycle(Ask(io)).ending == Raised(KeyError)
    ensures Cycle(Ask(io)).events ==
      [Connect] + ([SyncTime] + StagedWrites(io.clock.value, io.battery) + [Fetch(DATA_SOURCE_CA)])
  {
    GetDataFirstFailure(CANADA, io.network, rec, k);
    CanadaFailure(io, KeyError);
  }

  /** A Canada field that is JSON `null`, all fields before it being
      convertible, makes `int()` raise `TypeError`, which escapes the outer
      handler: the script stops after the first request without sleeping. */
  lemma NullFieldEscapes(io: Inputs, rec: Json, k: nat)
    requires io.connect.Connected? && io.clock.Ok?
    requires io.network(DATA_SOURCE_CA).Ok? && Record(io.network(DATA_SOURCE_CA).value, 0) == Ok(rec)
    requires k < 6 && rec.Dict? && FIELDS[k] in rec.entries && rec.entries[FIELDS[k]] == Null
    requires forall j :: 0 <= j < k ==> Coerce(rec, FIELDS[j]).Ok?
    ensures Cycle(Ask(io)).ending == Raised(TypeError)
    ensures Cycle(Ask(io)).events ==
      [Connect] + ([SyncTime] + StagedWrites(io.clock.value, io.battery) + [Fetch(DATA_SOURCE_CA)])
  {
    GetDataFirstFailure(CANADA, io.network, rec, k);
    CanadaFailure(io, TypeError);
  }

  /** A Canada field sent as text that is not an integer, all fields before
      it being convertible, makes `int()` raise `ValueError`; the outer
      handler catches it, so the run waits and sleeps with the twelve data
      slots unchanged. */
  lemma UnparsableFieldSleeps(io: Inputs, rec: Json, k: nat, text: string)
    requires io.connect.Connected? && io.clock.Ok?
    requires io.network(DATA_SOURCE_CA).Ok? && Record(io.network(DATA_SOURCE_CA).value, 0) == Ok(rec)
    requires k < 6 && rec.Dict? && FIELDS[k] in rec.entries && rec.entries[FIELDS[k]] == Text(text)
    requires !Decimal.IntLiteral(text)
    requires forall j :: 0 <= j < k ==> Coerce(rec, FIELDS[j]).Ok?
    ensures Cycle(Ask(io)).ending == Asleep(TIME_BETWEEN_REFRESHES)
    ensures Cycle(Ask(io)).events ==
      [Connect] + ([SyncTime] + StagedWrites(io.clock.value, io.battery) + [Fetch(DATA_SOURCE_CA)])
      + [Wait(DISPLAY_SETTLE), DeepSleep(TIME_BETWEEN_REFRESHES)]
  {
    GetDataFirstFailure(CANADA, io.network, rec, k);
    CanadaFailure(io, ValueError);
  }

  /** An empty `data` list in the Canada response makes `data[0]` raise
      `IndexError`, which escapes the outer handler: no sleep follows. */
  lemma EmptyDataEscapes(io: Inputs, body: Json)
    requires io.connect.Connected? && io.clock.Ok?
    requires io.network(DATA_SOURCE_CA) == Ok(body) && Lookup(body, "data") == Ok(List([]))
    ensures Cycle(Ask(io)).ending == Raised(IndexError)
    ensures Cycle(Ask(io)).events ==
      [Connect] + ([SyncTime] + StagedWrites(io.clock.value, io.battery) + [Fetch(DATA_SOURCE_CA)])
  {
    assert Record(body, 0) == Err(IndexError);
    CanadaFailure(io, IndexError);
  }

  /** The slot registrations of lines 51-135, as effects. */
  function Registrations(specs: seq<SlotSpec>): (es: seq<Event>)
    ensures |es| == |specs|
    ensures forall k :: 0 <= k < |es| ==> es[k] == Event.AddText(specs[k])
  {
    seq(|specs|, k requires 0 <= k < |specs| => Event.AddText(specs[k]))
  }

  /** Registering slots lays them out in order, each with empty text, and
      does not refresh the panel. */
  lemma {:induction false} RegistrationsFacts(specs: seq<SlotSpec>)
    ensures Layout(Registrations(specs)) == specs
    ensures Show([], Registrations(specs)) == seq(|specs|, _ => "")
    ensures Refreshes(Registrations(specs)) == 0
    decreases |specs|
  {
    if specs != [] {
      var init := specs[..|specs| - 1];
      assert Registrations(specs)[..|specs| - 1] == Registrations(init);
      RegistrationsFacts(init);
    }
  }

  lemma {:induction false} LayoutAppend(a: seq<Event>, b: seq<Event>)
    ensures Layout(a + b) == Layout(a) + Layout(b)
    decreases |b|
  {
    if b == [] {
      assert a + b == a;
    } else {
      assert (a + b)[..|a + b| - 1] == a + b[..|b| - 1];
      LayoutAppend(a, b[..|b| - 1]);
    }
  }

  lemma {:induction false} LayoutNone(es: seq<Event>)
    requires NoRegistration(es)
    ensures Layout(es) == []
    decreases |es|
  {
    if es != [] {
      LayoutNone(es[..|es| - 1]);
    }
  }

  lemma {:induction false} ShowLength(t: seq<string>, es: seq<Event>)
    requires NoRegistration(es)
    ensures |Show(t, es)| == |t|
    decreases |es|
  {
    if es != [] {
      ShowLength(t, es[..|es| - 1]);
    }
  }

  /** Extending a trace by effects that register nothing keeps the layout
      and moves texts and refresh count by those effects alone. */
  lemma TraceExtends(trace: seq<Event>, es: seq<Event>)
    requires NoRegistration(es)
    ensures Layout(trace + es) == Layout(trace)
    ensures Show([], trace + es) == Show(Show([], trace), es)
    ensures Refreshes(trace + es) == Refreshes(trace) + Refreshes(es)
  {
    LayoutAppend(trace, es);
    LayoutNone(es);
    ShowAppend([], trace, es);
    RefreshesAppend(trace, es);
  }

  /** A cycle appended to a trace keeps the layout, keeps the number of
      slots and adds its own refreshes. */
  lemma CycleExtends(trace: seq<Event>, texts: seq<string>, io: Answers)
    ensures Layout(trace + Cycle(io).events) == Layout(trace)
    ensures Show([], trace + Cycle(io).events) == Show(Show([], trace), Cycle(io).events)
    ensures |Show(texts, Cycle(io).events)| == |texts|
    ensures Refreshes(trace + Cycle(io).events) == Refreshes(trace) + Refreshes(Cycle(io).events)
  {
    CycleWrites(io);
    ShowLength(texts, Cycle(io).events);
    TraceExtends(trace, Cycle(io).events);
  }

  /** Quiet effects around a stretch change neither texts nor refreshes. */
  lemma BracketedFolds(t: seq<string>, mid: seq<Event>, tail: seq<Event>)
    requires Quiet(tail)
    ensures Show(t, [Connect] + mid + tail) == Show(t, mid)
    ensures Refreshes([Connect] + mid + tail) == Refreshes(mid)
  {
    QuietFacts(t, [Connect], 0);
    QuietFacts(Show(t, mid), tail, 0);
    ShowAppend(t, [Connect], mid);
    ShowAppend(t, [Connect] + mid, tail);
    RefreshesAppend([Connect], mid);
    RefreshesAppend([Connect] + mid, tail);
  }

  /** The texts after the `try` body, in closed form. */
  lemma AttemptShow(io: Answers, t: seq<string>)
    requires io.connect.Connected? && |t| == SLOT_COUNT
    ensures Show(t, Attempt(io).events) == Show(t, WriteList(io))
    ensures Refreshes(Attempt(io).events) == if Succeeds(io) then 1 else 0
  {
    AttemptWriteList(io);
    ShowOfWrites(t, Attempt(io).events);
    RefreshesOfWrites(Attempt(io).events);
    WriteListRefreshes(io);
  }

  lemma AppendAssoc(x: seq<Event>, p: seq<Event>, q: seq<Event>)
    ensures x + p + q == x + (p + q)
  {
  }

  /** The slot texts after the `try` body, starting from `t`: the data
      texts when both fetches succeeded, the timestamp and the battery
      warning once the clock is synchronised. */
  function AttemptTexts(io: Answers, t: seq<string>): seq<string>
    requires |t| == SLOT_COUNT
  {
    if io.clock.Err? then t
    else (if Succeeds(io) then DataTexts(io.canada.value, io.province.value) else t[..12])
         + [Timestamp(io.clock.value)]
         + [if BatteryLow(io.battery) then BATTERY_LOW_TEXT else t[BATTERY_SLOT]]
  }

  /** Once connected with the clock synchronised, the cycle succeeds
      exactly when both requests do. */
  lemma SucceedsFetched(io: Answers)
    requires Staged(io)
    ensures Succeeds(io) <==> BothFetched(io)
  {
  }

  /** The data writes over the staged slots 12 and 13 leave those two. */
  lemma DataOverStaged(t: seq<string>, staged: seq<string>, final: seq<string>, data: seq<string>, ok: bool)
    requires |t| == SLOT_COUNT && |data| == 12
    requires |staged| == SLOT_COUNT && staged == t[..12] + [staged[TIMESTAMP_SLOT]] + [staged[BATTERY_SLOT]]
    requires final == if ok then data + staged[12..] else staged
    ensures final == (if ok then data else t[..12]) + [staged[TIMESTAMP_SLOT]] + [staged[BATTERY_SLOT]]
  {
    assert staged[12..] == [staged[TIMESTAMP_SLOT], staged[BATTERY_SLOT]];
  }

  /** The texts and refresh count after the `try` body, in closed form. */
  lemma AttemptClosed(io: Answers, t: seq<string>)
    requires io.connect.Connected? && |t| == SLOT_COUNT
    ensures Show(t, Attempt(io).events) == AttemptTexts(io, t)
    ensures Refreshes(Attempt(io).events) == if Succeeds(io) then 1 else 0
  {
    AttemptShow(io, t);
    if io.clock.Ok? {
      AssembledShow(Timestamp(io.clock.value), BatteryLow(io.battery), CycleData(io), t);
    }
  }

  /** A connected cycle: its effects, texts and refreshes are those of the
      `try` body, since the connect and the sleeps around it write nothing. */
  lemma ConnectedCycle(io: Answers, t: seq<string>)
    requires io.connect.Connected? && |t| == SLOT_COUNT
    ensures Cycle(io).events == [Connect] + Attempt(io).events + SleepTail(Attempt(io).raised)
    ensures Show(t, Cycle(io).events) == AttemptTexts(io, t)
    ensures Refreshes(Cycle(io).events) == if Succeeds(io) then 1 else 0
  {
    CycleSplit(io);
    AttemptClosed(io, t);
    var p := Attempt(io);
    SleepTailQuiet(p.raised);
    BracketedFolds(t, p.events, SleepTail(p.raised));
  }

  lemma SleepTailQuiet(raised: Option<Exc>)
    ensures Quiet(SleepTail(raised))
  {
  }

  /** The twelve data texts, field by field in the order of lines 166-177. */
  lemma DataTextsInOrder(ca: Metrics, prov: Metrics)
    ensures DataTexts(ca, prov) == GroupAll(MetricsInOrder(ca) + MetricsInOrder(prov))
  {
    var vals := MetricsInOrder(ca) + MetricsInOrder(prov);
    forall i | 0 <= i < 12
      ensures DataTexts(ca, prov)[i] == GroupAll(vals)[i]
    {
      if i < 6 {
        assert vals[i] == MetricsInOrder(ca)[i];
      } else {
        assert vals[i] == MetricsInOrder(prov)[i - 6];
      }
    }
  }

  /** Each value grouped with `{:,d}`, in order. */
  function GroupAll(vals: seq<int>): (ss: seq<string>)
    ensures |ss| == |vals| && forall k :: 0 <= k < |vals| ==> ss[k] == Grouped(vals[k])
  {
    seq(|vals|, k requires 0 <= k < |vals| => Grouped(vals[k]))
  }

  /** The six fields of a record in the order `get_data` returns them. */
  function MetricsInOrder(m: Metrics): (vs: seq<int>)
    ensures |vs| == 6 && forall k :: 0 <= k < 6 ==> vs[k] == Field(m, k)
  {
    [m.totalCases, m.changeCases, m.totalVaccinations, m.changeVaccinations, m.totalVaccinated, m.changeVaccinated]
  }

  // ---------------------------------------------------------------------
  // The device handle

  /** The global `magtag` object: its registered text slots, their texts, the
      number of panel refreshes, and the effects so far. */
  class MagTag {
    var layout: seq<SlotSpec>
    var texts: seq<string>
    var refreshes: nat
    ghost var trace: seq<Event>

    /** The slots, their texts and the refresh count are those the trace produced. */
    ghost predicate Valid()
      reads this
    {
      && |texts| == |layout|
      && layout == Layout(trace)
      && texts == Show([], trace)
      && refreshes == Refreshes(trace)
    }

    constructor ()
      ensures Valid() && trace == []
      ensures layout == [] && texts == [] && refreshes == 0
    {
      layout, texts, refreshes := [], [], 0;
      trace := [];
    }

    /** `add_text`: registers one more slot, initially empty. */
    method AddText(font: string, x: int, y: int, isData: bool)
      requires Valid()
      modifies this
      ensures Valid()
      ensures trace == old(trace) + [Event.AddText(SlotSpec(font, x, y, isData))]
      ensures layout == old(layout) + [SlotSpec(font, x, y, isData)]
      ensures texts == old(texts) + [""] && refreshes == old(refreshes)
    {
      ghost var e := Event.AddText(SlotSpec(font, x, y, isData));
      assert (trace + [e])[..|trace|] == trace;
      layout := layout + [SlotSpec(font, x, y, isData)];
      texts := texts + [""];
      trace := trace + [Event.AddText(SlotSpec(font, x, y, isData))];
    }

    /** `set_text`: replaces one slot's text, refreshing the panel if asked. */
    method SetText(val: string, index: nat, autoRefresh: bool)
      requires Valid() && index < |texts|
      modifies this
      ensures Valid() && layout == old(layout)
      ensures trace == old(trace) + [Event.SetText(index, val, autoRefresh)]
      ensures texts == old(texts)[index := val]
      ensures refreshes == old(refreshes) + (if autoRefresh then 1 else 0)
    {
      ghost var e := Event.SetText(index, val, autoRefresh);
      assert (trace + [e])[..|trace|] == trace;
      texts := texts[index := val];
      if autoRefresh {
        refreshes := refreshes + 1;
      }
      trace := trace + [Event.SetText(index, val, autoRefresh)];
    }

    /** Records a call to a collaborator that leaves the slots alone. */
    method Log(e: Event)
      requires Valid() && !e.SetText? && !e.AddText?
      modifies this`trace
      ensures Valid() && trace == old(trace) + [e]
    {
      assert (trace + [e])[..|trace|] == trace;
      trace := trace + [e];
    }

    /** Lines 137-184: one refresh cycle with the collaborators' answers. */
    method RefreshCycle(io: Inputs) returns (ending: Ending)
      requires Valid() && |layout| == SLOT_COUNT
      modifies this
      ensures Valid() && layout == old(layout)
      ensures trace == old(trace) + Cycle(Ask(io)).events
      ensures ending == Cycle(Ask(io)).ending
      ensures texts == Show(old(texts), Cycle(Ask(io)).events)
      ensures refreshes == old(refreshes) + Refreshes(Cycle(Ask(io)).events)
    {
      ghost var t0 := trace;
      ending := ConnectAndRun(io);
      CycleExtends(t0, old(texts), Ask(io));
    }

    /** Lines 137-184 on the slots, the refresh count and the trace. */
    method ConnectAndRun(io: Inputs) returns (ending: Ending)
      requires Valid() && |texts| == SLOT_COUNT
      modifies this
      ensures Valid() && layout == old(layout)
      ensures trace == old(trace) + Cycle(Ask(io)).events
      ensures ending == Cycle(Ask(io)).ending
      ensures texts == Show(old(texts), Cycle(Ask(io)).events)
      ensures refreshes == old(refreshes) + Refreshes(Cycle(Ask(io)).events)
    {
      ghost var a := Ask(io);
      ghost var t0 := trace;
      ghost var es := Cycle(a).events;
      Log(Connect);
      match io.connect {
        case ConnectFailed(e) =>
          if ConnectHandled(e) {
            Log(DeepSleep(TIME_BETWEEN_REFRESHES));
            ending := Asleep(TIME_BETWEEN_REFRESHES);
            assert es == [Connect] + [DeepSleep(TIME_BETWEEN_REFRESHES)];
            AppendAssoc(t0, [Connect], [DeepSleep(TIME_BETWEEN_REFRESHES)]);
          } else {
            ending := Raised(e);
            assert es == [Connect];
          }
          QuietFacts(old(texts), es, 0);
        case Connected =>
          ending := TryThenSleep(io);
          ghost var p := Attempt(a);
          ConnectedCycle(a, old(texts));
          AppendAssoc(t0, [Connect], p.events);
          AppendAssoc(t0, [Connect] + p.events, SleepTail(p.raised));
      }
    }

    /** Lines 150-184 once connected: the `try` body, then the wait and the
        deep sleep unless an exception escaped the handler of line 179. */
    method TryThenSleep(io: Inputs) returns (ending: Ending)
      requires Valid() && io.connect.Connected? && |texts| == SLOT_COUNT
      modifies this
      ensures Valid() && layout == old(layout)
      ensures trace == old(trace) + Attempt(Ask(io)).events + SleepTail(Attempt(Ask(io)).raised)
      ensures texts == AttemptTexts(Ask(io), old(texts))
      ensures refreshes == old(refreshes) + (if Succeeds(Ask(io)) then 1 else 0)
      ensures ending == if Attempt(Ask(io)).raised.Some? && !CycleHandled(Attempt(Ask(io)).raised.value)
                        then Raised(Attempt(Ask(io)).raised.value) else Asleep(TIME_BETWEEN_REFRESHES)
    {
      ghost var t0 := trace;
      var raised := RunAttempt(io);
      ghost var t1 := trace;
      if raised.Some? && !CycleHandled(raised.value) {
        ending := Raised(raised.value);
        assert t1 + SleepTail(raised) == t1;
      } else {
        Log(Wait(DISPLAY_SETTLE));
        Log(DeepSleep(TIME_BETWEEN_REFRESHES));
        ending := Asleep(TIME_BETWEEN_REFRESHES);
        AppendAssoc(t1, [Wait(DISPLAY_SETTLE)], [DeepSleep(TIME_BETWEEN_REFRESHES)]);
      }
    }

    /** The outer `try` body after connecting (lines 150-177); returns the
        exception it raised, if any. */
    method RunAttempt(io: Inputs) returns (raised: Option<Exc>)
      requires Valid() && io.connect.Connected? && |texts| == SLOT_COUNT
      modifies this
      ensures Valid() && layout == old(layout)
      ensures trace == old(trace) + Attempt(Ask(io)).events
      ensures texts == AttemptTexts(Ask(io), old(texts))
      ensures refreshes == old(refreshes) + (if Succeeds(Ask(io)) then 1 else 0)
      ensures raised == Attempt(Ask(io)).raised
    {
      ghost var a := Ask(io);
      ghost var t0 := trace;
      Log(SyncTime);
      if io.clock.Err? {
        return Some(io.clock.error);
      }
      var now := io.clock.value;
      ghost var sw := StagedWrites(now, io.battery);
      WriteStaged(Timestamp(now), io.battery);
      ghost var staged := texts;
      raised := FetchAndShow(io);
      ghost var f := Fetched(a);
      AppendAssoc(t0, [SyncTime], sw);
      AppendAssoc(t0, [SyncTime] + sw, f.events);
      assert Attempt(a) == Partial([SyncTime] + sw + f.events, f.raised);
      SucceedsFetched(a);
      ghost var data := if BothFetched(a) then DataTexts(a.canada.value, a.province.value) else old(texts)[..12];
      DataOverStaged(old(texts), staged, texts, data, BothFetched(a));
    }

    /** Lines 162-177: the two requests, then the data writes once both
        succeeded; returns the exception a request raised, if any. */
    method FetchAndShow(io: Inputs) returns (raised: Option<Exc>)
      requires Valid() && |texts| == SLOT_COUNT
      modifies this
      ensures Valid() && layout == old(layout)
      ensures trace == old(trace) + Fetched(Ask(io)).events
      ensures texts == if BothFetched(Ask(io))
                       then DataTexts(Ask(io).canada.value, Ask(io).province.value) + old(texts)[12..]
                       else old(texts)
      ensures refreshes == old(refreshes) + (if BothFetched(Ask(io)) then 1 else 0)
      ensures raised == Fetched(Ask(io)).raised
    {
      ghost var a := Ask(io);
      ghost var t0 := trace;
      Log(Fetch(SourceOf(CANADA).url));
      var ca := GetData(CANADA, io.network);
      assert a.canada == ca;
      if ca.Err? {
        return Some(ca.error);
      }
      Log(Fetch(SourceOf(PROVINCE_INDEX).url));
      var prov := GetData(PROVINCE_INDEX, io.network);
      assert a.province == prov;
      if prov.Err? {
        return Some(prov.error);
      }
      WriteData(DataTexts(ca.value, prov.value));
      ghost var both := [Fetch(SourceOf(CANADA).url)] + [Fetch(SourceOf(PROVINCE_INDEX).url)];
      AppendAssoc(t0, [Fetch(SourceOf(CANADA).url)], [Fetch(SourceOf(PROVINCE_INDEX).url)]);
      AppendAssoc(t0, both, DataWrites(ca.value, prov.value));
      raised := None;
    }

    /** Lines 153-158: the timestamp into slot 12, then the warning into
        slot 13 when the voltage is low; neither refreshes the panel. */
    method WriteStaged(stamp: string, battery: real)
      requires Valid() && |texts| == SLOT_COUNT
      modifies this
      ensures Valid() && layout == old(layout)
      ensures trace == old(trace) + Staging(stamp, BatteryLow(battery))
      ensures texts == old(texts)[..TIMESTAMP_SLOT] + [stamp]
                       + [if BatteryLow(battery) then BATTERY_LOW_TEXT else old(texts)[BATTERY_SLOT]]
      ensures refreshes == old(refreshes)
    {
      SetText(stamp, TIMESTAMP_SLOT, false);
      if battery < LOW_BATTERY_VOLTS {
        SetText(BATTERY_LOW_TEXT, BATTERY_SLOT, false);
      }
    }

    /** Lines 166-177: the twelve data writes, slot by slot; only the last
        refreshes the panel. */
    method WriteData(vals: seq<string>)
      requires Valid() && |vals| == 12 && |texts| == SLOT_COUNT
      modifies this
      ensures Valid() && layout == old(layout)
      ensures trace == old(trace) + InOrder(vals)
      ensures texts == vals + old(texts)[12..]
      ensures refreshes == old(refreshes) + 1
    {
      WriteCanada(vals);
      WriteProvince(vals);
      AppendAssoc(old(trace), InOrder(vals)[..6], InOrder(vals)[6..]);
      assert InOrder(vals)[..6] + InOrder(vals)[6..] == InOrder(vals);
    }

    /** Lines 166-171: the six Canada values into slots 0-5, none refreshing. */
    method WriteCanada(vals: seq<string>)
      requires Valid() && |vals| == 12 && |texts| == SLOT_COUNT
      modifies this
      ensures Valid() && layout == old(layout)
      ensures trace == old(trace) + InOrder(vals)[..6]
      ensures texts == vals[..6] + old(texts)[6..]
      ensures refreshes == old(refreshes)
    {
      SetText(vals[0], 0, false);
      SetText(vals[1], 1, false);
      SetText(vals[2], 2, false);
      SetText(vals[3], 3, false);
      SetText(vals[4], 4, false);
      SetText(vals[5], 5, false);
    }

    /** Lines 172-177: the six province values into slots 6-11; only the
        last write, the one of line 177, refreshes the panel. */
    method WriteProvince(vals: seq<string>)
      requires Valid() && |vals| == 12 && |texts| == SLOT_COUNT
      modifies this
      ensures Valid() && layout == old(layout)
      ensures trace == old(trace) + InOrder(vals)[6..]
      ensures texts == old(texts)[..6] + vals[6..] + old(texts)[12..]
      ensures refreshes == old(refreshes) + 1
    {
      SetText(vals[6], 6, false);
      SetText(vals[7], 7, false);
      SetText(vals[8], 8, false);
      SetText(vals[9], 9, false);
      SetText(vals[10], 10, false);
      SetText(vals[11], 11, true);
    }
  }

  /** Lines 29-31 and 51-135: create the handle and register the fourteen
      slots in order, each still empty. */
  method Setup() returns (tag: MagTag)
    ensures fresh(tag) && tag.Valid()
    ensures tag.layout == SlotTable() && tag.trace == Registrations(SlotTable())
    ensures tag.texts == seq(SLOT_COUNT, _ => "") && tag.refreshes == 0
  {
    tag := new MagTag();
    tag.AddText(DATA_FONT, 120, 42, true);
    tag.AddText(DATA_FONT, 120, 54, true);
    tag.AddText(DATA_FONT, 120, 66, true);
    tag.AddText(DATA_FONT, 120, 78, true);
    tag.AddText(DATA_FONT, 120, 90, true);
    tag.AddText(DATA_FONT, 120, 102, true);
    tag.AddText(DATA_FONT, 210, 42, true);
    tag.AddText(DATA_FONT, 210, 54, true);
    tag.AddText(DATA_FONT, 210, 66, true);
    tag.AddText(DATA_FONT, 210, 78, true);
    tag.AddText(DATA_FONT, 210, 90, true);
    tag.AddText(DATA_FONT, 210, 102, true);
    tag.AddText(LABEL_FONT, 10, 118, false);
    tag.AddText(LABEL_FONT, 235, 118, false);
    assert tag.trace == Registrations(SlotTable());
    RegistrationsFacts(SlotTable());
  }

  /** The whole script: set up the fourteen slots, then run one cycle. */
  method Script(io: Inputs) returns (tag: MagTag, ending: Ending)
    ensures fresh(tag) && tag.Valid()
    ensures tag.layout == SlotTable()
    ensures ending == Cycle(Ask(io)).ending
    ensures tag.refreshes == Refreshes(Cycle(Ask(io)).events)
    ensures tag.texts == Show(seq(SLOT_COUNT, _ => ""), Cycle(Ask(io)).events)
  {
    tag := Setup();
    ending := tag.RefreshCycle(io);
  }
}
