/** The books of the polling process in zeus/monitor/carbon.py: windows are cut at every hour, the energy of each
    sub-window is kept under its hour, and is turned into carbon at the end of the window or before its hour leaves
    the provider's history. */
module CarbonLedger {
  import opened Outcomes

  datatype Device = Gpu(index: nat) | Cpu(index: nat) | Dram(index: nat)

  /** The cumulative energy meters of all devices, or the energies of a window. */
  type Meters = map<Device, real>

  datatype HourEnergy = HourEnergy(hour: int, energy: Meters)

  /** A finished sub-window: the hour it belongs to and the meters at both ends. */
  datatype Cut = Cut(hour: int, from: Meters, to: Meters)

  /** One open window: the meters when its current sub-window began, the energies not yet turned into carbon, the
      carbon so far, and (for the record) all its finished sub-windows. */
  datatype Window = Window(start: Meters, pending: seq<HourEnergy>, carbon: Meters, cuts: seq<Cut>)

  datatype Ledger = Ledger(hour: int, index: nat, lastIndex: nat, windows: map<string, Window>)

  /** The provider: carbon intensity of an hour and the length of its history. */
  datatype Provider = Provider(intensity: int -> real, history: nat)

  const JOULES_PER_KWH: real := 3600000.0

  function At(m: Meters, d: Device): real {
    if d in m then m[d] else 0.0
  }

  function Consumed(from: Meters, to: Meters): Meters {
    map d | d in to :: to[d] - At(from, d)
  }

  /** The dictionary assignment for an hour: it overwrites what the hour already holds. */
  function SetHour(pending: seq<HourEnergy>, hour: int, energy: Meters): seq<HourEnergy> {
    if pending == [] then [HourEnergy(hour, energy)]
    else if pending[0].hour == hour then [HourEnergy(hour, pending[0].energy + energy)] + pending[1..]
    else [pending[0]] + SetHour(pending[1..], hour, energy)
  }

  function Emission(p: Provider, hour: int, energy: real): real {
    energy / JOULES_PER_KWH * p.intensity(hour)
  }

  function AddHour(p: Provider, carbon: Meters, h: HourEnergy): Meters {
    map d | d in carbon.Keys + h.energy.Keys ::
      At(carbon, d) + if d in h.energy then Emission(p, h.hour, h.energy[d]) else 0.0
  }

  function AddHours(p: Provider, carbon: Meters, pending: seq<HourEnergy>): Meters
    decreases |pending|
  {
    if pending == [] then carbon else AddHour(p, AddHours(p, carbon, pending[..|pending| - 1]), pending[|pending| - 1])
  }

  function CloseAt(w: Window, hour: int, now: Meters): Window {
    w.(start := now, pending := SetHour(w.pending, hour, Consumed(w.start, now)),
       cuts := w.cuts + [Cut(hour, w.start, now)])
  }

  function Flush(p: Provider, w: Window): Window {
    w.(carbon := AddHours(p, w.carbon, w.pending), pending := [])
  }

  /** Popping the carbon of the three device classes fails for a class without any entry. */
  predicate AllClasses(carbon: Meters) {
    && (exists d :: d in carbon && d.Gpu?)
    && (exists d :: d in carbon && d.Cpu?)
    && (exists d :: d in carbon && d.Dram?)
  }

  function BeginWindow(l: Ledger, key: string, now: Meters): Ledger {
    l.(windows := l.windows[key := Window(now, [], map[], [])])
  }

  function Ended(p: Provider, l: Ledger, key: string, now: Meters): Window
    requires key in l.windows
  {
    Flush(p, CloseAt(l.windows[key], l.hour, now))
  }

  function EndWindow(l: Ledger, key: string): Ledger {
    l.(windows := l.windows - {key})
  }

  predicate FlushDue(p: Provider, l: Ledger) {
    l.index + 1 - l.lastIndex == p.history - 1
  }

  /** The hour is over: every window is cut, and flushed if the oldest hour would leave the history. */
  function HourPasses(p: Provider, l: Ledger, hour: int, now: Meters): Ledger {
    var cut := map key | key in l.windows :: CloseAt(l.windows[key], l.hour, now);
    if FlushDue(p, l) then Ledger(hour, l.index + 1, l.index + 1, map key | key in cut :: Flush(p, cut[key]))
    else Ledger(hour, l.index + 1, l.lastIndex, cut)
  }

  // ---- What should be reported ----

  /** Carbon of all finished sub-windows, each at its own hour's intensity. */
  function TrueCarbon(p: Provider, cuts: seq<Cut>, d: Device): real {
    if cuts == [] then 0.0
    else
      var c := cuts[|cuts| - 1];
      TrueCarbon(p, cuts[..|cuts| - 1], d) + Emission(p, c.hour, At(c.to, d) - At(c.from, d))
  }

  function TrueEnergy(cuts: seq<Cut>, d: Device): real {
    if cuts == [] then 0.0
    else
      var c := cuts[|cuts| - 1];
      TrueEnergy(cuts[..|cuts| - 1], d) + (At(c.to, d) - At(c.from, d))
  }

  function PendingCarbon(p: Provider, pending: seq<HourEnergy>, d: Device): real {
    if pending == [] then 0.0
    else
      var h := pending[|pending| - 1];
      PendingCarbon(p, pending[..|pending| - 1], d) + Emission(p, h.hour, At(h.energy, d))
  }

  /** The sub-windows follow each other without gap. */
  ghost predicate Chained(w: Window, begin: Meters) {
    if w.cuts == [] then w.start == begin
    else
      && w.cuts[0].from == begin
      && w.cuts[|w.cuts| - 1].to == w.start
      && forall i :: 0 <= i < |w.cuts| - 1 ==> w.cuts[i].to == w.cuts[i + 1].from
  }

  /** The pending hours, oldest first, are over. */
  ghost predicate HoursBefore(pending: seq<HourEnergy>, hour: int) {
    && (forall i :: 0 <= i < |pending| ==> pending[i].hour < hour)
    && (forall i, j :: 0 <= i < j < |pending| ==> pending[i].hour < pending[j].hour)
  }

  ghost predicate OnDevices(w: Window, devices: set<Device>) {
    && w.start.Keys == devices
    && (forall i :: 0 <= i < |w.pending| ==> w.pending[i].energy.Keys == devices)
    && w.carbon.Keys <= devices
    && (forall i :: 0 <= i < |w.cuts| ==> w.cuts[i].from.Keys == w.cuts[i].to.Keys == devices)
    && (w.cuts != [] ==> w.pending != [] || w.carbon.Keys == devices)
  }

  /** Nothing is lost and nothing counted twice: what was turned into carbon and what is pending make up the carbon of
      all sub-windows. */
  ghost predicate Accounts(p: Provider, w: Window) {
    forall d :: At(w.carbon, d) + PendingCarbon(p, w.pending, d) == TrueCarbon(p, w.cuts, d)
  }

  ghost predicate WindowOk(p: Provider, w: Window, devices: set<Device>, hour: int) {
    && OnDevices(w, devices)
    && Accounts(p, w)
    && HoursBefore(w.pending, hour)
  }

  lemma {:induction false} SetNewHour(pending: seq<HourEnergy>, hour: int, energy: Meters)
    requires HoursBefore(pending, hour)
    ensures SetHour(pending, hour, energy) == pending + [HourEnergy(hour, energy)]
    decreases |pending|
  {
    if pending != [] {
      SetNewHour(pending[1..], hour, energy);
    }
  }

  lemma {:induction false} SetHourAt(pending: seq<HourEnergy>, i: nat, hour: int, energy: Meters)
    requires i <= |pending| && forall j :: 0 <= j < i ==> pending[j].hour != hour
    requires i < |pending| ==> pending[i].hour == hour
    ensures SetHour(pending, hour, energy) ==
      if i < |pending| then pending[i := HourEnergy(hour, pending[i].energy + energy)]
      else pending + [HourEnergy(hour, energy)]
    decreases |pending|
  {
    if i > 0 {
      SetHourAt(pending[1..], i - 1, hour, energy);
      assert pending == [pending[0]] + pending[1..];
    } else if pending != [] {
      assert pending[0 := HourEnergy(hour, pending[0].energy + energy)]
          == [HourEnergy(hour, pending[0].energy + energy)] + pending[1..];
    }
  }

  lemma {:induction false} AddHoursAdds(p: Provider, carbon: Meters, pending: seq<HourEnergy>, d: Device)
    ensures At(AddHours(p, carbon, pending), d) == At(carbon, d) + PendingCarbon(p, pending, d)
    decreases |pending|
  {
    hide Emission;
    if pending != [] {
      AddHoursAdds(p, carbon, pending[..|pending| - 1], d);
      NoEmission(p, pending[|pending| - 1].hour);
    }
  }

  /** Intensities are per kilowatt-hour, energies in joules. */
  lemma EmissionPerKilowattHour(p: Provider, hour: int, kilowattHours: real)
    ensures Emission(p, hour, kilowattHours * 3600000.0) == kilowattHours * p.intensity(hour)
  {
    assert kilowattHours * 3600000.0 / 3600000.0 == kilowattHours;
  }

  lemma NoEmission(p: Provider, hour: int)
    ensures Emission(p, hour, 0.0) == 0.0
  {
  }

  lemma {:induction false} AddHoursKeys(p: Provider, carbon: Meters, pending: seq<HourEnergy>, devices: set<Device>)
    requires carbon.Keys <= devices && forall i :: 0 <= i < |pending| ==> pending[i].energy.Keys == devices
    ensures AddHours(p, carbon, pending).Keys == if pending == [] then carbon.Keys else devices
    decreases |pending|
  {
    if pending != [] {
      AddHoursKeys(p, carbon, pending[..|pending| - 1], devices);
    }
  }

  /** Cutting a window at an hour it has no energy for yet keeps its accounts, until any later hour. */
  lemma CloseKeeps(p: Provider, w: Window, devices: set<Device>, hour: int, now: Meters, next: int)
    requires WindowOk(p, w, devices, hour) && now.Keys == devices && next > hour
    ensures WindowOk(p, CloseAt(w, hour, now), devices, next)
  {
    hide Emission, SetHour, At;
    SetNewHour(w.pending, hour, Consumed(w.start, now));
    var c := CloseAt(w, hour, now);
    assert c.pending[..|c.pending| - 1] == w.pending && c.cuts[..|c.cuts| - 1] == w.cuts;
    forall d
      ensures At(c.carbon, d) + PendingCarbon(p, c.pending, d) == TrueCarbon(p, c.cuts, d)
    {
      ConsumedAt(w.start, now, d);
    }
  }

  lemma ConsumedAt(from: Meters, to: Meters, d: Device)
    requires from.Keys == to.Keys
    ensures At(Consumed(from, to), d) == At(to, d) - At(from, d)
  {
  }

  lemma CloseChains(w: Window, hour: int, now: Meters, begin: Meters)
    requires Chained(w, begin)
    ensures Chained(CloseAt(w, hour, now), begin)
  {
  }

  lemma FlushKeeps(p: Provider, w: Window, devices: set<Device>, hour: int)
    requires WindowOk(p, w, devices, hour)
    ensures WindowOk(p, Flush(p, w), devices, hour)
  {
    hide Emission;
    AddHoursKeys(p, w.carbon, w.pending, devices);
    forall d
      ensures At(AddHours(p, w.carbon, w.pending), d) + 0.0 == TrueCarbon(p, w.cuts, d)
    {
      AddHoursAdds(p, w.carbon, w.pending, d);
    }
  }

  /** The energies of the sub-windows add up to the meter difference over the whole window. */
  lemma {:induction false} EnergyTelescopes(w: Window, begin: Meters, d: Device)
    requires Chained(w, begin)
    ensures TrueEnergy(w.cuts, d) == At(w.start, d) - At(begin, d)
    decreases |w.cuts|
  {
    if w.cuts != [] {
      var n := |w.cuts| - 1;
      var before := w.(cuts := w.cuts[..n], start := w.cuts[n].from);
      assert n > 0 ==> w.cuts[n - 1].to == w.cuts[n].from;
      EnergyTelescopes(before, begin, d);
    }
  }

  // ---- The books ----

  ghost predicate LedgerOk(p: Provider, l: Ledger, devices: set<Device>) {
    && p.history >= 2 && l.lastIndex <= l.index && l.index - l.lastIndex < p.history - 1
    && forall key :: key in l.windows ==> WindowOk(p, l.windows[key], devices, l.hour)
  }

  /** The hours looked up when a window is flushed. */
  ghost predicate LooksUpWithin(w: Window, oldest: int, newest: int) {
    forall i :: 0 <= i < |w.pending| ==> oldest <= w.pending[i].hour <= newest
  }

  /** The oldest hour that a window cut now has energy for. */
  function Oldest(w: Window, hour: int): int {
    if w.pending == [] then hour else w.pending[0].hour
  }

  /** What is looked up when a window is cut and flushed lies within a range of hours exactly when its oldest hour
      does. */
  lemma LooksUpExactlyWhen(w: Window, hour: int, now: Meters, oldest: int)
    requires HoursBefore(w.pending, hour)
    ensures LooksUpWithin(CloseAt(w, hour, now), oldest, hour) <==> Oldest(w, hour) >= oldest
  {
    SetNewHour(w.pending, hour, Consumed(w.start, now));
    hide SetHour;
    var c := CloseAt(w, hour, now);
    assert c.pending[0].hour == Oldest(w, hour);
  }

  lemma BeginLedger(p: Provider, l: Ledger, devices: set<Device>, key: string, now: Meters)
    requires LedgerOk(p, l, devices) && now.Keys == devices
    ensures LedgerOk(p, BeginWindow(l, key, now), devices)
    ensures Chained(BeginWindow(l, key, now).windows[key], now)
  {
  }

  /** Ending a window reports, for every device, the energy of each sub-window times its hour's intensity; every
      intensity looked up lies within the provider's history of the current hour exactly when the oldest one does. */
  lemma EndReports(p: Provider, l: Ledger, devices: set<Device>, key: string, begin: Meters, now: Meters)
    requires LedgerOk(p, l, devices) && now.Keys == devices && key in l.windows && Chained(l.windows[key], begin)
    ensures var closed := CloseAt(l.windows[key], l.hour, now); var reported := Ended(p, l, key, now).carbon;
      && (forall d :: At(reported, d) == TrueCarbon(p, closed.cuts, d))
      && (forall d :: TrueEnergy(closed.cuts, d) == At(now, d) - At(begin, d))
      && reported.Keys == devices
      && (LooksUpWithin(closed, l.hour - p.history + 1, l.hour) <==>
          Oldest(l.windows[key], l.hour) > l.hour - p.history)
    ensures LedgerOk(p, EndWindow(l, key), devices)
  {
    hide SetHour, TrueCarbon, TrueEnergy, AddHours, PendingCarbon;
    var w := l.windows[key];
    var closed := CloseAt(w, l.hour, now);
    CloseKeeps(p, w, devices, l.hour, now, l.hour + 1);
    CloseChains(w, l.hour, now, begin);
    LooksUpExactlyWhen(w, l.hour, now, l.hour - p.history + 1);
    FlushKeeps(p, closed, devices, l.hour + 1);
    forall d
      ensures At(Ended(p, l, key, now).carbon, d) == TrueCarbon(p, closed.cuts, d)
      ensures TrueEnergy(closed.cuts, d) == At(now, d) - At(begin, d)
    {
      EnergyTelescopes(closed, begin, d);
      NothingPending(p, d);
    }
  }

  lemma NothingPending(p: Provider, d: Device)
    ensures PendingCarbon(p, [], d) == 0.0
  {
  }

  /** The answer can be put on the queue exactly when each class of devices has been read. */
  lemma AnswersExactlyWhenAllClasses(p: Provider, l: Ledger, devices: set<Device>, key: string, begin: Meters,
                                     now: Meters)
    requires LedgerOk(p, l, devices) && now.Keys == devices && key in l.windows && Chained(l.windows[key], begin)
    ensures AllClasses(Ended(p, l, key, now).carbon) <==>
            ((exists d :: d in devices && d.Gpu?)
             && (exists d :: d in devices && d.Cpu?)
             && (exists d :: d in devices && d.Dram?))
  {
    hide Ended, LedgerOk;
    EndReports(p, l, devices, key, begin, now);
  }

  /** In a later hour, the next one or not: the accounts of every window hold and its sub-windows stay chained. */
  lemma HourKeeps(p: Provider, l: Ledger, devices: set<Device>, next: int, now: Meters)
    requires LedgerOk(p, l, devices) && now.Keys == devices && next > l.hour
    ensures LedgerOk(p, HourPasses(p, l, next, now), devices)
    ensures forall key, begin :: key in l.windows && Chained(l.windows[key], begin) ==>
      Chained(HourPasses(p, l, next, now).windows[key], begin)
  {
    hide SetHour, Accounts, OnDevices, AddHours, Chained;
    var after := HourPasses(p, l, next, now);
    forall key | key in l.windows
      ensures WindowOk(p, after.windows[key], devices, next)
      ensures forall begin :: Chained(l.windows[key], begin) ==> Chained(after.windows[key], begin)
    {
      var w := l.windows[key];
      CloseKeeps(p, w, devices, l.hour, now, next);
      FlushKeeps(p, CloseAt(w, l.hour, now), devices, next);
      forall begin | Chained(w, begin)
        ensures Chained(after.windows[key], begin)
      {
        CloseChains(w, l.hour, now, begin);
        FlushChains(p, CloseAt(w, l.hour, now), begin);
      }
    }
  }

  lemma FlushChains(p: Provider, w: Window, begin: Meters)
    requires Chained(w, begin)
    ensures Chained(Flush(p, w), begin)
  {
  }

  /** Distinct hours are needed: cut twice within one hour, a window forgets the energy of the first cut, and its
      accounts hold if and only if that energy emits nothing. */
  lemma SameHourForgets(p: Provider, w: Window, devices: set<Device>, hour: int, first: Meters, second: Meters)
    requires WindowOk(p, w, devices, hour) && first.Keys == second.Keys == devices
    ensures var twice := CloseAt(CloseAt(w, hour, first), hour, second);
      && twice.pending == w.pending + [HourEnergy(hour, Consumed(first, second))]
      && (Accounts(p, twice) <==> forall d :: Emission(p, hour, At(first, d) - At(w.start, d)) == 0.0)
  {
    CutTwice(w, devices, hour, first, second);
    hide SetHour, Emission, At, PendingCarbon, TrueCarbon, CloseAt;
    var twice := CloseAt(CloseAt(w, hour, first), hour, second);
    forall d
      ensures At(twice.carbon, d) + PendingCarbon(p, twice.pending, d) == TrueCarbon(p, twice.cuts, d)
          <==> Emission(p, hour, At(first, d) - At(w.start, d)) == 0.0
    {
      FirstCutLost(p, w, hour, first, second, d);
    }
  }

  /** What the books of a window cut twice in one hour lack. */
  lemma FirstCutLost(p: Provider, w: Window, hour: int, first: Meters, second: Meters, d: Device)
    requires Accounts(p, w) && first.Keys == second.Keys
    ensures At(w.carbon, d) + PendingCarbon(p, w.pending + [HourEnergy(hour, Consumed(first, second))], d)
            + Emission(p, hour, At(first, d) - At(w.start, d))
         == TrueCarbon(p, w.cuts + [Cut(hour, w.start, first)] + [Cut(hour, first, second)], d)
  {
    hide Emission, At, PendingCarbon, TrueCarbon;
    ConsumedAt(first, second, d);
    OneMorePending(p, w.pending, HourEnergy(hour, Consumed(first, second)), d);
    TwoMoreCuts(p, w.cuts, Cut(hour, w.start, first), Cut(hour, first, second), d);
  }

  lemma CutTwice(w: Window, devices: set<Device>, hour: int, first: Meters, second: Meters)
    requires HoursBefore(w.pending, hour) && first.Keys == second.Keys == devices == w.start.Keys
    ensures CloseAt(CloseAt(w, hour, first), hour, second)
         == Window(second, w.pending + [HourEnergy(hour, Consumed(first, second))], w.carbon,
                   w.cuts + [Cut(hour, w.start, first)] + [Cut(hour, first, second)])
  {
    SetNewHour(w.pending, hour, Consumed(w.start, first));
    SetLastHour(w.pending, hour, Consumed(w.start, first), Consumed(first, second));
    hide SetHour;
    assert Consumed(w.start, first) + Consumed(first, second) == Consumed(first, second);
  }

  lemma OneMorePending(p: Provider, pending: seq<HourEnergy>, h: HourEnergy, d: Device)
    ensures PendingCarbon(p, pending + [h], d) == PendingCarbon(p, pending, d) + Emission(p, h.hour, At(h.energy, d))
  {
    hide Emission, At;
    assert (pending + [h])[..|pending|] == pending;
  }

  lemma TwoMoreCuts(p: Provider, cuts: seq<Cut>, a: Cut, b: Cut, d: Device)
    ensures TrueCarbon(p, cuts + [a] + [b], d)
         == TrueCarbon(p, cuts, d) + Emission(p, a.hour, At(a.to, d) - At(a.from, d))
                                   + Emission(p, b.hour, At(b.to, d) - At(b.from, d))
  {
    hide Emission, At;
    assert (cuts + [a])[..|cuts|] == cuts && (cuts + [a] + [b])[..|cuts| + 1] == cuts + [a];
  }

  lemma {:induction false} SetLastHour(pending: seq<HourEnergy>, hour: int, former: Meters, energy: Meters)
    requires HoursBefore(pending, hour)
    ensures SetHour(pending + [HourEnergy(hour, former)], hour, energy) == pending + [HourEnergy(hour, former + energy)]
    decreases |pending|
  {
    if pending == [] {
      assert pending + [HourEnergy(hour, former)] == [HourEnergy(hour, former)];
    } else {
      SetLastHour(pending[1..], hour, former, energy);
      assert (pending + [HourEnergy(hour, former)])[1..] == pending[1..] + [HourEnergy(hour, former)];
    }
  }

  // ---- Whole runs ----

  datatype Event =
    | Began(key: string, now: Meters)
    | EndedAt(key: string, now: Meters)
    | HourOver(next: int, now: Meters)

  ghost predicate Legal(l: Ledger, devices: set<Device>, ev: Event) {
    && ev.now.Keys == devices
    && (ev.Began? ==> ev.key !in l.windows)
    && (ev.EndedAt? ==> ev.key in l.windows)
    && (ev.HourOver? ==> ev.next > l.hour)
  }

  function After(p: Provider, l: Ledger, ev: Event): Ledger {
    match ev
    case Began(key, now) => BeginWindow(l, key, now)
    case EndedAt(key, _) => EndWindow(l, key)
    case HourOver(next, now) => HourPasses(p, l, next, now)
  }

  /** The meters at the beginning of each open window. */
  function Begins(begins: map<string, Meters>, ev: Event): map<string, Meters> {
    match ev
    case Began(key, now) => begins[key := now]
    case EndedAt(key, _) => begins - {key}
    case HourOver(_, _) => begins
  }

  ghost predicate Tracks(p: Provider, l: Ledger, devices: set<Device>, begins: map<string, Meters>) {
    && LedgerOk(p, l, devices)
    && begins.Keys == l.windows.Keys
    && forall key :: key in begins ==> Chained(l.windows[key], begins[key])
  }

  lemma EventKeeps(p: Provider, l: Ledger, devices: set<Device>, begins: map<string, Meters>, ev: Event)
    requires Tracks(p, l, devices, begins) && Legal(l, devices, ev)
    ensures Tracks(p, After(p, l, ev), devices, Begins(begins, ev))
  {
    hide LedgerOk, Chained, Flush, CloseAt;
    match ev
    case Began(key, now) => BeginLedger(p, l, devices, key, now);
    case EndedAt(key, now) => EndReports(p, l, devices, key, begins[key], now);
    case HourOver(next, now) => HourKeeps(p, l, devices, next, now);
  }

  ghost predicate LegalRun(p: Provider, l: Ledger, devices: set<Device>, events: seq<Event>)
    decreases |events|
  {
    events == [] || (Legal(l, devices, events[0]) && LegalRun(p, After(p, l, events[0]), devices, events[1..]))
  }

  function AfterAll(p: Provider, l: Ledger, events: seq<Event>): Ledger
    decreases |events|
  {
    if events == [] then l else AfterAll(p, After(p, l, events[0]), events[1..])
  }

  function BeginsAll(begins: map<string, Meters>, events: seq<Event>): map<string, Meters>
    decreases |events|
  {
    if events == [] then begins else BeginsAll(Begins(begins, events[0]), events[1..])
  }

  /** Whatever windows were opened and closed over however many hours, some of them skipped or not: ending an open
      window now would report the meter difference since its beginning, every hour's part at that hour's intensity, and
      find all those hours exactly when the oldest is within the history. */
  lemma {:induction false} RunConserves(p: Provider, l: Ledger, devices: set<Device>, begins: map<string, Meters>,
                                        events: seq<Event>, key: string, now: Meters)
    requires Tracks(p, l, devices, begins) && LegalRun(p, l, devices, events)
    requires key in AfterAll(p, l, events).windows && now.Keys == devices
    ensures var late := AfterAll(p, l, events); var closed := CloseAt(late.windows[key], late.hour, now);
      && key in BeginsAll(begins, events)
      && (forall d :: At(Ended(p, late, key, now).carbon, d) == TrueCarbon(p, closed.cuts, d))
      && (forall d :: TrueEnergy(closed.cuts, d) == At(now, d) - At(BeginsAll(begins, events)[key], d))
      && (LooksUpWithin(closed, late.hour - p.history + 1, late.hour) <==>
            Oldest(late.windows[key], late.hour) > late.hour - p.history)
    decreases |events|
  {
    hide LedgerOk, Chained, After, Begins, Ended, CloseAt, LooksUpWithin, TrueCarbon, TrueEnergy;
    if events == [] {
      EndReports(p, l, devices, key, begins[key], now);
    } else {
      EventKeeps(p, l, devices, begins, events[0]);
      RunConserves(p, After(p, l, events[0]), devices, Begins(begins, events[0]), events[1..], key, now);
    }
  }

  /** A window as the events tell it: the meters when its current sub-window began, None while it is not open, and the
      sub-windows cut since it began, each in the hour it lay in. */
  datatype Told = Told(start: Option<Meters>, cuts: seq<Cut>)

  function TellEvent(told: Told, hour: int, key: string, ev: Event): Told {
    match ev
    case Began(k, now) => if k == key then Told(Some(now), []) else told
    case EndedAt(k, _) => if k == key then Told(None, []) else told
    case HourOver(_, now) =>
      if told.start.None? then told else Told(Some(now), told.cuts + [Cut(hour, told.start.value, now)])
  }

  function Tell(told: Told, hour: int, key: string, events: seq<Event>): Told
    decreases |events|
  {
    if events == [] then told
    else
      var next := if events[0].HourOver? then events[0].next else hour;
      Tell(TellEvent(told, hour, key, events[0]), next, key, events[1..])
  }

  ghost predicate ToldAs(l: Ledger, key: string, told: Told) {
    && (told.start.Some? <==> key in l.windows)
    && (key in l.windows ==> l.windows[key].start == told.start.value && l.windows[key].cuts == told.cuts)
  }

  /** The sub-windows on which the accounts rest are those of the events: one for each hour that passed since the window
      began, of that hour and between the meters at its ends. */
  lemma {:induction false} RunTells(p: Provider, l: Ledger, events: seq<Event>, key: string, told: Told)
    requires ToldAs(l, key, told)
    ensures ToldAs(AfterAll(p, l, events), key, Tell(told, l.hour, key, events))
    decreases |events|
  {
    hide SetHour, AddHours;
    if events != [] {
      EventTells(p, l, events[0], key, told);
      RunTells(p, After(p, l, events[0]), events[1..], key, TellEvent(told, l.hour, key, events[0]));
    }
  }

  lemma EventTells(p: Provider, l: Ledger, ev: Event, key: string, told: Told)
    requires ToldAs(l, key, told)
    ensures ToldAs(After(p, l, ev), key, TellEvent(told, l.hour, key, ev))
    ensures After(p, l, ev).hour == if ev.HourOver? then ev.next else l.hour
  {
    hide SetHour, AddHours, Consumed;
  }

  // ---- The history of the provider ----

  /** All energy from before the given hour has been turned into carbon. */
  ghost predicate FlushedUpTo(l: Ledger, hour: int) {
    hour <= l.hour && forall key :: key in l.windows ==> Oldest(l.windows[key], l.hour) >= hour
  }

  /** The hour that began with the last flush of all windows. */
  function LastFlush(p: Provider, l: Ledger, flushed: int, ev: Event): int {
    if ev.HourOver? && FlushDue(p, l) then ev.next else flushed
  }

  function LastFlushAll(p: Provider, l: Ledger, flushed: int, events: seq<Event>): int
    decreases |events|
  {
    if events == [] then flushed
    else LastFlushAll(p, After(p, l, events[0]), LastFlush(p, l, flushed, events[0]), events[1..])
  }

  lemma EventFlushes(p: Provider, l: Ledger, devices: set<Device>, flushed: int, ev: Event)
    requires LedgerOk(p, l, devices) && Legal(l, devices, ev) && FlushedUpTo(l, flushed)
    ensures FlushedUpTo(After(p, l, ev), LastFlush(p, l, flushed, ev))
  {
    hide SetHour, Accounts, OnDevices, AddHours;
    if ev.HourOver? {
      forall key | key in l.windows
        ensures CloseAt(l.windows[key], l.hour, ev.now).pending != []
        ensures CloseAt(l.windows[key], l.hour, ev.now).pending[0].hour == Oldest(l.windows[key], l.hour)
      {
        SetNewHour(l.windows[key].pending, l.hour, Consumed(l.windows[key].start, ev.now));
      }
    }
  }

  /** In every run an end, or a flush before the hour `at`, looks up no hour older than the last flush; so nothing is
      looked up in vain while fewer hours than the history is long have passed since then. */
  lemma {:induction false} RunLooksUp(p: Provider, l: Ledger, devices: set<Device>, begins: map<string, Meters>,
                                      flushed: int, events: seq<Event>, key: string, now: Meters, at: int)
    requires Tracks(p, l, devices, begins) && LegalRun(p, l, devices, events) && FlushedUpTo(l, flushed)
    requires key in AfterAll(p, l, events).windows
    ensures var late := AfterAll(p, l, events); var closed := CloseAt(late.windows[key], late.hour, now);
      && LooksUpWithin(closed, LastFlushAll(p, l, flushed, events), late.hour)
      && (at - LastFlushAll(p, l, flushed, events) < p.history ==> LooksUpWithin(closed, at - p.history + 1, late.hour))
    decreases |events|
  {
    hide Chained, After, Begins, CloseAt, LastFlush, WindowOk, LooksUpWithin;
    if events == [] {
      ReachesBack(p, l, devices, flushed, key, now);
      FartherBack(CloseAt(l.windows[key], l.hour, now), flushed, at - p.history + 1, l.hour);
    } else {
      EventKeeps(p, l, devices, begins, events[0]);
      EventFlushes(p, l, devices, flushed, events[0]);
      RunLooksUp(p, After(p, l, events[0]), devices, Begins(begins, events[0]), LastFlush(p, l, flushed, events[0]),
                 events[1..], key, now, at);
    }
  }

  lemma ReachesBack(p: Provider, l: Ledger, devices: set<Device>, flushed: int, key: string, now: Meters)
    requires LedgerOk(p, l, devices) && FlushedUpTo(l, flushed) && key in l.windows
    ensures LooksUpWithin(CloseAt(l.windows[key], l.hour, now), flushed, l.hour)
  {
    hide CloseAt, LooksUpWithin, Accounts, OnDevices;
    LooksUpExactlyWhen(l.windows[key], l.hour, now, flushed);
  }

  lemma FartherBack(w: Window, oldest: int, older: int, newest: int)
    requires LooksUpWithin(w, oldest, newest)
    ensures older <= oldest ==> LooksUpWithin(w, older, newest)
  {
  }

  /** The hours in which the open windows began. */
  function BeganAt(hours: map<string, int>, l: Ledger, ev: Event): map<string, int> {
    match ev
    case Began(key, _) => hours[key := l.hour]
    case EndedAt(key, _) => hours - {key}
    case HourOver(_, _) => hours
  }

  function BeganAtAll(p: Provider, l: Ledger, hours: map<string, int>, events: seq<Event>): map<string, int>
    decreases |events|
  {
    if events == [] then hours else BeganAtAll(p, After(p, l, events[0]), BeganAt(hours, l, events[0]), events[1..])
  }

  function Later(a: int, b: int): int {
    if a >= b then a else b
  }

  /** The oldest energy of a window is from the hour it began in or from that of the last flush, whichever is later. */
  ghost predicate Dated(l: Ledger, hours: map<string, int>, flushed: int) {
    && flushed <= l.hour && hours.Keys == l.windows.Keys
    && forall key :: key in l.windows ==>
         hours[key] <= l.hour && Oldest(l.windows[key], l.hour) == Later(hours[key], flushed)
  }

  lemma EventDates(p: Provider, l: Ledger, devices: set<Device>, hours: map<string, int>, flushed: int, ev: Event)
    requires LedgerOk(p, l, devices) && Legal(l, devices, ev) && Dated(l, hours, flushed)
    ensures Dated(After(p, l, ev), BeganAt(hours, l, ev), LastFlush(p, l, flushed, ev))
  {
    hide SetHour, Accounts, OnDevices, AddHours, CloseAt, HoursBefore;
    if ev.HourOver? {
      forall key | key in l.windows
        ensures CloseAt(l.windows[key], l.hour, ev.now).pending != []
        ensures CloseAt(l.windows[key], l.hour, ev.now).pending[0].hour == Oldest(l.windows[key], l.hour)
      {
        CutKeepsOldest(l.windows[key], l.hour, ev.now);
      }
    }
  }

  lemma CutKeepsOldest(w: Window, hour: int, now: Meters)
    requires HoursBefore(w.pending, hour)
    ensures CloseAt(w, hour, now).pending != [] && CloseAt(w, hour, now).pending[0].hour == Oldest(w, hour)
  {
    SetNewHour(w.pending, hour, Consumed(w.start, now));
    hide SetHour;
  }

  /** In every run an end, or a flush before the hour `at`, finds every hour it looks up if and only if the window
      began, or all windows were flushed, in an hour that is still within the history. */
  lemma {:induction false} RunFindsExactlyWhen(p: Provider, l: Ledger, devices: set<Device>,
                                               begins: map<string, Meters>, hours: map<string, int>, flushed: int,
                                               events: seq<Event>, key: string, now: Meters, at: int)
    requires Tracks(p, l, devices, begins) && LegalRun(p, l, devices, events) && Dated(l, hours, flushed)
    requires key in AfterAll(p, l, events).windows
    ensures var late := AfterAll(p, l, events); var closed := CloseAt(late.windows[key], late.hour, now);
      && key in BeganAtAll(p, l, hours, events)
      && (LooksUpWithin(closed, at - p.history + 1, late.hour) <==>
            Later(BeganAtAll(p, l, hours, events)[key], LastFlushAll(p, l, flushed, events)) > at - p.history)
    decreases |events|
  {
    hide Chained, After, Begins, CloseAt, LastFlush, WindowOk, LooksUpWithin, BeganAt, Later;
    if events == [] {
      FindsNow(p, l, devices, key, now, at);
    } else {
      EventKeeps(p, l, devices, begins, events[0]);
      EventDates(p, l, devices, hours, flushed, events[0]);
      RunFindsExactlyWhen(p, After(p, l, events[0]), devices, Begins(begins, events[0]), BeganAt(hours, l, events[0]),
                          LastFlush(p, l, flushed, events[0]), events[1..], key, now, at);
    }
  }

  lemma FindsNow(p: Provider, l: Ledger, devices: set<Device>, key: string, now: Meters, at: int)
    requires LedgerOk(p, l, devices) && key in l.windows
    ensures LooksUpWithin(CloseAt(l.windows[key], l.hour, now), at - p.history + 1, l.hour) <==>
            Oldest(l.windows[key], l.hour) > at - p.history
  {
    hide CloseAt, LooksUpWithin, Accounts, OnDevices, Oldest;
    LooksUpExactlyWhen(l.windows[key], l.hour, now, at - p.history + 1);
  }

  ghost predicate Consecutive(p: Provider, l: Ledger, events: seq<Event>)
    decreases |events|
  {
    events == [] ||
      ((events[0].HourOver? ==> events[0].next == l.hour + 1) && Consecutive(p, After(p, l, events[0]), events[1..]))
  }

  /** While no hour is skipped, the flushes come in time: an end, and a flush at the end of the current hour, find
      every hour they look up within the history. */
  lemma {:induction false} ConsecutiveLooksUp(p: Provider, l: Ledger, devices: set<Device>, begins: map<string, Meters>,
                                              events: seq<Event>, key: string, now: Meters)
    requires Tracks(p, l, devices, begins) && LegalRun(p, l, devices, events) && Consecutive(p, l, events)
    requires FlushedUpTo(l, l.hour - (l.index - l.lastIndex)) && key in AfterAll(p, l, events).windows
    ensures var late := AfterAll(p, l, events); var closed := CloseAt(late.windows[key], late.hour, now);
      && LooksUpWithin(closed, late.hour - p.history + 1, late.hour)
      && LooksUpWithin(closed, late.hour - p.history + 2, late.hour)
  {
    var late := AfterAll(p, l, events);
    FlushesInTime(p, l, devices, begins, l.hour - (l.index - l.lastIndex), events);
    RunLooksUp(p, l, devices, begins, l.hour - (l.index - l.lastIndex), events, key, now, late.hour);
    RunLooksUp(p, l, devices, begins, l.hour - (l.index - l.lastIndex), events, key, now, late.hour + 1);
  }

  lemma {:induction false} FlushesInTime(p: Provider, l: Ledger, devices: set<Device>, begins: map<string, Meters>,
                                         flushed: int, events: seq<Event>)
    requires Tracks(p, l, devices, begins) && LegalRun(p, l, devices, events) && Consecutive(p, l, events)
    requires flushed == l.hour - (l.index - l.lastIndex)
    ensures var late := AfterAll(p, l, events);
      LastFlushAll(p, l, flushed, events) == late.hour - (late.index - late.lastIndex) > late.hour + 1 - p.history
    decreases |events|
  {
    hide Chained, WindowOk, CloseAt, Begins, Flush;
    if events != [] {
      EventKeeps(p, l, devices, begins, events[0]);
      FlushesInTime(p, After(p, l, events[0]), devices, Begins(begins, events[0]),
                    LastFlush(p, l, flushed, events[0]), events[1..]);
    }
  }

  /** Passes of the loop are counted, not hours: after a pass that skipped as many hours as the history is long, the
      flush at that pass, when it is due already, or the next end looks up an hour that has left the history. */
  lemma SkippedHoursFail(p: Provider, hour: int, key: string, begin: Meters, later: Meters, now: Meters)
    requires p.history >= 2 && begin.Keys == later.Keys == now.Keys
    ensures var l := BeginWindow(Ledger(hour, 0, 0, map[]), key, begin); var next := hour + p.history;
      var late := HourPasses(p, l, next, later);
      && LegalRun(p, Ledger(hour, 0, 0, map[]), begin.Keys, [Began(key, begin), HourOver(next, later)])
      && AfterAll(p, Ledger(hour, 0, 0, map[]), [Began(key, begin), HourOver(next, later)]) == late
      && (FlushDue(p, l) <==> p.history == 2)
      && !LooksUpWithin(CloseAt(l.windows[key], hour, later), next - p.history + 1, hour)
      && (p.history > 2 ==> !LooksUpWithin(CloseAt(late.windows[key], next, now), next - p.history + 1, next))
  {
    var start := Ledger(hour, 0, 0, map[]);
    var l, next := BeginWindow(start, key, begin), hour + p.history;
    var events := [Began(key, begin), HourOver(next, later)];
    assert events[1..] == [HourOver(next, later)] && events[1..][1..] == [];
    LooksUpExactlyWhen(l.windows[key], hour, later, next - p.history + 1);
    var late := HourPasses(p, l, next, later);
    assert AfterAll(p, l, events[1..]) == AfterAll(p, late, events[1..][1..]) == late;
    if p.history > 2 {
      LooksUpExactlyWhen(late.windows[key], next, now, next - p.history + 1);
    }
  }

  // ---- The process ----

  class PollingProcess {
    const provider: Provider
    var hour: int
    var index: nat
    var lastIndex: nat
    var windows: map<string, Window>

    ghost function Model(): Ledger
      reads this
    {
      Ledger(hour, index, lastIndex, windows)
    }

    constructor (provider: Provider, hour: int)
      ensures this.provider == provider && Model() == Ledger(hour, 0, 0, map[])
    {
      this.provider, this.hour := provider, hour;
      index, lastIndex, windows := 0, 0, map[];
    }

    method UpdateEnergyMeasurements(key: string, now: Meters)
      requires key in windows
      modifies this`windows
      ensures windows == old(windows)[key := CloseAt(old(windows)[key], hour, now)]
    {
      hide SetHour;
      var w := windows[key];
      var energy := Consumed(w.start, now);
      var pending: seq<HourEnergy> := w.pending;
      var i := 0;
      while i < |pending| && pending[i].hour != hour
        invariant 0 <= i <= |pending|
        invariant forall j :: 0 <= j < i ==> pending[j].hour != hour
      {
        i := i + 1;
      }
      SetHourAt(pending, i, hour, energy);
      if i < |pending| {
        pending := pending[i := HourEnergy(hour, pending[i].energy + energy)];
      } else {
        pending := pending + [HourEnergy(hour, energy)];
      }
      windows := windows[key := w.(start := now, pending := pending, cuts := w.cuts + [Cut(hour, w.start, now)])];
    }

    method UpdateCarbonEmissions(key: string)
      requires key in windows
      modifies this`windows
      ensures windows == old(windows)[key := Flush(provider, old(windows)[key])]
    {
      hide AddHour;
      var w := windows[key];
      var carbon := w.carbon;
      var i := 0;
      while i < |w.pending|
        invariant 0 <= i <= |w.pending| && carbon == AddHours(provider, w.carbon, w.pending[..i])
      {
        assert w.pending[..i + 1][..i] == w.pending[..i];
        carbon := AddHour(provider, carbon, w.pending[i]);
        i := i + 1;
      }
      assert w.pending[..i] == w.pending;
      windows := windows[key := w.(carbon := carbon, pending := [])];
    }

    /** The cut of all windows at the end of an hour. */
    method CutAll(now: Meters)
      modifies this`windows
      ensures windows.Keys == old(windows).Keys
      ensures forall key :: key in windows ==> windows[key] == CloseAt(old(windows)[key], hour, now)
    {
      hide CloseAt;
      var keys := windows.Keys;
      while keys != {}
        invariant keys <= windows.Keys == old(windows).Keys
        invariant forall key :: key in windows ==>
          windows[key] == if key in keys then old(windows)[key] else CloseAt(old(windows)[key], hour, now)
        decreases keys
      {
        var key :| key in keys;
        UpdateEnergyMeasurements(key, now);
        keys := keys - {key};
      }
    }

    /** The flush of all windows before an hour is forgotten by the provider. */
    method FlushAll()
      modifies this`windows
      ensures windows.Keys == old(windows).Keys
      ensures forall key :: key in windows ==> windows[key] == Flush(provider, old(windows)[key])
    {
      hide Flush;
      var keys := windows.Keys;
      while keys != {}
        invariant keys <= windows.Keys == old(windows).Keys
        invariant forall key :: key in windows ==>
          windows[key] == if key in keys then old(windows)[key] else Flush(provider, old(windows)[key])
        decreases keys
      {
        var key :| key in keys;
        UpdateCarbonEmissions(key);
        keys := keys - {key};
      }
    }

    method Begin(key: string, now: Meters)
      modifies this
      ensures Model() == BeginWindow(old(Model()), key, now)
    {
      windows := windows[key := Window(now, [], map[], [])];
    }

    /** The answer to an END, unless a class of devices has never been read. */
    method End(key: string, now: Meters) returns (answer: Option<Meters>)
      requires key in windows
      modifies this
      ensures var w := Ended(provider, old(Model()), key, now);
        answer == if AllClasses(w.carbon) then Some(w.carbon) else None
      ensures Model() == EndWindow(old(Model()), key)
    {
      UpdateEnergyMeasurements(key, now);
      UpdateCarbonEmissions(key);
      var carbon := windows[key].carbon;
      windows := windows - {key};
      answer := if AllClasses(carbon) then Some(carbon) else None;
    }

    /** The hour is over: all windows are cut and, when due, flushed. */
    method NextHour(next: int, now: Meters)
      modifies this
      ensures Model() == HourPasses(provider, old(Model()), next, now)
    {
      hide CloseAt, Flush;
      index := index + 1;
      CutAll(now);
      if index - lastIndex == provider.history - 1 {
        FlushAll();
        lastIndex := index;
      }
      hour := next;
      ghost var expected := HourPasses(provider, old(Model()), next, now);
      assert windows == expected.windows;
    }
  }
}
