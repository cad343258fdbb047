/** Wraparound tracking of a RAPL energy counter, zeus/device/cpu/rapl.py: a polling process counts how often the
    counter wrapped, and a reader combines the counter file with that count. The two race. Energies are whole
    microjoules; the counter shows the true energy modulo its range. */
module Rapl {

  /** Increase of the counter in 0.1 s at 1000 W. */
  const RAPL_COUNTER_MAX_INCREASE: int := 1000 * 1000000 / 10

  /** The file was read at true energy `at`, and since then `polls` polls were counted; `pending` if at that moment the
      tracker had read the register for a poll it had yet to count. */
  datatype Reader =
    | Away
    | HasFile(value: int, at: int, pending: bool, polls: nat)

  /** Between the two halves of a poll the tracker holds the register it read at true energy `at`. */
  datatype Poller =
    | Sleeping
    | HasRegister(register: int, at: int)

  /** `energy`, `origin` and `polled` are the true energy now, at the first read and when the register of the last poll
      counted was read; `last` and `count` are the tracker's variables. */
  datatype System = System(energy: int, origin: int, polled: int, last: int, count: int, poller: Poller, reader: Reader)

  datatype Step =
    | Consume(amount: int)
    | PollRead        // the tracker reads the register
    | PollCount       // and then counts a wrap if it fell
    | ReadFile        // RAPLFile.read opens the counter file
    | ReadCount       // and then asks the tracker

  function Register(energy: int, range: int): int
    requires range > 0
  {
    energy % range
  }

  function Detected(register: int, last: int): int {
    if register < last then 1 else 0
  }

  function Start(energy: int, range: int): System
    requires range > 0
  {
    System(energy, energy, energy, Register(energy, range), 0, Sleeping, Away)
  }

  /** The true energy when the tracker last read the register. */
  function LastLook(s: System): int {
    if s.poller.HasRegister? then s.poller.at else s.polled
  }

  /** Less than the whole range is consumed between two reads of the register. */
  predicate Enabled(s: System, step: Step, range: int) {
    match step
    case Consume(amount) => amount >= 0 && s.energy + amount - LastLook(s) < range
    case PollRead => s.poller.Sleeping?
    case PollCount => s.poller.HasRegister?
    case ReadFile => true
    case ReadCount => s.reader.HasFile?
  }

  function Do(s: System, step: Step, range: int): System
    requires range > 0 && Enabled(s, step, range)
  {
    match step
    case Consume(amount) => s.(energy := s.energy + amount)
    case PollRead => s.(poller := HasRegister(Register(s.energy, range), s.energy))
    case PollCount =>
      s.(count := s.count + Detected(s.poller.register, s.last), last := s.poller.register, polled := s.poller.at,
         poller := Sleeping, reader := if s.reader.HasFile? then s.reader.(polls := s.reader.polls + 1) else Away)
    case ReadFile => s.(reader := HasFile(Register(s.energy, range), s.energy, s.poller.HasRegister?, 0))
    case ReadCount => s.(reader := Away)
  }

  /** What `RAPLFile.read` returns, in microjoules. */
  function ReadValue(s: System, range: int): int
    requires s.reader.HasFile?
  {
    s.reader.value + s.count * range
  }

  /** How many of the polls counted since the file was read had read the register since then as well; minus one while
      the poll that was pending then has not been counted. */
  function LooksSince(s: System): int
    requires s.reader.HasFile?
  {
    s.reader.polls - if s.reader.pending then 1 else 0
  }

  ghost predicate Inv(s: System, range: int)
    requires range > 0
  {
    && 0 <= s.origin <= s.polled <= LastLook(s) <= s.energy < LastLook(s) + range
    && LastLook(s) < s.polled + range
    && s.last == Register(s.polled, range)
    && (s.poller.HasRegister? ==> s.poller.register == Register(s.poller.at, range))
    && s.count == s.polled / range - s.origin / range
    && (s.reader.HasFile? ==> ReaderInv(s, range))
  }

  ghost predicate ReaderInv(s: System, range: int)
    requires range > 0 && s.reader.HasFile?
  {
    var at, looks := s.reader.at, LooksSince(s);
    && s.reader.value == Register(at, range) && 0 <= at <= s.energy
    && (looks < 0 ==> s.poller.HasRegister? && s.poller.at <= at < s.poller.at + range)
    && (looks == 0 ==> s.polled <= at < s.polled + range)
    && (looks > 0 ==> at <= s.polled < at + looks * range)
    && (looks >= 0 && s.poller.HasRegister? ==> at <= s.poller.at)
  }

  lemma Decompose(x: int, range: int)
    requires range > 0 && x >= 0
    ensures x == (x / range) * range + x % range && 0 <= x % range < range
  {
  }

  lemma Multiples(range: int, a: int, b: int)
    requires range > 0
    ensures b > a ==> b * range >= a * range + range
    ensures (a + 1) * range == a * range + range
  {
    if b > a {
      assert (b - a - 1) * range >= 0;
      assert b * range == (b - a - 1) * range + a * range + range;
    }
  }

  /** Two values given by quotient and remainder, the second not below the first. */
  lemma QuotientStep(range: int, a: int, m: int, b: int, n: int)
    requires range > 0 && 0 <= m < range && 0 <= n < range
    requires b * range + n >= a * range + m
    ensures b >= a
    ensures b * range + n - (a * range + m) < range ==> b <= a + 1
    ensures b == a + 1 ==> (b * range + n - (a * range + m) < range <==> n < m)
    ensures b == a ==> m <= n
  {
    Multiples(range, b, a);
    Multiples(range, a, b);
    Multiples(range, a + 1, b);
  }

  /** One poll counts no more than the wraps since the previous one, and all of them if and only if less than the range
      was consumed. */
  lemma CountsExactlyWhen(energy: int, amount: int, range: int)
    requires range > 0 && energy >= 0 && amount >= 0
    ensures (Detected(Register(energy + amount, range), Register(energy, range))
             == (energy + amount) / range - energy / range)
            <==> amount < range
    ensures Detected(Register(energy + amount, range), Register(energy, range))
         <= (energy + amount) / range - energy / range
  {
    Decompose(energy, range);
    Decompose(energy + amount, range);
    QuotientStep(range, energy / range, energy % range, (energy + amount) / range, (energy + amount) % range);
  }

  lemma StepKeeps(s: System, step: Step, range: int)
    requires range > 0 && Inv(s, range) && Enabled(s, step, range)
    ensures Inv(Do(s, step, range), range)
  {
    hide Register, ReaderInv;
    if step.PollCount? {
      CountsExactlyWhen(s.polled, s.poller.at - s.polled, range);
    }
    if s.reader.HasFile? && !step.ReadFile? && !step.ReadCount? {
      ReaderKeeps(s, step, range);
    } else if step.ReadFile? {
      ReaderStarts(s, range);
    }
  }

  lemma ReaderStarts(s: System, range: int)
    requires range > 0 && Inv(s, range)
    ensures ReaderInv(Do(s, ReadFile, range), range)
  {
  }

  lemma ReaderKeeps(s: System, step: Step, range: int)
    requires range > 0 && Inv(s, range) && Enabled(s, step, range)
    requires s.reader.HasFile? && (step.Consume? || step.PollRead? || step.PollCount?)
    ensures Do(s, step, range).reader.HasFile? && ReaderInv(Do(s, step, range), range)
  {
    hide Register;
    if step.PollCount? {
      Multiples(range, LooksSince(s), LooksSince(s));
    }
  }

  ghost predicate Runs(s: System, steps: seq<Step>, after: System, range: int)
    requires range > 0
    decreases |steps|
  {
    if steps == [] then s == after
    else Enabled(s, steps[0], range) && Runs(Do(s, steps[0], range), steps[1..], after, range)
  }

  lemma {:induction false} InvAlways(s: System, steps: seq<Step>, after: System, range: int)
    requires range > 0 && Inv(s, range) && Runs(s, steps, after, range)
    ensures Inv(after, range)
    decreases |steps|
  {
    hide Inv, Do, Enabled;
    if steps != [] {
      StepKeeps(s, steps[0], range);
      InvAlways(Do(s, steps[0], range), steps[1..], after, range);
    }
  }

  /** How many ranges a read is off: the wraps between the file read and the last poll, counted with their sign. */
  function Error(s: System, range: int): int
    requires range > 0 && s.reader.HasFile?
  {
    s.polled / range - s.reader.at / range
  }

  /** In every run: the tracker has counted exactly the wraps up to the last poll it counted, and a read returns the
      true energy at its file read, less the wraps before the start, plus its error in ranges. The error is one range
      at most if nothing or one look of the tracker came between the two halves of the read, but two ranges below if
      the read came between the two halves of a poll. */
  lemma ReadsTrueEnergy(start: int, steps: seq<Step>, s: System, range: int)
    requires range > 0 && start >= 0 && Runs(Start(start, range), steps, s, range)
    ensures s.count == s.polled / range - s.origin / range
    ensures s.reader.HasFile? ==>
      && ReadValue(s, range) == s.reader.at - s.origin / range * range + Error(s, range) * range
      && (LooksSince(s) < 0 ==> -2 <= Error(s, range) <= 0)
      && (LooksSince(s) == 0 ==> -1 <= Error(s, range) <= 0)
      && (LooksSince(s) > 0 ==> 0 <= Error(s, range) <= LooksSince(s))
  {
    StartInv(start, range);
    InvAlways(Start(start, range), steps, s, range);
    if s.reader.HasFile? {
      hide Runs;
      ErrorBounds(s, range);
      ReadIs(s, range);
    }
  }

  lemma ReadIs(s: System, range: int)
    requires range > 0 && Inv(s, range) && s.reader.HasFile?
    ensures ReadValue(s, range) == s.reader.at - s.origin / range * range + Error(s, range) * range
  {
    Decompose(s.reader.at, range);
    Distributes(s.polled / range, s.origin / range, s.reader.at / range, range);
  }

  lemma ErrorBounds(s: System, range: int)
    requires range > 0 && Inv(s, range) && s.reader.HasFile?
    ensures LooksSince(s) < 0 ==> -2 <= Error(s, range) <= 0
    ensures LooksSince(s) == 0 ==> -1 <= Error(s, range) <= 0
    ensures LooksSince(s) > 0 ==> 0 <= Error(s, range) <= LooksSince(s)
  {
    hide Register;
    var at, looks := s.reader.at, LooksSince(s);
    if looks > 0 {
      QuotientSpan(at, s.polled, looks, range);
    } else {
      QuotientSpan(s.polled, at, if looks == 0 then 1 else 2, range);
    }
  }

  /** Values less than n ranges apart are at most n wraps apart. */
  lemma QuotientSpan(x: int, y: int, n: int, range: int)
    requires range > 0 && 0 <= x <= y < x + n * range
    ensures 0 <= y / range - x / range <= n
  {
    Decompose(x, range);
    Decompose(y, range);
    var a, b := x / range, y / range;
    QuotientStep(range, a, x % range, b, y % range);
    assert (b - a) * range == b * range - a * range;
    assert (n + 1) * range == n * range + range;
    Below(b - a, n + 1, range);
  }

  lemma Below(a: int, b: int, range: int)
    requires range > 0 && a * range < b * range
    ensures a < b
  {
    NotPositive(b - a, range);
    assert (b - a) * range == b * range - a * range;
  }

  lemma NotPositive(d: int, range: int)
    requires range > 0
    ensures d <= 0 ==> d * range <= 0
  {
    if d <= 0 {
      assert -d * range >= 0;
    }
  }

  lemma StartInv(energy: int, range: int)
    requires range > 0 && energy >= 0
    ensures Inv(Start(energy, range), range)
  {
  }

  lemma Distributes(p: int, o: int, a: int, range: int)
    ensures (p - o) * range == p * range - o * range
    ensures (p - a) * range == p * range - a * range
  {
  }

  lemma RunsMore(s: System, step: Step, steps: seq<Step>, after: System, range: int)
    requires range > 0 && Enabled(s, step, range) && Runs(Do(s, step, range), steps, after, range)
    ensures Runs(s, [step] + steps, after, range)
  {
    assert ([step] + steps)[1..] == steps;
  }

  /** The error is real: of two reads, the later can be lower by almost the whole range. */
  lemma LaterReadCanBeLower(range: int) returns (steps: seq<Step>, first: System, later: System)
    requires range > 1
    ensures Runs(Start(0, range), [Consume(range - 1), ReadFile], first, range) && first.reader.HasFile?
    ensures Runs(first, steps, later, range) && later.reader.HasFile? && later.reader.at == first.reader.at + 1
    ensures ReadValue(later, range) == ReadValue(first, range) - (range - 1)
  {
    var s0 := Start(0, range);
    var s1 := Do(s0, Consume(range - 1), range);
    first := Do(s1, ReadFile, range);
    RunsMore(s1, ReadFile, [], first, range);
    RunsMore(s0, Consume(range - 1), [ReadFile], first, range);
    var s2 := Do(first, ReadCount, range);
    var s3 := Do(s2, PollRead, range);
    var s4 := Do(s3, PollCount, range);
    var s5 := Do(s4, Consume(1), range);
    later := Do(s5, ReadFile, range);
    hide Runs;
    assert Runs(later, [], later, range) by { NoSteps(later, range); }
    RunsMore(s5, ReadFile, [], later, range);
    RunsMore(s4, Consume(1), [ReadFile], later, range);
    RunsMore(s3, PollCount, [Consume(1)] + [ReadFile], later, range);
    RunsMore(s2, PollRead, [PollCount] + ([Consume(1)] + [ReadFile]), later, range);
    RunsMore(first, ReadCount, [PollRead] + ([PollCount] + ([Consume(1)] + [ReadFile])), later, range);
    steps := [ReadCount] + ([PollRead] + ([PollCount] + ([Consume(1)] + [ReadFile])));
    assert range % range == 0;
  }

  lemma NoSteps(s: System, range: int)
    requires range > 0
    ensures Runs(s, [], s, range)
  {
  }

  /** A read between the two halves of a poll can be two ranges short. */
  lemma DelayedCountLosesTwo(range: int) returns (steps: seq<Step>, s: System)
    requires range > 2
    ensures Runs(Start(range - 1, range), steps, s, range) && s.reader.HasFile? && Error(s, range) == -2
  {
    var s0 := Start(range - 1, range);
    var s1 := Do(s0, Consume(range - 1), range);
    var s2 := Do(s1, PollRead, range);
    var s3 := Do(s2, Consume(range - 1), range);
    s := Do(s3, ReadFile, range);
    hide Runs, Register;
    NoSteps(s, range);
    RunsMore(s3, ReadFile, [], s, range);
    RunsMore(s2, Consume(range - 1), [ReadFile] + [], s, range);
    RunsMore(s1, PollRead, [Consume(range - 1)] + ([ReadFile] + []), s, range);
    RunsMore(s0, Consume(range - 1), [PollRead] + ([Consume(range - 1)] + ([ReadFile] + [])), s, range);
    steps := [Consume(range - 1)] + ([PollRead] + ([Consume(range - 1)] + ([ReadFile] + [])));
    QuotientIs(range - 1, 0, range);
    QuotientIs(3 * range - 3, 2, range);
  }

  lemma QuotientIs(x: int, q: int, range: int)
    requires range > 0 && x >= 0 && q * range <= x < q * range + range
    ensures x / range == q
  {
    Decompose(x, range);
    assert (q + 1) * range == q * range + range && (x / range + 1) * range == x / range * range + range;
    Below(x / range, q + 1, range);
    Below(q, x / range + 1, range);
  }

  /** At up to 1000 W the chosen sleep never lets a range of more than 1e9 microjoules pass between two polls. */
  lemma SleepIsShortEnough(register: int, range: int, amount: int)
    requires 0 <= register < range && range > 1000000000
    requires 0 <= amount <= SleepTenths(register, range) * RAPL_COUNTER_MAX_INCREASE
    ensures amount < range
  {
  }

  /** The sleep is short exactly when the counter could wrap within a tenth of a second. */
  lemma SleepsShortExactlyWhen(register: int, range: int)
    requires 0 <= register < range
    ensures SleepTenths(register, range) == 1 <==>
            exists amount :: 0 <= amount < RAPL_COUNTER_MAX_INCREASE && Wraps(register, amount, range)
    ensures SleepTenths(register, range) == 1 || SleepTenths(register, range) == 10
  {
    assert Wraps(register, range - register, range);
  }

  predicate Wraps(register: int, amount: int, range: int) {
    register + amount >= range
  }

  /** The sleep after a poll, in tenths of a second. */
  function SleepTenths(register: int, range: int): int {
    if range - register < RAPL_COUNTER_MAX_INCREASE then 1 else 10
  }

  class RaplWraparoundTracker {
    const maxEnergy: int
    var last: int
    var wraparounds: int
    ghost const origin: int    // the true energy at the start
    ghost var polled: int      // and at the last poll
    ghost var timely: bool     // less than the range was consumed between any two polls

    /** The counter has wrapped at least as often as was counted, and just as often if every poll was timely. */
    ghost predicate Valid()
      reads this
    {
      && maxEnergy > 0 && 0 <= origin <= polled
      && last == Register(polled, maxEnergy)
      && wraparounds <= polled / maxEnergy - origin / maxEnergy
      && (wraparounds == polled / maxEnergy - origin / maxEnergy <==> timely)
    }

    constructor (maxEnergy: int, register: int, ghost energy: int)
      requires maxEnergy > 0 && energy >= 0 && register == Register(energy, maxEnergy)
      ensures Valid() && this.maxEnergy == maxEnergy && last == register && wraparounds == 0
      ensures origin == polled == energy && timely
    {
      this.maxEnergy, last, wraparounds := maxEnergy, register, 0;
      origin, polled, timely := energy, energy, true;
    }

    /** One turn of the polling loop, at a true energy of `energy`; returns the time to sleep. */
    method Poll(register: int, ghost energy: int) returns (tenths: int)
      requires Valid() && energy >= polled && register == Register(energy, maxEnergy)
      modifies this
      ensures Valid() && polled == energy && timely == (old(timely) && energy - old(polled) < maxEnergy)
      ensures wraparounds == old(wraparounds) + Detected(register, old(last)) && last == register
      ensures tenths == SleepTenths(register, maxEnergy)
    {
      CountsExactlyWhen(polled, energy - polled, maxEnergy);
      tenths := 10;
      if maxEnergy - register < RAPL_COUNTER_MAX_INCREASE {
        tenths := 1;
      }
      if register < last {
        wraparounds := wraparounds + 1;
      }
      last := register;
      timely := timely && energy - polled < maxEnergy;
      polled := energy;
    }

    /** At most the number of times the counter wrapped up to the last poll, and exactly that if and only if no two
        polls had the whole range between them. */
    method GetNumWraparounds() returns (n: int)
      requires Valid()
      ensures n == wraparounds
      ensures n <= polled / maxEnergy - origin / maxEnergy
      ensures n == polled / maxEnergy - origin / maxEnergy <==> timely
    {
      n := wraparounds;
    }
  }
}
