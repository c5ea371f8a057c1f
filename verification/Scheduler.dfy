/** When backup jobs fire, and how often a slot is tried. */
module Scheduler {
  import opened Effects

  /** Seconds of local time; a day has no clock change here. */
  type Time = int

  const DAY := 86400
  const MAX_ATTEMPTS := 3

  function DayOf(t: Time): int {
    t / DAY
  }

  /** Day zero is a Thursday; Monday is weekday zero. */
  function Weekday(t: Time): int {
    (DayOf(t) + 3) % 7
  }

  /** `offset` is the time of day in seconds; `weekday` restricts a weekly job. */
  predicate Occurs(t: Time, offset: nat, weekday: Option<int>) {
    t % DAY == offset && (weekday.Some? ==> Weekday(t) == weekday.value)
  }

  ghost predicate IsLastFire(fire: Time, now: Time, offset: nat, weekday: Option<int>) {
    && Occurs(fire, offset, weekday) && fire <= now
    && forall t: Time | Occurs(t, offset, weekday) && t <= now :: t <= fire
  }

  lemma SameOffsetDays(a: Time, b: Time, offset: nat)
    requires a % DAY == offset && b % DAY == offset && a < b
    ensures a + DAY <= b
  {
  }

  lemma NextDay(t: Time)
    ensures (t - DAY) % DAY == t % DAY && DayOf(t - DAY) == DayOf(t) - 1
  {
  }

  lemma DivMod(n: int, q: int, r: int)
    requires n == DAY * q + r && 0 <= r < DAY
    ensures n / DAY == q && n % DAY == r
  {
  }

  /** The most recent occurrence at or before `now`. */
  method LastFireTime(now: Time, offset: nat, weekday: Option<int>) returns (candidate: Time)
    requires offset < DAY && (weekday.Some? ==> 0 <= weekday.value < 7)
    ensures IsLastFire(candidate, now, offset, weekday)
  {
    candidate := DAY * DayOf(now) + offset;
    DivMod(candidate, DayOf(now), offset);
    DivMod(now, DayOf(now), now % DAY);
    assert candidate + DAY > now;
    if weekday.None? {
      NextDay(candidate);
      if candidate > now {
        candidate := candidate - DAY;
      }
      NoneAfter(candidate, now, offset, weekday);
      return;
    }
    NoneAfter(candidate, now, offset, weekday);
    hide Weekday, Occurs;
    while Weekday(candidate) != weekday.value || candidate > now
      invariant candidate % DAY == offset && candidate < now + DAY
      invariant forall t: Time | Occurs(t, offset, weekday) && t <= now :: t <= candidate
      decreases if candidate > now then 1 else 0, Left(candidate, weekday.value)
    {
      StepBack(candidate, now, offset, weekday);
      candidate := candidate - DAY;
    }
    AtWeekday(candidate, offset, weekday);
  }

  /** Days to go back until the weekday matches. */
  function Left(t: Time, weekday: int): nat {
    (Weekday(t) - weekday) % 7
  }

  lemma StepBack(candidate: Time, now: Time, offset: nat, weekday: Option<int>)
    requires weekday.Some? && 0 <= weekday.value < 7 && candidate % DAY == offset && candidate < now + DAY
    requires Weekday(candidate) != weekday.value || candidate > now
    requires forall t: Time | Occurs(t, offset, weekday) && t <= now :: t <= candidate
    ensures (candidate - DAY) % DAY == offset && candidate - DAY < now + DAY
    ensures candidate <= now ==> Left(candidate - DAY, weekday.value) < Left(candidate, weekday.value)
    ensures candidate - DAY <= now
    ensures forall t: Time | Occurs(t, offset, weekday) && t <= now :: t <= candidate - DAY
  {
    NextDay(candidate);
    forall t: Time | Occurs(t, offset, weekday) && t <= now ensures t <= candidate - DAY {
      SameOffsetDays(t, candidate, offset);
    }
  }

  lemma NoneAfter(candidate: Time, now: Time, offset: nat, weekday: Option<int>)
    requires candidate % DAY == offset && candidate + DAY > now
    ensures forall t: Time | Occurs(t, offset, weekday) && t <= now :: t <= candidate
  {
  }

  lemma AtWeekday(t: Time, offset: nat, weekday: Option<int>)
    requires t % DAY == offset && weekday.Some? && Weekday(t) == weekday.value
    ensures Occurs(t, offset, weekday)
  {
  }

  lemma LastFireUnique(a: Time, b: Time, now: Time, offset: nat, weekday: Option<int>)
    requires IsLastFire(a, now, offset, weekday) && IsLastFire(b, now, offset, weekday)
    ensures a == b
  {
  }

  predicate Covered(lastSuccess: Option<Time>, fire: Time) {
    lastSuccess.Some? && lastSuccess.value >= fire
  }

  /** No slot after this one has been tried, and this one has not succeeded. */
  predicate Open(log: seq<Attempt>, fire: Time) {
    forall b | b in log :: b.fire <= fire && (b.fire == fire ==> !b.succeeded)
  }

  /** Due unless the slot has its success or has used up its attempts. */
  predicate IsDue(now: Time, fire: Time, lastSuccess: Option<Time>, lastAttempt: Option<Time>, attempts: nat) {
    && fire <= now
    && !Covered(lastSuccess, fire)
    && !(lastAttempt.Some? && lastAttempt.value >= fire && attempts >= MAX_ATTEMPTS)
  }

  datatype Attempt = Attempt(fire: Time, at: Time, succeeded: bool)

  function Count(log: seq<Attempt>, fire: Time): nat {
    if log == [] then 0 else Count(log[..|log| - 1], fire) + (if log[|log| - 1].fire == fire then 1 else 0)
  }

  /** Attempts were made in their own slots, in order and within budget; a success is remembered. */
  ghost predicate LogOk(log: seq<Attempt>, clock: Time, offset: nat, weekday: Option<int>, lastSuccess: Option<Time>) {
    && (forall a | a in log :: IsLastFire(a.fire, a.at, offset, weekday) && a.at <= clock)
    && (forall i, j | 0 <= i < j < |log| :: log[i].fire <= log[j].fire)
    && (forall a | a in log && a.succeeded :: lastSuccess.Some? && lastSuccess.value >= a.fire)
    && Budget(log)
  }

  lemma AppendKeepsLog(log: seq<Attempt>, a: Attempt, clock: Time, offset: nat, weekday: Option<int>,
                       lastSuccess: Option<Time>, newSuccess: Option<Time>)
    requires LogOk(log, clock, offset, weekday, lastSuccess)
    requires IsLastFire(a.fire, a.at, offset, weekday) && a.at >= clock
    requires Open(log, a.fire)
    requires Count(log, a.fire) < MAX_ATTEMPTS
    requires if a.succeeded then newSuccess.Some? && newSuccess.value >= a.fire else newSuccess == lastSuccess
    ensures LogOk(log + [a], a.at, offset, weekday, newSuccess)
  {
    var more := log + [a];
    OneMoreAttempt(log, a);
    forall i, j | 0 <= i < j < |more| ensures more[i].fire <= more[j].fire &&
        (more[i].succeeded ==> more[i].fire != more[j].fire) {
      assert more[i] in log;
      assert j < |log| ==> more[j] == log[j];
    }
    forall b | b in more && b.succeeded ensures newSuccess.Some? && newSuccess.value >= b.fire {
      assert b == a || b in log;
    }
  }

  /** What is persisted about a job, and the attempts it stands for. */
  datatype Record = Record(lastSuccess: Option<Time>, lastAttempt: Option<Time>, attempts: nat, log: seq<Attempt>)

  const FORGOTTEN := Record(None, None, 0, [])

  /** The recorded attempts that count for the slot. */
  function Spent(s: Record, fire: Time): nat {
    if s.lastAttempt.None? || s.lastAttempt.value < fire then 0 else s.attempts
  }

  function Attempted(s: Record, fire: Time, now: Time, succeeds: bool, finished: Time): Record {
    Record(if succeeds then Some(finished) else s.lastSuccess, Some(now), if succeeds then 0 else Spent(s, fire) + 1,
           s.log + [Attempt(fire, now, succeeds)])
  }

  datatype Event =
    | Pass(now: Time, contended: bool, succeeds: bool, finished: Time)
    | ByHand(finished: Time)

  /** One event in the slot `fire`. */
  function After(s: Record, fire: Time, e: Event): Record {
    match e
    case Pass(now, contended, succeeds, finished) =>
      if contended || !IsDue(now, fire, s.lastSuccess, s.lastAttempt, s.attempts) then s
      else Attempted(s, fire, now, succeeds, finished)
    case ByHand(finished) => s.(lastSuccess := Some(finished))
  }

  function AfterAll(s: Record, fire: Time, events: seq<Event>): Record
    decreases |events|
  {
    if events == [] then s else AfterAll(After(s, fire, events[0]), fire, events[1..])
  }

  /** A scheduled job with its persisted state. `log` are the attempts since the last request for an
      extra run, `earlier` those of the periods that such requests ended. */
  class Job {
    const offset: nat
    const weekday: Option<int>
    var lastSuccess: Option<Time>
    var lastAttempt: Option<Time>
    var slotAttempts: nat
    ghost var earlier: seq<seq<Attempt>>
    ghost var log: seq<Attempt>
    ghost var clock: Time
    ghost var decided: Option<Time>  // the slot a pass found due and has not tried yet

    ghost predicate Valid()
      reads this
    {
      && offset < DAY && (weekday.Some? ==> 0 <= weekday.value < 7)
      && (lastAttempt.Some? <==> log != []) && (log == [] ==> slotAttempts == 0)
      && (log != [] ==>
            var last := log[|log| - 1];
            lastAttempt == Some(last.at) && slotAttempts == if last.succeeded then 0 else Count(log, last.fire))
      && LogOk(log, clock, offset, weekday, lastSuccess)
      && (forall e | e in earlier :: Budget(e))
      && (decided.Some? ==>
            && IsLastFire(decided.value, clock, offset, weekday)
            && Open(log, decided.value) && Count(log, decided.value) < MAX_ATTEMPTS)
    }

    ghost function State(): Record
      reads this
    {
      Record(lastSuccess, lastAttempt, slotAttempts, log)
    }

    /** Every attempt ever made, in order. */
    ghost function Whole(): seq<Attempt>
      reads this
    {
      Flat(earlier + [log])
    }

    constructor (offset: nat, weekday: Option<int>)
      requires offset < DAY && (weekday.Some? ==> 0 <= weekday.value < 7)
      ensures Valid() && State() == FORGOTTEN && earlier == [] && clock == 0
      ensures this.offset == offset && this.weekday == weekday
    {
      this.offset, this.weekday := offset, weekday;
      lastSuccess, lastAttempt, slotAttempts, log, clock := None, None, 0, [], 0;
      earlier, decided := [], None;
    }

    /** A pass looks at the persisted state. The attempt itself comes later in the pass. */
    method Decide(now: Time) returns (due: bool, fire: Time)
      requires Valid() && now >= clock
      modifies this`clock, this`decided
      ensures Valid() && clock == now && IsLastFire(fire, now, offset, weekday)
      ensures due <==> !Covered(lastSuccess, fire) && Count(log, fire) < MAX_ATTEMPTS
      ensures due <==> IsDue(now, fire, lastSuccess, lastAttempt, slotAttempts)
      ensures decided == if due then Some(fire) else None
    {
      hide LogOk, IsLastFire;
      fire := LastFireTime(now, offset, weekday);
      SlotState(this, now, fire);
      LaterClock(log, clock, now, offset, weekday, lastSuccess);
      due := IsDue(now, fire, lastSuccess, lastAttempt, slotAttempts);
      assert fire <= now by { LastFireIsPast(fire, now, offset, weekday); }
      clock, decided := now, if due then Some(fire) else None;
    }

    /** The attempt a pass decided on. `contended`: a lock the job needs is taken; `finished` is when a
        successful run ended. */
    method Run(now: Time, fire: Time, contended: bool, succeeds: bool, finished: Time) returns (attempted: bool)
      requires Valid() && decided == Some(fire) && now == clock && finished >= now
      modifies this
      ensures Valid() && clock == old(clock) && decided.None? && earlier == old(earlier)
      ensures attempted == !contended
      ensures State() == if attempted then Attempted(old(State()), fire, now, succeeds, finished) else old(State())
    {
      hide LogOk, IsLastFire, Count, Budget;
      SlotState(this, now, fire);
      decided := None;
      if contended { return false; }
      var attempts := if lastAttempt.None? || lastAttempt.value < fire then 0 else slotAttempts;
      ghost var a := Attempt(fire, now, succeeds);
      assert fire <= now by { LastFireIsPast(fire, now, offset, weekday); }
      OneMoreAttempt(log, a);
      AppendKeepsLog(log, a, now, offset, weekday, lastSuccess, if succeeds then Some(finished) else lastSuccess);
      lastAttempt, slotAttempts, log := Some(now), attempts + 1, log + [a];
      if succeeds {
        lastSuccess, slotAttempts := Some(finished), 0;
      }
      attempted := true;
    }

    /** One scheduler pass that nothing interrupts. */
    method Tick(now: Time, contended: bool, succeeds: bool, finished: Time) returns (attempted: bool, ghost fire: Time)
      requires Valid() && now >= clock && finished >= now
      modifies this
      ensures Valid() && clock == now && IsLastFire(fire, now, offset, weekday) && earlier == old(earlier)
      // tried exactly when the locks are free, the slot has had no success, and the budget is not spent
      ensures attempted <==> !contended && !Covered(old(lastSuccess), fire) && Count(old(log), fire) < MAX_ATTEMPTS
      ensures State() == After(old(State()), fire, Pass(now, contended, succeeds, finished))
      ensures State() == if attempted then Attempted(old(State()), fire, now, succeeds, finished) else old(State())
    {
      var due, slot := Decide(now);
      fire, attempted := slot, false;
      if due {
        attempted := Run(now, slot, contended, succeeds, finished);
      }
    }

    /** A snapshot taken by hand also serves the slot it falls into, perhaps while a pass is under way. */
    method Manual(finished: Time)
      requires Valid() && (lastSuccess.Some? ==> finished >= lastSuccess.value)
      modifies this`lastSuccess
      ensures Valid() && State() == old(State()).(lastSuccess := Some(finished))
    {
      lastSuccess := Some(finished);
    }

    /** A recreated cluster needs a base backup at once: everything recorded is forgotten. */
    method Request()
      requires Valid()
      modifies this
      ensures Valid() && State() == FORGOTTEN
      ensures earlier == old(earlier) + [old(log)] && clock == old(clock) && decided == old(decided)
    {
      lastSuccess, lastAttempt, slotAttempts := None, None, 0;
      earlier, log := earlier + [log], [];
    }
  }

  /** No slot is tried more than three times, or again after it succeeded. */
  ghost predicate Budget(log: seq<Attempt>) {
    && (forall f :: Count(log, f) <= MAX_ATTEMPTS)
    && (forall i, j | 0 <= i < j < |log| && log[i].succeeded :: log[i].fire != log[j].fire)
  }

  lemma LastFireIsPast(fire: Time, now: Time, offset: nat, weekday: Option<int>)
    requires IsLastFire(fire, now, offset, weekday)
    ensures fire <= now
  {
  }

  lemma LaterClock(log: seq<Attempt>, clock: Time, now: Time, offset: nat, weekday: Option<int>,
                   lastSuccess: Option<Time>)
    requires LogOk(log, clock, offset, weekday, lastSuccess) && now >= clock
    ensures LogOk(log, now, offset, weekday, lastSuccess)
  {
  }

  /** What the persisted state says about the current slot. */
  lemma SlotState(job: Job, now: Time, fire: Time)
    requires job.Valid() && now >= job.clock && IsLastFire(fire, now, job.offset, job.weekday)
    ensures !Covered(job.lastSuccess, fire) ==> Open(job.log, fire)
    ensures Open(job.log, fire) ==> Spent(job.State(), fire) == Count(job.log, fire)
    ensures Count(job.log, fire) == 0 <==> job.lastAttempt.None? || job.lastAttempt.value < fire
  {
    forall a | a in job.log ensures a.fire <= fire {
      assert Occurs(a.fire, job.offset, job.weekday);
    }
    if job.log != [] {
      var last := job.log[|job.log| - 1];
      assert last in job.log;
      if last.at < fire {
        EarlierSlots(job.log, fire);
      } else {
        assert last.fire == fire;
      }
    }
  }

  lemma {:induction false} EarlierSlots(log: seq<Attempt>, fire: Time)
    requires forall a | a in log :: a.fire < fire
    ensures Count(log, fire) == 0
  {
    if log != [] {
      EarlierSlots(log[..|log| - 1], fire);
    }
  }

  lemma OneMoreAttempt(log: seq<Attempt>, a: Attempt)
    ensures forall f :: Count(log + [a], f) == Count(log, f) + (if a.fire == f then 1 else 0)
  {
  }

  // ---- whole runs, with requests ---------------------------------------------------------

  ghost predicate SlotBudget(log: seq<Attempt>, fire: Time) {
    && Count(log, fire) <= MAX_ATTEMPTS
    && (forall i, j | 0 <= i < j < |log| && log[i].succeeded && log[i].fire == fire :: log[j].fire != fire)
  }

  function Flat(periods: seq<seq<Attempt>>): seq<Attempt> {
    if periods == [] then [] else Flat(periods[..|periods| - 1]) + periods[|periods| - 1]
  }

  predicate Succeeded(log: seq<Attempt>, fire: Time) {
    exists a | a in log :: a.fire == fire && a.succeeded
  }

  /** A request falls between two attempts of the slot. */
  predicate Split(periods: seq<seq<Attempt>>, fire: Time) {
    exists i, j | 0 <= i < j < |periods| :: Count(periods[i], fire) > 0 && Count(periods[j], fire) > 0
  }

  /** A request falls between a success of the slot and a later attempt. */
  predicate Reopened(periods: seq<seq<Attempt>>, fire: Time) {
    exists i, j | 0 <= i < j < |periods| :: Succeeded(periods[i], fire) && Count(periods[j], fire) > 0
  }

  lemma {:induction false} CountSplits(a: seq<Attempt>, b: seq<Attempt>, fire: Time)
    ensures Count(a + b, fire) == Count(a, fire) + Count(b, fire)
  {
    if b == [] {
      assert a + b == a;
    } else {
      assert (a + b)[..|a + b| - 1] == a + b[..|b| - 1];
      CountSplits(a, b[..|b| - 1], fire);
    }
  }

  lemma {:induction false} CountedIsThere(log: seq<Attempt>, fire: Time)
    ensures Count(log, fire) > 0 <==> exists a | a in log :: a.fire == fire
  {
    if log != [] {
      var most := log[..|log| - 1];
      assert log == most + [log[|log| - 1]];
      CountedIsThere(most, fire);
    }
  }

  /** Budgets of two stretches make a budget of both exactly so. */
  lemma BudgetsJoin(a: seq<Attempt>, b: seq<Attempt>, fire: Time)
    requires SlotBudget(b, fire)
    ensures SlotBudget(a + b, fire) <==>
              SlotBudget(a, fire) && Count(a, fire) + Count(b, fire) <= MAX_ATTEMPTS &&
                  !(Succeeded(a, fire) && Count(b, fire) > 0)
  {
    CountSplits(a, b, fire);
    CountedIsThere(b, fire);
    var c := a + b;
    assert forall i | 0 <= i < |a| :: c[i] == a[i];
    assert forall i | 0 <= i < |b| :: c[|a| + i] == b[i];
    if Succeeded(a, fire) && Count(b, fire) > 0 {
      var i :| 0 <= i < |a| && a[i].fire == fire && a[i].succeeded;
      var j :| 0 <= j < |b| && b[j].fire == fire;
      assert c[i] == a[i] && c[|a| + j] == b[j];
      assert !SlotBudget(c, fire);
    } else if SlotBudget(a, fire) && Count(c, fire) <= MAX_ATTEMPTS {
      forall i, j | 0 <= i < j < |c| && c[i].succeeded && c[i].fire == fire ensures c[j].fire != fire {
        if i >= |a| {
          assert c[i] == b[i - |a|] && c[j] == b[j - |a|];
        } else if j >= |a| {
          assert c[i] in a && c[j] in b;
        }
      }
    }
  }

  lemma {:induction false} FlatFacts(periods: seq<seq<Attempt>>, fire: Time)
    ensures Succeeded(Flat(periods), fire) <==> exists e | e in periods :: Succeeded(e, fire)
    ensures Count(Flat(periods), fire) > 0 <==> exists e | e in periods :: Count(e, fire) > 0
  {
    if periods != [] {
      var most, last := periods[..|periods| - 1], periods[|periods| - 1];
      FlatFacts(most, fire);
      CountSplits(Flat(most), last, fire);
      assert periods == most + [last];
    }
  }

  /** Over a whole run, requests included, a slot keeps its budget exactly when it was tried at most three
      times and no request reopened it after its success. */
  lemma {:induction false} WholeBudgetExactlyWhen(periods: seq<seq<Attempt>>, fire: Time)
    requires forall e | e in periods :: SlotBudget(e, fire)
    ensures SlotBudget(Flat(periods), fire) <==> Count(Flat(periods), fire) <= MAX_ATTEMPTS && !Reopened(periods, fire)
  {
    if periods != [] {
      var most, last := periods[..|periods| - 1], periods[|periods| - 1];
      assert periods == most + [last];
      WholeBudgetExactlyWhen(most, fire);
      BudgetsJoin(Flat(most), last, fire);
      CountSplits(Flat(most), last, fire);
      FlatFacts(most, fire);
      ReopenedLast(most, last, fire);
    }
  }

  lemma ReopenedLast(most: seq<seq<Attempt>>, last: seq<Attempt>, fire: Time)
    ensures Reopened(most + [last], fire) <==>
              Reopened(most, fire) || (Count(last, fire) > 0 && exists e | e in most :: Succeeded(e, fire))
  {
    var all := most + [last];
    if Reopened(all, fire) {
      var i, j :| 0 <= i < j < |all| && Succeeded(all[i], fire) && Count(all[j], fire) > 0;
      assert all[i] in most;
      assert j < |most| ==> most[i] == all[i] && most[j] == all[j];
    }
    if Reopened(most, fire) {
      var i, j :| 0 <= i < j < |most| && Succeeded(most[i], fire) && Count(most[j], fire) > 0;
      assert all[i] == most[i] && all[j] == most[j];
    }
    if Count(last, fire) > 0 && exists e | e in most :: Succeeded(e, fire) {
      var i :| 0 <= i < |most| && Succeeded(most[i], fire);
      assert all[i] == most[i] && all[|most|] == last;
    }
  }

  /** A slot that no request splits keeps its budget over the whole run. */
  lemma {:induction false} UnsplitSlotsKeepBudget(periods: seq<seq<Attempt>>, fire: Time)
    requires (forall e | e in periods :: SlotBudget(e, fire)) && !Split(periods, fire)
    ensures SlotBudget(Flat(periods), fire)
  {
    if periods != [] {
      var most, last := periods[..|periods| - 1], periods[|periods| - 1];
      assert forall i | 0 <= i < |most| :: most[i] == periods[i];
      UnsplitSlotsKeepBudget(most, fire);
      FlatFacts(most, fire);
      BudgetsJoin(Flat(most), last, fire);
      CountedIsThere(Flat(most), fire);
    }
  }

  /** In every run, whatever was requested: each period keeps the budget, and the whole run does for
      every slot exactly as stated above. */
  lemma EveryRunKeepsBudget(job: Job, fire: Time)
    requires job.Valid()
    ensures SlotBudget(job.log, fire) && forall e | e in job.earlier :: SlotBudget(e, fire)
    ensures !Split(job.earlier + [job.log], fire) ==> SlotBudget(job.Whole(), fire)
    ensures SlotBudget(job.Whole(), fire) <==>
              Count(job.Whole(), fire) <= MAX_ATTEMPTS && !Reopened(job.earlier + [job.log], fire)
  {
    var periods := job.earlier + [job.log];
    forall e | e in periods ensures SlotBudget(e, fire) {
      assert Budget(e);
    }
    WholeBudgetExactlyWhen(periods, fire);
    if !Split(periods, fire) {
      UnsplitSlotsKeepBudget(periods, fire);
    }
  }

  // ---- what a request costs the slot it falls into ------------------------------------------

  /** Events that follow each other in the slot `fire`, none before `clock`. */
  ghost predicate InSlot(events: seq<Event>, fire: Time, clock: Time, offset: nat, weekday: Option<int>)
    decreases |events|
  {
    events != [] ==>
      && clock <= events[0].finished
      && (events[0].Pass? ==>
            clock <= events[0].now <= events[0].finished && IsLastFire(fire, events[0].now, offset, weekday))
      && InSlot(events[1..], fire, events[0].finished, offset, weekday)
  }

  /** A record of attempts in one slot only, as passes leave it. */
  ghost predicate SlotOk(s: Record, fire: Time, clock: Time) {
    && fire <= clock && (s.lastSuccess.Some? ==> s.lastSuccess.value <= clock)
    && (forall a | a in s.log :: a.fire == fire) && |s.log| <= MAX_ATTEMPTS
    && (s.lastAttempt.Some? <==> s.log != []) && (s.lastAttempt.Some? ==> s.lastAttempt.value >= fire)
    && (forall i | 0 <= i < |s.log| && s.log[i].succeeded :: i == |s.log| - 1 && Covered(s.lastSuccess, fire))
    && (s.log != [] && !s.log[|s.log| - 1].succeeded ==> s.attempts == |s.log|)
  }

  lemma AfterKeepsSlot(s: Record, fire: Time, clock: Time, e: Event)
    requires SlotOk(s, fire, clock) && clock <= e.finished && (e.Pass? ==> clock <= e.now <= e.finished)
    ensures SlotOk(After(s, fire, e), fire, e.finished)
  {
  }

  lemma {:induction false} AfterAllKeepsSlot(s: Record, fire: Time, clock: Time, events: seq<Event>, offset: nat,
                                             weekday: Option<int>) returns (later: Time)
    requires SlotOk(s, fire, clock) && InSlot(events, fire, clock, offset, weekday)
    ensures SlotOk(AfterAll(s, fire, events), fire, later)
    decreases |events|
  {
    later := clock;
    if events != [] {
      AfterKeepsSlot(s, fire, clock, events[0]);
      later := AfterAllKeepsSlot(After(s, fire, events[0]), fire, events[0].finished, events[1..], offset, weekday);
    }
  }

  lemma {:induction false} AllInSlot(log: seq<Attempt>, fire: Time)
    requires forall a | a in log :: a.fire == fire
    ensures Count(log, fire) == |log|
  {
    if log != [] {
      AllInSlot(log[..|log| - 1], fire);
    }
  }

  lemma SlotOkIsBudget(s: Record, fire: Time, clock: Time)
    requires SlotOk(s, fire, clock)
    ensures SlotBudget(s.log, fire)
  {
    AllInSlot(s.log, fire);
  }

  function FailedPass(now: Time): Event {
    Pass(now, false, false, now)
  }

  /** Nothing recorded keeps three failing passes from three more attempts. */
  lemma ThreeMore(fire: Time, now: Time, offset: nat, weekday: Option<int>)
    requires IsLastFire(fire, now, offset, weekday)
    ensures var events := [FailedPass(now), FailedPass(now), FailedPass(now)];
            InSlot(events, fire, now, offset, weekday) && Count(AfterAll(FORGOTTEN, fire, events).log, fire) == 3
  {
    hide IsLastFire;
    LastFireIsPast(fire, now, offset, weekday);
    var e := FailedPass(now);
    assert [e, e, e][1..] == [e, e] && [e, e][1..] == [e] && [e][1..] == [];
    var a := Attempt(fire, now, false);
    var s1 := Record(None, Some(now), 1, [a]);
    var s2 := Record(None, Some(now), 2, [a, a]);
    var s3 := Record(None, Some(now), 3, [a, a, a]);
    assert After(FORGOTTEN, fire, e) == s1 && After(s1, fire, e) == s2 && After(s2, fire, e) == s3;
    assert AfterAll(FORGOTTEN, fire, [e, e, e]) == AfterAll(s1, fire, [e, e]) == AfterAll(s2, fire, [e]) == s3;
    AllInSlot(s3.log, fire);
    assert InSlot([], fire, now, offset, weekday);
    assert InSlot([e], fire, now, offset, weekday);
    assert InSlot([e, e], fire, now, offset, weekday);
  }

  /** Whatever passes and snapshots by hand follow a request in a slot, the budget of the whole run holds for
      the slot: exactly if the slot had not been tried at all before the request. `whole`: every attempt
      before the request. */
  lemma RequestIsHarmlessExactlyWhen(whole: seq<Attempt>, fire: Time, now: Time, offset: nat, weekday: Option<int>)
    requires IsLastFire(fire, now, offset, weekday)
    ensures (forall events | InSlot(events, fire, now, offset, weekday) ::
               SlotBudget(whole + AfterAll(FORGOTTEN, fire, events).log, fire))
            <==> Count(whole, fire) == 0
  {
    hide IsLastFire, SlotBudget;
    LastFireIsPast(fire, now, offset, weekday);
    if Count(whole, fire) == 0 {
      forall events | InSlot(events, fire, now, offset, weekday)
        ensures SlotBudget(whole + AfterAll(FORGOTTEN, fire, events).log, fire)
      {
        UntriedStaysWithin(whole, fire, now, events, offset, weekday);
      }
    } else {
      var events := [FailedPass(now), FailedPass(now), FailedPass(now)];
      ThreeMore(fire, now, offset, weekday);
      CountSplits(whole, AfterAll(FORGOTTEN, fire, events).log, fire);
      BudgetIsBound(whole + AfterAll(FORGOTTEN, fire, events).log, fire);
    }
  }

  lemma BudgetIsBound(log: seq<Attempt>, fire: Time)
    ensures SlotBudget(log, fire) ==> Count(log, fire) <= MAX_ATTEMPTS
  {
  }

  lemma UntriedStaysWithin(whole: seq<Attempt>, fire: Time, now: Time, events: seq<Event>, offset: nat,
                           weekday: Option<int>)
    requires Count(whole, fire) == 0 && fire <= now && InSlot(events, fire, now, offset, weekday)
    ensures SlotBudget(whole + AfterAll(FORGOTTEN, fire, events).log, fire)
  {
    var s := AfterAll(FORGOTTEN, fire, events);
    var later := AfterAllKeepsSlot(FORGOTTEN, fire, now, events, offset, weekday);
    SlotOkIsBudget(s, fire, later);
    CountedIsThere(whole, fire);
    BudgetsJoin(whole, s.log, fire);
  }

  /** For the first request in a slot, the persisted state tells: no attempt, or none since the slot began. */
  lemma UntriedSlotShows(job: Job, now: Time, fire: Time)
    requires job.Valid() && now >= job.clock && IsLastFire(fire, now, job.offset, job.weekday)
    requires forall e | e in job.earlier :: Count(e, fire) == 0
    ensures Count(job.Whole(), fire) == 0 <==> job.lastAttempt.None? || job.lastAttempt.value < fire
  {
    var periods := job.earlier + [job.log];
    SlotState(job, now, fire);
    FlatFacts(periods, fire);
    assert job.log in periods;
  }

  lemma NextEvent(s: Record, fire: Time, time: Time, events: seq<Event>, i: nat, offset: nat, weekday: Option<int>)
    requires i < |events| && InSlot(events[i..], fire, time, offset, weekday)
    ensures var e := events[i];
            && AfterAll(s, fire, events[i..]) == AfterAll(After(s, fire, e), fire, events[i + 1..])
            && time <= e.finished && InSlot(events[i + 1..], fire, e.finished, offset, weekday)
            && (e.Pass? ==> time <= e.now <= e.finished && IsLastFire(fire, e.now, offset, weekday))
  {
    assert events[i..][1..] == events[i + 1..];
  }

  /** One event of a slot, on the job itself. */
  method Happen(job: Job, fire: Time, e: Event)
    requires job.Valid() && job.clock <= e.finished
    requires e.Pass? ==> job.clock <= e.now <= e.finished && IsLastFire(fire, e.now, job.offset, job.weekday)
    requires e.ByHand? && job.lastSuccess.Some? ==> job.lastSuccess.value <= e.finished
    modifies job
    ensures job.Valid() && job.State() == After(old(job.State()), fire, e) && job.earlier == old(job.earlier)
    ensures job.clock == if e.Pass? then e.now else old(job.clock)
  {
    hide Job.Valid, LogOk, IsLastFire, Budget;
    match e
    case Pass(now, contended, succeeds, finished) =>
      var _, slot := job.Tick(now, contended, succeeds, finished);
      LastFireUnique(slot, fire, now, job.offset, job.weekday);
    case ByHand(finished) => job.Manual(finished);
  }

  lemma SuccessInTime(s: Record, fire: Time, e: Event, time: Time)
    requires time <= e.finished && (s.lastSuccess.Some? ==> s.lastSuccess.value <= time)
    ensures After(s, fire, e).lastSuccess.Some? ==> After(s, fire, e).lastSuccess.value <= e.finished
  {
  }

  /** The events of a slot, on the job itself. */
  method Continue(job: Job, fire: Time, events: seq<Event>)
    requires job.Valid() && InSlot(events, fire, job.clock, job.offset, job.weekday)
    requires job.lastSuccess.Some? ==> job.lastSuccess.value <= job.clock
    modifies job
    ensures job.Valid() && job.State() == AfterAll(old(job.State()), fire, events) && job.earlier == old(job.earlier)
  {
    hide Job.Valid, LogOk, IsLastFire, Budget, InSlot, AfterAll, After;
    ghost var time := job.clock;
    ghost var target := AfterAll(job.State(), fire, events);
    assert events[0..] == events;
    for i := 0 to |events|
      invariant job.Valid() && job.earlier == old(job.earlier)
      invariant job.clock <= time && (job.State().lastSuccess.Some? ==> job.State().lastSuccess.value <= time)
      invariant InSlot(events[i..], fire, time, job.offset, job.weekday)
      invariant target == AfterAll(job.State(), fire, events[i..])
    {
      NextEvent(job.State(), fire, time, events, i, job.offset, job.weekday);
      SuccessInTime(job.State(), fire, events[i], time);
      Happen(job, fire, events[i]);
      time := events[i].finished;
    }
    assert events[|events|..] == [];
    NoEvents(job.State(), fire);
  }

  lemma NoEvents(s: Record, fire: Time)
    ensures AfterAll(s, fire, []) == s
  {
  }

  /** A missed slot is not given up: with fewer than three attempts and no success it is tried at the first
      pass that finds the locks free. */
  lemma {:induction false} FirstFreePassTries(s: Record, fire: Time, waits: seq<Event>, p: Event)
    requires !Covered(s.lastSuccess, fire) && Spent(s, fire) < MAX_ATTEMPTS
    requires (forall w | w in waits :: w.Pass? && w.contended) && p.Pass? && !p.contended && fire <= p.now
    ensures AfterAll(s, fire, waits + [p]) == Attempted(s, fire, p.now, p.succeeds, p.finished)
    decreases |waits|
  {
    if waits == [] {
      assert waits + [p] == [p] && [p][1..] == [];
      assert AfterAll(s, fire, [p]) == AfterAll(After(s, fire, p), fire, []);
    } else {
      assert (waits + [p])[1..] == waits[1..] + [p];
      assert After(s, fire, waits[0]) == s by { assert waits[0] in waits; }
      FirstFreePassTries(s, fire, waits[1..], p);
    }
  }

  // ---- what happens between a decision and its attempt ----------------------------------------

  datatype Interim = Finished(at: Time) | Requested

  /** Snapshots end one after the other. */
  predicate Rising(interim: seq<Interim>, lastSuccess: Option<Time>) {
    && (forall i, j | 0 <= i < j < |interim| && interim[i].Finished? && interim[j].Finished? ::
          interim[i].at <= interim[j].at)
    && (lastSuccess.Some? ==> forall x | x in interim && x.Finished? :: x.at >= lastSuccess.value)
  }

  /** A snapshot that no request followed ended in the slot. */
  predicate Served(interim: seq<Interim>, fire: Time) {
    exists i | 0 <= i < |interim| :: Serves(interim, i, fire)
  }

  predicate Serves(interim: seq<Interim>, i: nat, fire: Time)
    requires i < |interim|
  {
    && interim[i].Finished? && interim[i].at >= fire
    && forall j | i < j < |interim| :: interim[j].Finished?
  }

  lemma OneMoreInterim(before: seq<Interim>, x: Interim, fire: Time)
    ensures Served(before + [x], fire) <==> x.Finished? && (x.at >= fire || Served(before, fire))
  {
    var all := before + [x];
    assert forall k | 0 <= k < |before| :: all[k] == before[k];
    if i :| 0 <= i < |all| && Serves(all, i, fire) {
      assert all[|before|] == x;
      assert i < |before| ==> Serves(before, i, fire);
    }
    if x.Finished? && x.at >= fire {
      assert Serves(all, |before|, fire);
    }
    if x.Finished? && Served(before, fire) {
      var i :| 0 <= i < |before| && Serves(before, i, fire);
      assert Serves(all, i, fire);
    }
  }

  /** A pass decides, anything happens by hand or by request, and the pass acts on what it decided. The
      attempt follows a recorded success of its slot exactly if a snapshot by hand ended in the slot and no
      request came after it. */
  method DecideThenRun(job: Job, now: Time, interim: seq<Interim>, contended: bool, succeeds: bool, finished: Time)
    returns (attempted: bool, covered: bool, ghost fire: Time)
    requires job.Valid() && now >= job.clock && finished >= now && Rising(interim, job.lastSuccess)
    modifies job
    ensures job.Valid() && IsLastFire(fire, now, job.offset, job.weekday)
    ensures attempted <==> !contended && old(!Covered(job.lastSuccess, fire) && Count(job.log, fire) < MAX_ATTEMPTS)
    ensures attempted ==> job.log != [] && job.log[|job.log| - 1] == Attempt(fire, now, succeeds)
    ensures attempted ==> (covered <==> Served(interim, fire))
  {
    hide IsLastFire, Served;
    var due, slot := job.Decide(now);
    fire := slot;
    assert due ==> !Covered(job.lastSuccess, fire);
    NothingServed(fire);
    assert interim[..0] == [];
    for i := 0 to |interim|
      invariant job.Valid() && job.clock == now && job.decided == (if due then Some(fire) else None)
      invariant job.lastSuccess.Some? ==> forall x | x in interim[i..] && x.Finished? :: x.at >= job.lastSuccess.value
      invariant due ==> (Covered(job.lastSuccess, fire) <==> Served(interim[..i], fire))
    {
      assert interim[..i + 1] == interim[..i] + [interim[i]];
      OneMoreInterim(interim[..i], interim[i], fire);
      match interim[i]
      case Finished(at) => job.Manual(at);
      case Requested => job.Request();
    }
    assert interim[..|interim|] == interim;
    covered := Covered(job.lastSuccess, slot);
    attempted := false;
    if due {
      attempted := job.Run(now, slot, contended, succeeds, finished);
    }
  }

  lemma NothingServed(fire: Time)
    ensures !Served([], fire)
  {
  }

  /** A request and what follows it in a slot, on the job itself: the run that the condition above judges. */
  method RequestThenContinue(job: Job, fire: Time, events: seq<Event>)
    requires job.Valid() && InSlot(events, fire, job.clock, job.offset, job.weekday)
    modifies job
    ensures job.Valid() && job.State() == AfterAll(FORGOTTEN, fire, events)
    ensures job.Whole() == old(job.Whole()) + job.log
  {
    hide Job.Valid, LogOk, IsLastFire, Budget, SlotBudget, AfterAll, InSlot;
    ghost var periods := job.earlier + [job.log];
    job.Request();
    assert job.State().lastSuccess.None?;
    Continue(job, fire, events);
    assert job.earlier == periods;
    LastPeriod(periods, job.log);
  }

  lemma LastPeriod(periods: seq<seq<Attempt>>, log: seq<Attempt>)
    ensures Flat(periods + [log]) == Flat(periods) + log
  {
    assert (periods + [log])[..|periods|] == periods;
  }

  // ---- concrete runs ------------------------------------------------------------------------

  /** A base backup succeeds, the cluster is recreated, and the same slot is tried again. */
  method SuccessThenRequest() returns (job: Job)
    ensures job.Valid() && job.Whole() == [Attempt(0, 10, true), Attempt(0, 20, true)] && !SlotBudget(job.Whole(), 0)
  {
    hide LogOk, Open, IsLastFire, Job.Valid, SlotBudget;
    job := new Job(0, None);
    var attempted;
    ghost var fire;
    attempted, fire := job.Tick(10, false, true, 10);
    FirstDay(fire, 10);
    assert job.log == [Attempt(0, 10, true)];
    OnePeriod(job.log);
    var again := [Pass(20, false, true, 20)];
    OneMoreSuccess(job.offset, job.weekday);
    RequestThenContinue(job, 0, again);
    SuccessTwice(0);
  }

  lemma OneMoreSuccess(offset: nat, weekday: Option<int>)
    requires offset == 0 && weekday.None?
    ensures InSlot([Pass(20, false, true, 20)], 0, 10, offset, weekday)
    ensures AfterAll(FORGOTTEN, 0, [Pass(20, false, true, 20)]).log == [Attempt(0, 20, true)]
  {
    var e := Pass(20, false, true, 20);
    assert [e][1..] == [] && InSlot([], 0, 20, offset, weekday);
    assert IsLastFire(0, 20, offset, weekday);
    assert AfterAll(FORGOTTEN, 0, [e]) == AfterAll(After(FORGOTTEN, 0, e), 0, []);
  }

  lemma SuccessTwice(fire: Time)
    ensures !SlotBudget([Attempt(fire, 10, true), Attempt(fire, 20, true)], fire)
  {
    var log := [Attempt(fire, 10, true), Attempt(fire, 20, true)];
    assert log[0].succeeded && log[0].fire == fire && log[1].fire == fire;
  }

  lemma OnePeriod(log: seq<Attempt>)
    ensures Flat([] + [log]) == log && Flat([log]) == log
  {
    assert [log][..0] == [];
    assert [] + [log] == [log];
  }

  lemma FirstDay(fire: Time, now: Time)
    requires IsLastFire(fire, now, 0, None) && 0 <= now < DAY
    ensures fire == 0
  {
    assert Occurs(0, 0, None);
  }

  /** A request between two attempts alone breaks nothing. */
  lemma SplitSlotsMayKeepBudget(fire: Time)
    ensures var periods := [[Attempt(fire, fire, false)], [Attempt(fire, fire, false)]];
            Split(periods, fire) && SlotBudget(Flat(periods), fire)
  {
    var one := [Attempt(fire, fire, false)];
    var periods := [one, one];
    assert Count(one, fire) == 1 by { assert one[..0] == []; }
    assert SlotBudget(one, fire);
    assert Split(periods, fire) by { assert Count(periods[0], fire) > 0 && Count(periods[1], fire) > 0; }
    hide Count, SlotBudget, Split;
    BudgetsJoin(one, one, fire);
    assert Flat(periods) == one + one by { OnePeriod(one); assert periods[..1] == [one]; }
  }

  /** A pass decides, a snapshot by hand succeeds, and the pass tries the slot all the same. */
  method DecidedBeforeManual() returns (job: Job, attempted: bool, covered: bool)
    ensures job.Valid() && attempted && covered && job.log != [] && job.log[|job.log| - 1] == Attempt(0, 10, true)
  {
    job := new Job(0, None);
    ghost var fire;
    attempted, covered, fire := DecideThenRun(job, 10, [Finished(15)], false, true, 20);
    FirstDay(fire, 10);
    assert Serves([Finished(15)], 0, 0);
  }

  /** Two failures, a request and two more failures: four attempts in one slot. */
  method FourAttempts() returns (job: Job)
    ensures job.Valid() && Count(job.Whole(), 0) == 4 && !SlotBudget(job.Whole(), 0)
  {
    hide Job.Valid, LogOk, IsLastFire, Budget, SlotBudget;
    job := new Job(0, None);
    ghost var a := Attempt(0, 10, false);
    TwoFailures(job);
    job.Request();
    assert job.earlier == [[a, a]];
    TwoFailures(job);
    assert job.earlier + [job.log] == [[a, a], [a, a]];
    TwoPeriods([a, a], [a, a]);
    CountSplits([a, a], [a, a], 0);
    AllInSlot([a, a], 0);
    BudgetIsBound(job.Whole(), 0);
  }

  method TwoFailures(job: Job)
    requires job.Valid() && job.offset == 0 && job.weekday.None? && job.State() == FORGOTTEN && job.clock <= 10
    modifies job
    ensures job.Valid() && job.clock == 10 && job.earlier == old(job.earlier)
    ensures job.log == [Attempt(0, 10, false), Attempt(0, 10, false)]
  {
    var _, fire := job.Tick(10, false, false, 10);
    FirstDay(fire, 10);
    var _, again := job.Tick(10, false, false, 10);
    FirstDay(again, 10);
  }

  lemma TwoPeriods(a: seq<Attempt>, b: seq<Attempt>)
    ensures Flat([a, b]) == a + b
  {
    OnePeriod(a);
    assert [a, b][..1] == [a];
  }
}
