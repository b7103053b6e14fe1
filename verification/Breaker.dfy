/** The circuit breaker in front of order execution: a timed state machine over signal
    requests, outcomes and state reads. */
module CircuitBreakers {
  datatype Phase = Closed | Open | HalfOpen

  datatype Config = Config(failureThreshold: int, cooldown: real, maxProbes: int, successThreshold: int)

  const DEFAULTS := Config(5, 60.0, 1, 2)

  datatype Breaker = Breaker(phase: Phase, failures: nat, successes: nat, openedAt: real,
                             probes: nat, trips: nat, blocks: nat)

  const FRESH := Breaker(Closed, 0, 0, 0.0, 0, 0, 0)

  /** One call on the breaker, and when it happened. `Read` is any use of the `state` property. */
  datatype Call = Read | Request | Succeeded | Failed | Reset

  datatype Event = Event(call: Call, at: real)

  /** Reading the state moves an expired `Open` to `HalfOpen`. */
  function Settled(cfg: Config, b: Breaker, now: real): Breaker
  {
    if b.phase.Open? && now - b.openedAt >= cfg.cooldown then b.(phase := HalfOpen, probes := 0) else b
  }

  function Tripped(b: Breaker, now: real): Breaker
  {
    b.(phase := Open, openedAt := now, trips := b.trips + 1, failures := 0)
  }

  function Step(cfg: Config, b: Breaker, e: Event): Breaker
  {
    match e.call
    case Read => Settled(cfg, b, e.at)
    case Request =>
      var s := Settled(cfg, b, e.at);
      if s.phase.Closed? then s
      else if s.phase.HalfOpen? && s.probes < cfg.maxProbes then s.(probes := s.probes + 1)
      else s.(blocks := s.blocks + 1)
    case Succeeded =>
      if b.phase.HalfOpen? then
        if b.successes + 1 >= cfg.successThreshold then b.(phase := Closed, failures := 0, successes := 0)
        else b.(successes := b.successes + 1)
      else if b.phase.Closed? then b.(failures := 0) else b
    case Failed =>
      if b.phase.HalfOpen? then Tripped(b.(successes := 0), e.at)
      else if b.failures + 1 >= cfg.failureThreshold then Tripped(b.(successes := 0), e.at)
      else b.(successes := 0, failures := b.failures + 1)
    case Reset => b.(phase := Closed, failures := 0, successes := 0, probes := 0)
  }

  /** Whether a call is a request that is let through. */
  predicate Admits(cfg: Config, b: Breaker, e: Event)
  {
    var s := Settled(cfg, b, e.at);
    e.call.Request? && (s.phase.Closed? || (s.phase.HalfOpen? && s.probes < cfg.maxProbes))
  }

  function Run(cfg: Config, b: Breaker, es: seq<Event>): Breaker
    decreases |es|
  {
    if es == [] then b else Step(cfg, Run(cfg, b, es[..|es| - 1]), es[|es| - 1])
  }

  lemma RunNext(cfg: Config, b: Breaker, es: seq<Event>, k: nat)
    requires k < |es|
    ensures Run(cfg, b, es[..k + 1]) == Step(cfg, Run(cfg, b, es[..k]), es[k])
  {
    assert es[..k + 1][..k] == es[..k];
  }

  /** The clock never runs back. */
  predicate Timed(es: seq<Event>) { forall i, j :: 0 <= i < j < |es| ==> es[i].at <= es[j].at }

  predicate AdmittedAt(cfg: Config, b: Breaker, es: seq<Event>, k: nat)
    requires k < |es|
  {
    Admits(cfg, Run(cfg, b, es[..k]), es[k])
  }

  predicate TripsAt(cfg: Config, b: Breaker, es: seq<Event>, k: nat)
    requires k < |es|
  {
    Run(cfg, b, es[..k + 1]).trips > Run(cfg, b, es[..k]).trips
  }

  // ------------------------------------------------------------------- cooldown

  predicate Cooled(cfg: Config, b: Breaker, t: real, now: real)
  {
    b.openedAt >= t && (!b.phase.Open? ==> now - t >= cfg.cooldown)
  }

  lemma StepCools(cfg: Config, b: Breaker, e: Event, t: real, before: real)
    requires Cooled(cfg, b, t, before) && t <= before <= e.at && !e.call.Reset?
    ensures Cooled(cfg, Step(cfg, b, e), t, e.at)
  {
  }

  lemma TripCools(cfg: Config, b: Breaker, e: Event)
    requires Step(cfg, b, e).trips > b.trips
    ensures Cooled(cfg, Step(cfg, b, e), e.at, e.at)
  {
  }

  lemma {:induction false} CooldownHolds(cfg: Config, b: Breaker, es: seq<Event>, i: nat, k: nat)
    requires Timed(es) && i < k <= |es| && TripsAt(cfg, b, es, i)
    requires forall m :: i <= m < |es| ==> !es[m].call.Reset?
    ensures Cooled(cfg, Run(cfg, b, es[..k]), es[i].at, es[k - 1].at)
  {
    hide Run, Step, Cooled;
    RunNext(cfg, b, es, k - 1);
    if k > i + 1 {
      CooldownHolds(cfg, b, es, i, k - 1);
      StepCools(cfg, Run(cfg, b, es[..k - 1]), es[k - 1], es[i].at, es[k - 2].at);
    } else {
      TripCools(cfg, Run(cfg, b, es[..i]), es[i]);
    }
  }

  /** Over every timed run without a reset, nothing is admitted until the cooldown after a trip
      has passed. */
  lemma NothingAdmittedInCooldown(cfg: Config, b: Breaker, es: seq<Event>, i: nat, j: nat)
    requires Timed(es) && i < j < |es| && TripsAt(cfg, b, es, i) && AdmittedAt(cfg, b, es, j)
    requires forall m :: i <= m < |es| ==> !es[m].call.Reset?
    ensures es[j].at - es[i].at >= cfg.cooldown
  {
    CooldownHolds(cfg, b, es, i, j);
  }

  /** A failed probe trips the breaker again at once: nothing is admitted for another cooldown. */
  lemma FailedProbeBlocks(cfg: Config, b: Breaker, es: seq<Event>, i: nat, j: nat)
    requires Timed(es) && i < j < |es| && Run(cfg, b, es[..i]).phase.HalfOpen? && es[i].call.Failed?
    requires AdmittedAt(cfg, b, es, j) && forall m :: i <= m < |es| ==> !es[m].call.Reset?
    ensures TripsAt(cfg, b, es, i) && es[j].at - es[i].at >= cfg.cooldown
  {
    RunNext(cfg, b, es, i);
    NothingAdmittedInCooldown(cfg, b, es, i, j);
  }

  /** Nobody touches an open breaker from the `i`th event to the `j`th, except to ask. */
  predicate OnlyAsked(es: seq<Event>, i: nat, j: nat)
    requires j <= |es|
  {
    forall m :: i <= m < j ==> es[m].call.Read? || es[m].call.Request?
  }

  /** The cooldown is no longer than configured: once tripped and then only asked, the breaker
      admits a request exactly when the cooldown has passed and probes are left. */
  lemma {:induction false} AdmittedOnceCooled(cfg: Config, b: Breaker, es: seq<Event>, i: nat, j: nat)
    requires Timed(es) && i < j < |es| && TripsAt(cfg, b, es, i) && OnlyAsked(es, i + 1, j) && es[j].call.Request?
    requires forall m :: i < m < j ==> es[m].at - es[i].at < cfg.cooldown
    ensures AdmittedAt(cfg, b, es, j) <==> es[j].at - es[i].at >= cfg.cooldown && cfg.maxProbes > 0
  {
    hide Run, Step;
    StaysOpen(cfg, b, es, i, j);
  }

  lemma {:induction false} StaysOpen(cfg: Config, b: Breaker, es: seq<Event>, i: nat, k: nat)
    requires i < k <= |es| && TripsAt(cfg, b, es, i) && OnlyAsked(es, i + 1, k)
    requires forall m :: i < m < k ==> es[m].at - es[i].at < cfg.cooldown
    ensures var s := Run(cfg, b, es[..k]); s.phase.Open? && s.openedAt == es[i].at
  {
    hide Run, Step;
    RunNext(cfg, b, es, k - 1);
    if k > i + 1 {
      StaysOpen(cfg, b, es, i, k - 1);
      AskedInVain(cfg, Run(cfg, b, es[..k - 1]), es[k - 1]);
    } else {
      StepTrips(cfg, Run(cfg, b, es[..i]), es[i]);
    }
  }

  lemma AskedInVain(cfg: Config, b: Breaker, e: Event)
    requires b.phase.Open? && e.at - b.openedAt < cfg.cooldown && (e.call.Read? || e.call.Request?)
    ensures Step(cfg, b, e).phase.Open? && Step(cfg, b, e).openedAt == b.openedAt
  {
  }

  /** Trips among the first `n` events. */
  function TripsIn(cfg: Config, b: Breaker, es: seq<Event>, n: nat): nat
    requires n <= |es|
  {
    if n == 0 then 0 else TripsIn(cfg, b, es, n - 1) + (if TripsAt(cfg, b, es, n - 1) then 1 else 0)
  }

  /** Each trip is counted once ... */
  lemma {:induction false} TripsCounted(cfg: Config, b: Breaker, es: seq<Event>, n: nat)
    requires n <= |es|
    ensures Run(cfg, b, es[..n]).trips == b.trips + TripsIn(cfg, b, es, n)
  {
    hide Run, Step;
    if n > 0 {
      RunNext(cfg, b, es, n - 1);
      StepTrips(cfg, Run(cfg, b, es[..n - 1]), es[n - 1]);
      TripsCounted(cfg, b, es, n - 1);
    } else {
      RunNothing(cfg, b, es);
    }
  }

  lemma RunNothing(cfg: Config, b: Breaker, es: seq<Event>)
    ensures Run(cfg, b, es[..0]) == b
  {
  }

  /** ... and happens at a failure, which leaves the breaker open from then. */
  lemma StepTrips(cfg: Config, b: Breaker, e: Event)
    ensures var s := Step(cfg, b, e);
            s.trips == b.trips || (s.trips == b.trips + 1 && e.call.Failed? && s.phase.Open? && s.openedAt == e.at)
  {
  }

  /** A trip, a close and a reset start both streaks over; a reset gives the probes back too. */
  lemma StreaksStartOver(cfg: Config, b: Breaker, e: Event)
    ensures var s := Step(cfg, b, e);
            (s.trips > b.trips || (s.phase.Closed? && !b.phase.Closed?) || e.call.Reset? ==>
               s.failures == 0 && s.successes == 0) &&
            (e.call.Reset? ==> s.probes == 0 && s.phase.Closed? && s.trips == b.trips)
  {
  }

  /** Requests of the first `n` events, and those let through. */
  function Requests(es: seq<Event>, n: nat): nat
    requires n <= |es|
  {
    if n == 0 then 0 else Requests(es, n - 1) + (if es[n - 1].call.Request? then 1 else 0)
  }

  /** Every request is either admitted or counted as blocked. */
  lemma {:induction false} RequestsAccounted(cfg: Config, b: Breaker, es: seq<Event>, n: nat)
    requires n <= |es|
    ensures Run(cfg, b, es[..n]).blocks + AdmittedIn(cfg, b, es, 0, n) == b.blocks + Requests(es, n)
  {
    if n > 0 {
      RunNext(cfg, b, es, n - 1);
      RequestsAccounted(cfg, b, es, n - 1);
    }
  }

  // -------------------------------------------------------------- half-open episodes

  function AdmittedIn(cfg: Config, b: Breaker, es: seq<Event>, i: nat, j: nat): nat
    requires i <= j <= |es|
    decreases j - i
  {
    if i == j then 0
    else AdmittedIn(cfg, b, es, i, j - 1) + (if AdmittedAt(cfg, b, es, j - 1) then 1 else 0)
  }

  /** While the breaker stays half-open it admits no more than the configured probes; the count
      starts with the event that ends the cooldown. */
  lemma {:induction false} EpisodeAdmits(cfg: Config, b: Breaker, es: seq<Event>, i: nat, j: nat)
    requires i < j <= |es| && !Run(cfg, b, es[..i]).phase.HalfOpen?
    requires forall k :: i < k <= j ==> Run(cfg, b, es[..k]).phase.HalfOpen?
    ensures AdmittedIn(cfg, b, es, i, j) == Run(cfg, b, es[..j]).probes
    ensures AdmittedIn(cfg, b, es, i, j) <= if cfg.maxProbes > 0 then cfg.maxProbes else 0
  {
    hide Run, Step, Admits;
    RunNext(cfg, b, es, j - 1);
    StepProbes(cfg, Run(cfg, b, es[..j - 1]), es[j - 1]);
    if j > i + 1 { EpisodeAdmits(cfg, b, es, i, j - 1); }
    else { assert AdmittedIn(cfg, b, es, i, i) == 0; }
  }

  lemma StepProbes(cfg: Config, b: Breaker, e: Event)
    requires Step(cfg, b, e).phase.HalfOpen?
    ensures var s := Step(cfg, b, e);
            s.probes == (if b.phase.HalfOpen? then b.probes else 0) + (if Admits(cfg, b, e) then 1 else 0) &&
            (Admits(cfg, b, e) ==> s.probes <= cfg.maxProbes)
  {
  }

  /** Successes are counted in half-open only. */
  lemma {:induction false} SuccessesOnlyHalfOpen(cfg: Config, es: seq<Event>)
    ensures var s := Run(cfg, FRESH, es); !s.phase.HalfOpen? ==> s.successes == 0
    decreases |es|
  {
    if es != [] { SuccessesOnlyHalfOpen(cfg, es[..|es| - 1]); }
  }

  // --------------------------------------------------------------- the first trip

  /** Failures since the last success or reset. */
  function Streak(es: seq<Event>): nat
    decreases |es|
  {
    if es == [] then 0
    else match es[|es| - 1].call
      case Failed => Streak(es[..|es| - 1]) + 1
      case Succeeded => 0
      case Reset => 0
      case _ => Streak(es[..|es| - 1])
  }

  /** Fewer than the threshold, where a threshold below one acts as one. */
  predicate Short(cfg: Config, streak: nat) { streak == 0 || streak < cfg.failureThreshold }

  /** A new breaker has not tripped exactly as long as no streak of failures reached the
      threshold; until then it is closed and admits everything. */
  lemma {:induction false} FirstTripIff(cfg: Config, es: seq<Event>)
    ensures var s := Run(cfg, FRESH, es);
            (s.trips == 0 <==> forall k :: 0 <= k <= |es| ==> Short(cfg, Streak(es[..k]))) &&
            (s.trips == 0 ==> s.phase.Closed? && s.failures == Streak(es))
    decreases |es|
  {
    assert es[..|es|] == es;
    if es != [] {
      var fs := es[..|es| - 1];
      FirstTripIff(cfg, fs);
      assert forall k :: 0 <= k <= |fs| ==> es[..k] == fs[..k];
    }
  }

  // ----------------------------------------------------------- closing from half-open

  /** Outcomes recorded in the current half-open episode. */
  function Outcomes(cfg: Config, b: Breaker, done: nat, e: Event): nat
  {
    var s := Step(cfg, b, e);
    if !s.phase.HalfOpen? || !b.phase.HalfOpen? then 0
    else if e.call.Succeeded? || e.call.Failed? then done + 1 else done
  }

  /** Every outcome belongs to a probe of the episode it is recorded in, and nobody resets. */
  predicate Disciplined(cfg: Config, b: Breaker, done: nat, es: seq<Event>)
    decreases |es|
  {
    es == [] ||
    (!es[0].call.Reset? &&
     (es[0].call.Succeeded? || es[0].call.Failed? ==> b.phase.HalfOpen? && done < b.probes) &&
     Disciplined(cfg, Step(cfg, b, es[0]), Outcomes(cfg, b, done, es[0]), es[1..]))
  }

  lemma {:induction false} RunFirst(cfg: Config, b: Breaker, es: seq<Event>)
    requires es != []
    ensures Run(cfg, b, es) == Run(cfg, Step(cfg, b, es[0]), es[1..])
    decreases |es|
  {
    if |es| == 1 {
      assert es[..0] == [] && es[1..] == [];
    } else {
      RunFirst(cfg, b, es[..|es| - 1]);
      assert es[..|es| - 1][1..] == es[1..][..|es| - 2];
    }
  }

  predicate Probing(cfg: Config, b: Breaker, done: nat)
  {
    !b.phase.Closed? &&
    (b.phase.HalfOpen? ==> b.successes <= done <= b.probes && (b.probes > 0 ==> b.probes <= cfg.maxProbes)) &&
    (b.phase.Open? ==> b.successes == 0)
  }

  lemma {:induction false} StaysOut(cfg: Config, b: Breaker, done: nat, es: seq<Event>)
    requires Probing(cfg, b, done) && Disciplined(cfg, b, done, es)
    requires cfg.maxProbes < 1 || cfg.maxProbes < cfg.successThreshold
    ensures !Run(cfg, b, es).phase.Closed?
    decreases |es|
  {
    if es != [] {
      RunFirst(cfg, b, es);
      StaysOut(cfg, Step(cfg, b, es[0]), Outcomes(cfg, b, done, es[0]), es[1..]);
    }
  }

  /** `n` probes, each of which succeeds. */
  function Probes(n: nat, at: real): seq<Event>
  {
    if n == 0 then [] else [Event(Request, at), Event(Succeeded, at)] + Probes(n - 1, at)
  }

  lemma {:induction false} ProbesClose(cfg: Config, b: Breaker, n: nat, at: real)
    requires b.phase.HalfOpen? && b.successes == b.probes && n > 0
    requires b.probes + n <= cfg.maxProbes && cfg.successThreshold <= b.probes + n &&
      (n > 1 ==> b.probes + n == cfg.successThreshold)
    ensures Disciplined(cfg, b, b.probes, Probes(n, at)) && Run(cfg, b, Probes(n, at)).phase.Closed?
    decreases n
  {
    var es := Probes(n, at);
    var b1 := Step(cfg, b, es[0]);
    var b2 := Step(cfg, b1, es[1]);
    RunFirst(cfg, b, es);
    RunFirst(cfg, b1, es[1..]);
    assert es[1..][1..] == Probes(n - 1, at);
    if n > 1 { ProbesClose(cfg, b2, n - 1, at); }
    assert Disciplined(cfg, b1, b.probes, es[1..]);
  }

  /** A breaker that has just become half-open can get back to closed, by outcomes of its own
      probes, exactly when the probes allowed are enough for the successes demanded. */
  lemma ClosableIff(cfg: Config, b: Breaker)
    requires b.phase.HalfOpen? && b.probes == 0 && b.successes == 0
    ensures (exists es :: Disciplined(cfg, b, 0, es) && Run(cfg, b, es).phase.Closed?)
            <==> cfg.maxProbes >= 1 && cfg.successThreshold <= cfg.maxProbes
  {
    if cfg.maxProbes >= 1 && cfg.successThreshold <= cfg.maxProbes {
      var n := if cfg.successThreshold > 1 then cfg.successThreshold else 1;
      ProbesClose(cfg, b, n, 0.0);
    } else {
      forall es | Disciplined(cfg, b, 0, es) ensures !Run(cfg, b, es).phase.Closed? { StaysOut(cfg, b, 0, es); }
    }
  }

  /** Out of probes, and one success short or more: with every probe answered, no signal is ever
      admitted again. */
  lemma {:induction false} WedgedForever(cfg: Config, b: Breaker, es: seq<Event>)
    requires b.phase.HalfOpen? && b.probes >= cfg.maxProbes && Disciplined(cfg, b, b.probes, es)
    ensures Run(cfg, b, es).phase.HalfOpen? && Run(cfg, b, es).probes == b.probes
    ensures forall k :: 0 <= k < |es| ==> !AdmittedAt(cfg, b, es, k)
    decreases |es|
  {
    if es != [] {
      var fs := es[..|es| - 1];
      DisciplinedPrefix(cfg, b, b.probes, es, |fs|);
      WedgedForever(cfg, b, fs);
      DisciplinedLast(cfg, b, b.probes, es);
      assert !AdmittedAt(cfg, b, es, |fs|);
      forall k | 0 <= k < |fs| ensures !AdmittedAt(cfg, b, es, k) {
        assert es[..k] == fs[..k] && !AdmittedAt(cfg, b, fs, k);
      }
    }
  }

  lemma {:induction false} DisciplinedPrefix(cfg: Config, b: Breaker, done: nat, es: seq<Event>, n: nat)
    requires Disciplined(cfg, b, done, es) && n <= |es|
    ensures Disciplined(cfg, b, done, es[..n])
    decreases n
  {
    if n > 0 {
      DisciplinedPrefix(cfg, Step(cfg, b, es[0]), Outcomes(cfg, b, done, es[0]), es[1..], n - 1);
      assert es[1..][..n - 1] == es[..n][1..];
    }
  }

  /** With all probes used and answered, a disciplined run holds only requests and reads. */
  lemma {:induction false} DisciplinedLast(cfg: Config, b: Breaker, done: nat, es: seq<Event>)
    requires b.phase.HalfOpen? && b.probes >= cfg.maxProbes && done >= b.probes && Disciplined(cfg, b, done, es)
    ensures forall k :: 0 <= k < |es| ==> es[k].call.Request? || es[k].call.Read?
    decreases |es|
  {
    if es != [] { DisciplinedLast(cfg, Step(cfg, b, es[0]), Outcomes(cfg, b, done, es[0]), es[1..]); }
  }

  /** So with the default configuration one trip followed by a successful probe blocks for good. */
  lemma DefaultsWedge(b: Breaker, at: real, es: seq<Event>)
    requires b.phase.Open? && b.successes == 0 && at - b.openedAt >= DEFAULTS.cooldown
    requires Disciplined(DEFAULTS, b, 0, [Event(Request, at), Event(Succeeded, at)] + es)
    ensures var s := Run(DEFAULTS, b, [Event(Request, at), Event(Succeeded, at)]);
            s.phase.HalfOpen? && forall k :: 0 <= k < |es| ==> !AdmittedAt(DEFAULTS, s, es, k)
  {
    var all := [Event(Request, at), Event(Succeeded, at)] + es;
    var b1 := Step(DEFAULTS, b, all[0]);
    var b2 := Step(DEFAULTS, b1, all[1]);
    var two := [Event(Request, at), Event(Succeeded, at)];
    RunFirst(DEFAULTS, b, two);
    RunFirst(DEFAULTS, b1, two[1..]);
    assert all[1..][1..] == es;
    assert Disciplined(DEFAULTS, b1, 0, all[1..]);
    WedgedForever(DEFAULTS, b2, es);
  }

  // ------------------------------------------------------------------ the object

  class CircuitBreaker {
    const cfg: Config
    var phase: Phase
    var failures: nat
    var successes: nat
    var openedAt: real
    var probes: nat
    var trips: nat
    var blocks: nat

    ghost function View(): Breaker
      reads this
    {
      Breaker(phase, failures, successes, openedAt, probes, trips, blocks)
    }

    constructor (cfg: Config)
      ensures View() == FRESH && this.cfg == cfg
    {
      this.cfg, phase, failures, successes, openedAt, probes, trips, blocks := cfg, Closed, 0, 0, 0.0, 0, 0, 0;
    }

    method State(now: real) returns (current: Phase)
      modifies this
      ensures View() == Step(cfg, old(View()), Event(Read, now)) && current == phase
    {
      if phase == Open {
        if now - openedAt >= cfg.cooldown {
          phase := HalfOpen;
          probes := 0;
        }
      }
      return phase;
    }

    method AllowSignal(now: real) returns (allowed: bool)
      modifies this
      ensures View() == Step(cfg, old(View()), Event(Request, now))
      ensures allowed <==> Admits(cfg, old(View()), Event(Request, now))
    {
      var current := State(now);
      if current == Closed { return true; }
      if current == Open {
        blocks := blocks + 1;
        return false;
      }
      if probes < cfg.maxProbes {
        probes := probes + 1;
        return true;
      }
      blocks := blocks + 1;
      return false;
    }

    method RecordSuccess(now: real)
      modifies this
      ensures View() == Step(cfg, old(View()), Event(Succeeded, now))
    {
      if phase == HalfOpen {
        successes := successes + 1;
        if successes >= cfg.successThreshold {
          phase := Closed;
          failures := 0;
          successes := 0;
        }
      } else if phase == Closed {
        failures := 0;
      }
    }

    method RecordFailure(now: real)
      modifies this
      ensures View() == Step(cfg, old(View()), Event(Failed, now))
    {
      successes := 0;
      if phase == HalfOpen {
        Trip(now);
        return;
      }
      failures := failures + 1;
      if failures >= cfg.failureThreshold { Trip(now); }
    }

    method Trip(now: real)
      modifies this
      ensures View() == Tripped(old(View()), now)
    {
      phase := Open;
      openedAt := now;
      trips := trips + 1;
      failures := 0;
    }

    method ForceReset(now: real)
      modifies this
      ensures View() == Step(cfg, old(View()), Event(Reset, now))
    {
      phase := Closed;
      failures := 0;
      successes := 0;
      probes := 0;
    }
  }
}
