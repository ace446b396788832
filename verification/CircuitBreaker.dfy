/** The circuit breaker's state and its three moves, on values. */
module BreakerMoves {
  datatype Mode = Closed | Open | HalfOpen

  datatype Options = Options(failureThreshold: int, resetTimeout: int)

  datatype Breaker = Breaker(mode: Mode, failureCount: nat, nextProbeAt: int)

  const FRESH := Breaker(Closed, 0, 0)

  /** The head of `execute`: may the call start? */
  predicate Admits(b: Breaker, now: int) {
    b.mode == Open ==> now >= b.nextProbeAt
  }

  function OnStart(b: Breaker): Breaker {
    if b.mode == Open then b.(mode := HalfOpen) else b
  }

  function OnSuccess(b: Breaker): Breaker {
    Breaker(if b.mode == HalfOpen then Closed else b.mode, 0, b.nextProbeAt)
  }

  predicate Trips(b: Breaker, o: Options, counted: bool) {
    counted && (b.mode == HalfOpen || b.failureCount + 1 >= o.failureThreshold)
  }

  function OnFailure(b: Breaker, o: Options, counted: bool, now: int): Breaker {
    if !counted then b
    else if Trips(b, o, counted) then Breaker(Open, b.failureCount + 1, now + o.resetTimeout)
    else b.(failureCount := b.failureCount + 1)
  }
}

/** `CircuitBreaker`: the fields every call updates. `execute` is split where it awaits the call. */
module CircuitBreakers {
  import opened BreakerMoves

  class CircuitBreaker {
    const options: Options
    var mode: Mode
    var failureCount: nat
    var nextProbeAt: int

    constructor (options: Options)
      ensures this.options == options && State() == FRESH
    {
      this.options := options;
      mode, failureCount, nextProbeAt := Closed, 0, 0;
    }

    function State(): Breaker
      reads this
    {
      Breaker(mode, failureCount, nextProbeAt)
    }

    method Start(now: int) returns (admitted: bool)
      modifies this
      ensures admitted <==> Admits(old(State()), now)
      ensures State() == if admitted then OnStart(old(State())) else old(State())
      ensures admitted <==> old(mode) != Open || now >= old(nextProbeAt)
      ensures mode == if admitted && old(mode) == Open then HalfOpen else old(mode)
    {
      if mode == Open {
        if now < nextProbeAt {
          return false;
        }
        mode := HalfOpen;
      }
      return true;
    }

    method Succeed()
      modifies this
      ensures State() == OnSuccess(old(State()))
      ensures failureCount == 0 && mode == if old(mode) == Open then Open else Closed
    {
      failureCount := 0;
      if mode == HalfOpen {
        mode := Closed;
      }
    }

    method Fail(counted: bool, now: int)
      modifies this
      ensures State() == OnFailure(old(State()), options, counted, now)
      ensures !counted ==> State() == old(State())
      ensures counted ==>
                && failureCount == old(failureCount) + 1
                && (if old(mode) == HalfOpen || failureCount >= options.failureThreshold then
                      mode == Open && nextProbeAt == now + options.resetTimeout
                    else mode == old(mode) && nextProbeAt == old(nextProbeAt))
    {
      if !counted {
        return;
      }
      failureCount := failureCount + 1;
      if mode == HalfOpen {
        Trip(now);
      } else if failureCount >= options.failureThreshold {
        Trip(now);
      }
    }

    method Trip(now: int)
      modifies this
      ensures State() == Breaker(Open, old(failureCount), now + options.resetTimeout)
    {
      nextProbeAt := now + options.resetTimeout;
      mode := Open;
    }
  }
}

/** Calls that start and finish in any order on a clock that never goes back. */
module BreakerRuns {
  import opened BreakerMoves

  /** What happened, in order: `Opened` is every call of `open()`, `Probed` every OPEN to HALF_OPEN move. */
  datatype Entry = Started(at: int) | Refused(at: int) | Probed(at: int) | Opened(at: int) | Succeeded | CountedFailure

  datatype Event = Arrive(now: int) | Success(now: int) | Failure(counted: bool, now: int)

  datatype State = State(breaker: Breaker, inFlight: nat, clock: int, log: seq<Entry>)

  function Start(clock: int): State {
    State(FRESH, 0, clock, [])
  }

  function Step(s: State, o: Options, e: Event): State {
    if e.now < s.clock || (!e.Arrive? && s.inFlight == 0) then s
    else match e
      case Arrive(now) =>
        if !Admits(s.breaker, now) then s.(clock := now, log := s.log + [Refused(now)])
        else
          var log := if s.breaker.mode == Open then s.log + [Probed(now)] else s.log;
          State(OnStart(s.breaker), s.inFlight + 1, now, log + [Started(now)])
      case Success(now) => State(OnSuccess(s.breaker), s.inFlight - 1, now, s.log + [Succeeded])
      case Failure(counted, now) =>
        if !counted then s.(inFlight := s.inFlight - 1, clock := now)
        else
          var log := s.log + [CountedFailure];
          State(OnFailure(s.breaker, o, counted, now), s.inFlight - 1, now,
                if Trips(s.breaker, o, counted) then log + [Opened(now)] else log)
  }

  function Run(clock: int, o: Options, events: seq<Event>): State {
    if events == [] then Start(clock) else Step(Run(clock, o, events[..|events| - 1]), o, events[|events| - 1])
  }

  /** The counted failures since the last success. */
  function FailuresSinceSuccess(log: seq<Entry>): nat {
    if log == [] || log[|log| - 1].Succeeded? then 0
    else FailuresSinceSuccess(log[..|log| - 1]) + if log[|log| - 1].CountedFailure? then 1 else 0
  }

  lemma SinceAppend(log: seq<Entry>, e: Entry)
    ensures FailuresSinceSuccess(log + [e]) ==
            if e.Succeeded? then 0 else FailuresSinceSuccess(log) + if e.CountedFailure? then 1 else 0
  {
    assert (log + [e])[..|log|] == log;
  }

  /** A breaker whose counted failures since the last success are `count`. */
  predicate Counts(b: Breaker, o: Options, count: nat) {
    && b.failureCount == count
    && (b.mode == Closed ==> count < o.failureThreshold || count == 0)
  }

  predicate CountOk(s: State, o: Options) {
    Counts(s.breaker, o, FailuresSinceSuccess(s.log))
  }

  /** Every opening in the log lies in the past, and its timeout ends by `until`. */
  predicate OpenedBy(log: seq<Entry>, o: Options, clock: int, until: int) {
    forall i :: 0 <= i < |log| && log[i].Opened? ==> log[i].at <= clock && log[i].at + o.resetTimeout <= until
  }

  predicate ProbedBy(log: seq<Entry>, clock: int) {
    forall i :: 0 <= i < |log| && log[i].Probed? ==> log[i].at <= clock
  }

  /**
   Every opening is over unless the breaker still refuses calls, and every probe precedes the opening
   that refuses them.
   */
  predicate TimesOk(s: State, o: Options) {
    && OpenedBy(s.log, o, s.clock, if s.breaker.mode == Open then s.breaker.nextProbeAt else s.clock)
    && ProbedBy(s.log, s.clock)
    && (s.breaker.mode == Open ==> ProbedBy(s.log, s.breaker.nextProbeAt - o.resetTimeout))
  }

  predicate Spaced(log: seq<Entry>, o: Options) {
    && (forall i, j :: 0 <= i < j < |log| && log[i].Opened? && log[j].Started? ==>
          log[i].at + o.resetTimeout <= log[j].at)
    && (forall i, j :: 0 <= i < j < |log| && log[i].Probed? && log[j].Probed? ==>
          log[i].at + o.resetTimeout <= log[j].at)
  }

  lemma AppendSpaced(log: seq<Entry>, o: Options, e: Entry, clock: int)
    requires Spaced(log, o)
    requires e.Started? ==> OpenedBy(log, o, clock, e.at)
    requires e.Probed? ==> ProbedBy(log, e.at - o.resetTimeout)
    ensures Spaced(log + [e], o)
  {
  }

  lemma FailureCounts(b: Breaker, o: Options, now: int, count: nat)
    requires Counts(b, o, count)
    ensures Counts(OnFailure(b, o, true, now), o, count + 1)
  {
  }

  /** Appending entries that are neither failures nor successes keeps the count. */
  lemma OtherEntry(log: seq<Entry>, e: Entry, count: nat)
    requires FailuresSinceSuccess(log) == count && !e.Succeeded? && !e.CountedFailure?
    ensures FailuresSinceSuccess(log + [e]) == count
  {
    SinceAppend(log, e);
  }

  lemma FailureKeepsCount(s: State, o: Options, now: int)
    requires CountOk(s, o)
    ensures CountOk(Step(s, o, Failure(true, now)), o)
  {
    if now >= s.clock && s.inFlight > 0 {
      var count, log := FailuresSinceSuccess(s.log), s.log + [CountedFailure];
      SinceAppend(s.log, CountedFailure);
      FailureCounts(s.breaker, o, now, count);
      if Trips(s.breaker, o, true) {
        OtherEntry(log, Opened(now), count + 1);
      }
    }
  }

  lemma ArriveKeepsCount(s: State, o: Options, now: int)
    requires CountOk(s, o)
    ensures CountOk(Step(s, o, Arrive(now)), o)
  {
    var count := FailuresSinceSuccess(s.log);
    if !Admits(s.breaker, now) {
      OtherEntry(s.log, Refused(now), count);
    } else if s.breaker.mode == Open {
      OtherEntry(s.log, Probed(now), count);
      OtherEntry(s.log + [Probed(now)], Started(now), count);
    } else {
      OtherEntry(s.log, Started(now), count);
    }
  }

  lemma StepKeepsCount(s: State, o: Options, e: Event)
    requires CountOk(s, o)
    ensures CountOk(Step(s, o, e), o)
  {
    match e
    case Arrive(now) => ArriveKeepsCount(s, o, now);
    case Success(now) => SinceAppend(s.log, Succeeded);
    case Failure(counted, now) =>
      if counted {
        FailureKeepsCount(s, o, now);
      }
  }

  /** A clock that moves on keeps what lies in the past. */
  lemma AppendTimes(log: seq<Entry>, o: Options, e: Entry, clock: int, until: int, clock': int, until': int)
    requires OpenedBy(log, o, clock, until) && clock <= clock' && until <= until'
    requires e.Opened? ==> e.at <= clock' && e.at + o.resetTimeout <= until'
    ensures OpenedBy(log + [e], o, clock', until')
  {
  }

  lemma AppendProbed(log: seq<Entry>, e: Entry, clock: int, clock': int)
    requires ProbedBy(log, clock) && clock <= clock' && (e.Probed? ==> e.at <= clock')
    ensures ProbedBy(log + [e], clock')
  {
  }

  lemma ArriveKeepsTimes(s: State, o: Options, now: int)
    requires TimesOk(s, o) && Spaced(s.log, o) && now >= s.clock
    ensures TimesOk(Step(s, o, Arrive(now)), o) && Spaced(Step(s, o, Arrive(now)).log, o)
  {
    var until := if s.breaker.mode == Open then s.breaker.nextProbeAt else s.clock;
    if !Admits(s.breaker, now) {
      AppendSpaced(s.log, o, Refused(now), now);
      AppendTimes(s.log, o, Refused(now), s.clock, until, now, until);
      AppendProbed(s.log, Refused(now), s.clock, now);
      AppendProbed(s.log, Refused(now), until - o.resetTimeout, until - o.resetTimeout);
    } else {
      var log := s.log;
      if s.breaker.mode == Open {
        AppendSpaced(s.log, o, Probed(now), now);
        AppendTimes(s.log, o, Probed(now), s.clock, until, now, now);
        AppendProbed(s.log, Probed(now), s.clock, now);
        log := s.log + [Probed(now)];
      }
      AppendSpaced(log, o, Started(now), now);
      AppendTimes(log, o, Started(now), now, now, now, now);
      AppendProbed(log, Started(now), now, now);
    }
  }

  lemma FailureKeepsTimes(s: State, o: Options, now: int)
    requires TimesOk(s, o) && Spaced(s.log, o) && now >= s.clock && s.inFlight > 0
    ensures TimesOk(Step(s, o, Failure(true, now)), o) && Spaced(Step(s, o, Failure(true, now)).log, o)
  {
    var log := s.log + [CountedFailure];
    AppendSpaced(s.log, o, CountedFailure, now);
    assert ProbedBy(log, now);
    if Trips(s.breaker, o, true) {
      AppendSpaced(log, o, Opened(now), now);
      assert ProbedBy(log + [Opened(now)], now);
      forall i | 0 <= i < |log| && log[i].Opened?
        ensures log[i].at <= now
      {
        assert log[i] == s.log[i];
      }
    }
  }

  lemma StepKeepsTimes(s: State, o: Options, e: Event)
    requires TimesOk(s, o) && Spaced(s.log, o)
    ensures TimesOk(Step(s, o, e), o) && Spaced(Step(s, o, e).log, o)
  {
    if e.now >= s.clock && (e.Arrive? || s.inFlight > 0) {
      match e
      case Arrive(now) => ArriveKeepsTimes(s, o, now);
      case Success(now) => AppendSpaced(s.log, o, Succeeded, now);
      case Failure(counted, now) =>
        if counted {
          FailureKeepsTimes(s, o, now);
        }
    }
  }

  /**
   With calls starting and finishing in any order: the failure count is the counted failures since
   the last finished success; a CLOSED breaker is below its threshold (or, with a threshold below
   one, has no failure); no call starts within `resetTimeout` of an opening; and two moves from
   OPEN to HALF_OPEN are at least `resetTimeout` apart.
   */
  lemma {:induction false} BreakerUnderInterleaving(clock: int, o: Options, events: seq<Event>)
    ensures var s := Run(clock, o, events);
            && s.breaker.failureCount == FailuresSinceSuccess(s.log)
            && (s.breaker.mode == Closed ==> s.breaker.failureCount < o.failureThreshold || s.breaker.failureCount == 0)
            && (forall i, j :: 0 <= i < j < |s.log| && s.log[i].Opened? && s.log[j].Started? ==>
                  s.log[i].at + o.resetTimeout <= s.log[j].at)
            && (forall i, j :: 0 <= i < j < |s.log| && s.log[i].Probed? && s.log[j].Probed? ==>
                  s.log[i].at + o.resetTimeout <= s.log[j].at)
    ensures TimesOk(Run(clock, o, events), o)
    decreases |events|
  {
    if events != [] {
      var front := events[..|events| - 1];
      BreakerUnderInterleaving(clock, o, front);
      StepKeepsCount(Run(clock, o, front), o, events[|events| - 1]);
      StepKeepsTimes(Run(clock, o, front), o, events[|events| - 1]);
    }
  }

  // ----- the breaker is what the log says -----

  /** This entry is a probe with neither a success nor an opening after it. */
  predicate Undecided(log: seq<Entry>, i: nat) {
    i < |log| && log[i].Probed? && forall j :: i < j < |log| ==> !log[j].Succeeded? && !log[j].Opened?
  }

  predicate ProbingBy(log: seq<Entry>) {
    exists i :: 0 <= i < |log| && Undecided(log, i)
  }

  /** This entry is an opening with no probe after it. */
  predicate Unprobed(log: seq<Entry>, i: nat) {
    i < |log| && log[i].Opened? && forall j :: i < j < |log| ==> !log[j].Probed?
  }

  predicate OpenBy(log: seq<Entry>) {
    exists i :: 0 <= i < |log| && Unprobed(log, i)
  }

  lemma ProbingAppend(log: seq<Entry>, e: Entry)
    ensures ProbingBy(log + [e]) <==> e.Probed? || (ProbingBy(log) && !e.Succeeded? && !e.Opened?)
  {
    var all := log + [e];
    if e.Probed? {
      assert Undecided(all, |log|);
    } else if i :| 0 <= i < |log| && Undecided(log, i) {
      assert all[|log|] == e && (Undecided(all, i) <==> !e.Succeeded? && !e.Opened?);
      assert forall k :: 0 <= k < |all| && Undecided(all, k) ==> !e.Succeeded? && !e.Opened?;
    } else if i :| 0 <= i < |all| && Undecided(all, i) {
      assert i < |log| && forall j :: i <= j < |log| ==> log[j] == all[j];
      assert Undecided(log, i);
    }
  }

  lemma OpenAppend(log: seq<Entry>, e: Entry)
    ensures OpenBy(log + [e]) <==> e.Opened? || (OpenBy(log) && !e.Probed?)
  {
    var all := log + [e];
    if e.Opened? {
      assert Unprobed(all, |log|);
    } else if i :| 0 <= i < |log| && Unprobed(log, i) {
      assert all[|log|] == e && (Unprobed(all, i) <==> !e.Probed?);
      assert forall k :: 0 <= k < |all| && Unprobed(all, k) ==> !e.Probed?;
    } else if i :| 0 <= i < |all| && Unprobed(all, i) {
      assert i < |log| && forall j :: i <= j < |log| ==> log[j] == all[j];
      assert Unprobed(log, i);
    }
  }

  lemma ModeAppend(log: seq<Entry>, e: Entry)
    ensures ProbingBy(log + [e]) <==> e.Probed? || (ProbingBy(log) && !e.Succeeded? && !e.Opened?)
    ensures OpenBy(log + [e]) <==> e.Opened? || (OpenBy(log) && !e.Probed?)
  {
    ProbingAppend(log, e);
    OpenAppend(log, e);
  }

  predicate ModeOk(mode: Mode, log: seq<Entry>) {
    (mode == HalfOpen <==> ProbingBy(log)) && (mode == Open <==> OpenBy(log))
  }

  lemma StepKeepsMode(s: State, o: Options, e: Event)
    requires ModeOk(s.breaker.mode, s.log)
    ensures ModeOk(Step(s, o, e).breaker.mode, Step(s, o, e).log)
  {
    ModeAppend(s.log, Succeeded);
    ModeAppend(s.log, CountedFailure);
    ModeAppend(s.log + [CountedFailure], Opened(e.now));
    ModeAppend(s.log, Refused(e.now));
    ModeAppend(s.log, Probed(e.now));
    ModeAppend(s.log, Started(e.now));
    ModeAppend(s.log + [Probed(e.now)], Started(e.now));
  }

  /**
   In every run the mode follows from the log alone: HALF_OPEN while some probe has neither a success nor an
   opening after it, OPEN while some opening has no probe after it, CLOSED otherwise.
   */
  lemma {:induction false} ModeFromLog(clock: int, o: Options, events: seq<Event>)
    ensures var s := Run(clock, o, events);
            && (s.breaker.mode == HalfOpen <==> exists i :: 0 <= i < |s.log| && Undecided(s.log, i))
            && (s.breaker.mode == Open <==> exists i :: 0 <= i < |s.log| && Unprobed(s.log, i))
    ensures ModeOk(Run(clock, o, events).breaker.mode, Run(clock, o, events).log)
    decreases |events|
  {
    if events != [] {
      var front := events[..|events| - 1];
      ModeFromLog(clock, o, front);
      StepKeepsMode(Run(clock, o, front), o, events[|events| - 1]);
    }
  }

  /** The last entry that is an opening or a probe is this opening. */
  predicate LastOpening(log: seq<Entry>, i: nat) {
    i < |log| && log[i].Opened? && forall j :: i < j < |log| ==> !log[j].Opened? && !log[j].Probed?
  }

  /** The last opening, not yet probed, keeps calls out until then. */
  predicate RefusesUntil(log: seq<Entry>, o: Options, until: int) {
    exists i :: 0 <= i < |log| && LastOpening(log, i) && log[i].at + o.resetTimeout == until
  }

  /** What the log up to the `i`-th entry says must hold for it to be there. */
  predicate Justified(log: seq<Entry>, o: Options, i: nat)
    requires i < |log|
  {
    match log[i]
    case CountedFailure =>
      (i + 1 < |log| && log[i + 1].Opened?) <==>
      (ProbingBy(log[..i]) || FailuresSinceSuccess(log[..i + 1]) >= o.failureThreshold)
    case Opened(_) => i > 0 && log[i - 1].CountedFailure?
    case Refused(at) => exists j :: 0 <= j < i && LastOpening(log[..i], j) && at < log[j].at + o.resetTimeout
    case Probed(at) => exists j :: 0 <= j < i && LastOpening(log[..i], j) && log[j].at + o.resetTimeout <= at
    case Started(_) => !OpenBy(log[..i])
    case Succeeded => true
  }

  predicate AllJustified(log: seq<Entry>, o: Options) {
    forall i :: 0 <= i < |log| ==> Justified(log, o, i)
  }

  lemma StaysJustified(log: seq<Entry>, more: seq<Entry>, o: Options, i: nat)
    requires i < |log| && Justified(log, o, i) && (more != [] ==> !more[0].Opened?)
    ensures Justified(log + more, o, i)
  {
    assert (log + more)[..i] == log[..i] && (log + more)[..i + 1] == log[..i + 1];
  }

  lemma RefusesAppend(log: seq<Entry>, o: Options, until: int, e: Entry)
    requires RefusesUntil(log, o, until) && !e.Opened? && !e.Probed?
    ensures RefusesUntil(log + [e], o, until)
  {
    var i :| 0 <= i < |log| && LastOpening(log, i) && log[i].at + o.resetTimeout == until;
    assert (log + [e])[i] == log[i] && LastOpening(log + [e], i);
  }

  /** What the log says of the breaker's decisions. */
  predicate DecisionsOk(s: State, o: Options) {
    && CountOk(s, o) && ModeOk(s.breaker.mode, s.log) && AllJustified(s.log, o)
    && (s.breaker.mode == Open ==> RefusesUntil(s.log, o, s.breaker.nextProbeAt))
  }

  /** New entries, none of them wrong, the first of them no opening. */
  lemma AppendJustified(log: seq<Entry>, more: seq<Entry>, o: Options)
    requires AllJustified(log, o) && (more != [] ==> !more[0].Opened?)
    requires forall i :: |log| <= i < |log + more| ==> Justified(log + more, o, i)
    ensures AllJustified(log + more, o)
  {
    forall i | 0 <= i < |log|
      ensures Justified(log + more, o, i)
    {
      StaysJustified(log, more, o, i);
    }
  }

  lemma ArriveKeepsDecisions(s: State, o: Options, now: int)
    requires DecisionsOk(s, o) && now >= s.clock
    ensures AllJustified(Step(s, o, Arrive(now)).log, o)
    ensures var s' := Step(s, o, Arrive(now));
            s'.breaker.mode == Open ==> RefusesUntil(s'.log, o, s'.breaker.nextProbeAt)
  {
    var s' := Step(s, o, Arrive(now));
    var log := s.log;
    if !Admits(s.breaker, now) {
      assert (log + [Refused(now)])[..|log|] == log;
      AppendJustified(log, [Refused(now)], o);
      RefusesAppend(log, o, s.breaker.nextProbeAt, Refused(now));
    } else if s.breaker.mode == Open {
      var more := [Probed(now), Started(now)];
      assert s'.log == log + more && s'.log[..|log|] == log && s'.log[..|log| + 1] == log + [Probed(now)];
      ModeAppend(log, Probed(now));
      AppendJustified(log, more, o);
    } else {
      assert (log + [Started(now)])[..|log|] == log;
      AppendJustified(log, [Started(now)], o);
    }
  }

  lemma FailureKeepsDecisions(s: State, o: Options, now: int)
    requires DecisionsOk(s, o) && now >= s.clock && s.inFlight > 0
    ensures AllJustified(Step(s, o, Failure(true, now)).log, o)
    ensures var s' := Step(s, o, Failure(true, now));
            s'.breaker.mode == Open ==> RefusesUntil(s'.log, o, s'.breaker.nextProbeAt)
  {
    var s' := Step(s, o, Failure(true, now));
    var log := s.log;
    SinceAppend(log, CountedFailure);
    if Trips(s.breaker, o, true) {
      var more := [CountedFailure, Opened(now)];
      assert s'.log == log + more && s'.log[..|log|] == log && s'.log[..|log| + 1] == log + [CountedFailure];
      AppendJustified(log, more, o);
      assert LastOpening(s'.log, |log| + 1);
    } else {
      assert (log + [CountedFailure])[..|log|] == log && s'.log[..|log| + 1] == s'.log;
      AppendJustified(log, [CountedFailure], o);
      if s.breaker.mode == Open {
        RefusesAppend(log, o, s.breaker.nextProbeAt, CountedFailure);
      }
    }
  }

  lemma StepKeepsDecisions(s: State, o: Options, e: Event)
    requires DecisionsOk(s, o)
    ensures DecisionsOk(Step(s, o, e), o)
  {
    StepKeepsCount(s, o, e);
    StepKeepsMode(s, o, e);
    if e.now >= s.clock && (e.Arrive? || s.inFlight > 0) {
      match e
      case Arrive(now) => ArriveKeepsDecisions(s, o, now);
      case Success(now) =>
        assert (s.log + [Succeeded])[..|s.log|] == s.log;
        AppendJustified(s.log, [Succeeded], o);
        if s.breaker.mode == Open {
          RefusesAppend(s.log, o, s.breaker.nextProbeAt, Succeeded);
        }
      case Failure(counted, now) =>
        if counted {
          FailureKeepsDecisions(s, o, now);
        }
    }
  }

  /**
   Every decision follows from the log before it: a counted failure opens the breaker exactly if a probe is
   undecided or the failures since the last success reach the threshold, and nothing else does; a call is
   refused, or let through as a probe, only while an opening is unprobed, the one before and the other
   after `resetTimeout` has passed since the last of them.
   */
  lemma {:induction false} DecisionsFromLog(clock: int, o: Options, events: seq<Event>)
    ensures AllJustified(Run(clock, o, events).log, o)
    ensures DecisionsOk(Run(clock, o, events), o)
    decreases |events|
  {
    if events != [] {
      var front := events[..|events| - 1];
      DecisionsFromLog(clock, o, front);
      StepKeepsDecisions(Run(clock, o, front), o, events[|events| - 1]);
    }
  }

  // ----- how many probes a HALF_OPEN breaker lets through -----

  predicate OneProbe(s: State) {
    s.breaker.mode == HalfOpen ==> s.inFlight <= 1
  }

  /** The event starts a call that the breaker admits although it is not CLOSED. */
  predicate Probes(s: State, e: Event) {
    e.Arrive? && e.now >= s.clock && Admits(s.breaker, e.now) && s.breaker.mode != Closed
  }

  lemma ProbeStep(s: State, o: Options, e: Event)
    requires OneProbe(s)
    ensures OneProbe(Step(s, o, e)) <==> !(Probes(s, e) && s.inFlight > 0)
  {
  }

  /** The runs in which never more than one probe is in flight. */
  ghost predicate SingleProbe(clock: int, o: Options, events: seq<Event>) {
    forall k :: 0 <= k <= |events| ==> OneProbe(Run(clock, o, events[..k]))
  }

  /** The runs whose caller starts a call on a breaker that is not CLOSED only when none is in flight. */
  ghost predicate ProbesAlone(clock: int, o: Options, events: seq<Event>) {
    forall k :: 0 <= k < |events| && Probes(Run(clock, o, events[..k]), events[k]) ==>
        Run(clock, o, events[..k]).inFlight == 0
  }

  lemma PrefixStep(clock: int, o: Options, events: seq<Event>, k: nat)
    requires k < |events|
    ensures Run(clock, o, events[..k + 1]) == Step(Run(clock, o, events[..k]), o, events[k])
  {
    assert events[..k + 1][..k] == events[..k];
  }

  lemma {:induction false} AloneIsSingle(clock: int, o: Options, events: seq<Event>, k: nat)
    requires ProbesAlone(clock, o, events) && k <= |events|
    ensures OneProbe(Run(clock, o, events[..k]))
  {
    if k > 0 {
      AloneIsSingle(clock, o, events, k - 1);
      PrefixStep(clock, o, events, k - 1);
      ProbeStep(Run(clock, o, events[..k - 1]), o, events[k - 1]);
    }
  }

  /**
   At most one probe is ever in flight while HALF_OPEN if and only if every call admitted while the
   breaker is not CLOSED starts when no call is in flight, which the caller knows.
   */
  lemma SingleProbeExactly(clock: int, o: Options, events: seq<Event>)
    ensures SingleProbe(clock, o, events) <==> ProbesAlone(clock, o, events)
  {
    if ProbesAlone(clock, o, events) {
      forall k | 0 <= k <= |events|
        ensures OneProbe(Run(clock, o, events[..k]))
      {
        AloneIsSingle(clock, o, events, k);
      }
    }
    if SingleProbe(clock, o, events) {
      forall k | 0 <= k < |events| && Probes(Run(clock, o, events[..k]), events[k])
        ensures Run(clock, o, events[..k]).inFlight == 0
      {
        PrefixStep(clock, o, events, k);
        assert OneProbe(Run(clock, o, events[..k])) && OneProbe(Run(clock, o, events[..k + 1]));
        ProbeStep(Run(clock, o, events[..k]), o, events[k]);
      }
    }
  }

  /** One failure opens a breaker of threshold one; after its timeout two calls start as probes, both in flight. */
  function TwoProbes(timeout: nat): seq<Event> {
    [Arrive(0), Failure(true, 0), Arrive(timeout), Arrive(timeout)]
  }

  lemma TwoProbesInFlight(timeout: nat)
    ensures var s := Run(0, Options(1, timeout), TwoProbes(timeout));
            && s.breaker.mode == HalfOpen && s.inFlight == 2
            && s.log == [Started(0), CountedFailure, Opened(0), Probed(timeout), Started(timeout), Started(timeout)]
  {
    var o, e := Options(1, timeout), TwoProbes(timeout);
    assert e[..0] == [] && e[..4] == e;
    PrefixStep(0, o, e, 0);
    PrefixStep(0, o, e, 1);
    PrefixStep(0, o, e, 2);
    PrefixStep(0, o, e, 3);
  }
}

/** Breaker and retry together: how often a gateway that always fails transiently is called. */
module GatewayLoad {
  import opened Results
  import opened BreakerMoves
  import R = BreakerRuns
  import opened Retry

  /**
   One `execute` of the payment handler's breaker, from its start to the end of its retries:
   `answers[i]` is what the gateway would say to its i-th charge, `charges` how many it makes if admitted.
   */
  datatype Call = Call(start: int, finish: int, answers: seq<Outcome<nat>>, charges: nat)

  /** Sequential calls from time 0 on. */
  predicate Sequential(calls: seq<Call>) {
    && (forall i :: 0 <= i < |calls| ==> 0 <= calls[i].start <= calls[i].finish)
    && (forall i :: 0 < i < |calls| ==> calls[i - 1].finish <= calls[i].start)
  }

  /** The breaker after the calls, all of whose admitted attempts failed transiently. */
  function After(o: Options, calls: seq<Call>): Breaker {
    if calls == [] then FRESH
    else
      var b := After(o, calls[..|calls| - 1]);
      var c := calls[|calls| - 1];
      if Admits(b, c.start) then OnFailure(OnStart(b), o, true, c.finish) else b
  }

  /** The calls as events of the breaker: each arrival, and the failure of each call it admits. */
  function EventsOf(o: Options, calls: seq<Call>): seq<R.Event> {
    if calls == [] then []
    else
      var front, c := calls[..|calls| - 1], calls[|calls| - 1];
      EventsOf(o, front) + [R.Arrive(c.start)]
        + if Admits(After(o, front), c.start) then [R.Failure(true, c.finish)] else []
  }

  lemma RunMore(clock: int, o: Options, events: seq<R.Event>, e: R.Event)
    ensures R.Run(clock, o, events + [e]) == R.Step(R.Run(clock, o, events), o, e)
  {
    assert (events + [e])[..|events|] == events;
  }

  lemma OneCall(s: R.State, o: Options, c: Call)
    requires s.inFlight == 0 && s.clock <= c.start <= c.finish
    ensures var s1 := R.Step(s, o, R.Arrive(c.start));
            var s' := if Admits(s.breaker, c.start) then R.Step(s1, o, R.Failure(true, c.finish)) else s1;
            && s'.inFlight == 0 && s'.clock <= c.finish
            && s'.breaker == if Admits(s.breaker, c.start) then OnFailure(OnStart(s.breaker), o, true, c.finish)
                             else s.breaker
  {
  }

  lemma EventsOfCall(o: Options, calls: seq<Call>)
    requires calls != []
    ensures var front, c := calls[..|calls| - 1], calls[|calls| - 1];
            var s := R.Run(0, o, EventsOf(o, front));
            var s1 := R.Step(s, o, R.Arrive(c.start));
            R.Run(0, o, EventsOf(o, calls)) ==
            if Admits(After(o, front), c.start) then R.Step(s1, o, R.Failure(true, c.finish)) else s1
  {
    var front, c := calls[..|calls| - 1], calls[|calls| - 1];
    var before := EventsOf(o, front);
    RunMore(0, o, before, R.Arrive(c.start));
    RunMore(0, o, before + [R.Arrive(c.start)], R.Failure(true, c.finish));
    assert before + [R.Arrive(c.start)] + [] == before + [R.Arrive(c.start)];
  }

  /** Sequential calls are a run of the breaker in which one call at a time is in flight. */
  lemma {:induction false} CallsAreRun(o: Options, calls: seq<Call>)
    requires Sequential(calls)
    ensures var s := R.Run(0, o, EventsOf(o, calls));
            && s.breaker == After(o, calls) && s.inFlight == 0
            && s.clock <= if calls == [] then 0 else calls[|calls| - 1].finish
    decreases |calls|
  {
    if calls != [] {
      var n := |calls| - 1;
      CallsAreRun(o, calls[..n]);
      EventsOfCall(o, calls);
      OneCall(R.Run(0, o, EventsOf(o, calls[..n])), o, calls[n]);
    }
  }

  /** How many of the calls were admitted. */
  function Admitted(o: Options, calls: seq<Call>): nat {
    if calls == [] then 0
    else
      var c := calls[|calls| - 1];
      Admitted(o, calls[..|calls| - 1]) + if Admits(After(o, calls[..|calls| - 1]), c.start) then 1 else 0
  }

  /** Charge requests sent to the gateway. */
  function Charges(o: Options, calls: seq<Call>): nat {
    if calls == [] then 0
    else
      var c := calls[|calls| - 1];
      Charges(o, calls[..|calls| - 1]) + if Admits(After(o, calls[..|calls| - 1]), c.start) then c.charges else 0
  }

  /** Each call runs the retry loop, and the gateway only ever fails transiently. */
  predicate Failing(calls: seq<Call>, maxAttempts: nat) {
    forall i :: 0 <= i < |calls| ==>
      && StopsAfter(calls[i].answers, maxAttempts, calls[i].charges)
      && forall k :: 0 <= k < |calls[i].answers| ==> calls[i].answers[k].Transient?
  }

  /** The retry loop of a call that only ever fails transiently makes exactly `maxAttempts` calls. */
  lemma FailingRetryUsesEveryAttempt<T>(script: seq<Outcome<T>>, maxAttempts: nat, calls: nat)
    requires StopsAfter(script, maxAttempts, calls) && forall i :: 0 <= i < |script| ==> script[i].Transient?
    ensures calls == maxAttempts
  {
  }

  lemma {:induction false} ChargesPerAdmission(o: Options, maxAttempts: nat, calls: seq<Call>)
    requires Failing(calls, maxAttempts)
    ensures Charges(o, calls) == maxAttempts * Admitted(o, calls)
    decreases |calls|
  {
    if calls != [] {
      var front, c := calls[..|calls| - 1], calls[|calls| - 1];
      ChargesPerAdmission(o, maxAttempts, front);
      FailingRetryUsesEveryAttempt(c.answers, maxAttempts, c.charges);
      assert maxAttempts * (Admitted(o, front) + 1) == maxAttempts * Admitted(o, front) + maxAttempts;
    }
  }

  predicate Pushed(o: Options, a: nat, b: Breaker) {
    b.failureCount == a &&
    if a < o.failureThreshold then b.mode == Closed
    else b.mode == Open && b.nextProbeAt >= (a - o.failureThreshold + 1) * o.resetTimeout
  }

  lemma OneMoreAdmission(o: Options, a: nat, b: Breaker, c: Call)
    requires Pushed(o, a, b) && Admits(b, c.start) && 0 <= c.start <= c.finish
    requires o.failureThreshold >= 1 && o.resetTimeout > 0
    ensures Pushed(o, a + 1, OnFailure(OnStart(b), o, true, c.finish))
  {
    var n := a - o.failureThreshold + 1;
    if n > 0 {
      assert n * o.resetTimeout + o.resetTimeout == (n + 1) * o.resetTimeout;
    }
  }

  /**
   Before the threshold the breaker is CLOSED; from then on it is OPEN, each admission pushing the next
   probe further.
   */
  lemma {:induction false} Progress(o: Options, calls: seq<Call>)
    requires Sequential(calls) && o.failureThreshold >= 1 && o.resetTimeout > 0
    ensures Pushed(o, Admitted(o, calls), After(o, calls))
    decreases |calls|
  {
    if calls != [] {
      var front, c := calls[..|calls| - 1], calls[|calls| - 1];
      Progress(o, front);
      if Admits(After(o, front), c.start) {
        OneMoreAdmission(o, Admitted(o, front), After(o, front), c);
      }
    }
  }

  lemma Scale(m: nat, a: nat, b: nat)
    ensures a <= b ==> m * a <= m * b
    ensures a < b && m > 0 ==> m * a < m * b
  {
    if a <= b {
      assert m * b == m * a + m * (b - a);
    }
  }

  /** The breaker first opens after exactly `failureThreshold * maxAttempts` charges. */
  lemma OpensAfterExactly(o: Options, maxAttempts: nat, calls: seq<Call>)
    requires Sequential(calls) && o.failureThreshold >= 1 && o.resetTimeout > 0 && maxAttempts >= 1
             && Failing(calls, maxAttempts)
    ensures After(o, calls).mode == Open <==> Charges(o, calls) >= maxAttempts * o.failureThreshold
    ensures calls != [] && After(o, calls).mode == Open && After(o, calls[..|calls| - 1]).mode == Closed ==>
              Charges(o, calls) == maxAttempts * o.failureThreshold
  {
    var a := Admitted(o, calls);
    ChargesPerAdmission(o, maxAttempts, calls);
    Progress(o, calls);
    Scale(maxAttempts, o.failureThreshold, a);
    Scale(maxAttempts, a, o.failureThreshold);
    if calls != [] {
      Progress(o, calls[..|calls| - 1]);
    }
  }

  /** How many of the calls started no later than `time`. */
  function StartedBy(calls: seq<Call>, time: int): (k: nat)
    ensures k <= |calls|
    ensures forall i :: k <= i < |calls| ==> calls[i].start > time
    ensures k > 0 ==> calls[k - 1].start <= time
  {
    if calls == [] then 0
    else if calls[|calls| - 1].start <= time then |calls|
    else StartedBy(calls[..|calls| - 1], time)
  }

  lemma Quotient(n: nat, d: nat, x: nat)
    requires d > 0 && n * d <= x
    ensures n <= x / d
  {
    if n > x / d {
      Scale(d, x / d + 1, n);
      assert false;
    }
  }

  /** The admission after `a` earlier ones, `a` at least the threshold, waits out `a - threshold + 1` timeouts. */
  lemma AdmissionWaits(o: Options, front: seq<Call>, c: Call, time: nat)
    requires Sequential(front) && o.failureThreshold >= 1 && o.resetTimeout > 0
    requires c.start <= time && Admits(After(o, front), c.start) && Admitted(o, front) >= o.failureThreshold
    ensures Admitted(o, front) + 1 <= o.failureThreshold + time / o.resetTimeout
  {
    Progress(o, front);
    Quotient(Admitted(o, front) - o.failureThreshold + 1, o.resetTimeout, time);
  }

  lemma {:induction false} AdmissionTakesTime(o: Options, calls: seq<Call>, time: nat)
    requires Sequential(calls) && o.failureThreshold >= 1 && o.resetTimeout > 0
    requires forall i :: 0 <= i < |calls| ==> calls[i].start <= time
    ensures Admitted(o, calls) <= o.failureThreshold + time / o.resetTimeout
    decreases |calls|
  {
    var spare := time / o.resetTimeout;
    assert spare >= 0;
    if calls != [] {
      var front, c := calls[..|calls| - 1], calls[|calls| - 1];
      AdmissionTakesTime(o, front, time);
      if Admits(After(o, front), c.start) && Admitted(o, front) >= o.failureThreshold {
        AdmissionWaits(o, front, c, time);
      }
    }
  }

  lemma StartedLoad(o: Options, maxAttempts: nat, calls: seq<Call>, time: nat)
    requires Sequential(calls) && o.failureThreshold >= 1 && o.resetTimeout > 0 && Failing(calls, maxAttempts)
    requires forall i :: 0 <= i < |calls| ==> calls[i].start <= time
    ensures Charges(o, calls) <= maxAttempts * (o.failureThreshold + time / o.resetTimeout)
  {
    var bound := o.failureThreshold + time / o.resetTimeout;
    ChargesPerAdmission(o, maxAttempts, calls);
    AdmissionTakesTime(o, calls, time);
    Scale(maxAttempts, Admitted(o, calls), bound);
  }

  /**
   Over any time T from the start the gateway is called at most maxAttempts * (failureThreshold + T /
   resetTimeout) times.
   */
  lemma LoadBound(o: Options, maxAttempts: nat, calls: seq<Call>, time: nat)
    requires Sequential(calls) && o.failureThreshold >= 1 && o.resetTimeout > 0 && Failing(calls, maxAttempts)
    ensures Charges(o, calls[..StartedBy(calls, time)]) <= maxAttempts * (o.failureThreshold + time / o.resetTimeout)
  {
    var k := StartedBy(calls, time);
    StartsGrow(calls[..k]);
    StartedLoad(o, maxAttempts, calls[..k], time);
  }

  lemma {:induction false} StartsGrow(calls: seq<Call>)
    requires Sequential(calls)
    ensures forall i :: 0 <= i < |calls| ==> calls[i].start <= calls[|calls| - 1].start
    decreases |calls|
  {
    if |calls| > 1 {
      StartsGrow(calls[..|calls| - 1]);
    }
  }
}
