/** The transactional outbox: rows, the query that fetches a batch, and what a batch is. */
module OutboxTables {
  import opened InventoryTables

  /** A committed outbox row; its id is the position at which it became visible. */
  datatype OutboxRow = OutboxRow(order: OrderId, createdAt: int)

  /** How the broker answers a publish: confirmed, stored but the confirm is lost, or not stored. */
  datatype Answer = Confirmed | Unconfirmed | Refused

  predicate InRange(rows: seq<OutboxRow>, ids: seq<nat>) {
    forall i :: 0 <= i < |ids| ==> ids[i] < |rows|
  }

  predicate SortedByCreation(rows: seq<OutboxRow>, ids: seq<nat>)
    requires InRange(rows, ids)
  {
    forall i, j :: 0 <= i < j < |ids| ==> rows[ids[i]].createdAt <= rows[ids[j]].createdAt
  }

  predicate NoRepeats(ids: seq<nat>) {
    forall i, j :: 0 <= i < j < |ids| ==> ids[i] != ids[j]
  }

  /**
   What `where published = false order by created_at limit n` may return: distinct unpublished
   rows, oldest first, and no older row left out; ties in any order.
   */
  predicate IsBatch(rows: seq<OutboxRow>, published: set<nat>, limit: nat, batch: seq<nat>) {
    && InRange(rows, batch) && NoRepeats(batch) && SortedByCreation(rows, batch)
    && (forall i :: 0 <= i < |batch| ==> batch[i] !in published)
    && |batch| <= limit
    && (forall a: nat :: a < |rows| && a !in published && a !in batch ==>
          |batch| == limit && forall i :: 0 <= i < |batch| ==> rows[batch[i]].createdAt <= rows[a].createdAt)
  }

  /** The place of `id` after every row that is not younger. */
  function Slot(rows: seq<OutboxRow>, sorted: seq<nat>, id: nat): (k: nat)
    requires id < |rows| && InRange(rows, sorted) && SortedByCreation(rows, sorted)
    ensures k <= |sorted|
    ensures forall i :: 0 <= i < k ==> rows[sorted[i]].createdAt <= rows[id].createdAt
    ensures forall i :: k <= i < |sorted| ==> rows[sorted[i]].createdAt > rows[id].createdAt
  {
    if sorted == [] || rows[sorted[|sorted| - 1]].createdAt <= rows[id].createdAt then |sorted|
    else Slot(rows, sorted[..|sorted| - 1], id)
  }

  function InsertAt(ids: seq<nat>, k: nat, id: nat): (r: seq<nat>)
    requires k <= |ids| && NoRepeats(ids) && id !in ids
    ensures |r| == |ids| + 1 && NoRepeats(r)
    ensures forall a: nat :: a in r <==> a in ids || a == id
    ensures r == ids[..k] + [id] + ids[k..]
  {
    var r := ids[..k] + [id] + ids[k..];
    assert r[k] == id;
    assert forall i :: 0 <= i < |ids| ==> ids[i] == r[if i < k then i else i + 1];
    r
  }

  function Insert(rows: seq<OutboxRow>, ids: seq<nat>, id: nat): (r: seq<nat>)
    requires id < |rows| && InRange(rows, ids) && SortedByCreation(rows, ids) && NoRepeats(ids) && id !in ids
    ensures InRange(rows, r) && SortedByCreation(rows, r) && NoRepeats(r) && |r| == |ids| + 1
    ensures forall a: nat :: a in r <==> a in ids || a == id
  {
    var k := Slot(rows, ids, id);
    InsertAt(ids, k, id)
  }

  /** The unpublished rows among the first `n`, oldest first. */
  function Pending(rows: seq<OutboxRow>, published: set<nat>, n: nat): (ids: seq<nat>)
    requires n <= |rows|
    ensures InRange(rows, ids) && SortedByCreation(rows, ids) && NoRepeats(ids)
    ensures forall a: nat :: a in ids <==> a < n && a !in published
  {
    if n == 0 then []
    else if n - 1 in published then Pending(rows, published, n - 1)
    else Insert(rows, Pending(rows, published, n - 1), n - 1)
  }

  /** The query `findUnpublished` sends: the oldest unpublished rows, cut at the limit. */
  function FindUnpublished(rows: seq<OutboxRow>, published: set<nat>, limit: nat): (batch: seq<nat>)
    ensures IsBatch(rows, published, limit, batch)
  {
    var all := Pending(rows, published, |rows|);
    if |all| <= limit then all else all[..limit]
  }

  function IdSet(ids: seq<nat>): set<nat> {
    set a | a in ids
  }
}

/** `OutboxPoller`: one poll fetches a batch, publishes until the first failure, and marks what was confirmed. */
module OutboxPollers {
  import opened InventoryTables
  import opened OutboxTables

  /** How many of the answers come before the first that is not a confirm. */
  function Confirms(answers: seq<Answer>): (n: nat)
    ensures n <= |answers|
    ensures forall i :: 0 <= i < n ==> answers[i] == Confirmed
    ensures n < |answers| ==> answers[n] != Confirmed
  {
    if answers == [] || answers[0] != Confirmed then 0 else 1 + Confirms(answers[1..])
  }

  lemma {:induction false} ConfirmsIs(answers: seq<Answer>, n: nat)
    requires n <= |answers| && (forall i :: 0 <= i < n ==> answers[i] == Confirmed)
    requires n < |answers| ==> answers[n] != Confirmed
    ensures Confirms(answers) == n
  {
    if n > 0 {
      ConfirmsIs(answers[1..], n - 1);
    }
  }

  class OutboxPoller {
    var rows: seq<OutboxRow>
    var published: set<nat>
    var broker: seq<nat> // the ids the broker stored, in order
    var running: bool

    constructor (rows: seq<OutboxRow>)
      ensures this.rows == rows && published == {} && broker == [] && !running
    {
      this.rows, published, broker, running := rows, {}, [], false;
    }

    /** The loop of `poll`: publish in order, stop at the first failure, return the confirmed ids. */
    method PublishUntilFailure(events: seq<nat>, answers: seq<Answer>) returns (confirmed: seq<nat>)
      requires |answers| >= |events|
      modifies this`broker
      ensures confirmed == events[..Confirms(answers[..|events|])]
      ensures var n := |confirmed|;
              broker == old(broker) + confirmed
                  + (if n < |events| && answers[n] == Unconfirmed then [events[n]] else [])
    {
      confirmed := [];
      var i := 0;
      while i < |events|
        invariant 0 <= i <= |events|
        invariant forall j :: 0 <= j < i ==> answers[j] == Confirmed
        invariant confirmed == events[..i]
        invariant broker == old(broker) + confirmed
      {
        if answers[i] != Refused {
          broker := broker + [events[i]];
        }
        if answers[i] != Confirmed {
          ConfirmsIs(answers[..|events|], i);
          return;
        }
        confirmed := confirmed + [events[i]];
        i := i + 1;
      }
      ConfirmsIs(answers[..|events|], i);
    }

    /** `marks` says whether `markPublished` succeeds; if it throws, the poll reports nothing although it published. */
    method PublishAndMark(events: seq<nat>, answers: seq<Answer>, marks: bool) returns (count: nat)
      requires |answers| >= |events|
      modifies this`published, this`broker
      ensures var n := Confirms(answers[..|events|]);
              && count == (if marks then n else 0)
              && published == old(published) + (if marks then IdSet(events[..n]) else {})
              && broker == old(broker) + events[..n]
                  + (if n < |events| && answers[n] == Unconfirmed then [events[n]] else [])
    {
      var confirmed := PublishUntilFailure(events, answers);
      if |confirmed| > 0 {
        if !marks {
          return 0;
        }
        published := published + IdSet(confirmed);
      }
      return |confirmed|;
    }

    /**
     `answers[i]` is the broker's answer to the i-th publish of this poll; `fetches` and `marks` say
     which queries succeed.
     */
    method Poll(limit: nat, answers: seq<Answer>, fetches: bool, marks: bool) returns (count: nat)
      requires |answers| >= limit
      modifies this`published, this`broker, this`running
      ensures running == old(running)
      ensures old(running) || !fetches ==> count == 0 && published == old(published) && broker == old(broker)
      ensures !old(running) && fetches ==>
                var batch := FindUnpublished(rows, old(published), limit);
                var n := Confirms(answers[..|batch|]);
                && count == (if marks then n else 0)
                && published == old(published) + (if marks then IdSet(batch[..n]) else {})
                && broker == old(broker) + batch[..n]
                    + (if n < |batch| && answers[n] == Unconfirmed then [batch[n]] else [])
    {
      if running {
        return 0;
      }
      running := true;
      count := 0;
      if fetches {
        var events := FindUnpublished(rows, published, limit);
        count := PublishAndMark(events, answers, marks);
      }
      running := false;
    }
  }

  // ----- no loss: repeated polls publish everything -----

  function Backlog(rows: seq<OutboxRow>, published: set<nat>): set<nat> {
    set a | 0 <= a < |rows| && a !in published
  }

  /** A poll whose publishes are all confirmed, whichever batch the query returned. */
  ghost predicate Polled(rows: seq<OutboxRow>, published: set<nat>, limit: nat, published': set<nat>) {
    exists batch :: IsBatch(rows, published, limit, batch) && published' == published + IdSet(batch)
  }

  lemma BatchShrinksBacklog(rows: seq<OutboxRow>, published: set<nat>, limit: nat, batch: seq<nat>)
    requires limit >= 1 && IsBatch(rows, published, limit, batch)
    ensures Backlog(rows, published + IdSet(batch)) <= Backlog(rows, published)
    ensures Backlog(rows, published) != {} ==> Backlog(rows, published + IdSet(batch)) != Backlog(rows, published)
  {
    if Backlog(rows, published) != {} {
      var a :| a in Backlog(rows, published);
      assert |batch| > 0;
      assert batch[0] in Backlog(rows, published) && batch[0] in IdSet(batch);
    }
  }

  lemma SubsetSize(a: set<nat>, b: set<nat>)
    requires a <= b
    ensures |a| <= |b| && (a != b ==> |a| < |b|)
  {
    assert |b| == |a| + |b - a| by {
      assert b == a + (b - a) && a !! (b - a);
    }
  }

  lemma PollShrinksBacklog(rows: seq<OutboxRow>, published: set<nat>, limit: nat, published': set<nat>)
    requires limit >= 1 && Polled(rows, published, limit, published')
    ensures Backlog(rows, published') == {} || |Backlog(rows, published')| < |Backlog(rows, published)|
  {
    var batch :| IsBatch(rows, published, limit, batch) && published' == published + IdSet(batch);
    BatchShrinksBacklog(rows, published, limit, batch);
    SubsetSize(Backlog(rows, published'), Backlog(rows, published));
  }

  /** With every publish confirmed, as many polls as there are unpublished rows publish them all. */
  lemma {:induction false} PollsDrainOutbox(rows: seq<OutboxRow>, trace: seq<set<nat>>, limit: nat)
    requires limit >= 1 && |trace| > 0
    requires forall i :: 0 < i < |trace| ==> Polled(rows, trace[i - 1], limit, trace[i])
    ensures var left := Backlog(rows, trace[|trace| - 1]);
            left == {} || |left| + |trace| - 1 <= |Backlog(rows, trace[0])|
  {
    var n := |trace| - 1;
    if n > 0 {
      PollsDrainOutbox(rows, trace[..n], limit);
      PollShrinksBacklog(rows, trace[n - 1], limit, trace[n]);
    }
  }
}

/**
 Any number of pollers on one outbox, interleaved publish by publish, each free to crash anywhere
 and to be restarted, while transactions commit new rows.
 */
module OutboxSystem {
  import opened InventoryTables
  import opened OutboxTables
  import opened OutboxPollers

  datatype Poller = Poller(batch: seq<nat>, confirmed: nat, stopped: bool)

  datatype State = State(rows: seq<OutboxRow>, published: set<nat>, confirmed: set<nat>, broker: seq<nat>,
        pollers: map<nat, Poller>)

  datatype Action =
    | CommitRow(order: OrderId, createdAt: int)
    | Fetch(p: nat, limit: nat, batch: seq<nat>)
    | Publish(p: nat, answer: Answer)
    | Mark(p: nat)
    | Crash(p: nat)

  /**
   An order's next event is written by a transaction that began after the previous one committed
   (it loaded the version that one wrote), so its `created_at` is later. Other orders' rows may
   become visible in any order of `created_at`.
   */
  predicate MayCommit(rows: seq<OutboxRow>, order: OrderId, createdAt: int) {
    forall i :: 0 <= i < |rows| && rows[i].order == order ==> rows[i].createdAt < createdAt
  }

  function PublishOne(s: State, p: nat, answer: Answer): State
    requires p in s.pollers && s.pollers[p].confirmed < |s.pollers[p].batch|
  {
    var poller := s.pollers[p];
    var id := poller.batch[poller.confirmed];
    match answer
    case Confirmed =>
      s.(broker := s.broker + [id], confirmed := s.confirmed + {id},
            pollers := s.pollers[p := poller.(confirmed := poller.confirmed + 1)])
    case Unconfirmed => s.(broker := s.broker + [id], pollers := s.pollers[p := poller.(stopped := true)])
    case Refused => s.(pollers := s.pollers[p := poller.(stopped := true)])
  }

  function Step(s: State, a: Action): State {
    match a
    case CommitRow(order, createdAt) =>
      if MayCommit(s.rows, order, createdAt) then s.(rows := s.rows + [OutboxRow(order, createdAt)]) else s
    case Fetch(p, limit, batch) =>
      if p !in s.pollers && IsBatch(s.rows, s.published, limit, batch)
          then s.(pollers := s.pollers[p := Poller(batch, 0, false)]) else s
    case Publish(p, answer) =>
      if p in s.pollers && !s.pollers[p].stopped
          && s.pollers[p].confirmed < |s.pollers[p].batch| then PublishOne(s, p, answer) else s
    case Mark(p) =>
      if p in s.pollers && s.pollers[p].confirmed <= |s.pollers[p].batch| then
        s.(published := s.published + IdSet(s.pollers[p].batch[..s.pollers[p].confirmed]), pollers := s.pollers - {p})
      else s
    case Crash(p) => s.(pollers := s.pollers - {p})
  }

  const START := State([], {}, {}, [], map[])

  function Run(actions: seq<Action>): State {
    if actions == [] then START else Step(Run(actions[..|actions| - 1]), actions[|actions| - 1])
  }

  function Follow(s: State, actions: seq<Action>): State
    decreases |actions|
  {
    if actions == [] then s else Follow(Step(s, actions[0]), actions[1..])
  }

  /** The publishes of one poll; those after the first failure are not made. */
  function Publishes(p: nat, answers: seq<Answer>): seq<Action> {
    seq(|answers|, i requires 0 <= i < |answers| => Publish(p, answers[i]))
  }

  /** What a poll leaves at the broker: the confirmed rows, and a row it stored without a confirm. */
  function Sent(batch: seq<nat>, answers: seq<Answer>): seq<nat>
    requires |answers| >= |batch|
  {
    var n := Confirms(answers[..|batch|]);
    batch[..n] + if n < |batch| && answers[n] == Unconfirmed then [batch[n]] else []
  }

  lemma {:induction false} StoppedPublishes(s: State, p: nat, answers: seq<Answer>)
    requires p in s.pollers && s.pollers[p].stopped
    ensures Follow(s, Publishes(p, answers)) == s
    decreases |answers|
  {
    if answers != [] {
      assert Publishes(p, answers)[1..] == Publishes(p, answers[1..]);
      StoppedPublishes(s, p, answers[1..]);
    }
  }

  /** From the `k`-th row on. */
  lemma {:induction false} PublishesEnd(s: State, p: nat, batch: seq<nat>, k: nat, answers: seq<Answer>)
    requires p in s.pollers && s.pollers[p] == Poller(batch, k, false) && k <= |batch| && |answers| == |batch| - k
    ensures var s', n := Follow(s, Publishes(p, answers)), Confirms(answers);
            && s'.rows == s.rows && s'.published == s.published && s'.broker == s.broker + Sent(batch[k..], answers)
            && s'.pollers == s.pollers[p := Poller(batch, k + n, n < |answers|)]
    decreases |answers|
  {
    var rest := batch[k..];
    assert answers[..|rest|] == answers;
    if answers == [] {
      assert s.broker + Sent(rest, answers) == s.broker;
      assert s.pollers[p := Poller(batch, k, false)] == s.pollers;
    } else {
      assert Publishes(p, answers)[1..] == Publishes(p, answers[1..]);
      var s1 := Step(s, Publish(p, answers[0]));
      if answers[0] == Confirmed {
        assert rest[1..] == batch[k + 1..];
        assert s1.broker == s.broker + [rest[0]] && s1.pollers == s.pollers[p := Poller(batch, k + 1, false)];
        PublishesEnd(s1, p, batch, k + 1, answers[1..]);
        SentMore(rest, answers);
        Appended(s.broker, rest[0], Sent(rest[1..], answers[1..]));
      } else {
        StoppedPublishes(s1, p, answers[1..]);
        assert Sent(rest, answers) == if answers[0] == Unconfirmed then [batch[k]] else [];
      }
    }
  }

  lemma Appended(broker: seq<nat>, id: nat, more: seq<nat>)
    ensures broker + [id] + more == broker + ([id] + more)
  {
  }

  lemma SentMore(batch: seq<nat>, answers: seq<Answer>)
    requires |answers| == |batch| > 0 && answers[0] == Confirmed
    ensures Sent(batch, answers) == [batch[0]] + Sent(batch[1..], answers[1..])
  {
    assert answers[..|batch|] == answers && answers[1..][..|batch| - 1] == answers[1..];
    var n := Confirms(answers[1..]);
    assert batch[..n + 1] == [batch[0]] + batch[1..][..n];
  }

  /**
   A poll of one poller that no other interrupts does to the table and the broker what `OutboxPoller.Poll` does:
   it publishes up to the first failure and marks what was confirmed.
   */
  lemma PollIsRun(s: State, p: nat, limit: nat, batch: seq<nat>, answers: seq<Answer>)
    requires p !in s.pollers && IsBatch(s.rows, s.published, limit, batch) && |answers| == |batch|
    ensures var fetched := Step(s, Fetch(p, limit, batch));
            var s' := Step(Follow(fetched, Publishes(p, answers)), Mark(p));
            var n := Confirms(answers);
            && s'.rows == s.rows && s'.pollers == s.pollers
            && s'.published == s.published + IdSet(batch[..n])
            && s'.broker == s.broker + batch[..n]
                + (if n < |batch| && answers[n] == Unconfirmed then [batch[n]] else [])
  {
    FetchedPollEnds(s, Step(s, Fetch(p, limit, batch)), p, batch, answers);
  }

  lemma FetchedPollEnds(s: State, fetched: State, p: nat, batch: seq<nat>, answers: seq<Answer>)
    requires p !in s.pollers && fetched == s.(pollers := s.pollers[p := Poller(batch, 0, false)])
    requires |answers| == |batch|
    ensures var s' := Step(Follow(fetched, Publishes(p, answers)), Mark(p));
            var n := Confirms(answers);
            && s'.rows == s.rows && s'.pollers == s.pollers
            && s'.published == s.published + IdSet(batch[..n])
            && s'.broker == s.broker + batch[..n]
                + (if n < |batch| && answers[n] == Unconfirmed then [batch[n]] else [])
  {
    var s1, n := Follow(fetched, Publishes(p, answers)), Confirms(answers);
    assert batch[0..] == batch && answers[..|batch|] == answers;
    PublishesEnd(fetched, p, batch, 0, answers);
    assert s1.pollers == s.pollers[p := Poller(batch, n, n < |answers|)];
    assert s1.pollers - {p} == s.pollers;
  }

  // ----- the invariant -----

  /** Row `a` is an earlier event of the same order as row `b`. */
  predicate Precedes(rows: seq<OutboxRow>, a: nat, b: nat) {
    a < |rows| && b < |rows| && rows[a].order == rows[b].order && rows[a].createdAt < rows[b].createdAt
  }

  predicate VisibleInOrder(rows: seq<OutboxRow>) {
    forall i, j :: 0 <= i < j < |rows| && rows[i].order == rows[j].order ==> rows[i].createdAt < rows[j].createdAt
  }

  /** Whenever the broker stored an event, it had already stored every earlier event of that order. */
  predicate Causal(rows: seq<OutboxRow>, broker: seq<nat>) {
    && InRange(rows, broker)
    && forall k, a :: 0 <= k < |broker| && 0 <= a < |rows| && Precedes(rows, a, broker[k]) ==> a in broker[..k]
  }

  /** Every earlier event of a fetched row is at the broker or comes before it in the batch. */
  predicate PollerOk(rows: seq<OutboxRow>, confirmed: set<nat>, poller: Poller) {
    && InRange(rows, poller.batch) && poller.confirmed <= |poller.batch|
    && (forall i :: 0 <= i < poller.confirmed ==> poller.batch[i] in confirmed)
    && (forall i, a :: 0 <= i < |poller.batch| && 0 <= a < |rows| && Precedes(rows, a, poller.batch[i]) ==>
          a in confirmed || a in poller.batch[..i])
  }

  predicate Inv(s: State) {
    && VisibleInOrder(s.rows)
    && s.published <= s.confirmed
    && (forall id :: id in s.confirmed ==> id in s.broker)
    && Causal(s.rows, s.broker)
    && forall p :: p in s.pollers ==> PollerOk(s.rows, s.confirmed, s.pollers[p])
  }

  lemma CommitKeepsInv(s: State, order: OrderId, createdAt: int)
    requires Inv(s) && MayCommit(s.rows, order, createdAt)
    ensures Inv(Step(s, CommitRow(order, createdAt)))
  {
    var rows := s.rows + [OutboxRow(order, createdAt)];
    forall a: nat, b: nat | b < |s.rows| && Precedes(rows, a, b)
      ensures a < |s.rows| && Precedes(s.rows, a, b)
    {
    }
    forall p | p in s.pollers
      ensures PollerOk(rows, s.confirmed, s.pollers[p])
    {
      assert PollerOk(s.rows, s.confirmed, s.pollers[p]);
    }
  }

  lemma FetchKeepsInv(s: State, p: nat, limit: nat, batch: seq<nat>)
    requires Inv(s) && IsBatch(s.rows, s.published, limit, batch)
    ensures PollerOk(s.rows, s.confirmed, Poller(batch, 0, false))
  {
    forall i, a | 0 <= i < |batch| && 0 <= a < |s.rows| && Precedes(s.rows, a, batch[i])
      ensures a in s.confirmed || a in batch[..i]
    {
      if a !in s.published {
        assert a in batch;
        var j :| 0 <= j < |batch| && batch[j] == a;
        assert j < i;
        assert batch[..i][j] == a;
      }
    }
  }

  lemma PublishKeepsInv(s: State, p: nat, answer: Answer)
    requires Inv(s) && p in s.pollers && s.pollers[p].confirmed < |s.pollers[p].batch|
    ensures Inv(PublishOne(s, p, answer))
  {
    var poller := s.pollers[p];
    assert PollerOk(s.rows, s.confirmed, poller);
    var id := poller.batch[poller.confirmed];
    if answer != Refused {
      var broker := s.broker + [id];
      forall k, a | 0 <= k < |broker| && 0 <= a < |s.rows| && Precedes(s.rows, a, broker[k])
        ensures a in broker[..k]
      {
        assert broker[..k] == if k < |s.broker| then s.broker[..k] else s.broker;
      }
    }
    var s' := PublishOne(s, p, answer);
    forall q | q in s'.pollers
      ensures PollerOk(s'.rows, s'.confirmed, s'.pollers[q])
    {
      assert PollerOk(s.rows, s.confirmed, s.pollers[q]);
    }
  }

  lemma StepKeepsInv(s: State, a: Action)
    requires Inv(s)
    ensures Inv(Step(s, a))
  {
    match a
    case CommitRow(order, createdAt) =>
      if MayCommit(s.rows, order, createdAt) {
        CommitKeepsInv(s, order, createdAt);
      }
    case Fetch(p, limit, batch) =>
      if IsBatch(s.rows, s.published, limit, batch) {
        FetchKeepsInv(s, p, limit, batch);
      }
    case Publish(p, answer) =>
      if p in s.pollers && s.pollers[p].confirmed < |s.pollers[p].batch| {
        PublishKeepsInv(s, p, answer);
      }
    case Mark(p) =>
      if p in s.pollers {
        assert PollerOk(s.rows, s.confirmed, s.pollers[p]);
      }
    case Crash(p) =>
  }

  lemma {:induction false} RunKeepsInv(actions: seq<Action>)
    ensures Inv(Run(actions))
    decreases |actions|
  {
    if actions != [] {
      RunKeepsInv(actions[..|actions| - 1]);
      StepKeepsInv(Run(actions[..|actions| - 1]), actions[|actions| - 1]);
    }
  }

  // ----- main results -----

  /** Where `id` first occurs. */
  function First(broker: seq<nat>, id: nat): (k: nat)
    requires id in broker
    ensures k < |broker| && broker[k] == id
    ensures forall i :: 0 <= i < k ==> broker[i] != id
  {
    if broker[0] == id then 0 else 1 + First(broker[1..], id)
  }

  /** For each order, the first broker occurrences of its events follow their creation order. */
  lemma PerOrderPublicationOrder(actions: seq<Action>, a: nat, b: nat)
    requires var s := Run(actions); Precedes(s.rows, a, b) && b in s.broker
    ensures var s := Run(actions); a in s.broker && First(s.broker, a) < First(s.broker, b)
  {
    RunKeepsInv(actions);
    var broker := Run(actions).broker;
    var k := First(broker, b);
    assert Precedes(Run(actions).rows, a, broker[k]);
    assert a in broker[..k];
    var j :| 0 <= j < k && broker[..k][j] == a;
    assert broker[j] == a;
  }

  /**
   No loss: a row is marked published only after a confirm, so one the broker never stored is still
   there to be fetched.
   */
  lemma PublishedMeansConfirmed(actions: seq<Action>, id: nat)
    ensures var s := Run(actions);
            && (id in s.published ==> id in s.confirmed && id in s.broker)
            && (id < |s.rows| && id !in s.broker ==> id in Pending(s.rows, s.published, |s.rows|))
  {
    RunKeepsInv(actions);
  }
}
