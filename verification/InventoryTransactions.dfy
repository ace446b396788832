/**
 Any number of inventory transactions interleaved statement by statement.

 Each locks an inventory row (`SELECT ... FOR UPDATE`) before it reads it, writes to a private
 buffer, keeps its locks to the end, and then commits or rolls back. A releasing transaction
 also locks the reservation rows it selects. The result: the committed tables are those of the
 committed transactions run one at a time in commit order.
 */
module InventoryTransactions {
  import opened Results
  import opened InventoryTables
  import opened StockLedger

  datatype Request =
    | Reserving(order: OrderId, items: seq<Line>, expiresAt: int)
    | Releasing(sel: Selector, ids: seq<nat>) // the rows its SELECT returned, in the order it returned them

  function ActsFor(r: Request): seq<Act> {
    match r
    case Reserving(order, items, expiresAt) => ReserveActs(order, items, expiresAt)
    case Releasing(sel, ids) => Gives(ids, GivenStatus(sel))
  }

  /** The uncommitted writes of one transaction. */
  datatype Buffer = Buffer(stock: map<Sku, Stock>, added: seq<Reservation>, given: map<nat, ReservationStatus>)

  datatype Phase = Open | Committed | RolledBack

  /** `acts` is `ActsFor(request)`, fixed when the transaction begins. */
  datatype Txn = Txn(request: Request, acts: seq<Act>, done: nat, locks: set<Sku>, buffer: Buffer, phase: Phase)

  /** `committed` lists transactions in commit order. */
  datatype State = State(tables: Tables, txns: seq<Txn>, committed: seq<nat>)

  datatype Action =
    | Begin(request: Request)
    | Lock(k: nat)
    | Exec(k: nat)
    | Commit(k: nat)
    | Abort(k: nat) // a crash, or a failure the code did not cause

  const EMPTY := Buffer(map[], [], map[])

  // ----- a transaction against its buffer -----

  function SkuOf(t: Tables, a: Act): Sku {
    match a
    case Take(_, line, _) => line.sku
    case Give(id, _) => if id < |t.rows| then t.rows[id].sku else 0
  }

  function ReadStock(t: Tables, b: Buffer, sku: Sku): Stock
    requires sku in t.stock
  {
    if sku in b.stock then b.stock[sku] else t.stock[sku]
  }

  function ExecBuffered(t: Tables, b: Buffer, a: Act): Result<Buffer, Error> {
    match a
    case Take(order, line, expiresAt) =>
      if line.sku !in t.stock then Err(UnknownSku)
      else (match StockReserve(ReadStock(t, b, line.sku), line.quantity)
            case Err(e) => Err(e)
            case Ok(s) =>
              if Taken(t.rows, order, line.sku) || Taken(b.added, order, line.sku) then Err(DuplicateReservation)
              else Ok(b.(stock := b.stock[line.sku := s],
                         added := b.added + [Reservation(order, line.sku, line.quantity, Active, expiresAt)])))
    case Give(id, status) =>
      if id >= |t.rows| then Ok(b)
      else
        var row := t.rows[id];
        if row.sku !in t.stock then Ok(b.(given := b.given[id := status]))
        else match StockRelease(ReadStock(t, b, row.sku), row.quantity)
          case Err(e) => Err(e)
          case Ok(s) => Ok(b.(stock := b.stock[row.sku := s], given := b.given[id := status]))
  }

  function RunBuffered(t: Tables, acts: seq<Act>): Result<Buffer, Error> {
    if acts == [] then Ok(EMPTY)
    else match RunBuffered(t, acts[..|acts| - 1])
      case Err(e) => Err(e)
      case Ok(b) => ExecBuffered(t, b, acts[|acts| - 1])
  }

  function Overlay(t: Tables, b: Buffer): Tables {
    Tables(t.stock + b.stock,
           seq(|t.rows|, i requires 0 <= i < |t.rows| =>
             if i in b.given then t.rows[i].(status := b.given[i]) else t.rows[i]) + b.added)
  }

  // ----- the interleaved system -----

  predicate IsOpen(s: State, k: nat) {
    k < |s.txns| && s.txns[k].phase == Open
  }

  predicate RowLocked(s: State, id: nat) {
    exists k :: 0 <= k < |s.txns| && s.txns[k].phase == Open && Gives?(s.txns[k].acts, id)
  }

  /**
   A reserve may begin at any time; a release waits until no selected row is locked by another, and
   may have missed rows that were committed while it waited.
   */
  predicate MayBegin(s: State, r: Request) {
    r.Releasing? ==>
      && Distinct(r.ids)
      && forall i :: 0 <= i < |r.ids| ==>
           r.ids[i] < |s.tables.rows| && Matches(s.tables.rows[r.ids[i]], r.sel) && !RowLocked(s, r.ids[i])
  }

  predicate HasNext(s: State, k: nat) {
    IsOpen(s, k) && s.txns[k].done < |s.txns[k].acts|
  }

  function NextSku(s: State, k: nat): Sku
    requires HasNext(s, k)
  {
    SkuOf(s.tables, s.txns[k].acts[s.txns[k].done])
  }

  /** Some other open transaction holds the row lock on this SKU; an unknown SKU has no row to lock. */
  predicate HeldByOther(s: State, k: nat, sku: Sku) {
    && sku in s.tables.stock
    && exists j :: 0 <= j < |s.txns| && j != k && s.txns[j].phase == Open && sku in s.txns[j].locks
  }

  predicate MayLock(s: State, k: nat) {
    HasNext(s, k) && NextSku(s, k) !in s.txns[k].locks && !HeldByOther(s, k, NextSku(s, k))
  }

  predicate MayExec(s: State, k: nat) {
    HasNext(s, k) && NextSku(s, k) in s.txns[k].locks
  }

  predicate MayCommit(s: State, k: nat) {
    IsOpen(s, k) && s.txns[k].done == |s.txns[k].acts|
  }

  predicate Enabled(s: State, a: Action) {
    match a
    case Begin(r) => MayBegin(s, r)
    case Lock(k) => MayLock(s, k)
    case Exec(k) => MayExec(s, k)
    case Commit(k) => MayCommit(s, k)
    case Abort(k) => IsOpen(s, k)
  }

  function SetTxn(s: State, k: nat, txn: Txn): State
    requires k < |s.txns|
  {
    s.(txns := s.txns[k := txn])
  }

  /** The effect of an enabled action; a disabled one changes nothing. */
  function Step(s: State, a: Action): State {
    if !Enabled(s, a) then s
    else match a
      case Begin(r) => s.(txns := s.txns + [Txn(r, ActsFor(r), 0, {}, EMPTY, Open)])
      case Lock(k) => SetTxn(s, k, s.txns[k].(locks := s.txns[k].locks + {NextSku(s, k)}))
      case Exec(k) =>
        (match ExecBuffered(s.tables, s.txns[k].buffer, s.txns[k].acts[s.txns[k].done])
         case Err(_) => SetTxn(s, k, s.txns[k].(phase := RolledBack))
         case Ok(b) => SetTxn(s, k, s.txns[k].(done := s.txns[k].done + 1, buffer := b)))
      case Commit(k) =>
        State(Overlay(s.tables, s.txns[k].buffer), s.txns[k := s.txns[k].(phase := Committed)], s.committed + [k])
      case Abort(k) => SetTxn(s, k, s.txns[k].(phase := RolledBack))
  }

  function Run(s: State, actions: seq<Action>): State {
    if actions == [] then s else Step(Run(s, actions[..|actions| - 1]), actions[|actions| - 1])
  }

  function Start(t: Tables): State {
    State(t, [], [])
  }

  /** The reference: the listed transactions one at a time. */
  function Serial(t: Tables, txns: seq<Txn>, order: seq<nat>): Tables {
    if order == [] then t
    else
      var t' := Serial(t, txns, order[..|order| - 1]);
      var k := order[|order| - 1];
      if k < |txns| then Transact(t', txns[k].acts) else t'
  }

  // ----- the buffer is a view -----

  predicate InRange(t: Tables, acts: seq<Act>) {
    forall k :: 0 <= k < |acts| && acts[k].Give? ==> acts[k].id < |t.rows|
  }

  lemma OverlaidTaken(t: Tables, b: Buffer, order: OrderId, sku: Sku)
    ensures Taken(Overlay(t, b).rows, order, sku) <==> Taken(t.rows, order, sku) || Taken(b.added, order, sku)
  {
    var rows := Overlay(t, b).rows;
    if i :| 0 <= i < |t.rows| && t.rows[i].order == order && t.rows[i].sku == sku {
      assert rows[i].order == order && rows[i].sku == sku;
    }
    if i :| 0 <= i < |b.added| && b.added[i].order == order && b.added[i].sku == sku {
      assert rows[|t.rows| + i].order == order && rows[|t.rows| + i].sku == sku;
    }
  }

  lemma OverlayTake(t: Tables, b: Buffer, order: OrderId, line: Line, expiresAt: int)
    requires b.stock.Keys <= t.stock.Keys
    ensures ExecTake(Overlay(t, b), order, line, expiresAt) ==
            match ExecBuffered(t, b, Take(order, line, expiresAt))
            case Err(e) => Err(e)
            case Ok(b') => Ok(Overlay(t, b'))
  {
    var r := ExecBuffered(t, b, Take(order, line, expiresAt));
    OverlaidTaken(t, b, order, line.sku);
    if r.Ok? {
      var v := Overlay(t, b);
      assert Overlay(t, r.value).rows == v.rows + [Reservation(order, line.sku, line.quantity, Active, expiresAt)];
      assert Overlay(t, r.value).stock == v.stock[line.sku := r.value.stock[line.sku]];
    }
  }

  lemma OverlayGive(t: Tables, b: Buffer, id: nat, status: ReservationStatus)
    requires b.stock.Keys <= t.stock.Keys && id < |t.rows|
    ensures ExecGive(Overlay(t, b), id, status) ==
            match ExecBuffered(t, b, Give(id, status)) case Err(e) => Err(e) case Ok(b') => Ok(Overlay(t, b'))
  {
    var r, sku := ExecBuffered(t, b, Give(id, status)), t.rows[id].sku;
    if r.Ok? {
      var v := Overlay(t, b);
      assert Overlay(t, r.value).rows == v.rows[id := v.rows[id].(status := status)];
      if sku in t.stock {
        assert Overlay(t, r.value).stock == v.stock[sku := r.value.stock[sku]];
      }
    }
  }

  lemma OverlayExec(t: Tables, b: Buffer, a: Act)
    requires b.stock.Keys <= t.stock.Keys
    requires a.Give? ==> a.id < |t.rows|
    ensures ExecAct(Overlay(t, b), a) ==
            match ExecBuffered(t, b, a) case Err(e) => Err(e) case Ok(b') => Ok(Overlay(t, b'))
  {
    match a
    case Take(order, line, expiresAt) => OverlayTake(t, b, order, line, expiresAt);
    case Give(id, status) => OverlayGive(t, b, id, status);
  }

  /** A buffer only touches the partitions of the SKUs its transaction named. */
  predicate Within(t: Tables, b: Buffer, acts: seq<Act>) {
    && b.stock.Keys <= t.stock.Keys
    && (forall sku :: sku in b.stock ==> exists k :: 0 <= k < |acts| && SkuOf(t, acts[k]) == sku)
    && (forall i :: 0 <= i < |b.added| ==> b.added[i].sku in b.stock)
    && (forall id :: id in b.given ==> Gives?(acts, id))
  }

  lemma {:induction false} BufferedIsDirect(t: Tables, acts: seq<Act>)
    requires InRange(t, acts)
    ensures RunActs(t, acts) == match RunBuffered(t, acts) case Err(e) => Err(e) case Ok(b) => Ok(Overlay(t, b))
    ensures RunBuffered(t, acts).Ok? ==> Within(t, RunBuffered(t, acts).value, acts)
    decreases |acts|
  {
    if acts == [] {
      assert Overlay(t, EMPTY) == t;
    } else {
      var n := |acts| - 1;
      BufferedIsDirect(t, acts[..n]);
      if RunBuffered(t, acts[..n]).Ok? {
        var b := RunBuffered(t, acts[..n]).value;
        OverlayExec(t, b, acts[n]);
        if RunBuffered(t, acts).Ok? {
          StaysWithin(t, b, acts);
        }
      }
    }
  }

  lemma StaysWithin(t: Tables, b: Buffer, acts: seq<Act>)
    requires acts != [] && Within(t, b, acts[..|acts| - 1]) && ExecBuffered(t, b, acts[|acts| - 1]).Ok?
    ensures Within(t, ExecBuffered(t, b, acts[|acts| - 1]).value, acts)
  {
    var n := |acts| - 1;
    var b' := ExecBuffered(t, b, acts[n]).value;
    forall sku | sku in b'.stock
      ensures exists k :: 0 <= k < |acts| && SkuOf(t, acts[k]) == sku
    {
      if sku in b.stock {
        var k :| 0 <= k < n && SkuOf(t, acts[..n][k]) == sku;
        assert SkuOf(t, acts[k]) == sku;
      } else {
        assert SkuOf(t, acts[n]) == sku;
      }
    }
    forall id | id in b'.given
      ensures Gives?(acts, id)
    {
      if id in b.given {
        var k :| 0 <= k < n && acts[..n][k].Give? && acts[..n][k].id == id;
        assert acts[k].Give? && acts[k].id == id;
      } else {
        assert acts[n].Give? && acts[n].id == id;
      }
    }
  }

  // ----- what a transaction has read stays as it read it -----

  /** The two tables agree on the partitions of `skus`, and on what never changes. */
  ghost predicate AgreeOn(t: Tables, t': Tables, skus: set<Sku>) {
    && t.stock.Keys == t'.stock.Keys
    && |t.rows| <= |t'.rows|
    && (forall i :: 0 <= i < |t.rows| ==> t'.rows[i].sku == t.rows[i].sku && t'.rows[i].quantity == t.rows[i].quantity)
    && (forall sku :: sku in skus && sku in t.stock ==> t'.stock[sku] == t.stock[sku])
    && (forall sku, order :: sku in skus && sku in t.stock ==>
          (Taken(t'.rows, order, sku) <==> Taken(t.rows, order, sku)))
  }

  lemma {:induction false} SameBuffer(t: Tables, t': Tables, acts: seq<Act>, skus: set<Sku>)
    requires AgreeOn(t, t', skus) && InRange(t, acts)
    requires forall k :: 0 <= k < |acts| ==> SkuOf(t, acts[k]) in skus
    ensures RunBuffered(t', acts) == RunBuffered(t, acts)
    decreases |acts|
  {
    if acts != [] {
      SameBuffer(t, t', acts[..|acts| - 1], skus);
    }
  }

  lemma CommitAgrees(t: Tables, b: Buffer, acts: seq<Act>, skus: set<Sku>)
    requires Within(t, b, acts)
    requires forall sku :: sku in skus && sku in t.stock ==> sku !in b.stock
    ensures AgreeOn(t, Overlay(t, b), skus)
  {
    forall sku, order | sku in skus && sku in t.stock
      ensures Taken(Overlay(t, b).rows, order, sku) <==> Taken(t.rows, order, sku)
    {
      OverlaidTaken(t, b, order, sku);
    }
  }

  // ----- the invariant -----

  predicate LocksCover(t: Tables, txn: Txn) {
    var acts := txn.acts;
    && txn.done <= |acts|
    && (forall k :: 0 <= k < txn.done ==> SkuOf(t, acts[k]) in txn.locks)
    && (forall sku :: sku in txn.locks ==> exists k :: 0 <= k <= txn.done && k < |acts| && SkuOf(t, acts[k]) == sku)
  }

  predicate TxnInv(t: Tables, txn: Txn) {
    var acts := txn.acts;
    && LocksCover(t, txn)
    && InRange(t, acts)
    && Sound(t, acts)
    && RunBuffered(t, acts[..txn.done]) == Ok(txn.buffer)
  }

  ghost predicate Apart(s: State, j: nat, k: nat)
    requires j < |s.txns| && k < |s.txns|
  {
    && (forall sku :: sku in s.txns[j].locks && sku in s.txns[k].locks ==> sku !in s.tables.stock)
    && (forall id :: Gives?(s.txns[j].acts, id) ==> !Gives?(s.txns[k].acts, id))
  }

  ghost predicate Inv(s: State) {
    && (forall k :: 0 <= k < |s.txns| && s.txns[k].phase == Open ==> TxnInv(s.tables, s.txns[k]))
    && (forall j, k ::
          0 <= j < |s.txns| && 0 <= k < |s.txns| && j != k && s.txns[j].phase == Open && s.txns[k].phase == Open ==>
            Apart(s, j, k))
    && (forall k :: 0 <= k < |s.txns| ==> (s.txns[k].phase == Committed <==> k in s.committed))
    && (forall i :: 0 <= i < |s.committed| ==> s.committed[i] < |s.txns|)
    && Distinct(s.committed)
  }

  // ----- every step keeps the invariant -----

  lemma GivesOfIds(ids: seq<nat>, status: ReservationStatus, id: nat)
    ensures Gives?(Gives(ids, status), id) <==> id in ids
  {
    if id in ids {
      var k :| 0 <= k < |ids| && ids[k] == id;
      assert Gives(ids, status)[k].Give? && Gives(ids, status)[k].id == id;
    }
  }

  lemma BeginTxnInv(s: State, r: Request)
    requires MayBegin(s, r)
    ensures TxnInv(s.tables, Txn(r, ActsFor(r), 0, {}, EMPTY, Open))
    ensures forall id :: Gives?(ActsFor(r), id) ==> !RowLocked(s, id)
  {
    assert ActsFor(r)[..0] == [];
    if r.Releasing? {
      forall id
        ensures Gives?(ActsFor(r), id) <==> id in r.ids
      {
        GivesOfIds(r.ids, GivenStatus(r.sel), id);
      }
    }
  }

  lemma BeginKeepsInv(s: State, r: Request)
    requires Inv(s) && MayBegin(s, r)
    ensures Inv(Step(s, Begin(r)))
  {
    var s' := Step(s, Begin(r));
    var n := |s.txns|;
    BeginTxnInv(s, r);
    forall j, k | 0 <= j <= n && 0 <= k <= n && j != k && s'.txns[j].phase == Open && s'.txns[k].phase == Open
      ensures Apart(s', j, k)
    {
      if j < n && k < n {
        assert Apart(s, j, k);
      }
    }
  }

  /** Replacing one transaction keeps the rest of the invariant. */
  lemma SetKeepsInv(s: State, k: nat, txn: Txn)
    requires Inv(s) && IsOpen(s, k) && txn.request == s.txns[k].request && txn.acts == s.txns[k].acts
    requires txn.phase == RolledBack || (txn.phase == Open && TxnInv(s.tables, txn))
    requires forall sku :: sku in txn.locks && sku !in s.txns[k].locks ==> !HeldByOther(s, k, sku)
    ensures Inv(SetTxn(s, k, txn))
  {
    var s' := SetTxn(s, k, txn);
    forall i, j | 0 <= i < |s'.txns| && 0 <= j < |s'.txns| && i != j && s'.txns[i].phase == Open
        && s'.txns[j].phase == Open
      ensures Apart(s', i, j)
    {
      assert Apart(s, i, j);
      var other := if i == k then j else i;
      forall sku | sku in s'.txns[i].locks && sku in s'.txns[j].locks
        ensures sku !in s'.tables.stock
      {
        if sku in s.tables.stock && sku in txn.locks && sku in s.txns[other].locks && (i == k || j == k) {
          assert HeldByOther(s, k, sku);
        }
      }
    }
  }

  lemma LockKeepsInv(s: State, k: nat)
    requires Inv(s) && MayLock(s, k)
    ensures Inv(Step(s, Lock(k)))
  {
    var txn := s.txns[k];
    var acts := txn.acts;
    var txn' := txn.(locks := txn.locks + {NextSku(s, k)});
    assert SkuOf(s.tables, acts[txn.done]) == NextSku(s, k);
    assert LocksCover(s.tables, txn');
    SetKeepsInv(s, k, txn');
  }

  lemma ExecKeepsTxnInv(t: Tables, txn: Txn)
    requires TxnInv(t, txn) && txn.done < |txn.acts|
    requires SkuOf(t, txn.acts[txn.done]) in txn.locks
    requires ExecBuffered(t, txn.buffer, txn.acts[txn.done]).Ok?
    ensures TxnInv(t, txn.(done := txn.done + 1, buffer := ExecBuffered(t, txn.buffer, txn.acts[txn.done]).value))
  {
    var acts := txn.acts;
    assert acts[..txn.done + 1][..txn.done] == acts[..txn.done];
    var txn' := txn.(done := txn.done + 1, buffer := ExecBuffered(t, txn.buffer, acts[txn.done]).value);
    assert RunBuffered(t, acts[..txn'.done]) == Ok(txn'.buffer);
    forall sku | sku in txn'.locks
      ensures exists i :: 0 <= i <= txn'.done && i < |acts| && SkuOf(t, acts[i]) == sku
    {
      var i :| 0 <= i <= txn.done && i < |acts| && SkuOf(t, acts[i]) == sku;
    }
  }

  lemma ExecKeepsInv(s: State, k: nat)
    requires Inv(s) && MayExec(s, k)
    ensures Inv(Step(s, Exec(k)))
  {
    var t, txn := s.tables, s.txns[k];
    var r := ExecBuffered(t, txn.buffer, txn.acts[txn.done]);
    if r.Err? {
      SetKeepsInv(s, k, txn.(phase := RolledBack));
    } else {
      var txn' := txn.(done := txn.done + 1, buffer := r.value);
      assert TxnInv(t, txn') by {
        ExecKeepsTxnInv(t, txn);
      }
      SetKeepsInv(s, k, txn');
    }
  }

  lemma CommitKeepsOther(s: State, k: nat, j: nat)
    requires Inv(s) && MayCommit(s, k) && j < |s.txns| && j != k && s.txns[j].phase == Open
    ensures TxnInv(Overlay(s.tables, s.txns[k].buffer), s.txns[j])
  {
    var t, txn, other := s.tables, s.txns[k], s.txns[j];
    var acts, theirs := txn.acts, other.acts;
    assert acts[..txn.done] == acts;
    BufferedIsDirect(t, acts);
    assert Apart(s, k, j);
    CommitAgrees(t, txn.buffer, acts, other.locks);
    var t' := Overlay(t, txn.buffer);
    assert forall i :: 0 <= i < |theirs| ==> SkuOf(t', theirs[i]) == SkuOf(t, theirs[i]);
    forall i | 0 <= i < |theirs| && theirs[i].Give?
      ensures t'.rows[theirs[i].id] == t.rows[theirs[i].id]
    {
      assert Gives?(theirs, theirs[i].id);
    }
    SameBuffer(t, t', theirs[..other.done], other.locks);
  }

  lemma CommitKeepsInv(s: State, k: nat)
    requires Inv(s) && MayCommit(s, k)
    ensures Inv(Step(s, Commit(k)))
  {
    var s' := Step(s, Commit(k));
    forall j | 0 <= j < |s'.txns| && s'.txns[j].phase == Open
      ensures TxnInv(s'.tables, s'.txns[j])
    {
      CommitKeepsOther(s, k, j);
    }
    forall i, j | 0 <= i < |s'.txns| && 0 <= j < |s'.txns| && i != j && s'.txns[i].phase == Open
        && s'.txns[j].phase == Open
      ensures Apart(s', i, j)
    {
      assert Apart(s, i, j);
      assert s.txns[k].acts[..s.txns[k].done] == s.txns[k].acts;
      BufferedIsDirect(s.tables, s.txns[k].acts);
      assert s'.tables.stock.Keys == s.tables.stock.Keys;
    }
  }

  lemma StepKeepsInv(s: State, a: Action)
    requires Inv(s)
    ensures Inv(Step(s, a))
  {
    if Enabled(s, a) {
      match a
      case Begin(r) => BeginKeepsInv(s, r);
      case Lock(k) => LockKeepsInv(s, k);
      case Exec(k) => ExecKeepsInv(s, k);
      case Commit(k) => CommitKeepsInv(s, k);
      case Abort(k) => SetKeepsInv(s, k, s.txns[k].(phase := RolledBack));
    }
  }

  lemma {:induction false} RunKeepsInv(t: Tables, actions: seq<Action>)
    ensures Inv(Run(Start(t), actions))
    decreases |actions|
  {
    if actions != [] {
      RunKeepsInv(t, actions[..|actions| - 1]);
      StepKeepsInv(Run(Start(t), actions[..|actions| - 1]), actions[|actions| - 1]);
    }
  }

  // ----- serial equivalence -----

  /** A commit has the effect of the whole transaction run alone on the committed tables. */
  lemma CommitIsSerial(s: State, k: nat)
    requires Inv(s) && MayCommit(s, k)
    ensures RunActs(s.tables, s.txns[k].acts) == Ok(Step(s, Commit(k)).tables)
  {
    var acts := s.txns[k].acts;
    assert acts[..s.txns[k].done] == acts;
    BufferedIsDirect(s.tables, acts);
  }

  /** A transaction the code rolls back would also have failed, with the same error, if run alone at that point. */
  lemma FailureIsSerial(s: State, k: nat)
    requires Inv(s) && MayExec(s, k)
    requires ExecBuffered(s.tables, s.txns[k].buffer, s.txns[k].acts[s.txns[k].done]).Err?
    ensures RunActs(s.tables, s.txns[k].acts) ==
            Err(ExecBuffered(s.tables, s.txns[k].buffer, s.txns[k].acts[s.txns[k].done]).error)
  {
    var acts, done := s.txns[k].acts, s.txns[k].done;
    assert acts[..done + 1][..done] == acts[..done];
    BufferedIsDirect(s.tables, acts[..done + 1]);
    PrefixFails(s.tables, acts, done + 1);
  }

  lemma {:induction false} SerialIgnoresPhases(t: Tables, txns: seq<Txn>, txns': seq<Txn>, order: seq<nat>)
    requires |txns| <= |txns'|
    requires forall k :: 0 <= k < |txns| ==> txns'[k].acts == txns[k].acts
    requires forall i :: 0 <= i < |order| ==> order[i] < |txns|
    ensures Serial(t, txns, order) == Serial(t, txns', order)
    decreases |order|
  {
    if order != [] {
      SerialIgnoresPhases(t, txns, txns', order[..|order| - 1]);
    }
  }

  lemma StepKeepsRequests(s: State, a: Action)
    ensures |s.txns| <= |Step(s, a).txns|
    ensures forall k :: 0 <= k < |s.txns| ==>
            Step(s, a).txns[k].request == s.txns[k].request && Step(s, a).txns[k].acts == s.txns[k].acts
    ensures |Step(s, a).txns| > |s.txns| ==>
              a.Begin? && Step(s, a).txns == s.txns + [Txn(a.request, ActsFor(a.request), 0, {}, EMPTY, Open)]
    ensures !a.Commit? ==> Step(s, a).tables == s.tables && Step(s, a).committed == s.committed
  {
  }

  lemma SerialOneMore(t: Tables, txns: seq<Txn>, order: seq<nat>, k: nat)
    requires k < |txns|
    ensures Serial(t, txns, order + [k]) == Transact(Serial(t, txns, order), txns[k].acts)
  {
    assert (order + [k])[..|order|] == order;
  }

  lemma StepIsSerial(t: Tables, s: State, a: Action)
    requires Inv(s) && s.tables == Serial(t, s.txns, s.committed)
    ensures Step(s, a).tables == Serial(t, Step(s, a).txns, Step(s, a).committed)
  {
    StepKeepsRequests(s, a);
    if Enabled(s, a) && a.Commit? {
      CommitKeepsSerial(t, s, a.k);
    } else {
      SerialIgnoresPhases(t, s.txns, Step(s, a).txns, s.committed);
    }
  }

  lemma CommitKeepsSerial(t: Tables, s: State, k: nat)
    requires Inv(s) && s.tables == Serial(t, s.txns, s.committed) && MayCommit(s, k)
    ensures var s' := Step(s, Commit(k)); s'.tables == Serial(t, s'.txns, s'.committed)
  {
    var txns' := s.txns[k := s.txns[k].(phase := Committed)];
    CommitIsSerial(s, k);
    SerialIgnoresPhases(t, s.txns, txns', s.committed);
    SerialOneMore(t, txns', s.committed, k);
  }

  /**
   In every interleaving the committed tables are those of the committed transactions run one at
   a time in commit order; a transaction is in that order exactly when it committed, so one that
   rolled back or is still open leaves no trace.
   */
  lemma {:induction false} SerialEquivalence(t: Tables, actions: seq<Action>)
    ensures var s := Run(Start(t), actions);
            && s.tables == Serial(t, s.txns, s.committed)
            && Distinct(s.committed)
            && forall k :: 0 <= k < |s.txns| ==> (k in s.committed <==> s.txns[k].phase == Committed)
    decreases |actions|
  {
    RunKeepsInv(t, actions);
    if actions != [] {
      var n := |actions| - 1;
      SerialEquivalence(t, actions[..n]);
      RunKeepsInv(t, actions[..n]);
      StepIsSerial(t, Run(Start(t), actions[..n]), actions[n]);
    }
  }

  predicate AsRequested(txns: seq<Txn>) {
    forall k :: 0 <= k < |txns| ==> txns[k].acts == ActsFor(txns[k].request)
  }

  lemma {:induction false} ActsAreRequested(t: Tables, actions: seq<Action>)
    ensures AsRequested(Run(Start(t), actions).txns)
    decreases |actions|
  {
    if actions != [] {
      var front := actions[..|actions| - 1];
      ActsAreRequested(t, front);
      StepKeepsRequests(Run(Start(t), front), actions[|actions| - 1]);
    }
  }

  /** The same order, as operations of the sequential repository, when only reserves run. */
  function ReserveOps(txns: seq<Txn>, order: seq<nat>): seq<Op>
    requires forall i :: 0 <= i < |order| ==> order[i] < |txns| && txns[order[i]].request.Reserving?
  {
    seq(|order|, i requires 0 <= i < |order| =>
      var r := txns[order[i]].request; Reserve(r.order, r.items, r.expiresAt))
  }

  lemma {:induction false} SerialIsSequentialRepository(t: Tables, txns: seq<Txn>, order: seq<nat>)
    requires forall i :: 0 <= i < |order| ==> order[i] < |txns| && txns[order[i]].request.Reserving?
    requires AsRequested(txns)
    ensures Serial(t, txns, order) == RunOps(t, ReserveOps(txns, order))
    decreases |order|
  {
    if order != [] {
      var n := |order| - 1;
      SerialIsSequentialRepository(t, txns, order[..n]);
      assert ReserveOps(txns, order)[..n] == ReserveOps(txns, order[..n]);
      var r := txns[order[n]].request;
      assert ReserveOps(txns, order)[n] == Reserve(r.order, r.items, r.expiresAt);
      assert txns[order[n]].acts == ReserveActs(r.order, r.items, r.expiresAt);
    }
  }

  /** Interleaved reserves refine the repository's `reserve` called once per committed transaction. */
  lemma ReservesAreSerializable(t: Tables, actions: seq<Action>)
    requires forall i :: 0 <= i < |actions| && actions[i].Begin? ==> actions[i].request.Reserving?
    ensures var s := Run(Start(t), actions);
            && (forall k :: 0 <= k < |s.txns| ==> s.txns[k].request.Reserving?)
            && (forall i :: 0 <= i < |s.committed| ==> s.committed[i] < |s.txns|)
            && AsRequested(s.txns)
            && s.tables == RunOps(t, ReserveOps(s.txns, s.committed))
  {
    RunKeepsInv(t, actions);
    SerialEquivalence(t, actions);
    OnlyReserves(t, actions);
    ActsAreRequested(t, actions);
    var s := Run(Start(t), actions);
    SerialIsSequentialRepository(t, s.txns, s.committed);
  }

  lemma {:induction false} OnlyReserves(t: Tables, actions: seq<Action>)
    requires forall i :: 0 <= i < |actions| && actions[i].Begin? ==> actions[i].request.Reserving?
    ensures forall k :: 0 <= k < |Run(Start(t), actions).txns| ==> Run(Start(t), actions).txns[k].request.Reserving?
    decreases |actions|
  {
    if actions != [] {
      var front := actions[..|actions| - 1];
      OnlyReserves(t, front);
      StepKeepsRequests(Run(Start(t), front), actions[|actions| - 1]);
    }
  }

  /** The stock ledger holds in every state of every interleaving of reserves, releases and sweeps. */
  lemma {:induction false} LedgerUnderInterleaving(t: Tables, actions: seq<Action>, initial: map<Sku, nat>)
    requires Ledger(t, initial)
    ensures Ledger(Run(Start(t), actions).tables, initial)
    decreases |actions|
  {
    if actions != [] {
      var n := |actions| - 1;
      LedgerUnderInterleaving(t, actions[..n], initial);
      RunKeepsInv(t, actions[..n]);
      var s, a := Run(Start(t), actions[..n]), actions[n];
      if Enabled(s, a) && a.Commit? {
        CommitIsSerial(s, a.k);
        ActsKeepLedger(s.tables, s.txns[a.k].acts, initial);
      }
    }
  }

  /** Under interleaving too, a release or sweep never fails: no `Exec` of it can roll back. */
  lemma ReleaseNeverThrows(t: Tables, actions: seq<Action>, initial: map<Sku, nat>, k: nat)
    requires Ledger(t, initial)
    requires var s := Run(Start(t), actions); MayExec(s, k) && s.txns[k].request.Releasing?
    ensures var s := Run(Start(t), actions); IsOpen(Step(s, Exec(k)), k)
  {
    RunKeepsInv(t, actions);
    LedgerUnderInterleaving(t, actions, initial);
    ActsAreRequested(t, actions);
    var s := Run(Start(t), actions);
    ActsKeepLedger(s.tables, s.txns[k].acts, initial);
    if ExecBuffered(s.tables, s.txns[k].buffer, s.txns[k].acts[s.txns[k].done]).Err? {
      FailureIsSerial(s, k);
    }
  }
}
