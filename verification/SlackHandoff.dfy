/**
 The Slack checker's handoff: a check leaves a batch pending, a run of an isolated task enqueues it in
 its owner's lane, and only then is it acknowledged. Runs crash anywhere, retry and overlap.
 */
module SlackHandoff {
  import opened Identities
  import opened AgentEvents
  import W = WorkTable
  import V = WorkInvariants
  import I = ScheduledIntake

  /** `position` stands for the timestamps a check has read up to. */
  datatype Batch = Batch(items: seq<nat>, position: nat)

  datatype Checker = Checker(position: nat, pending: Option<Batch>, acknowledged: seq<nat>)

  /** What the browser script returned: new items and where reading got to. */
  datatype Reading = Unavailable | Found(batch: Batch)

  /** The registered lane of the conversation a task belongs to. */
  datatype Owner = Owner(lane: LaneKey, info: W.Lane)

  type Owners = TaskId -> Option<Owner>

  datatype Refusal =
    | NoMessage
    | BadIdentities
    | NotIsolated
    | NoOwner
    | NoLane
    | OtherLane
    | NeedsRepair
    | NotPending

  datatype Receipt = Receipt(queued: bool, work: nat) | Refused(why: Refusal)

  // ---- Identity sets -----------------------------------------------------------------------------------

  predicate NoDuplicates(ids: seq<nat>) {
    forall i, j :: 0 <= i < j < |ids| ==> ids[i] != ids[j]
  }

  function SetOf(ids: seq<nat>): set<nat> {
    set id | id in ids
  }

  /** As acknowledge compares: the same number of identities, none twice, each of them expected. */
  predicate SameSet(ids: seq<nat>, expected: seq<nat>) {
    |expected| > 0 && |ids| == |expected| && NoDuplicates(ids) && forall i :: 0 <= i < |ids| ==> ids[i] in expected
  }

  lemma {:induction false} SetSize(ids: seq<nat>)
    ensures |SetOf(ids)| <= |ids|
    ensures NoDuplicates(ids) ==> |SetOf(ids)| == |ids|
  {
    if ids != [] {
      var init, last := ids[..|ids| - 1], ids[|ids| - 1];
      SetSize(init);
      assert ids == init + [last];
      assert SetOf(ids) == SetOf(init) + {last};
      if NoDuplicates(ids) {
        assert last !in init;
      }
    }
  }

  lemma SubsetOfSameSize(a: set<nat>, b: set<nat>)
    requires a <= b && |a| >= |b|
    ensures a == b
  {
    if a != b {
      var x :| x in b && x !in a;
      assert a <= b - {x};
      SubsetSize(a, b - {x});
    }
  }

  lemma {:induction false} SubsetSize(a: set<nat>, b: set<nat>)
    requires a <= b
    ensures |a| <= |b|
  {
    if a != {} {
      var x :| x in a;
      SubsetSize(a - {x}, b - {x});
    }
  }

  /** The comparison decides equality of the identity sets, although it only looks one way. */
  lemma SameSetIsEquality(ids: seq<nat>, expected: seq<nat>)
    requires NoDuplicates(expected)
    ensures SameSet(ids, expected) <==> NoDuplicates(ids) && expected != [] && SetOf(ids) == SetOf(expected)
  {
    SetSize(ids);
    SetSize(expected);
    if SameSet(ids, expected) {
      SubsetOfSameSize(SetOf(ids), SetOf(expected));
    }
    if NoDuplicates(ids) && SetOf(ids) == SetOf(expected) {
      forall i | 0 <= i < |ids| ensures ids[i] in expected {
        assert ids[i] in SetOf(ids);
      }
    }
  }

  // ---- The three operations ------------------------------------------------------------------------------

  /** A pending batch is returned again; an empty reading only moves the position. */
  function Check(c: Checker, reading: Reading): Checker {
    if c.pending.Some? || reading.Unavailable? || !NoDuplicates(reading.batch.items) then c
    else if reading.batch.items == [] then c.(position := reading.batch.position)
    else c.(pending := Some(reading.batch))
  }

  function PendingIds(c: Checker): seq<nat> {
    if c.pending.Some? then c.pending.value.items else []
  }

  /** None is the refusal to acknowledge anything but the whole pending batch. */
  function Acknowledge(c: Checker, ids: seq<nat>): Option<Checker> {
    if SameSet(ids, c.acknowledged) then Some(c)
    else if !SameSet(ids, PendingIds(c)) then None
    else Some(Checker(c.pending.value.position, None, ids))
  }

  function KeyOf(task: TaskId, owner: Owner, items: set<nat>): SourceKey {
    MessageKey(owner.info.platform, owner.info.account, SlackBatch(task, items))
  }

  /** notifySmolpaws in one transaction, with the executor's check that the batch is pending. */
  function Notify(owners: Owners, c: Checker, db: W.Db, task: Option<TaskId>, message: string, ids: seq<nat>, now: Time)
    : (Receipt, W.Db)
  {
    if Trim(message) == "" then (Refused(NoMessage), db)
    else if ids == [] || !NoDuplicates(ids) then (Refused(BadIdentities), db)
    else if task.None? then (Refused(NotIsolated), db)
    else if owners(task.value).None? then (Refused(NoOwner), db)
    else
      var owner := owners(task.value).value;
      if owner.lane !in db.lanes then (Refused(NoLane), db)
      else if db.lanes[owner.lane] != owner.info then (Refused(OtherLane), db)
      else
        var key := KeyOf(task.value, owner, SetOf(ids));
        var previous := W.FindSource(db.work, W.Intake, key);
        if previous.Some? && db.work[previous.value].lane != owner.lane then (Refused(OtherLane), db)
        else if previous.Some? && db.work[previous.value].state in {W.Failed, W.Skipped} then (Refused(NeedsRepair), db)
        else if previous.None? && !(PendingIds(c) != [] && multiset(PendingIds(c)) == multiset(ids)) then
          (Refused(NotPending), db)
        else
          (Receipt(previous.None?, if previous.Some? then previous.value else |db.work|),
           W.AcceptIntake(db, owner.lane, key, Inbound(owner.info.platform, SlackBatch(task.value, SetOf(ids))),
                          W.ThreadMessage(Trim(message)), false, now))
  }

  // ---- What each operation grants ------------------------------------------------------------------------

  /** A pending batch stays; otherwise a duplicate-free reading with items becomes pending, an empty one only moves. */
  lemma CheckMeans(c: Checker, reading: Reading)
    ensures var after := Check(c, reading);
      && after.acknowledged == c.acknowledged
      && (c.pending.Some? ==> after == c)
      && (c.pending.None? && reading.Found? && NoDuplicates(reading.batch.items) && reading.batch.items != [] ==>
            after.pending == Some(reading.batch) && after.position == c.position)
      && (c.pending.None? && reading.Found? && reading.batch.items == [] ==>
            after.pending.None? && after.position == reading.batch.position)
      && (reading.Unavailable? || !NoDuplicates(reading.batch.items) ==> after == c)
  {
  }

  /** Accepted are the whole pending batch and the one acknowledged last; only the first moves the position. */
  lemma AcknowledgeMeans(c: Checker, ids: seq<nat>)
    requires NoDuplicates(c.acknowledged) && (c.pending.Some? ==> NoDuplicates(c.pending.value.items))
    ensures var after := Acknowledge(c, ids);
      var again := NoDuplicates(ids) && ids != [] && SetOf(ids) == SetOf(c.acknowledged);
      var whole := c.pending.Some? && NoDuplicates(ids) && ids != [] && SetOf(ids) == SetOf(c.pending.value.items);
      && (after.Some? <==> again || whole)
      && (again ==> after == Some(c))
      && (whole && !again ==> after == Some(Checker(c.pending.value.position, None, ids)))
  {
    SameSetIsEquality(ids, c.acknowledged);
    SameSetIsEquality(ids, PendingIds(c));
    SameEmptiness(ids, c.acknowledged);
    SameEmptiness(ids, PendingIds(c));
    hide SameSet, NoDuplicates, SetOf;
  }

  lemma SameEmptiness(a: seq<nat>, b: seq<nat>)
    ensures SetOf(a) == SetOf(b) ==> (a == [] <==> b == [])
    ensures SetOf([]) == {}
    ensures b == [] && SetOf(a) == SetOf([]) ==> a == []
  {
    if a != [] { assert a[0] in SetOf(a); }
    if b != [] { assert b[0] in SetOf(b); }
  }

  /** The registered owner of the task, with its lane bound as registered. */
  predicate OwnerReady(owners: Owners, db: W.Db, task: Option<TaskId>) {
    && task.Some? && owners(task.value).Some?
    && owners(task.value).value.lane in db.lanes
    && db.lanes[owners(task.value).value.lane] == owners(task.value).value.info
  }

  /** Row i is the one an earlier notification of this task and batch left, wherever it stands. */
  predicate Earlier(owners: Owners, work: seq<W.Row>, task: TaskId, items: set<nat>, i: nat) {
    && i < |work| && owners(task).Some? && work[i].kind == W.Intake
    && work[i].source == MessageKey(owners(task).value.info.platform, owners(task).value.info.account,
                                    SlackBatch(task, items))
  }

  /**
   A notification succeeds exactly with a text, identities without duplicates, an owner whose lane is bound,
   and either an earlier row of it that needs no repair or the whole pending batch; then the row is the
   earlier one, or a fresh one in the owner's lane that carries the trimmed text.
   */
  lemma NotifyMeans(owners: Owners, c: Checker, db: W.Db, task: Option<TaskId>, message: string, ids: seq<nat>,
                    now: Time)
    requires V.TableInv(db)
    ensures var (receipt, after) := Notify(owners, c, db, task, message, ids, now);
      var sound := Trim(message) != "" && ids != [] && NoDuplicates(ids) && OwnerReady(owners, db, task);
      && (!sound ==> receipt.Refused?)
      && (receipt.Refused? ==> after == db)
      && (sound && !(exists i: nat :: Earlier(owners, db.work, task.value, SetOf(ids), i)) ==>
            && (receipt.Receipt? <==> c.pending.Some? && multiset(c.pending.value.items) == multiset(ids))
            && (receipt.Receipt? ==>
                  && receipt.queued && receipt.work == |db.work|
                  && |after.work| == |db.work| + 1 && after == db.(work := db.work + [after.work[|db.work|]])
                  && IsHandoff(owners, after.work[|db.work|], task.value, SetOf(ids))
                  && after.work[|db.work|].payload == W.ThreadMessage(Trim(message))))
      && (forall i: nat :: sound && Earlier(owners, db.work, task.value, SetOf(ids), i) ==>
            && (receipt.Receipt? <==> db.work[i].lane == owners(task.value).value.lane &&
                                      db.work[i].state != W.Failed && db.work[i].state != W.Skipped)
            && (receipt.Receipt? ==> !receipt.queued && receipt.work == i && after == db))
  {
    hide V.TableInv, W.MaxSequence, NoDuplicates, Trim, SetOf;
    if task.Some? && owners(task.value).Some? {
      var key := KeyOf(task.value, owners(task.value).value, SetOf(ids));
      FoundMeans(db, key);
      assert forall i: nat :: Earlier(owners, db.work, task.value, SetOf(ids), i) <==>
        i < |db.work| && db.work[i].kind == W.Intake && db.work[i].source == key;
    }
    hide W.FindSource;
  }

  lemma FoundMeans(db: W.Db, key: SourceKey)
    requires V.TableInv(db)
    ensures var found := W.FindSource(db.work, W.Intake, key);
      forall i :: 0 <= i < |db.work| && db.work[i].kind == W.Intake && db.work[i].source == key <==> found == Some(i)
  {
    forall i | 0 <= i < |db.work| && db.work[i].kind == W.Intake && db.work[i].source == key
      ensures W.FindSource(db.work, W.Intake, key) == Some(i)
    {
      V.FindSourceComplete(db.work, W.Intake, key, i);
    }
  }

  // ---- The step system -------------------------------------------------------------------------------------

  /** A run of the notify tool between its enqueue and its acknowledgement. */
  datatype Run = Idle | Enqueued(task: TaskId, ids: seq<nat>)

  datatype Pass = Pass(task: TaskId, items: set<nat>)

  /** `found` and `passed` are history: every batch a check left pending, and every one acknowledged. */
  datatype World = World(checker: Checker, db: W.Db, runs: seq<Run>, found: seq<Batch>, passed: seq<Pass>)

  datatype Setup = Setup(policy: W.Policy, owners: Owners)

  datatype Step =
    | DoCheck(reading: Reading)
    | DoNotify(k: nat, task: Option<TaskId>, message: string, ids: seq<nat>, now: Time)
    | DoAcknowledge(k: nat)
    | RunCrash(k: nat)
    | StoreCall(op: V.Op, now: Time)

  predicate NamesBatch(source: SourceKey) {
    source.MessageKey? && source.source.SlackBatch?
  }

  predicate Enabled(w: World, step: Step) {
    match step
    case DoCheck(_) => true
    case DoNotify(k, _, _, _, _) => k < |w.runs| && w.runs[k].Idle?
    case DoAcknowledge(k) => k < |w.runs| && w.runs[k].Enqueued?
    case RunCrash(k) => k < |w.runs|
    case StoreCall(op, _) => op.OpAccept? || op.OpInsertDelivery? ==> !NamesBatch(op.source)
  }

  function Taken(setup: Setup, w: World, step: Step): World
    requires Enabled(w, step)
  {
    match step
    case DoCheck(reading) =>
      var after := Check(w.checker, reading);
      var found := if w.checker.pending.None? && after.pending.Some? then w.found + [after.pending.value] else w.found;
      w.(checker := after, found := found)
    case DoNotify(k, task, message, ids, now) =>
      var (receipt, db) := Notify(setup.owners, w.checker, w.db, task, message, ids, now);
      if receipt.Refused? then w else w.(db := db, runs := w.runs[k := Enqueued(task.value, ids)])
    case DoAcknowledge(k) =>
      var after := Acknowledge(w.checker, w.runs[k].ids);
      var resting := w.(runs := w.runs[k := Idle]);
      if after.None? then resting
      else if w.checker.pending.Some? && after.value.pending.None? then
        resting.(checker := after.value, passed := w.passed + [Pass(w.runs[k].task, SetOf(w.runs[k].ids))])
      else resting.(checker := after.value)
    case RunCrash(k) => w.(runs := w.runs[k := Idle])
    case StoreCall(op, now) => w.(db := V.Apply(setup.policy, w.db, V.Call(op, now)))
  }

  /** A step that is not enabled does not happen. */
  function Next(setup: Setup, w: World, step: Step): World {
    if Enabled(w, step) then Taken(setup, w, step) else w
  }

  function Reached(setup: Setup, runs: nat, steps: seq<Step>): World {
    if steps == [] then World(Checker(0, None, []), W.EMPTY, seq(runs, _ => Idle), [], [])
    else Next(setup, Reached(setup, runs, steps[..|steps| - 1]), steps[|steps| - 1])
  }

  // ---- The invariant ------------------------------------------------------------------------------------------

  /** Row i is the intake row of this task and batch, in the owner's lane. */
  predicate IsHandoff(owners: Owners, r: W.Row, task: TaskId, items: set<nat>) {
    && owners(task).Some?
    && r.kind == W.Intake
    && r.source == KeyOf(task, owners(task).value, items)
    && r.lane == owners(task).value.lane
  }

  predicate HandedOver(owners: Owners, work: seq<W.Row>, task: TaskId, items: set<nat>) {
    exists i :: 0 <= i < |work| && IsHandoff(owners, work[i], task, items)
  }

  /** Rows that name a batch are handoffs of that batch. */
  predicate GoodRow(owners: Owners, r: W.Row) {
    NamesBatch(r.source) ==> IsHandoff(owners, r, r.source.source.task, r.source.source.items)
  }

  predicate GoodRows(owners: Owners, work: seq<W.Row>) {
    forall i :: 0 <= i < |work| ==> GoodRow(owners, work[i])
  }

  predicate RunsHandedOver(owners: Owners, w: World) {
    forall k :: 0 <= k < |w.runs| && w.runs[k].Enqueued? ==>
      HandedOver(owners, w.db.work, w.runs[k].task, SetOf(w.runs[k].ids))
  }

  predicate PassesHandedOver(owners: Owners, w: World) {
    forall i :: 0 <= i < |w.passed| ==> HandedOver(owners, w.db.work, w.passed[i].task, w.passed[i].items)
  }

  /** Every batch found is acknowledged, as a whole and in order, or is the one still pending. */
  predicate NothingLost(w: World) {
    && |w.found| == |w.passed| + (if w.checker.pending.Some? then 1 else 0)
    && (forall i :: 0 <= i < |w.passed| ==> w.passed[i].items == SetOf(w.found[i].items))
    && (w.checker.pending.Some? ==> w.found[|w.passed|] == w.checker.pending.value)
  }

  predicate GoodChecker(c: Checker) {
    && NoDuplicates(c.acknowledged)
    && (c.pending.Some? ==> c.pending.value.items != [] && NoDuplicates(c.pending.value.items))
  }

  predicate HandoffInv(owners: Owners, w: World) {
    && V.TableInv(w.db) && GoodRows(owners, w.db.work) && GoodChecker(w.checker)
    && RunsHandedOver(owners, w) && PassesHandedOver(owners, w) && NothingLost(w)
  }

  lemma HandedOverStays(owners: Owners, a: W.Db, b: W.Db, task: TaskId, items: set<nat>)
    requires HandedOver(owners, a.work, task, items) && V.Evolves(a, b)
    ensures HandedOver(owners, b.work, task, items)
  {
    var i :| 0 <= i < |a.work| && IsHandoff(owners, a.work[i], task, items);
    assert V.Successor(a.work[i], b.work[i]);
    assert IsHandoff(owners, b.work[i], task, items);
  }

  lemma RowsStayGood(owners: Owners, a: W.Db, b: W.Db)
    requires GoodRows(owners, a.work) && V.Evolves(a, b)
    requires forall i :: |a.work| <= i < |b.work| ==> GoodRow(owners, b.work[i])
    ensures GoodRows(owners, b.work)
  {
    forall i | 0 <= i < |a.work| ensures GoodRow(owners, b.work[i]) {
      assert GoodRow(owners, a.work[i]) && V.Successor(a.work[i], b.work[i]);
    }
  }

  /** Whatever the store does beside it, no handoff is lost. */
  lemma StoreMoves(owners: Owners, w: World, db: W.Db)
    requires HandoffInv(owners, w) && V.TableInv(db) && V.Evolves(w.db, db)
    requires forall i :: |w.db.work| <= i < |db.work| ==> GoodRow(owners, db.work[i])
    ensures HandoffInv(owners, w.(db := db))
  {
    hide V.TableInv, V.Evolves, HandedOver, GoodRow, GoodChecker, NothingLost;
    RowsStayGood(owners, w.db, db);
    forall k | 0 <= k < |w.runs| && w.runs[k].Enqueued?
      ensures HandedOver(owners, db.work, w.runs[k].task, SetOf(w.runs[k].ids))
    {
      HandedOverStays(owners, w.db, db, w.runs[k].task, SetOf(w.runs[k].ids));
    }
    forall i | 0 <= i < |w.passed| ensures HandedOver(owners, db.work, w.passed[i].task, w.passed[i].items) {
      HandedOverStays(owners, w.db, db, w.passed[i].task, w.passed[i].items);
    }
    assert NothingLost(w.(db := db)) by { SameHistory(w, w.(db := db)); }
  }

  lemma SameHistory(a: World, b: World)
    requires NothingLost(a) && a.checker == b.checker && a.found == b.found && a.passed == b.passed
    ensures NothingLost(b)
  {
  }

  lemma StoreCallKeeps(setup: Setup, w: World, op: V.Op, now: Time)
    requires HandoffInv(setup.owners, w) && Enabled(w, StoreCall(op, now))
    ensures HandoffInv(setup.owners, Taken(setup, w, StoreCall(op, now)))
  {
    var call := V.Call(op, now);
    var db := V.Apply(setup.policy, w.db, call);
    var source := if op.OpAccept? || op.OpInsertDelivery? then op.source else ReceiptKey(0);
    assert V.TableInv(w.db);
    hide V.TableInv, V.Evolves, V.Apply, HandoffInv, I.AppendsOnly, IsHandoff;
    V.ApplyKeeps(setup.policy, w.db, call);
    I.StoreAppends(setup.policy, w.db, call, source);
    Unnamed(setup.owners, w.db, db, source);
    StoreMoves(setup.owners, w, db);
  }

  lemma Unnamed(owners: Owners, a: W.Db, b: W.Db, source: SourceKey)
    requires I.AppendsOnly(a, b, source) && !NamesBatch(source)
    ensures forall i :: |a.work| <= i < |b.work| ==> GoodRow(owners, b.work[i])
  {
  }

  /** A successful notification leaves its row in the owner's lane; a retry adds none. */
  lemma NotifyHandsOver(owners: Owners, c: Checker, db: W.Db, task: Option<TaskId>, message: string, ids: seq<nat>,
                        now: Time)
    requires V.TableInv(db) && GoodRows(owners, db.work)
    ensures var (receipt, after) := Notify(owners, c, db, task, message, ids, now);
      && V.TableInv(after) && V.Evolves(db, after)
      && (forall i :: |db.work| <= i < |after.work| ==> GoodRow(owners, after.work[i]))
      && (receipt.Refused? || !receipt.queued ==> after == db)
      && (receipt.Receipt? ==> task.Some? && HandedOver(owners, after.work, task.value, SetOf(ids)))
      && (receipt.Receipt? && receipt.queued ==>
            && !HandedOver(owners, db.work, task.value, SetOf(ids))
            && c.pending.Some? && multiset(c.pending.value.items) == multiset(ids))
  {
    hide V.TableInv, V.Evolves, W.MaxSequence, NoDuplicates, Trim, GoodRows, SetOf;
    V.EvolvesReflexive(db);
    var (receipt, after) := Notify(owners, c, db, task, message, ids, now);
    if receipt.Receipt? {
      var owner := owners(task.value).value;
      var key := KeyOf(task.value, owner, SetOf(ids));
      V.AcceptKeeps(db, owner.lane, key, Inbound(owner.info.platform, SlackBatch(task.value, SetOf(ids))),
                    W.ThreadMessage(Trim(message)), false, now);
      var i := if receipt.queued then |db.work| else W.FindSource(db.work, W.Intake, key).value;
      assert IsHandoff(owners, after.work[i], task.value, SetOf(ids));
      if receipt.queued {
        NotHandedOver(owners, db.work, task.value, SetOf(ids));
      }
    }
  }

  lemma NotHandedOver(owners: Owners, work: seq<W.Row>, task: TaskId, items: set<nat>)
    requires owners(task).Some? && W.FindSource(work, W.Intake, KeyOf(task, owners(task).value, items)).None?
    ensures !HandedOver(owners, work, task, items)
  {
    forall i | 0 <= i < |work| ensures !IsHandoff(owners, work[i], task, items) {
      if IsHandoff(owners, work[i], task, items) {
        V.FindSourceComplete(work, W.Intake, KeyOf(task, owners(task).value, items), i);
      }
    }
  }

  lemma NotifyKeeps(setup: Setup, w: World, k: nat, task: Option<TaskId>, message: string, ids: seq<nat>, now: Time)
    requires HandoffInv(setup.owners, w) && Enabled(w, DoNotify(k, task, message, ids, now))
    ensures HandoffInv(setup.owners, Taken(setup, w, DoNotify(k, task, message, ids, now)))
  {
    var (receipt, db) := Notify(setup.owners, w.checker, w.db, task, message, ids, now);
    hide V.TableInv, V.Evolves, Notify, HandedOver, GoodRow, GoodRows, GoodChecker, NothingLost, SetOf;
    NotifyHandsOver(setup.owners, w.checker, w.db, task, message, ids, now);
    StoreMoves(setup.owners, w, db);
    var named := if task.Some? then task.value else TaskId(ChatConversation(0), 0);
    SameHistory(w, w.(db := db, runs := w.runs[k := Enqueued(named, ids)]));
  }

  lemma CheckKeeps(setup: Setup, w: World, reading: Reading)
    requires HandoffInv(setup.owners, w)
    ensures HandoffInv(setup.owners, Taken(setup, w, DoCheck(reading)))
  {
    hide V.TableInv, HandedOver, GoodRow, SetOf;
  }

  lemma CrashKeeps(setup: Setup, w: World, k: nat)
    requires HandoffInv(setup.owners, w) && k < |w.runs|
    ensures HandoffInv(setup.owners, w.(runs := w.runs[k := Idle]))
  {
    hide V.TableInv, HandedOver, GoodRow, SetOf, GoodChecker, NoDuplicates;
  }

  lemma AcknowledgeKeeps(setup: Setup, w: World, k: nat)
    requires HandoffInv(setup.owners, w) && Enabled(w, DoAcknowledge(k))
    ensures HandoffInv(setup.owners, Taken(setup, w, DoAcknowledge(k)))
  {
    hide V.TableInv, HandedOver, GoodRows, SetOf, SameSet, NoDuplicates;
    var ids, c := w.runs[k].ids, w.checker;
    assert HandedOver(setup.owners, w.db.work, w.runs[k].task, SetOf(ids));
    CrashKeeps(setup, w, k);
    SameSetIsEquality(ids, PendingIds(c));
    SameSetIsEquality(ids, c.acknowledged);
  }

  lemma NextKeeps(setup: Setup, w: World, step: Step)
    requires HandoffInv(setup.owners, w)
    ensures HandoffInv(setup.owners, Next(setup, w, step))
  {
    hide HandoffInv, Notify, Acknowledge, Check, V.Apply;
    if Enabled(w, step) {
      match step
      case DoCheck(reading) => CheckKeeps(setup, w, reading);
      case DoNotify(k, task, message, ids, now) => NotifyKeeps(setup, w, k, task, message, ids, now);
      case DoAcknowledge(k) => AcknowledgeKeeps(setup, w, k);
      case RunCrash(k) => CrashKeeps(setup, w, k);
      case StoreCall(op, now) => StoreCallKeeps(setup, w, op, now);
    }
  }

  lemma {:induction false} ReachedKeeps(setup: Setup, runs: nat, steps: seq<Step>)
    ensures HandoffInv(setup.owners, Reached(setup, runs, steps))
  {
    if steps != [] {
      hide HandoffInv, Next;
      ReachedKeeps(setup, runs, steps[..|steps| - 1]);
      NextKeeps(setup, Reached(setup, runs, steps[..|steps| - 1]), steps[|steps| - 1]);
    }
  }

  // ---- The theorems -----------------------------------------------------------------------------------------------

  /**
   The checker moves past a batch only when the intake row of exactly that task and identity set is in
   the owner's lane; every other batch it ever found is still pending.
   */
  lemma AcknowledgedWasHandedOver(setup: Setup, runs: nat, steps: seq<Step>)
    ensures var w := Reached(setup, runs, steps);
      && |w.found| == |w.passed| + (if w.checker.pending.Some? then 1 else 0)
      && (w.checker.pending.Some? ==> w.found[|w.passed|] == w.checker.pending.value)
      && forall i :: 0 <= i < |w.passed| ==>
           && w.passed[i].items == SetOf(w.found[i].items)
           && HandedOver(setup.owners, w.db.work, w.passed[i].task, w.passed[i].items)
  {
    ReachedKeeps(setup, runs, steps);
    hide Reached, V.TableInv, HandedOver, SetOf;
  }

  /** The rows of one task and identity set, under whatever account. */
  function RowsOf(work: seq<W.Row>, task: TaskId, items: set<nat>): set<nat> {
    set i | 0 <= i < |work| && NamesBatch(work[i].source)
            && work[i].source.source.task == task && work[i].source.source.items == items
  }

  /** However often and from however many runs a notification is retried, it has at most one row. */
  lemma RetriesAddNoRow(setup: Setup, runs: nat, steps: seq<Step>, task: TaskId, items: set<nat>)
    ensures |RowsOf(Reached(setup, runs, steps).db.work, task, items)| <= 1
  {
    ReachedKeeps(setup, runs, steps);
    var work := Reached(setup, runs, steps).db.work;
    assert V.UniqueSources(work) && GoodRows(setup.owners, work);
    hide Reached, V.TableInv, HandoffInv;
    var rows := RowsOf(work, task, items);
    if rows != {} {
      var i :| i in rows;
      forall j | j in rows ensures j == i {
        assert GoodRow(setup.owners, work[i]) && GoodRow(setup.owners, work[j]);
      }
      assert rows == {i};
    }
  }
}
