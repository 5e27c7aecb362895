/** Uploads, creates, deletions and withdrawals of one account, statement by statement, with the row
    locks that order them (LockAccountForStorage, LockActiveAccount, SoftDeleteAccount,
    SoftDeleteDocument, SoftDeleteAccountDocuments). A statement sees what is committed when it
    runs; what a transaction writes is seen by others when it commits. */
module AccountLock {
  import opened Schema
  import opened Storage

  /** A committed document row, and whether it has a cleanup job. */
  datatype Row = Row(kind: DocumentKind, size: nat, deleted: bool, cleanup: bool)

  datatype Stage =
    | Waiting                        // the account row is not locked yet
    | Locked                         // it is, and the account was active
    | Checked                        // an upload has read the usage and passed
    | Swept(documents: set<Uuid>)    // a withdrawal has updated, and so locked, these live documents
    | Scheduled(documents: set<Uuid>, jobs: set<Uuid>)
    | Held(document: Uuid)           // a deletion has updated, and so locked, its document

  datatype Work = Insert(rows: map<Uuid, Row>, counted: bool) | Withdraw | Delete(document: Uuid)
  datatype Transaction = Transaction(work: Work, stage: Stage)

  datatype World = World(
    deleted: bool,                  // of the account
    limit: nat,
    rows: map<Uuid, Row>,
    owner: Option<nat>,             // the transaction that holds the account row
    held: map<Uuid, nat>,           // the transaction that holds a document row
    transactions: map<nat, Transaction>,
    used: set<Uuid>)

  function NewWorld(role: Role, plan: Plan): World {
    World(false, Limit(role, plan), map[], None, map[], map[], {})
  }

  datatype Step =
    | BeginUpload(t: nat, sizes: map<Uuid, nat>)
    | BeginCreate(t: nat, document: Uuid, kind: DocumentKind)
    | BeginWithdraw(t: nat)
    | BeginDelete(t: nat, document: Uuid)
    | LockAccount(t: nat)
    | CheckUsage(t: nat)
    | Sweep(t: nat)
    | Schedule(t: nat)
    | LockDocument(t: nat)
    | Commit(t: nat)
    | Rollback(t: nat)
    | Resize(document: Uuid, size: nat)  // the result of a scrape, in a transaction of its own

  function LiveRows(rows: map<Uuid, Row>): set<Uuid> { set d | d in rows && !rows[d].deleted }

  function LiveSizes(rows: map<Uuid, Row>): map<Uuid, nat> { map d | d in rows && !rows[d].deleted :: rows[d].size }

  function FileSizes(rows: map<Uuid, Row>): map<Uuid, nat> {
    map d | d in rows && !rows[d].deleted && rows[d].kind in {Image, File} :: rows[d].size
  }

  function NewSizes(rows: map<Uuid, Row>): map<Uuid, nat> { map d | d in rows :: rows[d].size }

  predicate At(w: World, t: nat, stage: Stage) { t in w.transactions && w.transactions[t].stage == stage }

  /** The end of a transaction releases its locks. */
  function Ended(w: World, t: nat): World {
    w.(owner := if w.owner == Some(t) then None else w.owner,
       held := map d | d in w.held && w.held[d] != t :: w.held[d],
       transactions := w.transactions - {t})
  }

  function To(w: World, t: nat, stage: Stage): World
    requires t in w.transactions
  {
    w.(transactions := w.transactions[t := w.transactions[t].(stage := stage)])
  }

  /** The account row is locked, or the account turns out to be withdrawn and the request ends. */
  function DoLockAccount(w: World, t: nat): World
    requires t in w.transactions
  {
    if w.deleted then Ended(w, t) else To(w.(owner := Some(t)), t, Locked)
  }

  ghost function DoCheckUsage(w: World, t: nat): World
    requires t in w.transactions && w.transactions[t].work.Insert?
  {
    if Total(LiveSizes(w.rows)) + Total(NewSizes(w.transactions[t].work.rows)) > w.limit then Ended(w, t)
    else To(w, t, Checked)
  }

  function DoSweep(w: World, t: nat): World
    requires t in w.transactions
  {
    To(w.(held := map d | d in w.held.Keys + LiveRows(w.rows) :: if d in LiveRows(w.rows) then t else w.held[d]),
       t, Swept(LiveRows(w.rows)))
  }

  /** A document that has been deleted meanwhile is not found. */
  function DoLockDocument(w: World, t: nat): World
    requires t in w.transactions && w.transactions[t].work.Delete?
  {
    var d := w.transactions[t].work.document;
    if d !in w.rows || w.rows[d].deleted then Ended(w, t) else To(w.(held := w.held[d := t]), t, Held(d))
  }

  function Withdrawn(rows: map<Uuid, Row>, swept: set<Uuid>, scheduled: set<Uuid>): map<Uuid, Row> {
    map d | d in rows ::
      rows[d].(deleted := rows[d].deleted || d in swept, cleanup := rows[d].cleanup || d in scheduled)
  }

  /** What becomes visible when the transaction commits. */
  function DoCommit(w: World, t: nat): World
    requires t in w.transactions
  {
    match w.transactions[t]
    case Transaction(Insert(rows, _), _) => Ended(w.(rows := w.rows + rows), t)
    case Transaction(_, Scheduled(swept, scheduled)) =>
      Ended(w.(deleted := true, rows := Withdrawn(w.rows, swept, scheduled)), t)
    case Transaction(_, Held(d)) =>
      Ended(w.(rows := if d in w.rows then w.rows[d := w.rows[d].(deleted := true, cleanup := true)] else w.rows), t)
    case _ => w
  }

  predicate Committable(transaction: Transaction) {
    match transaction.work
    case Insert(_, counted) => transaction.stage == if counted then Checked else Locked
    case Withdraw => transaction.stage.Scheduled?
    case Delete(_) => transaction.stage.Held?
  }

  function FileRows(sizes: map<Uuid, nat>): map<Uuid, Row> { map d | d in sizes :: Row(File, sizes[d], false, false) }

  ghost predicate Next(w: World, step: Step, v: World) {
    match step
    case BeginUpload(t, sizes) =>
      && t !in w.transactions && sizes.Keys !! w.used
      && v == w.(transactions := w.transactions[t := Transaction(Insert(FileRows(sizes), true), Waiting)], used := w.used + sizes.Keys)
    case BeginCreate(t, d, kind) =>
      && t !in w.transactions && d !in w.used && kind in {Memo, Webpage}
      && v == w.(transactions := w.transactions[t := Transaction(Insert(map[d := Row(kind, 0, false, false)], false), Waiting)],
                 used := w.used + {d})
    case BeginWithdraw(t) =>
      t !in w.transactions && v == w.(transactions := w.transactions[t := Transaction(Withdraw, Waiting)])
    case BeginDelete(t, d) =>
      t !in w.transactions && v == w.(transactions := w.transactions[t := Transaction(Delete(d), Waiting)])
    case LockAccount(t) => At(w, t, Waiting) && !w.transactions[t].work.Delete? && w.owner == None && v == DoLockAccount(w, t)
    case CheckUsage(t) =>
      && At(w, t, Locked) && w.transactions[t].work.Insert? && w.transactions[t].work.counted && v == DoCheckUsage(w, t)
    case Sweep(t) =>
      && At(w, t, Locked) && w.transactions[t].work.Withdraw? && LiveRows(w.rows) !! w.held.Keys && v == DoSweep(w, t)
    case Schedule(t) =>
      && t in w.transactions && w.transactions[t].stage.Swept?
      && v == To(w, t, Scheduled(w.transactions[t].stage.documents, w.rows.Keys))
    case LockDocument(t) =>
      && At(w, t, Waiting) && w.transactions[t].work.Delete? && w.transactions[t].work.document !in w.held
      && v == DoLockDocument(w, t)
    case Commit(t) => t in w.transactions && Committable(w.transactions[t]) && v == DoCommit(w, t)
    case Rollback(t) => v == Ended(w, t)
    case Resize(d, size) =>
      && d in w.rows && !w.rows[d].deleted && w.rows[d].kind == Webpage && d !in w.held
      && v == w.(rows := w.rows[d := w.rows[d].(size := size)])
  }

  ghost predicate IsRun(worlds: seq<World>, steps: seq<Step>, role: Role, plan: Plan) {
    && |worlds| == |steps| + 1 && worlds[0] == NewWorld(role, plan)
    && forall i {:trigger steps[i]} :: 0 <= i < |steps| ==> Next(worlds[i], steps[i], worlds[i + 1])
  }

  // ----- what the locks keep -----

  predicate HoldsAccount(stage: Stage) { stage.Locked? || stage.Checked? || stage.Swept? || stage.Scheduled? }

  ghost predicate TransactionOk(w: World, t: nat)
    requires t in w.transactions
  {
    var work, stage := w.transactions[t].work, w.transactions[t].stage;
    && (HoldsAccount(stage) ==> w.owner == Some(t) && !w.deleted)
    && (work.Insert? ==>
          && !stage.Swept? && !stage.Scheduled? && !stage.Held?
          && work.rows.Keys <= w.used && work.rows.Keys !! w.rows.Keys
          && (forall d :: d in work.rows ==> !work.rows[d].deleted && !work.rows[d].cleanup)
          && (!work.counted ==> FileSizes(work.rows) == map[])
          && (stage.Checked? ==> Total(FileSizes(w.rows)) + Total(NewSizes(work.rows)) <= w.limit))
    && (work.Delete? ==> !HoldsAccount(stage))
    && (stage.Swept? || stage.Scheduled? ==>
          && (forall d :: d in stage.documents ==> d in w.held && w.held[d] == t && d in w.rows)
          && LiveRows(w.rows) <= stage.documents)
    && (stage.Scheduled? ==> stage.jobs == w.rows.Keys)
    && (stage.Held? ==> stage.document in w.held && w.held[stage.document] == t
                        && stage.document in w.rows && !w.rows[stage.document].deleted)
  }

  ghost predicate Inv(w: World) {
    && w.rows.Keys <= w.used
    && (forall d :: d in w.rows ==> (w.rows[d].deleted <==> w.rows[d].cleanup))
    && (w.deleted ==> LiveRows(w.rows) == {})
    && Total(FileSizes(w.rows)) <= w.limit
    && (forall t :: t in w.transactions ==> TransactionOk(w, t))
    && Disjoint(w.transactions)
  }

  /** Identifiers of new documents are fresh. */
  ghost predicate Disjoint(transactions: map<nat, Transaction>) {
    forall t, u :: t in transactions && u in transactions && t != u
                   && transactions[t].work.Insert? && transactions[u].work.Insert? ==>
      transactions[t].work.rows.Keys !! transactions[u].work.rows.Keys
  }

  // ----- every step keeps it -----

  lemma BeginKeeps(w: World, t: nat, transaction: Transaction, v: World)
    requires Inv(w) && t !in w.transactions && transaction.stage == Waiting && w.used <= v.used
    requires v == w.(transactions := w.transactions[t := transaction], used := v.used)
    requires transaction.work.Insert? ==>
               && transaction.work.rows.Keys !! w.used && transaction.work.rows.Keys <= v.used
               && (forall d :: d in transaction.work.rows ==> !transaction.work.rows[d].deleted && !transaction.work.rows[d].cleanup)
               && (!transaction.work.counted ==> FileSizes(transaction.work.rows) == map[])
    ensures Inv(v)
  {
    forall u | u in v.transactions ensures TransactionOk(v, u) {
      assert u != t ==> TransactionOk(w, u);
    }
    forall u | u in w.transactions && w.transactions[u].work.Insert? ensures w.transactions[u].work.rows.Keys <= w.used {
      assert TransactionOk(w, u);
    }
  }

  lemma EndedKeeps(w: World, t: nat)
    requires Inv(w)
    ensures Inv(Ended(w, t))
  {
    var v := Ended(w, t);
    forall u | u in v.transactions ensures TransactionOk(v, u) {
      assert TransactionOk(w, u);
    }
  }

  /** A transaction moves on; rows stay. */
  lemma StageKeeps(w: World, t: nat, stage: Stage, v: World)
    requires Inv(w) && t in w.transactions
    requires v == To(w.(owner := v.owner, held := v.held), t, stage)
    requires v.owner == w.owner || (w.owner == None && v.owner == Some(t))
    requires forall d :: d in w.held ==> d in v.held && v.held[d] == w.held[d]
    requires TransactionOk(v, t)
    ensures Inv(v)
  {
    forall u | u in v.transactions ensures TransactionOk(v, u) {
      assert TransactionOk(w, u);
    }
  }

  lemma FilesAmongAll(rows: map<Uuid, Row>)
    ensures Total(FileSizes(rows)) <= Total(LiveSizes(rows))
  {
    TotalShrinks(LiveSizes(rows), FileSizes(rows));
  }

  lemma LockAccountKeeps(w: World, t: nat)
    requires Inv(w) && At(w, t, Waiting) && !w.transactions[t].work.Delete? && w.owner == None
    ensures Inv(DoLockAccount(w, t))
  {
    if w.deleted {
      EndedKeeps(w, t);
    } else {
      assert TransactionOk(w, t);
      StageKeeps(w, t, Locked, DoLockAccount(w, t));
    }
  }

  lemma CheckUsageKeeps(w: World, t: nat)
    requires Inv(w) && At(w, t, Locked) && w.transactions[t].work.Insert? && w.transactions[t].work.counted
    ensures Inv(DoCheckUsage(w, t))
  {
    assert TransactionOk(w, t);
    if Total(LiveSizes(w.rows)) + Total(NewSizes(w.transactions[t].work.rows)) > w.limit {
      EndedKeeps(w, t);
    } else {
      FilesAmongAll(w.rows);
      StageKeeps(w, t, Checked, DoCheckUsage(w, t));
    }
  }

  lemma SweepKeeps(w: World, t: nat)
    requires Inv(w) && At(w, t, Locked) && w.transactions[t].work.Withdraw? && LiveRows(w.rows) !! w.held.Keys
    ensures Inv(DoSweep(w, t))
  {
    assert TransactionOk(w, t);
    StageKeeps(w, t, Swept(LiveRows(w.rows)), DoSweep(w, t));
  }

  lemma ScheduleKeeps(w: World, t: nat)
    requires Inv(w) && t in w.transactions && w.transactions[t].stage.Swept?
    ensures Inv(To(w, t, Scheduled(w.transactions[t].stage.documents, w.rows.Keys)))
  {
    assert TransactionOk(w, t);
    StageKeeps(w, t, Scheduled(w.transactions[t].stage.documents, w.rows.Keys),
               To(w, t, Scheduled(w.transactions[t].stage.documents, w.rows.Keys)));
  }

  lemma LockDocumentKeeps(w: World, t: nat)
    requires Inv(w) && At(w, t, Waiting) && w.transactions[t].work.Delete? && w.transactions[t].work.document !in w.held
    ensures Inv(DoLockDocument(w, t))
  {
    var d := w.transactions[t].work.document;
    assert TransactionOk(w, t);
    if d !in w.rows || w.rows[d].deleted {
      EndedKeeps(w, t);
    } else {
      StageKeeps(w, t, Held(d), DoLockDocument(w, t));
    }
  }

  // ----- commits -----

  /** New documents count at most what was added up for them. */
  lemma InsertedTotal(rows: map<Uuid, Row>, more: map<Uuid, Row>)
    requires rows.Keys !! more.Keys
    ensures Total(FileSizes(rows + more)) == Total(FileSizes(rows)) + Total(FileSizes(more))
    ensures Total(FileSizes(more)) <= Total(NewSizes(more))
  {
    assert FileSizes(rows + more) == FileSizes(rows) + FileSizes(more);
    TotalJoins(FileSizes(rows), FileSizes(more));
    TotalShrinks(NewSizes(more), FileSizes(more));
  }

  lemma InsertKeeps(w: World, t: nat)
    requires Inv(w) && t in w.transactions && w.transactions[t].work.Insert? && Committable(w.transactions[t])
    ensures Inv(DoCommit(w, t))
  {
    var v, rows := DoCommit(w, t), w.transactions[t].work.rows;
    assert TransactionOk(w, t);
    InsertedTotal(w.rows, rows);
    forall u | u in v.transactions ensures TransactionOk(v, u) {
      assert TransactionOk(w, u);
    }
  }

  lemma WithdrawKeeps(w: World, t: nat)
    requires Inv(w) && t in w.transactions && w.transactions[t].stage.Scheduled?
    ensures Inv(DoCommit(w, t)) && DoCommit(w, t).deleted
  {
    var v := DoCommit(w, t);
    assert TransactionOk(w, t);
    TotalShrinks(FileSizes(w.rows), FileSizes(v.rows));
    forall u | u in v.transactions ensures TransactionOk(v, u) {
      assert TransactionOk(w, u);
    }
  }

  lemma DeleteKeeps(w: World, t: nat)
    requires Inv(w) && t in w.transactions && w.transactions[t].stage.Held?
    ensures Inv(DoCommit(w, t))
  {
    var v := DoCommit(w, t);
    assert TransactionOk(w, t);
    TotalShrinks(FileSizes(w.rows), FileSizes(v.rows));
    forall u | u in v.transactions ensures TransactionOk(v, u) {
      assert TransactionOk(w, u);
    }
  }

  lemma ResizeKeeps(w: World, d: Uuid, size: nat)
    requires Inv(w) && d in w.rows && !w.rows[d].deleted && w.rows[d].kind == Webpage && d !in w.held
    ensures Inv(w.(rows := w.rows[d := w.rows[d].(size := size)]))
  {
    var v := w.(rows := w.rows[d := w.rows[d].(size := size)]);
    assert FileSizes(v.rows) == FileSizes(w.rows);
    forall u | u in v.transactions ensures TransactionOk(v, u) {
      assert TransactionOk(w, u);
    }
  }

  lemma CommitKeeps(w: World, t: nat)
    requires Inv(w) && t in w.transactions && Committable(w.transactions[t])
    ensures Inv(DoCommit(w, t))
  {
    match w.transactions[t].work
    case Insert(_, _) => InsertKeeps(w, t);
    case Withdraw => WithdrawKeeps(w, t);
    case Delete(_) => DeleteKeeps(w, t);
  }

  lemma NextKeeps(w: World, step: Step, v: World)
    requires Inv(w) && Next(w, step, v)
    ensures Inv(v)
  {
    match step
    case BeginUpload(t, sizes) => BeginKeeps(w, t, Transaction(Insert(FileRows(sizes), true), Waiting), v);
    case BeginCreate(t, d, kind) => BeginKeeps(w, t, Transaction(Insert(map[d := Row(kind, 0, false, false)], false), Waiting), v);
    case BeginWithdraw(t) => BeginKeeps(w, t, Transaction(Withdraw, Waiting), v);
    case BeginDelete(t, d) => BeginKeeps(w, t, Transaction(Delete(d), Waiting), v);
    case LockAccount(t) => LockAccountKeeps(w, t);
    case CheckUsage(t) => CheckUsageKeeps(w, t);
    case Sweep(t) => SweepKeeps(w, t);
    case Schedule(t) => ScheduleKeeps(w, t);
    case LockDocument(t) => LockDocumentKeeps(w, t);
    case Commit(t) => CommitKeeps(w, t);
    case Rollback(t) => EndedKeeps(w, t);
    case Resize(d, size) => ResizeKeeps(w, d, size);
  }

  lemma {:induction false} RunKeeps(worlds: seq<World>, steps: seq<Step>, role: Role, plan: Plan, n: nat)
    requires IsRun(worlds, steps, role, plan) && n < |worlds|
    ensures Inv(worlds[n]) && worlds[n].limit == Limit(role, plan)
  {
    if n > 0 {
      RunKeeps(worlds, steps, role, plan, n - 1);
      assert Next(worlds[n - 1], steps[n - 1], worlds[n - 1 + 1]);
      NextKeeps(worlds[n - 1], steps[n - 1], worlds[n]);
    }
  }

  /** Over every run of concurrent requests: the account's live files and images stay within its
      limit, a document is deleted exactly when it has a cleanup job, and a withdrawn account has no
      live document. */
  lemma AccountIsConsistent(worlds: seq<World>, steps: seq<Step>, role: Role, plan: Plan, n: nat)
    requires IsRun(worlds, steps, role, plan) && n < |worlds|
    ensures var w := worlds[n];
            && Total(map d | d in w.rows && !w.rows[d].deleted && (w.rows[d].kind == Image || w.rows[d].kind == File) ::
                       w.rows[d].size) <= Limit(role, plan)
            && (forall d :: d in w.rows ==> (w.rows[d].deleted <==> w.rows[d].cleanup))
            && (w.deleted ==> forall d :: d in w.rows ==> w.rows[d].deleted)
  {
    RunKeeps(worlds, steps, role, plan, n);
    var rows := worlds[n].rows;
    assert forall d :: d in rows && !rows[d].deleted ==> d in LiveRows(rows);
    assert FileSizes(rows) == map d | d in rows && !rows[d].deleted && (rows[d].kind == Image || rows[d].kind == File) ::
                                rows[d].size;
  }

  // ----- what a request does that nobody disturbs -----

  /** The worlds after each of the steps. */
  ghost predicate Leads(w: World, steps: seq<Step>, v: World)
    decreases |steps|
  {
    if steps == [] then v == w else exists u :: Next(w, steps[0], u) && Leads(u, steps[1..], v)
  }

  lemma OneStep(w: World, step: Step, u: World, rest: seq<Step>, v: World)
    requires Next(w, step, u) && Leads(u, rest, v)
    ensures Leads(w, [step] + rest, v)
  {
    assert ([step] + rest)[1..] == rest;
  }

  /** The account row is free, and no transaction has that number. */
  predicate Free(w: World, t: nat) {
    w.owner == None && t !in w.transactions && forall d :: d in w.held ==> w.held[d] != t
  }

  lemma EndsWhole(w: World, t: nat, v: World)
    requires Free(w, t) && t in v.transactions && v.transactions - {t} == w.transactions
    requires v.owner in {None, Some(t)} && forall d :: d in v.held ==> v.held[d] == t || (d in w.held && v.held[d] == w.held[d])
    requires forall d :: d in w.held ==> d in v.held && v.held[d] == w.held[d]
    ensures Ended(v, t) == v.(owner := None, held := w.held, transactions := w.transactions)
  {
  }

  lemma Begins(w: World, t: nat, transaction: Transaction)
    requires Free(w, t)
    ensures w.transactions[t := transaction] - {t} == w.transactions
  {
  }

  ghost predicate Room(w: World, sizes: map<Uuid, nat>) {
    Total(map d | d in w.rows && !w.rows[d].deleted :: w.rows[d].size) + Total(sizes) <= w.limit
  }

  lemma UploadSteps(w: World, t: nat, sizes: map<Uuid, nat>) returns (u: World)
    requires Free(w, t) && !w.deleted && sizes.Keys !! w.used
    ensures Leads(w, [BeginUpload(t, sizes), LockAccount(t)], u)
    ensures u == w.(owner := Some(t), used := w.used + sizes.Keys,
                    transactions := w.transactions[t := Transaction(Insert(FileRows(sizes), true), Locked)])
  {
    var a := w.(transactions := w.transactions[t := Transaction(Insert(FileRows(sizes), true), Waiting)], used := w.used + sizes.Keys);
    u := DoLockAccount(a, t);
    assert Next(a, LockAccount(t), u) && Leads(u, [], u);
    OneStep(a, LockAccount(t), u, [], u);
    OneStep(w, BeginUpload(t, sizes), a, [LockAccount(t)] + [], u);
    assert [BeginUpload(t, sizes)] + ([LockAccount(t)] + []) == [BeginUpload(t, sizes), LockAccount(t)];
    assert u.transactions == w.transactions[t := Transaction(Insert(FileRows(sizes), true), Locked)];
  }

  lemma SizesOfFiles(w: World, sizes: map<Uuid, nat>)
    ensures NewSizes(FileRows(sizes)) == sizes
    ensures LiveSizes(w.rows) == map d | d in w.rows && !w.rows[d].deleted :: w.rows[d].size
  {
  }

  lemma CommitEnds(w: World, t: nat, u: World, v: World)
    requires Next(u, Commit(t), v)
    ensures Leads(u, [Commit(t)], v)
  {
    assert Leads(v, [], v);
    OneStep(u, Commit(t), v, [], v);
    assert [Commit(t)] + [] == [Commit(t)];
  }

  lemma UploadFits(w: World, t: nat, sizes: map<Uuid, nat>, u: World) returns (v: World)
    requires Free(w, t) && Room(w, sizes)
    requires u == w.(owner := Some(t), used := w.used + sizes.Keys,
                     transactions := w.transactions[t := Transaction(Insert(FileRows(sizes), true), Locked)])
    ensures Leads(u, [CheckUsage(t), Commit(t)], v)
    ensures v == w.(used := w.used + sizes.Keys, rows := w.rows + FileRows(sizes))
  {
    SizesOfFiles(w, sizes);
    var b := DoCheckUsage(u, t);
    assert b.transactions == w.transactions[t := Transaction(Insert(FileRows(sizes), true), Checked)];
    v := DoCommit(b, t);
    Begins(w, t, b.transactions[t]);
    EndsWhole(w, t, b.(rows := w.rows + FileRows(sizes)));
    CommitEnds(w, t, b, v);
    OneStep(u, CheckUsage(t), b, [Commit(t)], v);
    assert [CheckUsage(t)] + [Commit(t)] == [CheckUsage(t), Commit(t)];
  }

  lemma UploadIsRefused(w: World, t: nat, sizes: map<Uuid, nat>, u: World) returns (v: World)
    requires Free(w, t) && !Room(w, sizes)
    requires u == w.(owner := Some(t), used := w.used + sizes.Keys,
                     transactions := w.transactions[t := Transaction(Insert(FileRows(sizes), true), Locked)])
    ensures Leads(u, [CheckUsage(t)], v) && v == w.(used := w.used + sizes.Keys)
  {
    SizesOfFiles(w, sizes);
    v := DoCheckUsage(u, t);
    Begins(w, t, u.transactions[t]);
    EndsWhole(w, t, u);
    assert Leads(v, [], v);
    OneStep(u, CheckUsage(t), v, [], v);
    assert [CheckUsage(t)] + [] == [CheckUsage(t)];
  }

  /** An upload that fits adds its files, all live, and one that does not adds nothing. */
  lemma UploadGoesThrough(w: World, t: nat, sizes: map<Uuid, nat>) returns (u: World, v: World)
    requires Free(w, t) && !w.deleted && sizes.Keys !! w.used
    ensures Leads(w, [BeginUpload(t, sizes), LockAccount(t)], u)
    ensures Leads(u, if Room(w, sizes) then [CheckUsage(t), Commit(t)] else [CheckUsage(t)], v)
    ensures v == w.(used := w.used + sizes.Keys,
                    rows := if Room(w, sizes) then w.rows + map d | d in sizes :: Row(File, sizes[d], false, false) else w.rows)
  {
    u := UploadSteps(w, t, sizes);
    if Room(w, sizes) {
      v := UploadFits(w, t, sizes, u);
      assert FileRows(sizes) == map d | d in sizes :: Row(File, sizes[d], false, false);
    } else {
      v := UploadIsRefused(w, t, sizes, u);
    }
  }

  lemma CreateSteps(w: World, t: nat, d: Uuid, kind: DocumentKind) returns (u: World)
    requires Free(w, t) && !w.deleted && d !in w.used && (kind == Memo || kind == Webpage)
    ensures Leads(w, [BeginCreate(t, d, kind), LockAccount(t)], u)
    ensures u == w.(owner := Some(t), used := w.used + {d},
                    transactions := w.transactions[t := Transaction(Insert(map[d := Row(kind, 0, false, false)], false), Locked)])
  {
    var work := Insert(map[d := Row(kind, 0, false, false)], false);
    var a := w.(transactions := w.transactions[t := Transaction(work, Waiting)], used := w.used + {d});
    u := DoLockAccount(a, t);
    assert u.transactions == w.transactions[t := Transaction(work, Locked)];
    assert Next(a, LockAccount(t), u) && Leads(u, [], u);
    OneStep(a, LockAccount(t), u, [], u);
    OneStep(w, BeginCreate(t, d, kind), a, [LockAccount(t)] + [], u);
    assert [BeginCreate(t, d, kind)] + ([LockAccount(t)] + []) == [BeginCreate(t, d, kind), LockAccount(t)];
  }

  /** A memo or a webpage is created without a check of the quota. */
  lemma CreateGoesThrough(w: World, t: nat, d: Uuid, kind: DocumentKind) returns (u: World, v: World)
    requires Free(w, t) && !w.deleted && d !in w.used && (kind == Memo || kind == Webpage)
    ensures Leads(w, [BeginCreate(t, d, kind), LockAccount(t)], u) && Leads(u, [Commit(t)], v)
    ensures v == w.(used := w.used + {d}, rows := w.rows[d := Row(kind, 0, false, false)])
  {
    u := CreateSteps(w, t, d, kind);
    v := DoCommit(u, t);
    assert w.rows + map[d := Row(kind, 0, false, false)] == w.rows[d := Row(kind, 0, false, false)];
    Begins(w, t, u.transactions[t]);
    EndsWhole(w, t, u.(rows := v.rows));
    CommitEnds(w, t, u, v);
  }

  /** A withdrawn account ends a request that locks it, and a scraped webpage has a new size. */
  lemma OtherSteps(w: World, t: nat, d: Uuid, size: nat)
    ensures (w.deleted && w.owner == None && t in w.transactions && w.transactions[t].stage == Waiting
             && !w.transactions[t].work.Delete?) ==> Next(w, LockAccount(t), Ended(w, t))
    ensures d in w.rows && !w.rows[d].deleted && w.rows[d].kind == Webpage && d !in w.held ==>
              Next(w, Resize(d, size), w.(rows := w.rows[d := Row(Webpage, size, false, w.rows[d].cleanup)]))
  {
  }

  /** At first the account is active and empty. */
  lemma NewAccount(role: Role, plan: Plan)
    ensures var w := NewWorld(role, plan);
            !w.deleted && w.rows == map[] && w.owner == None && w.held == map[] && w.transactions == map[] && w.used == {}
  {
  }

  /** A deletion deletes its document and queues its cleanup, in one commit. */
  lemma DeletionGoesThrough(w: World, t: nat, d: Uuid) returns (v: World)
    requires Free(w, t) && d in w.rows && !w.rows[d].deleted && d !in w.held
    ensures Leads(w, [BeginDelete(t, d), LockDocument(t), Commit(t)], v)
    ensures v == w.(rows := w.rows[d := Row(w.rows[d].kind, w.rows[d].size, true, true)])
  {
    var a := w.(transactions := w.transactions[t := Transaction(Delete(d), Waiting)]);
    var b := DoLockDocument(a, t);
    v := DoCommit(b, t);
    Begins(w, t, b.transactions[t]);
    assert b.transactions == w.transactions[t := Transaction(Delete(d), Held(d))];
    EndsWhole(w, t, b.(rows := v.rows));
    assert Leads(v, [], v);
    OneStep(b, Commit(t), v, [], v);
    OneStep(a, LockDocument(t), b, [Commit(t)] + [], v);
    OneStep(w, BeginDelete(t, d), a, [LockDocument(t)] + ([Commit(t)] + []), v);
    assert [BeginDelete(t, d)] + ([LockDocument(t)] + ([Commit(t)] + [])) == [BeginDelete(t, d), LockDocument(t), Commit(t)];
  }

  lemma WithdrawalSteps(w: World, t: nat) returns (u: World)
    requires Free(w, t) && !w.deleted
    ensures Leads(w, [BeginWithdraw(t), LockAccount(t)], u)
    ensures u == w.(owner := Some(t), transactions := w.transactions[t := Transaction(Withdraw, Locked)])
  {
    var a := w.(transactions := w.transactions[t := Transaction(Withdraw, Waiting)]);
    u := DoLockAccount(a, t);
    assert u.transactions == w.transactions[t := Transaction(Withdraw, Locked)];
    assert Next(a, LockAccount(t), u) && Leads(u, [], u);
    OneStep(a, LockAccount(t), u, [], u);
    OneStep(w, BeginWithdraw(t), a, [LockAccount(t)] + [], u);
    assert [BeginWithdraw(t)] + ([LockAccount(t)] + []) == [BeginWithdraw(t), LockAccount(t)];
  }

  lemma WithdrawalCommits(w: World, t: nat, e: World) returns (v: World)
    requires Free(w, t)
    requires e == w.(owner := Some(t), held := e.held,
                     transactions := w.transactions[t := Transaction(Withdraw, Scheduled(LiveRows(w.rows), w.rows.Keys))])
    requires forall d :: d in e.held ==> e.held[d] == t || (d in w.held && e.held[d] == w.held[d])
    requires forall d :: d in w.held ==> d in e.held && e.held[d] == w.held[d]
    ensures Leads(e, [Commit(t)], v)
    ensures v == w.(deleted := true, rows := map d | d in w.rows :: Row(w.rows[d].kind, w.rows[d].size, true, true))
  {
    v := DoCommit(e, t);
    assert v.rows == map d | d in w.rows :: Row(w.rows[d].kind, w.rows[d].size, true, true);
    Begins(w, t, e.transactions[t]);
    EndsWhole(w, t, e.(deleted := true, rows := v.rows));
    CommitEnds(w, t, e, v);
  }

  /** A withdrawal deletes the account and all its documents, and queues a cleanup for each. */
  lemma WithdrawalGoesThrough(w: World, t: nat) returns (u: World, v: World)
    requires Free(w, t) && !w.deleted && LiveRows(w.rows) !! w.held.Keys
    ensures Leads(w, [BeginWithdraw(t), LockAccount(t)], u) && Leads(u, [Sweep(t), Schedule(t), Commit(t)], v)
    ensures v == w.(deleted := true, rows := map d | d in w.rows :: Row(w.rows[d].kind, w.rows[d].size, true, true))
  {
    u := WithdrawalSteps(w, t);
    var c := DoSweep(u, t);
    assert c.transactions == w.transactions[t := Transaction(Withdraw, Swept(LiveRows(w.rows)))];
    var e := To(c, t, Scheduled(LiveRows(w.rows), w.rows.Keys));
    assert e.transactions == w.transactions[t := Transaction(Withdraw, Scheduled(LiveRows(w.rows), w.rows.Keys))];
    v := WithdrawalCommits(w, t, e);
    OneStep(c, Schedule(t), e, [Commit(t)], v);
    OneStep(u, Sweep(t), c, [Schedule(t)] + [Commit(t)], v);
    assert [Sweep(t)] + ([Schedule(t)] + [Commit(t)]) == [Sweep(t), Schedule(t), Commit(t)];
  }
}
