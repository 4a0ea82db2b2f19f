/**
 The replay archive: rows in the database, compressed payloads in a blob store, and requests that
 touch first the one and then the other. Requests interleave between any two of their steps, and
 every awaited operation may fail, before or after it took effect. Retention pruning and crashes of
 the process are outside this model.
 */
module ReplayArchive {
  type MatchId(==, !new)
  type Payload(==, !new)
  type Digest(==, !new)
  /** Header fields and participants, as stored in the row. */
  type Header(==, !new)

  type ReplayId = nat

  datatype Row = Row(replayId: ReplayId, header: Header, digest: Digest, deleted: bool)

  datatype Reply =
    | Created(replayId: ReplayId)
    | Existing(replayId: ReplayId)
    | WasDeleted | MissingPayload | IdentityConflict | Failed
    | Deleted(alreadyDeleted: bool) | NotFound | Forbidden

  /** How an awaited operation ends: it works, it fails without effect, or only its reply is lost. */
  datatype Ending = Works | Fails | ReplyLost

  datatype Upload = Upload(matchId: MatchId, header: Header, payload: Payload)

  /**
   Where a request stands between two of its steps. `committed`: the insert took effect although
   its reply was lost; `duplicate`: the insert was refused because the match has a row.
   */
  datatype Job =
    | Put(upload: Upload)
    | Connect(replayId: ReplayId, upload: Upload)
    | Insert(replayId: ReplayId, upload: Upload)
    | RollBack(replayId: ReplayId, upload: Upload, committed: bool, duplicate: bool)
    | Discard(replayId: ReplayId, upload: Upload, committed: bool, duplicate: bool)
    | LookUp(upload: Upload)
    | Compare(row: Row, upload: Upload)
    | Mark(replayId: ReplayId, allowed: bool)
    | Unlink(replayId: ReplayId, alreadyDeleted: bool)
    | Done(reply: Reply)

  /**
   A record of what happened, never read. `orphaned`: a failure ended the request that was to store
   a row for this blob, or to take the blob back. `emptied`: a request took back the blob of a row
   whose insert had taken effect. `marked`, `unlinked`: a deletion of the row, a removal of its blob
   took effect. `faulted`: requests that met a failure.
   */
  datatype Ledger = Ledger(
    orphaned: set<ReplayId>, emptied: set<ReplayId>, marked: set<ReplayId>, unlinked: set<ReplayId>,
    faulted: set<nat>)

  datatype Archive = Archive(
    rows: map<MatchId, Row>, blobs: map<ReplayId, Payload>, jobs: map<nat, Job>, nextId: ReplayId, ledger: Ledger)

  function Empty(): Archive { Archive(map[], map[], map[], 0, Ledger({}, {}, {}, {}, {})) }

  predicate HasReplay(rows: map<MatchId, Row>, id: ReplayId) {
    exists m :: m in rows && rows[m].replayId == id
  }

  /** The match of a stored replay. */
  ghost function MatchOf(rows: map<MatchId, Row>, id: ReplayId): MatchId
    requires HasReplay(rows, id)
  {
    var m :| m in rows && rows[m].replayId == id; m
  }

  datatype Step =
    | StartIngest(job: nat, upload: Upload)
    | StartDelete(job: nat, replayId: ReplayId, allowed: bool)
    | Advance(job: nat, ending: Ending)

  function SetJob(a: Archive, job: nat, j: Job): Archive { a.(jobs := a.jobs[job := j]) }

  function Orphan(a: Archive, id: ReplayId): Archive { a.(ledger := a.ledger.(orphaned := a.ledger.orphaned + {id})) }

  /** The blob is stored under a fresh id; a lost reply leaves it behind. */
  function PutBlob(a: Archive, job: nat, u: Upload, ending: Ending): Archive {
    var id := a.nextId;
    var named := a.(nextId := id + 1);
    var stored := named.(blobs := a.blobs[id := u.payload]);
    match ending
    case Works => SetJob(stored, job, Connect(id, u))
    case Fails => SetJob(named, job, Done(Failed))
    case ReplyLost => SetJob(Orphan(stored, id), job, Done(Failed))
  }

  /** The transaction that inserts the row. */
  function InsertRow(digest: Payload -> Digest, a: Archive, job: nat, id: ReplayId, u: Upload, ending: Ending): Archive
  {
    if ending.Fails? || u.matchId in a.rows then SetJob(a, job, RollBack(id, u, false, ending.Works?))
    else
      var inserted := a.(rows := a.rows[u.matchId := Row(id, u.header, digest(u.payload), false)]);
      SetJob(inserted, job, if ending.Works? then Done(Created(id)) else RollBack(id, u, true, false))
  }

  /** The failure path gives up, and the blob stays. */
  function GiveUp(a: Archive, job: nat, id: ReplayId, committed: bool): Archive {
    SetJob(if committed then a else Orphan(a, id), job, Done(Failed))
  }

  /** The failure path takes the blob back. */
  function TakeBack(a: Archive, job: nat, id: ReplayId, committed: bool, j: Job): Archive {
    var ledger := if committed then a.ledger.(emptied := a.ledger.emptied + {id}) else a.ledger;
    SetJob(a, job, j).(blobs := a.blobs - {id}, ledger := ledger)
  }

  /** The transaction that marks a row deleted. */
  ghost function MarkRow(a: Archive, job: nat, id: ReplayId, allowed: bool, ending: Ending): Archive {
    if ending.Fails? then SetJob(a, job, Done(Failed))
    else if !HasReplay(a.rows, id) then SetJob(a, job, Done(if ending.Works? then NotFound else Failed))
    else if !allowed then SetJob(a, job, Done(if ending.Works? then Forbidden else Failed))
    else
      var m := MatchOf(a.rows, id);
      SetJob(a, job, if ending.Works? then Unlink(id, a.rows[m].deleted) else Done(Failed)).(
        rows := a.rows[m := a.rows[m].(deleted := true)],
        ledger := a.ledger.(marked := a.ledger.marked + {id}))
  }

  function UnlinkBlob(a: Archive, job: nat, id: ReplayId, alreadyDeleted: bool, ending: Ending): Archive {
    if ending.Fails? then SetJob(a, job, Done(Failed))
    else
      SetJob(a, job, Done(if ending.Works? then Deleted(alreadyDeleted) else Failed)).(
        blobs := a.blobs - {id}, ledger := a.ledger.(unlinked := a.ledger.unlinked + {id}))
  }

  /** The existing row decides what a repeated upload is told. */
  function LookedUp(a: Archive, u: Upload, ending: Ending): Job {
    if !ending.Works? || u.matchId !in a.rows then Done(Failed)
    else if a.rows[u.matchId].deleted then Done(WasDeleted)
    else Compare(a.rows[u.matchId], u)
  }

  function Compared(digest: Payload -> Digest, a: Archive, row: Row, u: Upload, ending: Ending): Reply {
    if !ending.Works? || row.replayId !in a.blobs then MissingPayload
    else if row.header == u.header && digest(a.blobs[row.replayId]) == digest(u.payload) then Existing(row.replayId)
    else IdentityConflict
  }

  /** The next awaited operation of one request. */
  ghost function Work(digest: Payload -> Digest, a: Archive, job: nat, ending: Ending): (after: Archive)
    requires job in a.jobs
    ensures job in after.jobs && after.jobs == a.jobs[job := after.jobs[job]]
    ensures a.ledger.emptied <= after.ledger.emptied && after.ledger.faulted == a.ledger.faulted
  {
    match a.jobs[job]
    case Put(u) => PutBlob(a, job, u, ending)
    case Connect(id, u) => if ending.Works? then SetJob(a, job, Insert(id, u)) else GiveUp(a, job, id, false)
    case Insert(id, u) => InsertRow(digest, a, job, id, u, ending)
    case RollBack(id, u, committed, duplicate) =>
      if ending.Works? then SetJob(a, job, Discard(id, u, committed, duplicate)) else GiveUp(a, job, id, committed)
    case Discard(id, u, committed, duplicate) =>
      if ending.Fails? then GiveUp(a, job, id, committed)
      else TakeBack(a, job, id, committed, if ending.Works? && duplicate then LookUp(u) else Done(Failed))
    case LookUp(u) => SetJob(a, job, LookedUp(a, u, ending))
    case Compare(row, u) => SetJob(a, job, Done(Compared(digest, a, row, u, ending)))
    case Mark(id, allowed) => MarkRow(a, job, id, allowed, ending)
    case Unlink(id, alreadyDeleted) => UnlinkBlob(a, job, id, alreadyDeleted, ending)
    case Done(_) => a
  }

  function Noted(a: Archive, job: nat, ending: Ending): Archive {
    if ending.Works? then a else a.(ledger := a.ledger.(faulted := a.ledger.faulted + {job}))
  }

  ghost function Next(digest: Payload -> Digest, a: Archive, step: Step): Archive {
    match step
    case StartIngest(job, u) => if job in a.jobs then a else SetJob(a, job, Put(u))
    case StartDelete(job, id, allowed) => if job in a.jobs then a else SetJob(a, job, Mark(id, allowed))
    case Advance(job, ending) => if job in a.jobs then Noted(Work(digest, a, job, ending), job, ending) else a
  }

  ghost function Play(digest: Payload -> Digest, steps: seq<Step>): Archive {
    if steps == [] then Empty() else Next(digest, Play(digest, steps[..|steps| - 1]), steps[|steps| - 1])
  }

  // ---------------------------------------------------------------- the invariant

  /** A request that is to store a row for its blob, or to take the blob back. */
  predicate Owner(j: Job) { j.Connect? || j.Insert? || j.RollBack? || j.Discard? }

  predicate Owns(j: Job, id: ReplayId) { Owner(j) && j.replayId == id }

  /** Its insert has taken effect. */
  predicate Stored(j: Job) { (j.RollBack? || j.Discard?) && j.committed }

  ghost predicate IdsOk(a: Archive) {
    && (forall m :: m in a.rows ==> a.rows[m].replayId < a.nextId)
    && (forall m, n :: m in a.rows && n in a.rows && a.rows[m].replayId == a.rows[n].replayId ==> m == n)
    && (forall id :: id in a.blobs ==> id < a.nextId)
    && (forall k :: k in a.jobs && Owner(a.jobs[k]) ==> a.jobs[k].replayId < a.nextId)
  }

  /** A row is deleted when a deletion took effect, and has its blob until that was removed or taken back. */
  ghost predicate RowOk(digest: Payload -> Digest, a: Archive, row: Row) {
    && (row.deleted <==> row.replayId in a.ledger.marked)
    && (row.replayId in a.blobs <==> row.replayId !in a.ledger.unlinked && row.replayId !in a.ledger.emptied)
    && (row.replayId in a.blobs ==> digest(a.blobs[row.replayId]) == row.digest)
  }

  ghost predicate RowsOk(digest: Payload -> Digest, a: Archive) {
    forall m :: m in a.rows ==> RowOk(digest, a, a.rows[m])
  }

  /** An owner without a row has its blob, and the blob is nobody else's. */
  ghost predicate OwnerOk(a: Archive, j: Job)
    requires Owner(j)
  {
    if Stored(j) then HasReplay(a.rows, j.replayId)
    else
      && j.replayId in a.blobs && a.blobs[j.replayId] == j.upload.payload
      && !HasReplay(a.rows, j.replayId) && j.replayId !in a.ledger.orphaned
  }

  ghost predicate OwnersOk(a: Archive) {
    && (forall k :: k in a.jobs && Owner(a.jobs[k]) ==> OwnerOk(a, a.jobs[k]))
    && (forall k, l :: k in a.jobs && l in a.jobs && k != l && Owner(a.jobs[k]) ==>
          !Owns(a.jobs[l], a.jobs[k].replayId))
  }

  /** Whose blob this is. */
  ghost predicate Explained(a: Archive, id: ReplayId) {
    || HasReplay(a.rows, id) || id in a.ledger.orphaned
    || (exists k :: k in a.jobs && Owns(a.jobs[k], id) && !Stored(a.jobs[k]))
  }

  ghost predicate BlobsOk(a: Archive) {
    forall id :: id in a.blobs ==> Explained(a, id)
  }

  ghost predicate LedgerOk(a: Archive) {
    && (forall id :: id in a.ledger.orphaned ==> id in a.blobs && !HasReplay(a.rows, id) && id < a.nextId)
    && (forall id :: id in a.ledger.emptied || id in a.ledger.marked ==> HasReplay(a.rows, id))
    && a.ledger.unlinked <= a.ledger.marked
    && (forall k :: k in a.jobs && a.jobs[k].Unlink? ==> a.jobs[k].replayId in a.ledger.marked)
  }

  ghost predicate Inv(digest: Payload -> Digest, a: Archive) {
    IdsOk(a) && RowsOk(digest, a) && OwnersOk(a) && BlobsOk(a) && LedgerOk(a)
  }

  // ---- what one step must respect

  /** The blob of a row and what is recorded about it. */
  predicate SameBlob(a: Archive, after: Archive, id: ReplayId) {
    && (id in after.blobs <==> id in a.blobs) && (id in a.blobs ==> after.blobs[id] == a.blobs[id])
    && (id in after.ledger.marked <==> id in a.ledger.marked)
    && (id in after.ledger.unlinked <==> id in a.ledger.unlinked)
    && (id in after.ledger.emptied <==> id in a.ledger.emptied)
  }

  /** Every other request stands where it stood. */
  predicate OthersStay(a: Archive, after: Archive, job: nat) {
    && after.jobs.Keys == a.jobs.Keys + {job}
    && (forall k :: k in a.jobs && k != job ==> after.jobs[k] == a.jobs[k])
  }

  lemma RowsStay(digest: Payload -> Digest, a: Archive, after: Archive)
    requires RowsOk(digest, a) && after.rows == a.rows
    requires forall m :: m in a.rows ==> SameBlob(a, after, a.rows[m].replayId)
    ensures RowsOk(digest, after)
  {
    forall m | m in after.rows ensures RowOk(digest, after, after.rows[m]) { assert RowOk(digest, a, a.rows[m]); }
  }

  lemma BlobsStay(a: Archive, after: Archive, job: nat)
    requires BlobsOk(a) && OthersStay(a, after, job) && a.ledger.orphaned <= after.ledger.orphaned
    requires forall id :: HasReplay(a.rows, id) ==> HasReplay(after.rows, id)
    requires forall id :: id in after.blobs ==> Explained(after, id) || (id in a.blobs && !Needs(a, job, id))
    ensures BlobsOk(after)
  {
    hide HasReplay;
    forall id | id in after.blobs ensures Explained(after, id) {
      if id in a.blobs && !Needs(a, job, id) {
        assert Explained(a, id);
        if k :| k in a.jobs && Owns(a.jobs[k], id) && !Stored(a.jobs[k]) { assert after.jobs[k] == a.jobs[k]; }
      }
    }
  }

  /** The request explains the blob. */
  predicate Needs(a: Archive, job: nat, id: ReplayId) { job in a.jobs && Owns(a.jobs[job], id) && !Stored(a.jobs[job]) }

  lemma OwnersStay(a: Archive, after: Archive, job: nat)
    requires OwnersOk(a) && OthersStay(a, after, job)
    requires forall k :: k in a.jobs && k != job && Owner(a.jobs[k]) ==>
      var id := a.jobs[k].replayId;
      && (HasReplay(after.rows, id) <==> HasReplay(a.rows, id))
      && (!HasReplay(a.rows, id) && id in a.blobs ==> id in after.blobs && after.blobs[id] == a.blobs[id])
      && (id in after.ledger.orphaned ==> id in a.ledger.orphaned)
    requires Owner(after.jobs[job]) ==>
      && OwnerOk(after, after.jobs[job])
      && forall k :: k in a.jobs && k != job ==> !Owns(a.jobs[k], after.jobs[job].replayId)
    ensures OwnersOk(after)
  {
    hide HasReplay;
    forall k | k in after.jobs && Owner(after.jobs[k]) ensures OwnerOk(after, after.jobs[k]) {
      if k != job { assert OwnerOk(a, a.jobs[k]); }
    }
  }

  /** What an owner knows about its blob. */
  lemma OwnerKnows(a: Archive, job: nat)
    requires OwnersOk(a) && job in a.jobs && Owner(a.jobs[job])
    ensures OwnerOk(a, a.jobs[job])
    ensures forall k :: k in a.jobs && k != job ==> !Owns(a.jobs[k], a.jobs[job].replayId)
  {
    hide OwnerOk;
  }

  // ---- requests that own no blob move on

  /** Neither an owner nor about to remove a blob. */
  predicate Free(j: Job) { !Owner(j) && !j.Unlink? }

  lemma FreeKeepsInv(digest: Payload -> Digest, a: Archive, job: nat, j: Job)
    requires Inv(digest, a) && (job in a.jobs ==> !Owner(a.jobs[job])) && Free(j)
    ensures Inv(digest, SetJob(a, job, j))
  {
    hide HasReplay, RowsOk, OwnersOk, BlobsOk, Explained;
    var after := SetJob(a, job, j);
    RowsStay(digest, a, after);
    BlobsStay(a, after, job);
    OwnersStay(a, after, job);
  }

  // ---- an owner moves on with the same blob

  lemma OwnerKeepsInv(digest: Payload -> Digest, a: Archive, job: nat, j: Job)
    requires Inv(digest, a) && job in a.jobs && Owner(a.jobs[job]) && Owner(j)
    requires j.replayId == a.jobs[job].replayId && j.upload == a.jobs[job].upload && Stored(j) == Stored(a.jobs[job])
    ensures Inv(digest, SetJob(a, job, j))
  {
    hide HasReplay, RowsOk, OwnersOk, BlobsOk;
    var after := SetJob(a, job, j);
    OwnerKnows(a, job);
    RowsStay(digest, a, after);
    assert Needs(a, job, j.replayId) ==> Explained(after, j.replayId) by {
      if Needs(a, job, j.replayId) { assert Owns(after.jobs[job], j.replayId); }
    }
    hide Explained;
    BlobsStay(a, after, job);
    OwnersStay(a, after, job);
  }

  /** An owner gives up: without a row, its blob is orphaned. */
  lemma GiveUpKeepsInv(digest: Payload -> Digest, a: Archive, job: nat)
    requires Inv(digest, a) && job in a.jobs && Owner(a.jobs[job])
    ensures Inv(digest, GiveUp(a, job, a.jobs[job].replayId, Stored(a.jobs[job])))
  {
    hide HasReplay, RowsOk, OwnersOk, BlobsOk;
    var id0 := a.jobs[job].replayId;
    var after := GiveUp(a, job, id0, Stored(a.jobs[job]));
    OwnerKnows(a, job);
    RowsStay(digest, a, after);
    assert Needs(a, job, id0) ==> Explained(after, id0);
    hide Explained;
    BlobsStay(a, after, job);
    OwnersStay(a, after, job);
  }

  lemma TakenBackRows(digest: Payload -> Digest, a: Archive, job: nat, j: Job)
    requires RowsOk(digest, a) && OwnersOk(a) && job in a.jobs && Owner(a.jobs[job])
    ensures RowsOk(digest, TakeBack(a, job, a.jobs[job].replayId, Stored(a.jobs[job]), j))
  {
    var after := TakeBack(a, job, a.jobs[job].replayId, Stored(a.jobs[job]), j);
    OwnerKnows(a, job);
    hide OwnersOk;
    forall m | m in after.rows ensures RowOk(digest, after, after.rows[m]) {
      assert RowOk(digest, a, a.rows[m]);
      if !Stored(a.jobs[job]) { assert a.rows[m].replayId != a.jobs[job].replayId; }
    }
  }

  /** An owner takes its blob back. */
  lemma TakeBackKeepsInv(digest: Payload -> Digest, a: Archive, job: nat, j: Job)
    requires Inv(digest, a) && job in a.jobs && Owner(a.jobs[job]) && Free(j)
    ensures Inv(digest, TakeBack(a, job, a.jobs[job].replayId, Stored(a.jobs[job]), j))
  {
    hide HasReplay, RowsOk, OwnersOk, BlobsOk, Explained;
    var after := TakeBack(a, job, a.jobs[job].replayId, Stored(a.jobs[job]), j);
    OwnerKnows(a, job);
    TakenBackRows(digest, a, job, j);
    BlobsStay(a, after, job);
    OwnersStay(a, after, job);
  }

  // ---- the blob is put

  lemma NoReplayYet(a: Archive)
    requires IdsOk(a)
    ensures !HasReplay(a.rows, a.nextId) && a.nextId !in a.blobs
    ensures forall k :: k in a.jobs ==> !Owns(a.jobs[k], a.nextId)
  {
  }

  lemma PutExplained(a: Archive, job: nat, u: Upload, ending: Ending)
    ensures ending.Fails? || Explained(PutBlob(a, job, u, ending), a.nextId)
  {
    var after := PutBlob(a, job, u, ending);
    hide HasReplay;
    if ending.Works? { assert Owns(after.jobs[job], a.nextId) && !Stored(after.jobs[job]); }
  }

  lemma PutKeepsLedger(a: Archive, job: nat, u: Upload, ending: Ending)
    requires IdsOk(a) && LedgerOk(a)
    ensures IdsOk(PutBlob(a, job, u, ending)) && LedgerOk(PutBlob(a, job, u, ending))
  {
    NoReplayYet(a);
    hide HasReplay;
  }

  lemma PutKeepsOwners(a: Archive, job: nat, u: Upload, ending: Ending)
    requires IdsOk(a) && OwnersOk(a) && BlobsOk(a) && job in a.jobs && a.jobs[job] == Put(u)
    requires forall id :: id in a.ledger.orphaned ==> id < a.nextId
    ensures OwnersOk(PutBlob(a, job, u, ending)) && BlobsOk(PutBlob(a, job, u, ending))
  {
    hide HasReplay, OwnersOk, BlobsOk, Explained;
    NoReplayYet(a);
    PutExplained(a, job, u, ending);
    BlobsStay(a, PutBlob(a, job, u, ending), job);
    OwnersStay(a, PutBlob(a, job, u, ending), job);
  }

  lemma PutKeepsInv(digest: Payload -> Digest, a: Archive, job: nat, u: Upload, ending: Ending)
    requires Inv(digest, a) && job in a.jobs && a.jobs[job] == Put(u)
    ensures Inv(digest, PutBlob(a, job, u, ending))
  {
    hide HasReplay, RowsOk, OwnersOk, BlobsOk;
    RowsStay(digest, a, PutBlob(a, job, u, ending));
    PutKeepsOwners(a, job, u, ending);
    PutKeepsLedger(a, job, u, ending);
  }

  // ---- the row is inserted

  lemma RowAdded(rows: map<MatchId, Row>, after: map<MatchId, Row>, m0: MatchId)
    requires m0 !in rows && m0 in after && after == rows[m0 := after[m0]]
    ensures forall id :: HasReplay(after, id) <==> HasReplay(rows, id) || id == after[m0].replayId
  {
    forall id ensures HasReplay(after, id) <==> HasReplay(rows, id) || id == after[m0].replayId {
      if m :| m in rows && rows[m].replayId == id { assert after[m] == rows[m]; }
      if id == after[m0].replayId { assert m0 in after; }
    }
  }

  lemma InsertedRows(digest: Payload -> Digest, a: Archive, after: Archive, m0: MatchId, id0: ReplayId)
    requires RowsOk(digest, a) && LedgerOk(a) && IdsOk(a) && !HasReplay(a.rows, id0) && id0 in a.blobs && m0 !in a.rows
    requires m0 in after.rows && after.rows == a.rows[m0 := after.rows[m0]] && after.rows[m0].replayId == id0
    requires after.rows[m0].digest == digest(a.blobs[id0]) && !after.rows[m0].deleted
    requires after.blobs == a.blobs && after.ledger == a.ledger && after.nextId == a.nextId
    ensures RowsOk(digest, after)
    ensures forall m, n :: m in after.rows && n in after.rows && after.rows[m].replayId == after.rows[n].replayId ==>
      m == n
    ensures forall m :: m in after.rows ==> after.rows[m].replayId < a.nextId
  {
    assert id0 !in a.ledger.unlinked && id0 !in a.ledger.emptied && id0 !in a.ledger.marked;
    forall m | m in after.rows ensures RowOk(digest, after, after.rows[m]) {
      if m != m0 { assert RowOk(digest, a, a.rows[m]); }
    }
  }

  lemma InsertKeepsInv(digest: Payload -> Digest, a: Archive, job: nat, id0: ReplayId, u: Upload, ending: Ending)
    requires Inv(digest, a) && job in a.jobs && a.jobs[job] == Insert(id0, u) && !ending.Fails? && u.matchId !in a.rows
    ensures Inv(digest, InsertRow(digest, a, job, id0, u, ending))
  {
    hide HasReplay, RowsOk, OwnersOk, BlobsOk;
    var after := InsertRow(digest, a, job, id0, u, ending);
    OwnerKnows(a, job);
    RowAdded(a.rows, after.rows, u.matchId);
    InsertedRows(digest, a, after, u.matchId, id0);
    assert Explained(after, id0);
    hide Explained;
    BlobsStay(a, after, job);
    OwnersStay(a, after, job);
  }

  // ---- the row is marked deleted, then the blob is removed

  lemma MarkedRows(digest: Payload -> Digest, a: Archive, job: nat, id0: ReplayId, ending: Ending)
    requires RowsOk(digest, a) && IdsOk(a) && HasReplay(a.rows, id0) && !ending.Fails?
    ensures
      var after := MarkRow(a, job, id0, true, ending);
      && RowsOk(digest, after) && IdsOk(after.(jobs := a.jobs))
      && (forall id :: HasReplay(after.rows, id) <==> HasReplay(a.rows, id))
      && after.nextId == a.nextId && after.blobs == a.blobs
      && after.ledger == a.ledger.(marked := a.ledger.marked + {id0})
      && job in after.jobs && after.jobs == a.jobs[job := after.jobs[job]]
      && (after.jobs[job].Done? || (after.jobs[job].Unlink? && after.jobs[job].replayId == id0))
  {
    var after := MarkRow(a, job, id0, true, ending);
    forall id ensures HasReplay(after.rows, id) <==> HasReplay(a.rows, id) { SameReplays(a.rows, after.rows, id); }
    forall m | m in after.rows ensures RowOk(digest, after, after.rows[m]) { assert RowOk(digest, a, a.rows[m]); }
  }

  lemma SameReplays(rows: map<MatchId, Row>, after: map<MatchId, Row>, id: ReplayId)
    requires after.Keys == rows.Keys && forall m :: m in rows ==> after[m].replayId == rows[m].replayId
    ensures HasReplay(after, id) <==> HasReplay(rows, id)
  {
  }

  lemma MarkKeepsInv(digest: Payload -> Digest, a: Archive, job: nat, id0: ReplayId, ending: Ending)
    requires Inv(digest, a) && job in a.jobs && a.jobs[job] == Mark(id0, true)
    requires !ending.Fails? && HasReplay(a.rows, id0)
    ensures Inv(digest, MarkRow(a, job, id0, true, ending))
  {
    hide HasReplay, RowsOk, OwnersOk, BlobsOk, Explained, MarkRow;
    var after := MarkRow(a, job, id0, true, ending);
    MarkedRows(digest, a, job, id0, ending);
    BlobsStay(a, after, job);
    OwnersStay(a, after, job);
  }

  lemma UnlinkedRows(digest: Payload -> Digest, a: Archive, job: nat, id0: ReplayId, already: bool, ending: Ending)
    requires RowsOk(digest, a) && !ending.Fails?
    ensures RowsOk(digest, UnlinkBlob(a, job, id0, already, ending))
  {
    var after := UnlinkBlob(a, job, id0, already, ending);
    forall m | m in after.rows ensures RowOk(digest, after, after.rows[m]) { assert RowOk(digest, a, a.rows[m]); }
  }

  lemma UnlinkKeepsInv(digest: Payload -> Digest, a: Archive, job: nat, id0: ReplayId, already: bool, ending: Ending)
    requires Inv(digest, a) && job in a.jobs && a.jobs[job] == Unlink(id0, already) && !ending.Fails?
    ensures Inv(digest, UnlinkBlob(a, job, id0, already, ending))
  {
    hide HasReplay, RowsOk, OwnersOk, BlobsOk, Explained;
    var after := UnlinkBlob(a, job, id0, already, ending);
    assert HasReplay(a.rows, id0);
    UnlinkedRows(digest, a, job, id0, already, ending);
    BlobsStay(a, after, job);
    OwnersStay(a, after, job);
  }

  // ---- every step

  lemma OwnersMoveOn(digest: Payload -> Digest, a: Archive, job: nat, ending: Ending)
    requires Inv(digest, a) && job in a.jobs && Owner(a.jobs[job])
    ensures Inv(digest, Work(digest, a, job, ending))
  {
    hide Inv, HasReplay, GiveUp, TakeBack;
    match a.jobs[job]
    case Connect(id, u) =>
      if ending.Works? { OwnerKeepsInv(digest, a, job, Insert(id, u)); } else { GiveUpKeepsInv(digest, a, job); }
    case Insert(id, u) =>
      if ending.Fails? || u.matchId in a.rows {
        OwnerKeepsInv(digest, a, job, RollBack(id, u, false, ending.Works?));
      } else {
        InsertKeepsInv(digest, a, job, id, u, ending);
      }
    case RollBack(id, u, committed, duplicate) =>
      if ending.Works? { OwnerKeepsInv(digest, a, job, Discard(id, u, committed, duplicate)); }
      else { GiveUpKeepsInv(digest, a, job); }
    case Discard(id, u, committed, duplicate) =>
      if ending.Fails? { GiveUpKeepsInv(digest, a, job); }
      else { TakeBackKeepsInv(digest, a, job, if ending.Works? && duplicate then LookUp(u) else Done(Failed)); }
  }

  lemma OthersMoveOn(digest: Payload -> Digest, a: Archive, job: nat, ending: Ending)
    requires Inv(digest, a) && job in a.jobs && !Owner(a.jobs[job])
    ensures Inv(digest, Work(digest, a, job, ending))
  {
    hide Inv, PutBlob, Compared;
    match a.jobs[job]
    case Put(u) => PutKeepsInv(digest, a, job, u, ending);
    case Mark(id, allowed) =>
      if !ending.Fails? && HasReplay(a.rows, id) && allowed { MarkKeepsInv(digest, a, job, id, ending); }
      else { FreeKeepsInv(digest, a, job, MarkRow(a, job, id, allowed, ending).jobs[job]); }
    case Unlink(id, already) =>
      if ending.Fails? { FreeKeepsInv(digest, a, job, Done(Failed)); }
      else { UnlinkKeepsInv(digest, a, job, id, already, ending); }
    case LookUp(u) => FreeKeepsInv(digest, a, job, LookedUp(a, u, ending));
    case Compare(row, u) => FreeKeepsInv(digest, a, job, Done(Compared(digest, a, row, u, ending)));
    case Done(_) =>
  }

  lemma NotedKeepsInv(digest: Payload -> Digest, a: Archive, job: nat, ending: Ending)
    requires Inv(digest, a)
    ensures Inv(digest, Noted(a, job, ending))
  {
    hide HasReplay;
    var after := Noted(a, job, ending);
    forall m | m in after.rows ensures RowOk(digest, after, after.rows[m]) { assert RowOk(digest, a, a.rows[m]); }
    forall id | id in after.blobs ensures Explained(after, id) { assert Explained(a, id); }
    forall k | k in after.jobs && Owner(after.jobs[k]) ensures OwnerOk(after, after.jobs[k]) {
      assert OwnerOk(a, a.jobs[k]);
    }
  }

  lemma NextKeepsInv(digest: Payload -> Digest, a: Archive, step: Step)
    requires Inv(digest, a)
    ensures Inv(digest, Next(digest, a, step))
  {
    hide Inv, Work, SetJob, Noted;
    match step
    case StartIngest(job, u) => if job !in a.jobs { FreeKeepsInv(digest, a, job, Put(u)); }
    case StartDelete(job, id, allowed) => if job !in a.jobs { FreeKeepsInv(digest, a, job, Mark(id, allowed)); }
    case Advance(job, ending) =>
      if job in a.jobs {
        if Owner(a.jobs[job]) { OwnersMoveOn(digest, a, job, ending); } else { OthersMoveOn(digest, a, job, ending); }
        NotedKeepsInv(digest, Work(digest, a, job, ending), job, ending);
      }
  }

  lemma {:induction false} PlayKeepsInv(digest: Payload -> Digest, steps: seq<Step>)
    ensures Inv(digest, Play(digest, steps))
  {
    if steps != [] {
      hide Inv, Next;
      PlayKeepsInv(digest, steps[..|steps| - 1]);
      NextKeepsInv(digest, Play(digest, steps[..|steps| - 1]), steps[|steps| - 1]);
    }
  }

  // ---------------------------------------------------------------- blobs and rows at rest

  predicate AtRest(a: Archive) {
    forall k :: k in a.jobs ==> a.jobs[k].Done?
  }

  /** The live replays of the archive. */
  ghost predicate IsLive(a: Archive, id: ReplayId) {
    exists m :: m in a.rows && a.rows[m].replayId == id && !a.rows[m].deleted
  }

  /**
   No failure has left a difference: none ended a request that was to store or take back its blob;
   every row whose blob was taken back after a lost commit reply has been deleted since; and
   every deletion that took effect has reached its blob.
   */
  predicate NothingLeft(l: Ledger) {
    l.orphaned == {} && l.emptied <= l.marked && l.marked <= l.unlinked + l.emptied
  }

  lemma RowAtRest(digest: Payload -> Digest, a: Archive, m: MatchId)
    requires Inv(digest, a) && m in a.rows
    ensures
      var id := a.rows[m].replayId;
      && (IsLive(a, id) <==> id !in a.ledger.marked)
      && (id in a.blobs <==> id !in a.ledger.unlinked + a.ledger.emptied)
  {
    assert RowOk(digest, a, a.rows[m]);
    hide BlobsOk, OwnersOk, HasReplay;
  }

  lemma BlobAtRest(digest: Payload -> Digest, a: Archive, id: ReplayId)
    requires Inv(digest, a) && AtRest(a) && !HasReplay(a.rows, id)
    ensures id in a.blobs <==> id in a.ledger.orphaned
    ensures !IsLive(a, id) && id !in a.ledger.marked && id !in a.ledger.emptied
  {
    if id in a.blobs { assert Explained(a, id); }
  }

  /** At rest the ledger tells whether blobs and live rows are the same. */
  lemma LedgerTells(digest: Payload -> Digest, steps: seq<Step>)
    requires AtRest(Play(digest, steps))
    ensures
      var a := Play(digest, steps);
      (forall id :: id in a.blobs <==> IsLive(a, id)) <==> NothingLeft(a.ledger)
  {
    PlayKeepsInv(digest, steps);
    var a := Play(digest, steps);
    forall id ensures (id in a.blobs <==> IsLive(a, id)) <==> LeftAlone(a.ledger, id) {
      if HasReplay(a.rows, id) {
        RowAtRest(digest, a, MatchOf(a.rows, id));
        OrphansHaveNoRow(digest, a, id);
      } else {
        BlobAtRest(digest, a, id);
      }
    }
    assert a.ledger.unlinked <= a.ledger.marked;
    hide Play, Inv, IsLive, AtRest;
    NothingLeftMeans(a.ledger);
  }

  /** What `NothingLeft` says about one replay. */
  predicate LeftAlone(l: Ledger, id: ReplayId) {
    id !in l.orphaned && (id in l.marked <==> id in l.unlinked + l.emptied)
  }

  lemma NothingLeftMeans(l: Ledger)
    requires l.unlinked <= l.marked
    ensures NothingLeft(l) <==> forall id :: LeftAlone(l, id)
  {
    if NothingLeft(l) {
      forall id ensures LeftAlone(l, id) {}
    } else if forall id :: LeftAlone(l, id) {
      forall id
        ensures id !in l.orphaned && (id in l.emptied ==> id in l.marked)
        ensures id in l.marked ==> id in l.unlinked + l.emptied
      {
        assert LeftAlone(l, id);
      }
    }
  }

  lemma OrphansHaveNoRow(digest: Payload -> Digest, a: Archive, id: ReplayId)
    requires Inv(digest, a) && HasReplay(a.rows, id)
    ensures id !in a.ledger.orphaned && (id in a.ledger.unlinked ==> id in a.ledger.marked)
  {
  }

  // ---------------------------------------------------------------- the steps that leave a difference

  datatype Event = Orphans | Empties | Marks | Unlinks

  /**
   What an ending does to the replay with this id. A blob is orphaned when the reply to its put is
   lost, the pool fails, or the failure path of an insert without effect fails; a row is emptied when
   the failure path of an insert that took effect removes the blob; a deletion marks the row, and
   removes the blob, unless the operation fails without effect.
   */
  ghost predicate Does(a: Archive, step: Step, what: Event, id: ReplayId) {
    && step.Advance? && step.job in a.jobs
    && match a.jobs[step.job]
       case Put(_) => what.Orphans? && id == a.nextId && step.ending.ReplyLost?
       case Connect(own, _) => what.Orphans? && id == own && !step.ending.Works?
       case RollBack(own, _, committed, _) => what.Orphans? && id == own && !committed && !step.ending.Works?
       case Discard(own, _, committed, _) =>
         id == own && if step.ending.Fails? then what.Orphans? && !committed else what.Empties? && committed
       case Mark(own, allowed) =>
         what.Marks? && id == own && allowed && HasReplay(a.rows, own) && !step.ending.Fails?
       case Unlink(own, _) => what.Unlinks? && id == own && !step.ending.Fails?
       case _ => false
  }

  /** Some step of the run does it. */
  ghost predicate Ever(digest: Payload -> Digest, steps: seq<Step>, what: Event, id: ReplayId) {
    exists k :: 0 <= k < |steps| && Does(Play(digest, steps[..k]), steps[k], what, id)
  }

  function Recorded(l: Ledger, what: Event): set<ReplayId> {
    match what
    case Orphans => l.orphaned
    case Empties => l.emptied
    case Marks => l.marked
    case Unlinks => l.unlinked
  }

  lemma WorkRecords(digest: Payload -> Digest, a: Archive, job: nat, ending: Ending, what: Event, id: ReplayId)
    requires job in a.jobs
    ensures
      id in Recorded(Work(digest, a, job, ending).ledger, what) <==>
        id in Recorded(a.ledger, what) || Does(a, Advance(job, ending), what, id)
  {
    hide HasReplay, Compared, LookedUp;
    match a.jobs[job]
    case Mark(_, _) => hide PutBlob, TakeBack, GiveUp, InsertRow, UnlinkBlob;
    case Unlink(_, _) => hide PutBlob, TakeBack, GiveUp, InsertRow, MarkRow;
    case Put(_) => hide TakeBack, GiveUp, InsertRow, MarkRow, UnlinkBlob;
    case _ => hide PutBlob, MarkRow, UnlinkBlob;
  }

  lemma NextRecords(digest: Payload -> Digest, a: Archive, step: Step, what: Event, id: ReplayId)
    ensures
      id in Recorded(Next(digest, a, step).ledger, what) <==> id in Recorded(a.ledger, what) || Does(a, step, what, id)
  {
    hide Work, HasReplay;
    if step.Advance? && step.job in a.jobs { WorkRecords(digest, a, step.job, step.ending, what, id); }
  }

  /** The ledger records exactly what the steps of the run did. */
  lemma {:induction false} LedgerRecords(digest: Payload -> Digest, steps: seq<Step>, what: Event, id: ReplayId)
    ensures id in Recorded(Play(digest, steps).ledger, what) <==> Ever(digest, steps, what, id)
  {
    hide Next, Does;
    if steps != [] {
      var n := |steps| - 1;
      LedgerRecords(digest, steps[..n], what, id);
      NextRecords(digest, Play(digest, steps[..n]), steps[n], what, id);
      assert forall k :: 0 <= k <= n ==> steps[..n][..k] == steps[..k];
      if Ever(digest, steps[..n], what, id) {
        var k :| 0 <= k < n && Does(Play(digest, steps[..n][..k]), steps[..n][k], what, id);
        assert Does(Play(digest, steps[..k]), steps[k], what, id);
      }
      if Ever(digest, steps, what, id) {
        var k :| 0 <= k < |steps| && Does(Play(digest, steps[..k]), steps[k], what, id);
        assert k < n ==> Does(Play(digest, steps[..n][..k]), steps[..n][k], what, id);
      }
    }
  }

  /** The endings of the run leave no difference for this replay. */
  ghost predicate LeavesNothing(digest: Payload -> Digest, steps: seq<Step>, id: ReplayId) {
    && !Ever(digest, steps, Orphans, id)
    && (Ever(digest, steps, Empties, id) ==> Ever(digest, steps, Marks, id))
    && (Ever(digest, steps, Marks, id) ==> Ever(digest, steps, Unlinks, id) || Ever(digest, steps, Empties, id))
  }

  /**
   After any interleaving of ingests and deletes, whatever fails on the way, once no request is in
   flight: the blobs are exactly those of the live rows if and only if no step orphaned a blob, every
   row whose blob was taken back was deleted too, and every deletion reached its blob.
   */
  lemma BlobsMatchRowsAtRest(digest: Payload -> Digest, steps: seq<Step>)
    requires AtRest(Play(digest, steps))
    ensures
      var a := Play(digest, steps);
      (forall id :: id in a.blobs <==> IsLive(a, id)) <==> (forall id :: LeavesNothing(digest, steps, id))
  {
    LedgerTells(digest, steps);
    var l := Play(digest, steps).ledger;
    hide Play, IsLive, AtRest, Ever;
    forall id
      ensures
        LeavesNothing(digest, steps, id) <==>
          && id !in l.orphaned && (id in l.emptied ==> id in l.marked)
          && (id in l.marked ==> id in l.unlinked + l.emptied)
    {
      LedgerRecords(digest, steps, Orphans, id);
      LedgerRecords(digest, steps, Empties, id);
      LedgerRecords(digest, steps, Marks, id);
      LedgerRecords(digest, steps, Unlinks, id);
    }
    hide LeavesNothing;
    if NothingLeft(l) {
      forall id ensures LeavesNothing(digest, steps, id) {}
    } else {
      var id :| || id in l.orphaned || (id in l.emptied && id !in l.marked)
                || (id in l.marked && id !in l.unlinked + l.emptied);
      assert !LeavesNothing(digest, steps, id);
    }
  }

  /**
   At any time, a live row lacks its blob exactly when a lost commit reply made a request take it
   back; a blob that is there has the stored digest.
   */
  lemma LiveRowsHaveBlobs(digest: Payload -> Digest, steps: seq<Step>, m: MatchId)
    requires m in Play(digest, steps).rows
    ensures
      var a := Play(digest, steps);
      var row := a.rows[m];
      && (!row.deleted ==> (row.replayId in a.blobs <==> !Ever(digest, steps, Empties, row.replayId)))
      && (row.replayId in a.blobs ==> digest(a.blobs[row.replayId]) == row.digest)
  {
    PlayKeepsInv(digest, steps);
    var a := Play(digest, steps);
    LedgerRecords(digest, steps, Empties, a.rows[m].replayId);
    assert RowOk(digest, a, a.rows[m]);
    hide Play, BlobsOk, OwnersOk, HasReplay, Ever;
  }

  // ---------------------------------------------------------------- runs without failures

  /** Without failures nothing is orphaned or taken back, and each deletion is on its way to its blob. */
  ghost predicate CleanOk(a: Archive) {
    a.ledger.faulted == {} ==>
      && a.ledger.orphaned == {} && a.ledger.emptied == {}
      && (forall k :: k in a.jobs && Owner(a.jobs[k]) ==> !Stored(a.jobs[k]))
      && (forall id :: id in a.ledger.marked && id !in a.ledger.unlinked ==>
            exists k :: k in a.jobs && a.jobs[k].Unlink? && a.jobs[k].replayId == id)
  }

  lemma WorkKeepsClean(digest: Payload -> Digest, a: Archive, job: nat)
    requires CleanOk(a) && job in a.jobs
    ensures CleanOk(Work(digest, a, job, Works))
  {
    hide HasReplay;
    var after := Work(digest, a, job, Works);
    if after.ledger.faulted == {} {
      forall id | id in after.ledger.marked && id !in after.ledger.unlinked
        ensures exists k :: k in after.jobs && after.jobs[k].Unlink? && after.jobs[k].replayId == id
      {
        if id in a.ledger.marked {
          var k :| k in a.jobs && a.jobs[k].Unlink? && a.jobs[k].replayId == id;
          assert after.jobs[k] == a.jobs[k];
        } else {
          assert after.jobs[job].Unlink? && after.jobs[job].replayId == id;
        }
      }
    }
  }

  lemma NextKeepsClean(digest: Payload -> Digest, a: Archive, step: Step)
    requires CleanOk(a)
    ensures CleanOk(Next(digest, a, step))
  {
    if step.Advance? && step.job in a.jobs {
      hide Work, CleanOk;
      if step.ending.Works? { WorkKeepsClean(digest, a, step.job); }
      else { FaultedIsClean(digest, a, step.job, step.ending); }
    } else {
      hide Work;
      StartKeepsClean(digest, a, step);
    }
  }

  lemma FaultedIsClean(digest: Payload -> Digest, a: Archive, job: nat, ending: Ending)
    requires job in a.jobs && !ending.Works?
    ensures CleanOk(Noted(Work(digest, a, job, ending), job, ending))
  {
    hide Work;
    assert job in Noted(Work(digest, a, job, ending), job, ending).ledger.faulted;
  }

  lemma StartKeepsClean(digest: Payload -> Digest, a: Archive, step: Step)
    requires CleanOk(a) && !(step.Advance? && step.job in a.jobs)
    ensures CleanOk(Next(digest, a, step))
  {
    hide Work;
    var after := Next(digest, a, step);
    if after.ledger.faulted == {} {
      forall id | id in after.ledger.marked && id !in after.ledger.unlinked
        ensures exists k :: k in after.jobs && after.jobs[k].Unlink? && after.jobs[k].replayId == id
      {
        var k :| k in a.jobs && a.jobs[k].Unlink? && a.jobs[k].replayId == id;
        assert after.jobs[k] == a.jobs[k];
      }
    }
  }

  lemma {:induction false} PlayKeepsClean(digest: Payload -> Digest, steps: seq<Step>)
    ensures CleanOk(Play(digest, steps))
  {
    if steps != [] {
      hide CleanOk, Next;
      PlayKeepsClean(digest, steps[..|steps| - 1]);
      NextKeepsClean(digest, Play(digest, steps[..|steps| - 1]), steps[|steps| - 1]);
    }
  }

  lemma {:induction false} NothingFaults(digest: Payload -> Digest, steps: seq<Step>)
    requires forall k :: 0 <= k < |steps| && steps[k].Advance? ==> steps[k].ending.Works?
    ensures Play(digest, steps).ledger.faulted == {}
  {
    if steps != [] {
      hide Work;
      NothingFaults(digest, steps[..|steps| - 1]);
    }
  }

  /** When no operation fails, the blobs at rest are exactly those of the live rows. */
  lemma NoFailureNoDifference(digest: Payload -> Digest, steps: seq<Step>)
    requires AtRest(Play(digest, steps))
    requires forall k :: 0 <= k < |steps| && steps[k].Advance? ==> steps[k].ending.Works?
    ensures var a := Play(digest, steps); forall id :: id in a.blobs <==> IsLive(a, id)
  {
    NothingFaults(digest, steps);
    PlayKeepsClean(digest, steps);
    LedgerTells(digest, steps);
    hide Play, IsLive;
  }

  // ---------------------------------------------------------------- what failures leave

  /** A request on its own, from its first step, with these endings. */
  function Alone(job: nat, start: Step, endings: seq<Ending>): seq<Step> {
    [start] + seq(|endings|, i requires 0 <= i < |endings| => Advance(job, endings[i]))
  }

  lemma PlayAlone(digest: Payload -> Digest, start: Step, endings: seq<Ending>, last: Ending)
    ensures
      Play(digest, Alone(0, start, endings + [last])) ==
        Next(digest, Play(digest, Alone(0, start, endings)), Advance(0, last))
  {
    var longer := Alone(0, start, endings + [last]);
    assert longer[..|longer| - 1] == Alone(0, start, endings);
  }

  /** The first request after its blob is stored. */
  function FirstPut(u: Upload): Archive {
    Archive(map[], map[0 := u.payload], map[0 := Connect(0, u)], 1, Ledger({}, {}, {}, {}, {}))
  }

  lemma PlayFirstPut(digest: Payload -> Digest, u: Upload)
    ensures Play(digest, Alone(0, StartIngest(0, u), [Works])) == FirstPut(u)
  {
    var start := StartIngest(0, u);
    assert Alone(0, start, [])[..0] == [];
    assert Play(digest, Alone(0, start, [])) == Next(digest, Empty(), start);
    assert [] + [Works] == [Works];
    PlayAlone(digest, start, [], Works);
  }

  /** The connection pool fails after the blob is stored: a blob without a row. */
  lemma PoolFailureOrphans(digest: Payload -> Digest, u: Upload)
    ensures
      var a := Play(digest, Alone(0, StartIngest(0, u), [Works, Fails]));
      AtRest(a) && 0 in a.blobs && !HasReplay(a.rows, 0)
  {
    PlayFirstPut(digest, u);
    assert [Works] + [Fails] == [Works, Fails];
    PlayAlone(digest, StartIngest(0, u), [Works], Fails);
  }

  /** The first request after the reply to its commit was lost. */
  function FirstLostCommit(digest: Payload -> Digest, u: Upload): Archive {
    Archive(map[u.matchId := Row(0, u.header, digest(u.payload), false)], map[0 := u.payload],
            map[0 := RollBack(0, u, true, false)], 1, Ledger({}, {}, {}, {}, {0}))
  }

  lemma PlayLostCommit(digest: Payload -> Digest, u: Upload)
    ensures Play(digest, Alone(0, StartIngest(0, u), [Works, Works, ReplyLost])) == FirstLostCommit(digest, u)
  {
    var start := StartIngest(0, u);
    PlayFirstPut(digest, u);
    hide Play;
    assert [Works] + [Works] == [Works, Works];
    PlayAlone(digest, start, [Works], Works);
    assert [Works, Works] + [ReplyLost] == [Works, Works, ReplyLost];
    PlayAlone(digest, start, [Works, Works], ReplyLost);
  }

  /** The reply to the commit is lost, and the failure path removes the blob of the stored row. */
  lemma LostCommitEmpties(digest: Payload -> Digest, u: Upload)
    ensures
      var a := Play(digest, Alone(0, StartIngest(0, u), [Works, Works, ReplyLost, Works, Works]));
      AtRest(a) && IsLive(a, 0) && 0 !in a.blobs
  {
    var start := StartIngest(0, u);
    PlayLostCommit(digest, u);
    hide Play;
    assert [Works, Works, ReplyLost] + [Works] == [Works, Works, ReplyLost, Works];
    PlayAlone(digest, start, [Works, Works, ReplyLost], Works);
    assert [Works, Works, ReplyLost, Works] + [Works] == [Works, Works, ReplyLost, Works, Works];
    PlayAlone(digest, start, [Works, Works, ReplyLost, Works], Works);
    var a := Play(digest, Alone(0, start, [Works, Works, ReplyLost, Works, Works]));
    assert u.matchId in a.rows && a.rows[u.matchId].replayId == 0;
  }

  // ---------------------------------------------------------------- rows are permanent

  /** The row is still there, and at most has been deleted. */
  predicate Kept(before: Archive, after: Archive, m: MatchId)
    requires m in before.rows
  {
    && m in after.rows && after.rows[m] == before.rows[m].(deleted := after.rows[m].deleted)
    && (before.rows[m].deleted ==> after.rows[m].deleted)
  }

  lemma WorkKeepsRows(digest: Payload -> Digest, a: Archive, job: nat, ending: Ending, m: MatchId)
    requires job in a.jobs && m in a.rows
    ensures Kept(a, Work(digest, a, job, ending), m)
  {
    hide Compared, LookedUp;
    if !a.jobs[job].Insert? && !a.jobs[job].Mark? { assert Work(digest, a, job, ending).rows == a.rows; }
  }

  lemma NextKeepsRows(digest: Payload -> Digest, a: Archive, step: Step, m: MatchId)
    requires m in a.rows
    ensures Kept(a, Next(digest, a, step), m)
  {
    hide Work;
    if step.Advance? && step.job in a.jobs { WorkKeepsRows(digest, a, step.job, step.ending, m); }
  }

  /** Rows are never removed or replaced, and a deleted one is never live again. */
  lemma {:induction false} DeletedStaysDeleted(digest: Payload -> Digest, before: seq<Step>, after: seq<Step>,
                                               m: MatchId)
    requires m in Play(digest, before).rows
    ensures
      var old', new' := Play(digest, before), Play(digest, before + after);
      && m in new'.rows && new'.rows[m] == old'.rows[m].(deleted := new'.rows[m].deleted)
      && (old'.rows[m].deleted ==> new'.rows[m].deleted)
    decreases |after|
  {
    hide Next;
    if after == [] {
      assert before + after == before;
    } else {
      var n := |after| - 1;
      DeletedStaysDeleted(digest, before, after[..n], m);
      assert (before + after)[..|before + after| - 1] == before + after[..n];
      NextKeepsRows(digest, Play(digest, before + after[..n]), after[n], m);
    }
  }

  // ---------------------------------------------------------------- repeated uploads

  predicate SameIdentity(digest: Payload -> Digest, row: Row, u: Upload) {
    row.header == u.header && row.digest == digest(u.payload)
  }

  /** What a request may be told that uploads for a match whose row was `first` when it started. */
  predicate Told(digest: Payload -> Digest, a: Archive, job: nat, first: Row, u: Upload, reply: Reply)
    requires u.matchId in a.rows
  {
    match reply
    case Existing(id) => !first.deleted && id == first.replayId && SameIdentity(digest, first, u)
    case IdentityConflict => !first.deleted && !SameIdentity(digest, first, u)
    case WasDeleted => a.rows[u.matchId].deleted
    case MissingPayload =>
      !first.deleted && (a.rows[u.matchId].deleted || first.replayId in a.ledger.emptied || job in a.ledger.faulted)
    case Failed => job in a.ledger.faulted
    case _ => false
  }

  /** Where such a request may stand. */
  predicate Follows(digest: Payload -> Digest, a: Archive, job: nat, first: Row, u: Upload) {
    && u.matchId in a.rows && a.rows[u.matchId] == first.(deleted := a.rows[u.matchId].deleted)
    && (first.deleted ==> a.rows[u.matchId].deleted) && job in a.jobs
    && match a.jobs[job]
       case Put(v) => v == u
       case Connect(_, v) => v == u
       case Insert(_, v) => v == u
       case RollBack(_, v, committed, duplicate) => v == u && !committed && (!duplicate ==> job in a.ledger.faulted)
       case Discard(_, v, committed, duplicate) => v == u && !committed && (!duplicate ==> job in a.ledger.faulted)
       case LookUp(v) => v == u
       case Compare(row, v) => v == u && !first.deleted && row.replayId == first.replayId && row.header == first.header
       case Done(reply) => Told(digest, a, job, first, u, reply)
       case _ => false
  }

  /** Comparing: a blob that is there has the digest of the row. */
  lemma CompareFollows(digest: Payload -> Digest, a: Archive, job: nat, ending: Ending, first: Row, u: Upload)
    requires Inv(digest, a) && Follows(digest, a, job, first, u) && a.jobs[job].Compare?
    ensures Follows(digest, Noted(Work(digest, a, job, ending), job, ending), job, first, u)
  {
    assert RowOk(digest, a, a.rows[u.matchId]);
    assert a.ledger.unlinked <= a.ledger.marked;
    hide Inv, HasReplay;
  }

  lemma PathFollows(digest: Payload -> Digest, a: Archive, job: nat, ending: Ending, first: Row, u: Upload)
    requires Follows(digest, a, job, first, u) && !a.jobs[job].Compare? && !a.jobs[job].Done?
    ensures Follows(digest, Noted(Work(digest, a, job, ending), job, ending), job, first, u)
  {
    hide HasReplay, Compared, MarkRow, UnlinkBlob;
  }

  lemma DoneFollows(digest: Payload -> Digest, a: Archive, job: nat, ending: Ending, first: Row, u: Upload)
    requires Follows(digest, a, job, first, u) && a.jobs[job].Done?
    ensures Follows(digest, Noted(Work(digest, a, job, ending), job, ending), job, first, u)
  {
  }

  lemma WorkFollows(digest: Payload -> Digest, a: Archive, job: nat, ending: Ending, first: Row, u: Upload)
    requires Inv(digest, a) && Follows(digest, a, job, first, u)
    ensures Follows(digest, Noted(Work(digest, a, job, ending), job, ending), job, first, u)
  {
    assert job in a.jobs;
    hide Inv, Work, Follows, Noted;
    match a.jobs[job]
    case Compare(_, _) => CompareFollows(digest, a, job, ending, first, u);
    case Done(_) => DoneFollows(digest, a, job, ending, first, u);
    case _ => PathFollows(digest, a, job, ending, first, u);
  }

  /** A step of another request takes nothing back. */
  lemma OthersLeave(digest: Payload -> Digest, a: Archive, step: Step, job: nat)
    requires job in a.jobs && !(step.Advance? && step.job == job)
    ensures
      var after := Next(digest, a, step);
      && job in after.jobs && after.jobs[job] == a.jobs[job]
      && a.ledger.emptied <= after.ledger.emptied && a.ledger.faulted <= after.ledger.faulted
  {
    hide Work;
  }

  lemma NextFollows(digest: Payload -> Digest, a: Archive, step: Step, job: nat, first: Row, u: Upload)
    requires Inv(digest, a) && Follows(digest, a, job, first, u)
    ensures Follows(digest, Next(digest, a, step), job, first, u)
  {
    if step.Advance? && step.job == job {
      WorkFollows(digest, a, job, step.ending, first, u);
    } else {
      NextKeepsRows(digest, a, step, u.matchId);
      OthersLeave(digest, a, step, job);
      hide Next, Inv;
    }
  }

  lemma {:induction false} PlayFollows(digest: Payload -> Digest, before: seq<Step>, after: seq<Step>, job: nat,
                                       first: Row, u: Upload)
    requires Follows(digest, Play(digest, before), job, first, u)
    ensures Follows(digest, Play(digest, before + after), job, first, u)
    decreases |after|
  {
    hide Next, Follows, Inv;
    if after == [] {
      assert before + after == before;
    } else {
      var n := |after| - 1;
      PlayFollows(digest, before, after[..n], job, first, u);
      assert (before + after)[..|before + after| - 1] == before + after[..n];
      PlayKeepsInv(digest, before + after[..n]);
      NextFollows(digest, Play(digest, before + after[..n]), after[n], job, first, u);
    }
  }

  /**
   Uploading for a match that has a row, whatever other requests do meanwhile and whatever fails:
   the row stays as it was except that it may be deleted; an equal replay is told the first replay id
   and a different one the conflict, unless the row was deleted, its blob is gone, or an
   operation of this very request failed.
   */
  lemma RepeatedUploadIsTold(digest: Payload -> Digest, before: seq<Step>, after: seq<Step>, job: nat, u: Upload)
    requires var a := Play(digest, before); u.matchId in a.rows && job !in a.jobs
    ensures
      var first := Play(digest, before).rows[u.matchId];
      var end := Play(digest, before + [StartIngest(job, u)] + after);
      && u.matchId in end.rows && end.rows[u.matchId] == first.(deleted := end.rows[u.matchId].deleted)
      && job in end.jobs
      && (end.jobs[job].Done? ==> Told(digest, end, job, first, u, end.jobs[job].reply))
  {
    var started := before + [StartIngest(job, u)];
    assert started[..|started| - 1] == before;
    var first := Play(digest, before).rows[u.matchId];
    assert Follows(digest, Play(digest, started), job, first, u) by { hide Work; }
    PlayFollows(digest, started, after, job, first, u);
    hide Play, Told;
  }

  /** When nothing was deleted, lost or failed, a repeated upload of the same replay returns the first id. */
  lemma ReingestReturnsFirst(digest: Payload -> Digest, before: seq<Step>, after: seq<Step>, job: nat, u: Upload)
    requires
      var a := Play(digest, before);
      u.matchId in a.rows && job !in a.jobs && SameIdentity(digest, a.rows[u.matchId], u)
    requires
      var end := Play(digest, before + [StartIngest(job, u)] + after);
      && job in end.jobs && end.jobs[job].Done? && job !in end.ledger.faulted
      && u.matchId in end.rows && !end.rows[u.matchId].deleted && end.rows[u.matchId].replayId !in end.ledger.emptied
    ensures
      var end := Play(digest, before + [StartIngest(job, u)] + after);
      end.jobs[job] == Done(Existing(Play(digest, before).rows[u.matchId].replayId))
  {
    RepeatedUploadIsTold(digest, before, after, job, u);
    hide Play;
  }

  /** A match that was deleted refuses every later upload. */
  lemma ReingestAfterDelete(digest: Payload -> Digest, before: seq<Step>, after: seq<Step>, job: nat, u: Upload)
    requires
      var a := Play(digest, before);
      u.matchId in a.rows && job !in a.jobs && a.rows[u.matchId].deleted
    ensures
      var end := Play(digest, before + [StartIngest(job, u)] + after);
      && job in end.jobs
      && (end.jobs[job].Done? ==>
            end.jobs[job].reply == WasDeleted || (end.jobs[job].reply == Failed && job in end.ledger.faulted))
      && u.matchId in end.rows && end.rows[u.matchId] == Play(digest, before).rows[u.matchId]
  {
    RepeatedUploadIsTold(digest, before, after, job, u);
    DeletedStaysDeleted(digest, before, [StartIngest(job, u)] + after, u.matchId);
    assert before + [StartIngest(job, u)] + after == before + ([StartIngest(job, u)] + after);
    hide Play;
  }

  // ---------------------------------------------------------------- first uploads

  /** The row this upload asks for. */
  predicate Stores(digest: Payload -> Digest, a: Archive, id: ReplayId, u: Upload) {
    u.matchId in a.rows && a.rows[u.matchId].(deleted := false) == Row(id, u.header, digest(u.payload), false)
  }

  /** An ingest on its way, or what it was told: created only with its row stored. */
  predicate Ingesting(digest: Payload -> Digest, a: Archive, job: nat, u: Upload) {
    && job in a.jobs
    && match a.jobs[job]
       case Put(v) => v == u
       case Connect(_, v) => v == u
       case Insert(_, v) => v == u
       case RollBack(_, v, _, _) => v == u
       case Discard(_, v, _, _) => v == u
       case LookUp(v) => v == u
       case Compare(_, v) => v == u
       case Done(reply) => reply.Created? ==> Stores(digest, a, reply.replayId, u)
       case _ => false
  }

  lemma WorkKeepsIngesting(digest: Payload -> Digest, a: Archive, job: nat, ending: Ending, u: Upload)
    requires Ingesting(digest, a, job, u)
    ensures Ingesting(digest, Work(digest, a, job, ending), job, u)
  {
    hide HasReplay, MarkRow, UnlinkBlob;
  }

  lemma NextKeepsIngesting(digest: Payload -> Digest, a: Archive, step: Step, job: nat, u: Upload)
    requires Ingesting(digest, a, job, u)
    ensures Ingesting(digest, Next(digest, a, step), job, u)
  {
    if step.Advance? && step.job == job {
      WorkKeepsIngesting(digest, a, job, step.ending, u);
      hide Work;
    } else {
      OthersLeave(digest, a, step, job);
      if u.matchId in a.rows { NextKeepsRows(digest, a, step, u.matchId); }
      hide Next;
    }
  }

  lemma {:induction false} PlayKeepsIngesting(digest: Payload -> Digest, before: seq<Step>, after: seq<Step>,
                                              job: nat, u: Upload)
    requires Ingesting(digest, Play(digest, before), job, u)
    ensures Ingesting(digest, Play(digest, before + after), job, u)
    decreases |after|
  {
    hide Next, Ingesting;
    if after == [] {
      assert before + after == before;
    } else {
      var n := |after| - 1;
      PlayKeepsIngesting(digest, before, after[..n], job, u);
      assert (before + after)[..|before + after| - 1] == before + after[..n];
      NextKeepsIngesting(digest, Play(digest, before + after[..n]), after[n], job, u);
    }
  }

  /** Whoever is told that a replay was created has its row stored, with the header and the digest uploaded. */
  lemma CreatedIsStored(digest: Payload -> Digest, before: seq<Step>, after: seq<Step>, job: nat, u: Upload)
    requires job !in Play(digest, before).jobs
    ensures
      var end := Play(digest, before + [StartIngest(job, u)] + after);
      && job in end.jobs
      && (end.jobs[job].Done? && end.jobs[job].reply.Created? ==>
            Stores(digest, end, end.jobs[job].reply.replayId, u))
  {
    var started := before + [StartIngest(job, u)];
    assert started[..|started| - 1] == before;
    assert Ingesting(digest, Play(digest, started), job, u) by { hide Work; }
    PlayKeepsIngesting(digest, started, after, job, u);
    hide Play;
  }

  // ---------------------------------------------------------------- what a deletion is told

  /** What a deletion may be told; `had`, `gone`: the replay existed, or was deleted, before it started. */
  ghost predicate ToldDeletion(a: Archive, job: nat, id: ReplayId, allowed: bool, had: bool, gone: bool, reply: Reply) {
    match reply
    case Deleted(already) =>
      allowed && HasReplay(a.rows, id) && id in a.ledger.marked && id in a.ledger.unlinked && (gone ==> already)
    case NotFound => !had
    case Forbidden => !allowed && HasReplay(a.rows, id)
    case Failed => job in a.ledger.faulted
    case _ => false
  }

  ghost predicate Deleting(a: Archive, job: nat, id: ReplayId, allowed: bool, had: bool, gone: bool) {
    && (had ==> HasReplay(a.rows, id)) && (gone ==> id in a.ledger.marked) && job in a.jobs
    && match a.jobs[job]
       case Mark(i, may) => i == id && may == allowed
       case Unlink(i, already) =>
         i == id && allowed && HasReplay(a.rows, id) && id in a.ledger.marked && (gone ==> already)
       case Done(reply) => ToldDeletion(a, job, id, allowed, had, gone, reply)
       case _ => false
  }

  /** A deletion that takes effect says whether the replay had been deleted before. */
  lemma MarkSays(digest: Payload -> Digest, a: Archive, job: nat)
    requires Inv(digest, a) && job in a.jobs && a.jobs[job].Mark? && a.jobs[job].allowed
    requires HasReplay(a.rows, a.jobs[job].replayId)
    ensures
      var id := a.jobs[job].replayId;
      Work(digest, a, job, Works).jobs[job] == Unlink(id, id in a.ledger.marked)
  {
    var id := a.jobs[job].replayId;
    assert RowOk(digest, a, a.rows[MatchOf(a.rows, id)]);
    hide Inv, HasReplay;
  }

  lemma MarkKeepsReplays(a: Archive, job: nat, id: ReplayId, allowed: bool, ending: Ending)
    ensures HasReplay(MarkRow(a, job, id, allowed, ending).rows, id) <==> HasReplay(a.rows, id)
  {
    var after := MarkRow(a, job, id, allowed, ending);
    if HasReplay(a.rows, id) {
      var m := MatchOf(a.rows, id);
      assert m in after.rows && after.rows[m].replayId == id;
    }
  }

  lemma MarkKeepsDeleting(digest: Payload -> Digest, a: Archive, job: nat, ending: Ending,
                          id: ReplayId, allowed: bool, had: bool, gone: bool)
    requires Inv(digest, a) && Deleting(a, job, id, allowed, had, gone) && a.jobs[job].Mark?
    ensures Deleting(Noted(MarkRow(a, job, id, allowed, ending), job, ending), job, id, allowed, had, gone)
  {
    hide Inv, HasReplay, MatchOf;
    MarkKeepsReplays(a, job, id, allowed, ending);
    if HasReplay(a.rows, id) { DeletedIsMarked(digest, a, id); }
  }

  lemma DeletedIsMarked(digest: Payload -> Digest, a: Archive, id: ReplayId)
    requires Inv(digest, a) && HasReplay(a.rows, id)
    ensures var m := MatchOf(a.rows, id); m in a.rows && (a.rows[m].deleted <==> id in a.ledger.marked)
  {
    assert RowOk(digest, a, a.rows[MatchOf(a.rows, id)]);
  }

  lemma UnlinkKeepsDeleting(a: Archive, job: nat, ending: Ending, already: bool,
                            id: ReplayId, allowed: bool, had: bool, gone: bool)
    requires Deleting(a, job, id, allowed, had, gone) && a.jobs[job] == Unlink(id, already)
    ensures Deleting(Noted(UnlinkBlob(a, job, id, already, ending), job, ending), job, id, allowed, had, gone)
  {
    hide HasReplay;
  }

  lemma WorkKeepsDeleting(digest: Payload -> Digest, a: Archive, job: nat, ending: Ending,
                          id: ReplayId, allowed: bool, had: bool, gone: bool)
    requires Inv(digest, a) && Deleting(a, job, id, allowed, had, gone)
    ensures Deleting(Noted(Work(digest, a, job, ending), job, ending), job, id, allowed, had, gone)
  {
    hide Inv, HasReplay, PutBlob, InsertRow, TakeBack, GiveUp, MarkRow, UnlinkBlob;
    if a.jobs[job].Mark? {
      MarkKeepsDeleting(digest, a, job, ending, id, allowed, had, gone);
    } else if a.jobs[job].Unlink? {
      UnlinkKeepsDeleting(a, job, ending, a.jobs[job].alreadyDeleted, id, allowed, had, gone);
    }
  }

  /** A step of another request neither removes the replay nor takes back what is recorded. */
  lemma OthersKeepRecords(digest: Payload -> Digest, a: Archive, step: Step, id: ReplayId)
    ensures
      var after := Next(digest, a, step);
      && (HasReplay(a.rows, id) ==> HasReplay(after.rows, id))
      && a.ledger.marked <= after.ledger.marked && a.ledger.unlinked <= after.ledger.unlinked
  {
    var after := Next(digest, a, step);
    if HasReplay(a.rows, id) {
      var m := MatchOf(a.rows, id);
      NextKeepsRows(digest, a, step, m);
      assert m in after.rows && after.rows[m].replayId == id;
    }
    forall x ensures x in a.ledger.marked ==> x in after.ledger.marked { NextRecords(digest, a, step, Marks, x); }
    forall x ensures x in a.ledger.unlinked ==> x in after.ledger.unlinked { NextRecords(digest, a, step, Unlinks, x); }
    hide Next;
  }

  lemma NextKeepsDeleting(digest: Payload -> Digest, a: Archive, step: Step, job: nat,
                          id: ReplayId, allowed: bool, had: bool, gone: bool)
    requires Inv(digest, a) && Deleting(a, job, id, allowed, had, gone)
    ensures Deleting(Next(digest, a, step), job, id, allowed, had, gone)
  {
    if step.Advance? && step.job == job {
      WorkKeepsDeleting(digest, a, job, step.ending, id, allowed, had, gone);
      hide Work, Noted, Inv, Deleting;
    } else {
      OthersLeave(digest, a, step, job);
      OthersKeepRecords(digest, a, step, id);
      hide Next, Inv, HasReplay;
    }
  }

  lemma {:induction false} PlayKeepsDeleting(digest: Payload -> Digest, before: seq<Step>, after: seq<Step>, job: nat,
                                             id: ReplayId, allowed: bool, had: bool, gone: bool)
    requires Deleting(Play(digest, before), job, id, allowed, had, gone)
    ensures Deleting(Play(digest, before + after), job, id, allowed, had, gone)
    decreases |after|
  {
    hide Next, Deleting, Inv;
    if after == [] {
      assert before + after == before;
    } else {
      var n := |after| - 1;
      PlayKeepsDeleting(digest, before, after[..n], job, id, allowed, had, gone);
      assert (before + after)[..|before + after| - 1] == before + after[..n];
      PlayKeepsInv(digest, before + after[..n]);
      NextKeepsDeleting(digest, Play(digest, before + after[..n]), after[n], job, id, allowed, had, gone);
    }
  }

  /**
   What a deletion is told, whatever others do and whatever fails. A success means that the caller was
   allowed to and the row is deleted and without its blob for good; not found, that there was none
   when it started; forbidden, that the caller was not allowed; a failure, that an operation of this
   very request failed.
   */
  lemma DeletionIsTold(digest: Payload -> Digest, before: seq<Step>, after: seq<Step>, job: nat,
                       id: ReplayId, allowed: bool)
    requires job !in Play(digest, before).jobs
    ensures
      var start, end := Play(digest, before), Play(digest, before + [StartDelete(job, id, allowed)] + after);
      && job in end.jobs
      && (end.jobs[job].Done? ==>
            match end.jobs[job].reply
            case Deleted(already) =>
              && allowed && HasReplay(end.rows, id) && !IsLive(end, id) && id !in end.blobs
              && (HasReplay(start.rows, id) && !IsLive(start, id) ==> already)
            case NotFound => !HasReplay(start.rows, id)
            case Forbidden => !allowed && HasReplay(end.rows, id)
            case Failed => job in end.ledger.faulted
            case _ => false)
  {
    var start, started := Play(digest, before), before + [StartDelete(job, id, allowed)];
    assert started[..|started| - 1] == before;
    var had, gone := HasReplay(start.rows, id), id in start.ledger.marked;
    assert Deleting(Play(digest, started), job, id, allowed, had, gone) by { hide Work; }
    PlayKeepsDeleting(digest, started, after, job, id, allowed, had, gone);
    PlayKeepsInv(digest, started + after);
    PlayKeepsInv(digest, before);
    hide Play, Inv;
    if had { ReplayAtAnyTime(digest, start, id); }
    var end := Play(digest, started + after);
    if HasReplay(end.rows, id) { ReplayAtAnyTime(digest, end, id); }
    hide HasReplay, IsLive;
  }

  lemma ReplayAtAnyTime(digest: Payload -> Digest, a: Archive, id: ReplayId)
    requires Inv(digest, a) && HasReplay(a.rows, id)
    ensures IsLive(a, id) <==> id !in a.ledger.marked
    ensures id in a.ledger.unlinked ==> id !in a.blobs
  {
    RowAtRest(digest, a, MatchOf(a.rows, id));
    hide Inv, IsLive;
  }

  // ---------------------------------------------------------------- the routes

  /** How each awaited operation of one ingest ends, if it comes to it. */
  datatype IngestEndings = IngestEndings(
    put: Ending, connect: Ending, insert: Ending, rollBack: Ending, discard: Ending, lookUp: Ending, compare: Ending)

  /** The failure path of an ingest: roll back, take the blob back, and on a duplicate look and compare. */
  ghost function FailAlone(digest: Payload -> Digest, a: Archive, job: nat, e: IngestEndings): Archive
    requires job in a.jobs
  {
    var a1 := Work(digest, a, job, e.rollBack);
    var a2 := Work(digest, a1, job, e.discard);
    var a3 := Work(digest, a2, job, e.lookUp);
    Work(digest, a3, job, e.compare)
  }

  lemma FailShape(digest: Payload -> Digest, a: Archive, job: nat, e: IngestEndings)
    requires job in a.jobs && a.jobs[job].RollBack?
    ensures
      var j := a.jobs[job];
      var back := TakeBack(a, job, j.replayId, j.committed, LookUp(j.upload));
      var looked := LookedUp(back, j.upload, e.lookUp);
      FailAlone(digest, a, job, e) ==
        if !e.rollBack.Works? || e.discard.Fails? then GiveUp(a, job, j.replayId, j.committed)
        else if !e.discard.Works? || !j.duplicate then TakeBack(a, job, j.replayId, j.committed, Done(Failed))
        else if looked.Done? then SetJob(back, job, looked)
        else SetJob(back, job, Done(Compared(digest, back, looked.row, j.upload, e.compare)))
  {
    hide PutBlob, InsertRow, MarkRow, UnlinkBlob, Compared;
    var j := a.jobs[job];
    if e.rollBack.Works? {
      var next := Discard(j.replayId, j.upload, j.committed, j.duplicate);
      var a1 := SetJob(a, job, next);
      if e.discard.Fails? {
        SetJobTwice(if j.committed then a else Orphan(a, j.replayId), job, next, Done(Failed));
        assert Work(digest, a1, job, e.discard) == GiveUp(a, job, j.replayId, j.committed);
      } else {
        var k := if e.discard.Works? && j.duplicate then LookUp(j.upload) else Done(Failed);
        SetJobTwice(a, job, next, k);
        assert Work(digest, a1, job, e.discard) == TakeBack(a, job, j.replayId, j.committed, k);
        if k.LookUp? {
          var back := TakeBack(a, job, j.replayId, j.committed, k);
          var looked := LookedUp(back, j.upload, e.lookUp);
          assert Work(digest, back, job, e.lookUp) == SetJob(back, job, looked);
          if looked.Compare? {
            var reply := Compared(digest, SetJob(back, job, looked), looked.row, j.upload, e.compare);
            SetJobTwice(back, job, looked, Done(reply));
            SameComparison(digest, back, job, looked, e.compare);
          }
        }
      }
    }
  }

  lemma SameComparison(digest: Payload -> Digest, a: Archive, job: nat, j: Job, ending: Ending)
    requires j.Compare?
    ensures Compared(digest, SetJob(a, job, j), j.row, j.upload, ending) == Compared(digest, a, j.row, j.upload, ending)
  {
  }

  lemma SetJobTwice(a: Archive, job: nat, k: Job, l: Job)
    ensures SetJob(SetJob(a, job, k), job, l) == SetJob(a, job, l)
  {
    assert a.jobs[job := k][job := l] == a.jobs[job := l];
  }

  /** A whole ingest without interference. */
  ghost function IngestAlone(digest: Payload -> Digest, a: Archive, job: nat, u: Upload, e: IngestEndings): Archive {
    var a1 := Work(digest, SetJob(a, job, Put(u)), job, e.put);
    var a2 := Work(digest, a1, job, e.connect);
    var a3 := Work(digest, a2, job, e.insert);
    FailAlone(digest, a3, job, e)
  }

  ghost function DeleteAlone(digest: Payload -> Digest, a: Archive, job: nat, id: ReplayId, allowed: bool,
                             mark: Ending, unlink: Ending): Archive
  {
    Work(digest, Work(digest, SetJob(a, job, Mark(id, allowed)), job, mark), job, unlink)
  }

  lemma DoneStays(digest: Payload -> Digest, a: Archive, job: nat, e: IngestEndings)
    requires job in a.jobs && a.jobs[job].Done?
    ensures FailAlone(digest, a, job, e) == a
  {
  }

  /** The ingest and delete routes, each run on its own. */
  class Routes {
    const digest: Payload -> Digest
    var rows: map<MatchId, Row>
    var blobs: map<ReplayId, Payload>
    var nextId: ReplayId
    /** A record only. */
    ghost var ledger: Ledger

    constructor (digest: Payload -> Digest)
      ensures this.digest == digest && View(map[]) == Empty()
    {
      this.digest := digest;
      rows, blobs, nextId := map[], map[], 0;
      ledger := Ledger({}, {}, {}, {}, {});
    }

    ghost function View(jobs: map<nat, Job>): Archive
      reads this
    {
      Archive(rows, blobs, jobs, nextId, ledger)
    }

    /** Store the payload, insert the row, and on failure take the payload back. */
    method Ingest(u: Upload, e: IngestEndings) returns (reply: Reply)
      modifies this
      ensures
        var after := IngestAlone(digest, old(View(map[])), 0, u, e);
        0 in after.jobs && after.jobs[0] == Done(reply) && View(after.jobs) == after
    {
      hide FailAlone;
      var id := nextId;
      nextId := nextId + 1;
      ghost var start := SetJob(old(View(map[])), 0, Put(u));
      ghost var a1 := Work(digest, start, 0, e.put);
      if e.put.Fails? {
        DoneStays(digest, a1, 0, e);
        return Failed;
      }
      blobs := blobs[id := u.payload];
      if e.put.ReplyLost? {
        ledger := ledger.(orphaned := ledger.orphaned + {id});
        DoneStays(digest, a1, 0, e);
        return Failed;
      }
      ghost var a2 := Work(digest, a1, 0, e.connect);
      if !e.connect.Works? {
        ledger := ledger.(orphaned := ledger.orphaned + {id});
        DoneStays(digest, a2, 0, e);
        return Failed;
      }
      ghost var a3 := Work(digest, a2, 0, e.insert);
      var inserts := !e.insert.Fails? && u.matchId !in rows;
      var duplicate := e.insert.Works? && u.matchId in rows;
      if inserts {
        rows := rows[u.matchId := Row(id, u.header, digest(u.payload), false)];
        if e.insert.Works? {
          DoneStays(digest, a3, 0, e);
          return Created(id);
        }
      }
      assert a3 == View(map[0 := RollBack(id, u, inserts, duplicate)]);
      reply := Fail(id, u, inserts, duplicate, e);
    }

    /** The failure path. */
    method Fail(id: ReplayId, u: Upload, committed: bool, duplicate: bool, e: IngestEndings) returns (reply: Reply)
      modifies this`blobs, this`ledger
      ensures
        var after := FailAlone(digest, old(View(map[0 := RollBack(id, u, committed, duplicate)])), 0, e);
        0 in after.jobs && after.jobs[0] == Done(reply) && View(after.jobs) == after
    {
      hide FailAlone, Work;
      FailShape(digest, View(map[0 := RollBack(id, u, committed, duplicate)]), 0, e);
      if !e.rollBack.Works? || e.discard.Fails? {
        if !committed {
          ledger := ledger.(orphaned := ledger.orphaned + {id});
        }
        return Failed;
      }
      blobs := blobs - {id};
      if committed {
        ledger := ledger.(emptied := ledger.emptied + {id});
      }
      if !e.discard.Works? || !duplicate || !e.lookUp.Works? || u.matchId !in rows {
        return Failed;
      }
      var row := rows[u.matchId];
      if row.deleted {
        return WasDeleted;
      }
      if !e.compare.Works? || row.replayId !in blobs {
        return MissingPayload;
      }
      if row.header != u.header || digest(blobs[row.replayId]) != digest(u.payload) {
        return IdentityConflict;
      }
      return Existing(row.replayId);
    }

    /** Mark the row deleted in a transaction, then remove the payload. */
    method Delete(id: ReplayId, allowed: bool, mark: Ending, unlink: Ending) returns (reply: Reply)
      requires forall m, n :: m in rows && n in rows && rows[m].replayId == rows[n].replayId ==> m == n
      modifies this`rows, this`blobs, this`ledger
      ensures
        var after := DeleteAlone(digest, old(View(map[])), 0, id, allowed, mark, unlink);
        0 in after.jobs && after.jobs[0] == Done(reply) && View(after.jobs) == after
    {
      if mark.Fails? {
        return Failed;
      }
      if !HasReplay(rows, id) {
        return if mark.Works? then NotFound else Failed;
      }
      if !allowed {
        return if mark.Works? then Forbidden else Failed;
      }
      var m :| m in rows && rows[m].replayId == id;
      var alreadyDeleted := rows[m].deleted;
      rows := rows[m := rows[m].(deleted := true)];
      ledger := ledger.(marked := ledger.marked + {id});
      if !mark.Works? || unlink.Fails? {
        return Failed;
      }
      blobs := blobs - {id};
      ledger := ledger.(unlinked := ledger.unlinked + {id});
      reply := if unlink.Works? then Deleted(alreadyDeleted) else Failed;
    }
  }
}
