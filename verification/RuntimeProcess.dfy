/**
 The same runtime as objects: the rows a checkpoint transaction writes, and the variables of one
 API process. Every method is proved to do to the object exactly what the matching function of
 `FencedRuntime` does to the value, so the theorems about runs speak about these methods.
 */
module RuntimeProcess {
  import opened Wrappers
  import opened MatchmakingService
  import opened FencedRuntime

  // ---------------------------------------------------------------- row by row

  /** The outbox once every captured decision outside `todo` is inserted. */
  ghost function WrittenBut(decisions: map<SessionId, Decision>, queued: map<SessionId, Tagged>, todo: set<SessionId>)
    : map<SessionId, Decision>
  {
    decisions + map id | id in queued && id !in todo :: queued[id].decision
  }

  lemma WrittenButOne(decisions: map<SessionId, Decision>, queued: map<SessionId, Tagged>, todo: set<SessionId>,
                      id: SessionId)
    requires id in todo && id in queued
    ensures id in WrittenBut(decisions, queued, todo) <==> id in decisions
    ensures id in decisions ==> WrittenBut(decisions, queued, todo)[id] == decisions[id]
    ensures WrittenBut(decisions, queued, todo - {id}) == WrittenBut(decisions, queued, todo)[id := queued[id].decision]
  {
  }

  lemma WrittenButEnds(decisions: map<SessionId, Decision>, queued: map<SessionId, Tagged>)
    ensures WrittenBut(decisions, queued, queued.Keys) == decisions
    ensures WrittenBut(decisions, queued, {}) == Written(decisions, queued)
  {
  }

  /** The pending map once every reported decision outside `todo` is queued. */
  ghost function QueuedBut(inst: Instance, reported: map<SessionId, Decision>, todo: set<SessionId>)
    : map<SessionId, Tagged>
  {
    inst.pending + map id | id in reported && id !in todo :: Tagged(inst.nextTag, reported[id])
  }

  lemma QueuedButOne(inst: Instance, reported: map<SessionId, Decision>, todo: set<SessionId>, id: SessionId)
    requires id in todo && id in reported
    ensures
      QueuedBut(inst, reported, todo - {id}) ==
        QueuedBut(inst, reported, todo)[id := Tagged(inst.nextTag, reported[id])]
  {
  }

  lemma QueuedButEnds(inst: Instance, reported: map<SessionId, Decision>)
    ensures QueuedBut(inst, reported, reported.Keys) == inst.pending
    ensures Enlist(inst, reported) == inst.(pending := QueuedBut(inst, reported, {}), nextTag := inst.nextTag + 1)
  {
  }

  /** The pending map once every written decision outside `todo` is forgotten. */
  ghost function ForgottenBut(pending: map<SessionId, Tagged>, written: map<SessionId, Tagged>, todo: set<SessionId>)
    : map<SessionId, Tagged>
  {
    map id | id in pending && !(id in written && id !in todo && written[id] == pending[id]) :: pending[id]
  }

  lemma ForgottenButOne(pending: map<SessionId, Tagged>, written: map<SessionId, Tagged>, todo: set<SessionId>,
                        id: SessionId)
    requires id in todo && id in written
    ensures
      var before := ForgottenBut(pending, written, todo);
      ForgottenBut(pending, written, todo - {id}) ==
        if id in before && before[id] == written[id] then before - {id} else before
  {
  }

  lemma ForgottenButEnds(svc: Service, inst: Instance)
    requires inst.chain != []
    ensures ForgottenBut(inst.pending, inst.chain[0].decisions, inst.chain[0].decisions.Keys) == inst.pending
    ensures ForgottenBut(inst.pending, inst.chain[0].decisions, {}) == Acknowledged(svc, inst).pending
  {
  }

  // ---------------------------------------------------------------- objects

  /** The database rows of one runtime namespace. */
  class RuntimeRows {
    const svc: Service
    var fence: nat
    var saved: Option<State>
    var access: AccessRows
    var decisions: map<SessionId, Decision>
    /** The operations behind the saved snapshot: a record only, never read by the program. */
    var log: seq<Event>

    constructor (svc: Service)
      ensures this.svc == svc && View() == Start(svc).store
    {
      this.svc := svc;
      fence, saved, access, decisions := 0, None, svc.access(svc.empty), map[];
      log := [];
    }

    ghost function View(): Store
      reads this
    {
      Store(fence, if saved.None? then None else Some(Stored(saved.value, log)), access, decisions)
    }

    /** Taking the lease counts the token up. */
    method AcquireFenceToken() returns (token: nat)
      modifies this`fence
      ensures token == old(fence) + 1 && View() == old(View()).(fence := token)
    {
      fence := fence + 1;
      token := fence;
    }

    /** Save a snapshot unless the token has been superseded. */
    method Save(snapshot: State, token: nat, trail: seq<Event>) returns (ok: bool)
      modifies this`saved, this`log
      ensures ok == (token == fence)
      ensures View() == if ok then old(View()).(saved := Some(Stored(snapshot, trail))) else old(View())
    {
      ok := token == fence;
      if ok {
        saved := Some(snapshot);
        log := trail;
      }
    }

    /** Insert one decision; an equal row is left alone, a different one is a conflict. */
    method Enqueue(id: SessionId, decision: Decision) returns (ok: bool)
      modifies this`decisions
      ensures ok == (id in old(decisions) ==> old(decisions)[id] == decision)
      ensures decisions == if ok then old(decisions)[id := decision] else old(decisions)
    {
      ok := id !in decisions || decisions[id] == decision;
      if id !in decisions {
        decisions := decisions[id := decision];
      }
    }

    /** Write every captured decision; stops at the first conflict. */
    method EnqueueAll(queued: map<SessionId, Tagged>) returns (ok: bool)
      modifies this`decisions
      ensures ok == !Conflicts(old(decisions), queued)
      ensures ok ==> decisions == Written(old(decisions), queued)
    {
      hide WrittenBut, Written;
      var todo := queued.Keys;
      ok := true;
      WrittenButEnds(decisions, queued);
      while todo != {}
        invariant todo <= queued.Keys && decisions == WrittenBut(old(decisions), queued, todo)
        invariant forall id :: id in queued && id !in todo && id in old(decisions) ==>
          old(decisions)[id] == queued[id].decision
        decreases |todo|
      {
        var id :| id in todo;
        WrittenButOne(old(decisions), queued, todo, id);
        ok := Enqueue(id, queued[id].decision);
        if !ok {
          return;
        }
        todo := todo - {id};
      }
    }

    /** One checkpoint transaction: all of it, or nothing. */
    method Commit(c: Checkpoint) returns (ok: bool)
      modifies this`saved, this`log, this`access, this`decisions
      ensures ok == Accepts(old(View()), c)
      ensures View() == if ok then Saved(svc, old(View()), c) else old(View())
    {
      var before := (saved, access, decisions);
      var logBefore := log;
      ok := Save(c.snapshot, c.fence, c.trail);
      if ok {
        access := svc.access(c.snapshot.queue);
        ok := EnqueueAll(c.decisions);
      }
      if !ok {
        saved, access, decisions := before.0, before.1, before.2;
        log := logBefore;
      }
    }
  }

  /** The variables of one API process. */
  class Process {
    const svc: Service
    var memory: State
    var pending: map<SessionId, Tagged>
    var nextTag: nat
    var lastFingerprint: Option<Fingerprint>
    /** Checkpoints run one after the other; the first one is next. */
    var chain: seq<Checkpoint>
    /** The operations behind `memory`: a record only, never read by the program. */
    var trail: seq<Event>

    constructor (svc: Service)
      ensures this.svc == svc && View() == Fresh(svc)
    {
      this.svc := svc;
      memory, pending, nextTag, lastFingerprint, chain := Initial(svc), map[], 0, None, [];
      trail := [];
    }

    ghost function View(): Instance
      reads this
    {
      Instance(memory, trail, pending, nextTag, lastFingerprint, chain)
    }

    /** Queue decisions one by one, each replacing an older object for its session. */
    method EnlistAll(reported: map<SessionId, Decision>)
      modifies this`pending, this`nextTag
      ensures View() == Enlist(old(View()), reported)
    {
      hide QueuedBut, Enlist;
      var todo := reported.Keys;
      QueuedButEnds(View(), reported);
      while todo != {}
        invariant todo <= reported.Keys && nextTag == old(nextTag)
        invariant pending == QueuedBut(old(View()), reported, todo)
        decreases |todo|
      {
        var id :| id in todo;
        QueuedButOne(old(View()), reported, todo, id);
        pending := pending[id := Tagged(nextTag, reported[id])];
        todo := todo - {id};
      }
      nextTag := nextTag + 1;
    }

    /** One call into the service, with its resolution callbacks. */
    method Perform(e: Event)
      modifies this`memory, this`trail, this`pending, this`nextTag
      ensures View() == Performed(svc, old(View()), e)
    {
      var o := MatchmakingService.Perform(svc, memory, e.op);
      memory := o.state;
      trail := trail + [e];
      EnlistAll(o.reported);
    }

    /** Reload: take over the stored snapshot, clean up, and queue what its sessions warrant. */
    method Refresh(stored: Option<Stored>, restore: Event, read: Event)
      requires restore.op.Restored? && read.op.Tick?
      modifies this`memory, this`trail, this`pending, this`nextTag, this`lastFingerprint
      ensures
        var installed := Installed(svc, old(View()), stored);
        var reread := Performed(svc, Performed(svc, installed, restore), read);
        View() == if stored.None? then installed else Enlist(reread, svc.warranted(reread.memory.queue))
    {
      hide Performed, Enlist;
      match stored
      case None => lastFingerprint := None;
      case Some(s) =>
        lastFingerprint := Some(svc.fingerprint(s.snapshot));
        memory := s.snapshot;
        trail := s.log;
        EnlistAll(svc.warranted(s.snapshot.queue));
        Perform(restore);
        Perform(read);
        EnlistAll(svc.warranted(memory.queue));
    }

    /** Capture memory and pending decisions now and queue the checkpoint behind the others. */
    method Persist(fence: nat, final: bool)
      modifies this`chain
      ensures View() == old(View()).(chain := old(chain) + [Captured(old(View()), fence, final)])
    {
      chain := chain + [Checkpoint(fence, final, memory, trail, pending, false)];
    }

    /** The checkpoint at the end of a request: clean up, then write only what has changed. */
    method PersistIfChanged(fence: nat, tick: Event) returns (skipped: bool)
      requires tick.op.Tick?
      modifies this`memory, this`trail, this`pending, this`nextTag, this`chain
      ensures
        var ticked := Performed(svc, old(View()), tick);
        && skipped == Unchanged(svc, ticked)
        && View() == if skipped then ticked else ticked.(chain := ticked.chain + [Captured(ticked, fence, true)])
    {
      Perform(tick);
      skipped := lastFingerprint == Some(svc.fingerprint(memory)) && pending == map[];
      if !skipped {
        Persist(fence, true);
      }
    }

    /** Run the transaction of the first checkpoint; a rejected one leaves the chain. */
    method RunHead(rows: RuntimeRows) returns (ok: bool)
      requires chain != [] && rows.svc == svc
      modifies this`chain, rows`saved, rows`log, rows`access, rows`decisions
      ensures ok == Accepts(old(rows.View()), old(chain[0]))
      ensures rows.View() == if ok then Saved(svc, old(rows.View()), old(chain[0])) else old(rows.View())
      ensures View() == old(View()).(
        chain := if ok then old(chain)[0 := old(chain[0]).(committed := true)] else old(chain)[1..])
    {
      ok := rows.Commit(chain[0]);
      chain := if ok then chain[0 := chain[0].(committed := true)] else chain[1..];
    }

    /** After the reply: remember the fingerprint and forget the objects that were written. */
    method AcknowledgeHead()
      requires chain != []
      modifies this`lastFingerprint, this`pending, this`chain
      ensures View() == Acknowledged(svc, old(View()))
    {
      hide ForgottenBut;
      var c := chain[0];
      ForgottenButEnds(svc, View());
      lastFingerprint := Some(svc.fingerprint(c.snapshot));
      var todo := c.decisions.Keys;
      while todo != {}
        invariant todo <= c.decisions.Keys
        invariant chain == old(chain) && lastFingerprint == Some(svc.fingerprint(c.snapshot))
        invariant pending == ForgottenBut(old(pending), c.decisions, todo)
        decreases |todo|
      {
        var id :| id in todo;
        ForgottenButOne(old(pending), c.decisions, todo, id);
        if id in pending && pending[id] == c.decisions[id] {
          pending := pending - {id};
        }
        todo := todo - {id};
      }
      chain := chain[1..];
    }
  }
}
