/** The backend provides the ledger the operator assumes: its steps advance the view,
    and its answers are about the run as it then is. */
module BackendLedger {
  import opened Wrappers
  import L = Ledger
  import opened LedgerView
  import Protocol
  import ProtocolSafety
  import Kahn

  ghost function ViewOf(s: Protocol.MemSys): View {
    map id | id in s.mem.runs && id in s.threads.execs ::
      Run(s.mem.runs[id].tenant, s.threads.execs[id].key, s.mem.runs[id].status)
  }

  lemma ViewKeysUnique(s: Protocol.MemSys)
    requires ProtocolSafety.SysInv(s)
    ensures UniqueKeys(ViewOf(s))
  {
    forall a, b | a in ViewOf(s) && b in ViewOf(s) && ViewOf(s)[a].tenant == ViewOf(s)[b].tenant && ViewOf(s)[a].key == ViewOf(s)[b].key
      ensures a == b
    {
      assert ProtocolSafety.RunOk(s, a) && ProtocolSafety.RunOk(s, b);
    }
  }

  /** Every backend step, by whatever request or thread, advances the view. */
  lemma BackendAdvances(s: Protocol.MemSys, event: Protocol.Event)
    requires ProtocolSafety.SysInv(s) && Protocol.MemEnabled(s, event)
    ensures ProtocolSafety.SysInv(Protocol.MemNext(s, event))
    ensures Advances(ViewOf(s), ViewOf(Protocol.MemNext(s, event)))
  {
    ProtocolSafety.StepIsGood(s, event);
    var s' := Protocol.MemNext(s, event);
    ViewKeysUnique(s');
    forall id | id in ViewOf(s) ensures RunAdvances(ViewOf(s), ViewOf(s'), id) {
      assert ProtocolSafety.RunEvolves(s, s', id);
    }
  }

  /** A submission is answered with the run of its tenant and key, as it then is. */
  lemma SubmitAnswers(s: Protocol.MemSys, event: Protocol.Event)
    requires ProtocolSafety.SysInv(s) && Protocol.MemEnabled(s, event) && event.ApiSubmit?
    requires Protocol.CallOf(s.threads, event).Some?
    ensures var reply, view := Protocol.MemCall(s, event).1, ViewOf(Protocol.MemNext(s, event));
      && reply.Submitted? && reply.run.id != ""
      && RunOf(view, reply.run.id, event.tenant, event.key) && reply.run.status == view[reply.run.id].status
  {
    hide Kahn.Order;
    if (event.tenant, event.key) in s.mem.idempotency {
      assert ProtocolSafety.KeyOk(s, (event.tenant, event.key));
      assert ProtocolSafety.RunOk(s, s.mem.idempotency[(event.tenant, event.key)]);
    }
  }

  lemma KeepsIdentity(s: Protocol.MemSys, id: string)
    requires ProtocolSafety.SysInv(s)
    ensures id in s.mem.runs <==> id in s.threads.execs
    ensures id in s.mem.runs ==> s.mem.runs[id].id == id
  {
    if id in s.mem.runs { assert ProtocolSafety.RunOk(s, id); }
  }

  /** Reads and cancellations are answered with the run as it then is, or not at all
      exactly when the tenant has no such run; a cancelled run is terminal. */
  lemma CallAnswers(s: Protocol.MemSys, event: Protocol.Event)
    requires ProtocolSafety.SysInv(s) && Protocol.MemEnabled(s, event)
    requires event.ApiCall? && event.tenant != "" && (event.op.Get? || event.op.Cancel?)
    ensures var reply, view := Protocol.MemCall(s, event).1, ViewOf(Protocol.MemNext(s, event));
      && reply.Shown?
      && (reply.snapshot.Some? <==> Visible(ViewOf(s), event.id, event.tenant))
      && (reply.snapshot.Some? ==>
            && Visible(view, event.id, event.tenant)
            && reply.snapshot.value.id == event.id && reply.snapshot.value.status == view[event.id].status)
      && (event.op.Cancel? && reply.snapshot.Some? ==> L.Terminal(view[event.id].status))
  {
    KeepsIdentity(s, event.id);
    hide ProtocolSafety.SysInv;
    hide Protocol.MemNext;
  }
}
