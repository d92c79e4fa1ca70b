/** What the operator can know of the ledger: for each run its owner, its idempotency
    key and its status. The view only ever advances. */
module LedgerView {
  import opened Wrappers
  import L = Ledger
  import opened Status
  import Runtime

  datatype Run = Run(tenant: string, key: string, status: L.Status)

  type View = map<string, Run>

  function StatusName(status: L.Status): string {
    match status
    case Queued => "queued"
    case Running => "running"
    case Succeeded => "succeeded"
    case Failed => "failed"
    case Cancelled => "cancelled"
  }

  function PhaseOf(status: L.Status): Phase {
    match status
    case Queued => Queued
    case Running => Running
    case Succeeded => Succeeded
    case Failed => Failed
    case Cancelled => Cancelled
  }

  lemma LowerKeepsLowerCase(text: string)
    requires forall i :: 0 <= i < |text| ==> !('A' <= text[i] <= 'Z')
    ensures Runtime.Lower(text) == text
  {
  }

  /** The phase the operator projects is the ledger's status. */
  lemma NamesProject(status: L.Status)
    ensures ProjectPhase(StatusName(status)) == PhaseOf(status)
  {
    LowerKeepsLowerCase(StatusName(status));
  }

  ghost predicate RunOf(view: View, id: string, tenant: string, key: string) {
    id in view && view[id].tenant == tenant && view[id].key == key
  }

  ghost predicate Visible(view: View, id: string, tenant: string) {
    id in view && view[id].tenant == tenant
  }

  /** A tenant's key leads to one run. */
  ghost predicate UniqueKeys(view: View) {
    forall a, b :: a in view && b in view && view[a].tenant == view[b].tenant && view[a].key == view[b].key ==> a == b
  }

  ghost predicate StatusAdvances(a: L.Status, b: L.Status) {
    b == a || L.Rank(a) < L.Rank(b)
  }

  ghost predicate RunAdvances(a: View, b: View, id: string)
    requires id in a
  {
    id in b && b[id].tenant == a[id].tenant && b[id].key == a[id].key && StatusAdvances(a[id].status, b[id].status)
  }

  /** Runs stay, with their owner and key, and statuses only move forward. */
  ghost predicate Advances(a: View, b: View) {
    UniqueKeys(b) && forall id {:trigger RunAdvances(a, b, id)} :: id in a ==> RunAdvances(a, b, id)
  }
}
