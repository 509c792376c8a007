/** How appending one transaction to a ledger can end, and what a loss of power leaves of what was written. */
module Journal {
  /** Synced; refused before anything was written; or failed part way, which a later scan sees whole or not at all. */
  datatype WriteOutcome = Written | Refused | Torn(present: bool)

  /** What survives is at least what was synced and at most what was written. */
  function Surviving(written: nat, synced: nat, kept: nat): (count: nat)
    ensures count <= written && (synced <= written ==> synced <= count)
  {
    var wanted := if kept < synced then synced else kept;
    if wanted <= written then wanted else written
  }
}
