/** What crash recovery means for the tables: a reconcile of a stored run. */
module StoredRecovery {
  import opened Wrappers
  import opened Contracts
  import opened Ledger
  import opened Actors
  import opened ExclusiveDriver
  import opened CrashRecovery
  import opened Store
  import opened Controller

  /** On a run driven exclusively a completed reconcile reaches the state that the stored evidence determines. */
  lemma ReconcileSettlesStoredRun(table: ScoreTable, t0: Tables, t: Tables, id: string, child: Child, ok: bool)
    requires t0.Valid() && id in t0.runs && AtRest(t0.View(id)) && RanToEnd(table, t0, t, id, RecLoad, child, ok)
    ensures id in t.runs && t.Valid() && t.View(id).state == Settled(t0.View(id)) && !Active(t.View(id).state)
    ensures forall other <- t0.runs :: other != id ==> t.View(other) == t0.View(other)
  {
    RecoverySettles(table, t0.View(id), t.View(id), child);
  }

  lemma RecoverySettles(table: ScoreTable, r: Run, r': Run, child: Child)
    requires AtRest(r) && r' == Finish(table, r, RecLoad, child)
    ensures r'.state == Settled(r) && !Active(r'.state)
  {
    RecoveryFinishes(table, r, RecLoad, child);
  }
}
