/** The integrity sweep over everything the system can have recorded: clean on an untampered store, and
    exact on a tampered one. */
module Custody {
  import opened GraphDb
  import opened EvidenceKeys
  import opened Sessions
  import opened Integrity
  import Reachable

  /** What the ordered SELECT may return for the evidence table of a store. */
  predicate Selected(s: Store, records: seq<Evidence>) {
    multiset(records) == multiset(s.base.evidence) && ByTimestamp(records)
  }

  lemma SelectedIntact(hash: Hash, blobs: Bucket, table: seq<Evidence>, records: seq<Evidence>)
    requires EvidenceIntact(hash, blobs, table) && multiset(records) == multiset(table)
    ensures EvidenceIntact(hash, blobs, records)
  {
    forall n | 0 <= n < |records| ensures RowIntact(hash, blobs, records[n]) {
      assert records[n] in multiset(table);
      var m :| 0 <= m < |table| && table[m] == records[n];
      assert RowIntact(hash, blobs, table[m]);
    }
  }

  lemma ReachedIntact(env: Env, ops: seq<Reachable.Op>)
    ensures var s := Reachable.Steps(env, Reachable.INITIAL, ops).s; EvidenceIntact(env.hash, s.blobs, s.base.evidence)
  {
    Reachable.InitialInv(env);
    Reachable.StepsKeepInv(env, Reachable.INITIAL, ops);
  }

  /** Whatever was requested and whatever failed, a sweep of the store as the system left it raises
      nothing and reports nothing. */
  lemma UntamperedSweepsClean(env: Env, ops: seq<Reachable.Op>, records: seq<Evidence>)
    requires Selected(Reachable.Steps(env, Reachable.INITIAL, ops).s, records)
    ensures var s := Reachable.Steps(env, Reachable.INITIAL, ops).s;
            AllStored(s.blobs, records) && Mismatches(env.hash, s.blobs, records) == []
  {
    var s := Reachable.Steps(env, Reachable.INITIAL, ops).s;
    ReachedIntact(env, ops);
    SelectedIntact(env.hash, s.blobs, s.base.evidence, records);
    HealthySweepIsEmpty(env.hash, s.blobs, records);
  }

  /** After any overwriting of its objects that leaves none missing, the sweep reports exactly the rows of
      the table whose object's hash changed, each as often as the table holds it, in timestamp order. */
  lemma TamperedSweepIsExact(env: Env, ops: seq<Reachable.Op>, records: seq<Evidence>, blobs': Bucket)
    requires Selected(Reachable.Steps(env, Reachable.INITIAL, ops).s, records)
    requires AllStored(blobs', Reachable.Steps(env, Reachable.INITIAL, ops).s.base.evidence)
    ensures var s := Reachable.Steps(env, Reachable.INITIAL, ops).s;
            var bad := Tampered(env.hash, s.blobs, blobs', records);
            && AllStored(blobs', records)
            && Reports(env.hash, blobs', Mismatches(env.hash, blobs', records), bad) && ByTimestamp(bad)
            && forall ev ::
                 multiset(bad)[ev] ==
                 if Changed(env.hash, s.blobs, blobs', ev) then multiset(s.base.evidence)[ev] else 0
  {
    var s := Reachable.Steps(env, Reachable.INITIAL, ops).s;
    ReachedIntact(env, ops);
    SelectedIntact(env.hash, s.blobs, s.base.evidence, records);
    SameStored(blobs', records, s.base.evidence);
    SweepFindsTampering(env.hash, s.blobs, blobs', records);
    TamperedIsOrdered(env.hash, s.blobs, blobs', records);
    forall ev ensures multiset(Tampered(env.hash, s.blobs, blobs', records))[ev] ==
                      if Changed(env.hash, s.blobs, blobs', ev) then multiset(s.base.evidence)[ev] else 0
    {
      TamperedIsExact(env.hash, s.blobs, blobs', records, ev);
    }
  }
}
