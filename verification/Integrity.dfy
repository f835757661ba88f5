/** Re-hashing the evidence blobs: `verify_single` and `sweep_all`. */
module Integrity {
  import opened Prelude
  import opened GraphDb
  import opened EvidenceKeys

  datatype HashMismatch = HashMismatch(evId: Id, caseId: CaseId, expected: string, actual: string)

  /** `get` raises when the object is missing. */
  datatype StorageError = NoSuchKey(key: string)

  method VerifySingle(hash: Hash, blobs: Bucket, ev: Evidence) returns (r: Result<Option<HashMismatch>, StorageError>)
    ensures r == Verified(hash, blobs, ev)
  {
    if ev.uri !in blobs {
      return Err(NoSuchKey(ev.uri));
    }
    var actual := hash(blobs[ev.uri]);
    if actual != ev.hash {
      return Ok(Some(HashMismatch(ev.id, ev.caseId, ev.hash, actual)));
    }
    r := Ok(None);
  }

  function Verified(hash: Hash, blobs: Bucket, ev: Evidence): Result<Option<HashMismatch>, StorageError> {
    if ev.uri !in blobs then Err(NoSuchKey(ev.uri))
    else if hash(blobs[ev.uri]) != ev.hash then
      Ok(Some(HashMismatch(ev.id, ev.caseId, ev.hash, hash(blobs[ev.uri]))))
    else Ok(None)
  }

  predicate AllStored(blobs: Bucket, rows: seq<Evidence>) {
    forall n :: 0 <= n < |rows| ==> rows[n].uri in blobs
  }

  function Mismatches(hash: Hash, blobs: Bucket, rows: seq<Evidence>): seq<HashMismatch>
    requires AllStored(blobs, rows)
  {
    if rows == [] then []
    else
      var init := rows[..|rows| - 1];
      var last := Verified(hash, blobs, rows[|rows| - 1]).value;
      Mismatches(hash, blobs, init) + if last.Some? then [last.value] else []
  }

  predicate ByTimestamp(rows: seq<Evidence>) {
    forall m, n :: 0 <= m < n < |rows| ==> rows[m].timestamp <= rows[n].timestamp
  }

  // ---------- Rows picked out of a table ----------

  /** The rows that satisfy `p`, in order. */
  function Where(rows: seq<Evidence>, p: Evidence -> bool): seq<Evidence> {
    if rows == [] then []
    else
      var last := rows[|rows| - 1];
      Where(rows[..|rows| - 1], p) + if p(last) then [last] else []
  }

  lemma {:induction false} WhereIsExact(rows: seq<Evidence>, p: Evidence -> bool, ev: Evidence)
    ensures multiset(Where(rows, p))[ev] == if p(ev) then multiset(rows)[ev] else 0
  {
    if rows != [] {
      var init, last := rows[..|rows| - 1], rows[|rows| - 1];
      assert rows == init + [last];
      WhereIsExact(init, p, ev);
    }
  }

  lemma {:induction false} WhereIsOrdered(rows: seq<Evidence>, p: Evidence -> bool)
    requires ByTimestamp(rows)
    ensures ByTimestamp(Where(rows, p))
  {
    if rows != [] {
      var init, last := rows[..|rows| - 1], rows[|rows| - 1];
      WhereIsOrdered(init, p);
      var kept := Where(init, p);
      forall n | 0 <= n < |kept| ensures kept[n].timestamp <= last.timestamp {
        WhereIsExact(init, p, kept[n]);
        assert multiset(kept)[kept[n]] > 0;
        assert kept[n] in init;
        var m :| 0 <= m < |init| && init[m] == kept[n];
        assert rows[m] == kept[n];
      }
    }
  }

  /** The object of this row does not hash to what the row records. */
  predicate Differs(hash: Hash, blobs: Bucket, ev: Evidence) {
    ev.uri in blobs && hash(blobs[ev.uri]) != ev.hash
  }

  function Failing(hash: Hash, blobs: Bucket, rows: seq<Evidence>): seq<Evidence> {
    Where(rows, ev => Differs(hash, blobs, ev))
  }

  /** The object of this row hashes to something else in `blobs'` than in `blobs`. */
  predicate Changed(hash: Hash, blobs: Bucket, blobs': Bucket, ev: Evidence) {
    ev.uri in blobs && ev.uri in blobs' && hash(blobs'[ev.uri]) != hash(blobs[ev.uri])
  }

  function Tampered(hash: Hash, blobs: Bucket, blobs': Bucket, rows: seq<Evidence>): seq<Evidence> {
    Where(rows, ev => Changed(hash, blobs, blobs', ev))
  }

  predicate Reports(hash: Hash, blobs: Bucket, found: seq<HashMismatch>, rows: seq<Evidence>) {
    && |found| == |rows|
    && forall n :: 0 <= n < |rows| ==>
                     rows[n].uri in blobs
                     && found[n] == HashMismatch(rows[n].id, rows[n].caseId, rows[n].hash, hash(blobs[rows[n].uri]))
  }

  /** A healthy ledger sweeps clean. */
  lemma {:induction false} HealthySweepIsEmpty(hash: Hash, blobs: Bucket, rows: seq<Evidence>)
    requires EvidenceIntact(hash, blobs, rows)
    ensures AllStored(blobs, rows) && Mismatches(hash, blobs, rows) == []
  {
    forall n | 0 <= n < |rows| ensures rows[n].uri in blobs {
      assert RowIntact(hash, blobs, rows[n]);
    }
    if rows != [] {
      assert forall n :: 0 <= n < |rows| - 1 ==> rows[..|rows| - 1][n] == rows[n];
      HealthySweepIsEmpty(hash, blobs, rows[..|rows| - 1]);
      assert RowIntact(hash, blobs, rows[|rows| - 1]);
    }
  }

  /** After any overwriting of the objects of a healthy ledger, the sweep reports exactly the rows
      whose object's hash changed, in the order of the records, with the expected and actual hash. */
  lemma {:induction false} SweepFindsTampering(hash: Hash, blobs: Bucket, blobs': Bucket, rows: seq<Evidence>)
    requires EvidenceIntact(hash, blobs, rows) && AllStored(blobs', rows)
    ensures AllStored(blobs, rows)
    ensures Reports(hash, blobs', Mismatches(hash, blobs', rows), Tampered(hash, blobs, blobs', rows))
  {
    forall n | 0 <= n < |rows| ensures rows[n].uri in blobs {
      assert RowIntact(hash, blobs, rows[n]);
    }
    if rows != [] {
      var init := rows[..|rows| - 1];
      assert forall n :: 0 <= n < |init| ==> init[n] == rows[n];
      SweepFindsTampering(hash, blobs, blobs', init);
      assert RowIntact(hash, blobs, rows[|rows| - 1]);
    }
  }

  /** Tampered rows are the changed ones, each as often as the table holds it. */
  lemma TamperedIsExact(hash: Hash, blobs: Bucket, blobs': Bucket, rows: seq<Evidence>, ev: Evidence)
    ensures multiset(Tampered(hash, blobs, blobs', rows))[ev] ==
            if Changed(hash, blobs, blobs', ev) then multiset(rows)[ev] else 0
  {
    WhereIsExact(rows, ev => Changed(hash, blobs, blobs', ev), ev);
  }

  /** The report comes in timestamp order. */
  lemma TamperedIsOrdered(hash: Hash, blobs: Bucket, blobs': Bucket, rows: seq<Evidence>)
    requires ByTimestamp(rows)
    ensures ByTimestamp(Tampered(hash, blobs, blobs', rows))
  {
    WhereIsOrdered(rows, ev => Changed(hash, blobs, blobs', ev));
  }

  // ---------- The sweep ----------

  /** Every report names a failing row, in order. */
  lemma {:induction false} MismatchesReport(hash: Hash, blobs: Bucket, rows: seq<Evidence>)
    requires AllStored(blobs, rows)
    ensures Reports(hash, blobs, Mismatches(hash, blobs, rows), Failing(hash, blobs, rows))
  {
    if rows != [] {
      assert forall n :: 0 <= n < |rows| - 1 ==> rows[..|rows| - 1][n] == rows[n];
      MismatchesReport(hash, blobs, rows[..|rows| - 1]);
    }
  }

  lemma SameStored(blobs: Bucket, rows: seq<Evidence>, rows': seq<Evidence>)
    requires multiset(rows) == multiset(rows')
    ensures AllStored(blobs, rows) <==> AllStored(blobs, rows')
  {
    forall ev ensures ev in rows <==> ev in rows' {
      assert ev in multiset(rows) <==> ev in multiset(rows');
    }
    assert forall n :: 0 <= n < |rows| ==> rows[n] in rows';
    assert forall n :: 0 <= n < |rows'| ==> rows'[n] in rows;
  }

  /** `records` is what the ordered SELECT returns for the evidence table. The sweep raises exactly when
      an object of the table is missing; else it reports exactly the rows of the table whose object does
      not hash to what they record, each as often as it is there, in timestamp order. */
  method SweepAll(hash: Hash, blobs: Bucket, ghost table: seq<Evidence>, records: seq<Evidence>)
    returns (r: Result<seq<HashMismatch>, StorageError>)
    requires multiset(records) == multiset(table) && ByTimestamp(records)
    ensures r.Ok? <==> AllStored(blobs, table)
    ensures r.Ok? <==> AllStored(blobs, records)
    ensures r.Ok? ==>
              var failing := Failing(hash, blobs, records);
              && r.value == Mismatches(hash, blobs, records) && Reports(hash, blobs, r.value, failing)
              && ByTimestamp(failing)
              && forall ev ::
                   multiset(failing)[ev] == if Differs(hash, blobs, ev) then multiset(table)[ev] else 0
  {
    SameStored(blobs, records, table);
    var mismatches := [];
    for i := 0 to |records|
      invariant AllStored(blobs, records[..i])
      invariant mismatches == Mismatches(hash, blobs, records[..i])
    {
      assert records[..i + 1][..i] == records[..i];
      var verified := VerifySingle(hash, blobs, records[i]);
      if verified.Err? {
        return Err(verified.error);
      }
      if verified.value.Some? {
        mismatches := mismatches + [verified.value.value];
      }
    }
    assert records[..|records|] == records;
    r := Ok(mismatches);
    MismatchesReport(hash, blobs, records);
    WhereIsOrdered(records, ev => Differs(hash, blobs, ev));
    forall ev ensures multiset(Failing(hash, blobs, records))[ev] ==
                      if Differs(hash, blobs, ev) then multiset(table)[ev] else 0
    {
      WhereIsExact(records, ev => Differs(hash, blobs, ev), ev);
    }
  }
}
