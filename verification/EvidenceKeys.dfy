/** Content-addressed blob keys, the bucket, and what an evidence row promises about it. */
module EvidenceKeys {
  import opened Prelude
  import opened GraphDb

  type Hash = Bytes -> string
  type Bucket = map<string, Bytes>

  function BuildKey(c: CaseId, hash: string): string {
    "case/" + c + "/ev/" + hash
  }

  /** A case id has a fixed length, so a key determines its case and its hash. */
  lemma BuildKeyInjective(c: CaseId, h: string, c': CaseId, h': string)
    requires BuildKey(c, h) == BuildKey(c', h')
    ensures c == c' && h == h'
  {
    var k, k' := BuildKey(c, h), BuildKey(c', h');
    assert k[5..41] == c && k'[5..41] == c';
    assert k[45..] == h && k'[45..] == h';
  }

  /** `put`: skip when an object of the same size is there, write otherwise. */
  function PutBlob(blobs: Bucket, key: string, data: Bytes): Bucket {
    if key in blobs && |blobs[key]| == |data| then blobs else blobs[key := data]
  }

  /** Every object under an evidence key hashes to the hash in its key. */
  ghost predicate KeysHonest(hash: Hash, blobs: Bucket) {
    forall c: CaseId, h :: BuildKey(c, h) in blobs ==> hash(blobs[BuildKey(c, h)]) == h
  }

  ghost predicate RowIntact(hash: Hash, blobs: Bucket, ev: Evidence) {
    ev.uri == BuildKey(ev.caseId, ev.hash) && ev.uri in blobs && hash(blobs[ev.uri]) == ev.hash
  }

  ghost predicate EvidenceIntact(hash: Hash, blobs: Bucket, rows: seq<Evidence>) {
    forall n :: 0 <= n < |rows| ==> RowIntact(hash, blobs, rows[n])
  }

  /** A put under a content key keeps every object honest and every row intact, whatever collides. */
  lemma PutKeepsHonest(hash: Hash, blobs: Bucket, c: CaseId, data: Bytes)
    requires KeysHonest(hash, blobs)
    ensures var blobs' := PutBlob(blobs, BuildKey(c, hash(data)), data);
            && KeysHonest(hash, blobs')
            && BuildKey(c, hash(data)) in blobs'
            && hash(blobs'[BuildKey(c, hash(data))]) == hash(data)
            && (forall rows: seq<Evidence> :: EvidenceIntact(hash, blobs, rows) ==> EvidenceIntact(hash, blobs', rows))
  {
    var key := BuildKey(c, hash(data));
    var blobs' := PutBlob(blobs, key, data);
    forall c': CaseId, h | BuildKey(c', h) in blobs'
      ensures hash(blobs'[BuildKey(c', h)]) == h
    {
      if BuildKey(c', h) == key {
        BuildKeyInjective(c', h, c, hash(data));
      }
    }
    forall rows: seq<Evidence> | EvidenceIntact(hash, blobs, rows)
      ensures EvidenceIntact(hash, blobs', rows)
    {
      forall n | 0 <= n < |rows| ensures RowIntact(hash, blobs', rows[n]) {
        assert RowIntact(hash, blobs, rows[n]);
        assert BuildKey(rows[n].caseId, rows[n].hash) in blobs';
      }
    }
  }
}
