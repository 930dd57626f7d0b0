/** The documents and chunks tables as the repositories use them. Each method is one transaction. */
module Sql {
  import opened Values
  import opened World

  ghost predicate IsMaxVid(rows: Rows, m: int) {
    && m >= -1
    && (forall c :: c in rows && rows[c].vid.Some? ==> rows[c].vid.value <= m)
    && (m >= 0 ==> exists c :: c in rows && rows[c].vid == Some(m))
  }

  /** COALESCE(MAX(vector_id), -1). */
  ghost function MaxVid(rows: Rows): (m: int)
    ensures IsMaxVid(rows, m)
  {
    MaxVidExists(rows);
    var m :| IsMaxVid(rows, m);
    m
  }

  lemma {:induction false} MaxVidExists(rows: Rows)
    ensures exists m :: IsMaxVid(rows, m)
    decreases |rows|
  {
    if rows == map[] {
      assert IsMaxVid(rows, -1);
    } else {
      var c :| c in rows;
      var rest := rows - {c};
      assert |rest| < |rows| by {
        assert rows.Keys == rest.Keys + {c};
      }
      MaxVidExists(rest);
      var m :| IsMaxVid(rest, m);
      assert forall x :: x in rest ==> x in rows && rows[x] == rest[x];
      var m' := if rows[c].vid.Some? && rows[c].vid.value > m then rows[c].vid.value else m;
      if m' == m && m >= 0 {
        var x :| x in rest && rest[x].vid == Some(m);
        assert x in rows && rows[x].vid == Some(m);
      }
      assert IsMaxVid(rows, m');
    }
  }

  lemma MaxVidUnique(rows: Rows, m: int)
    requires IsMaxVid(rows, m)
    ensures m == MaxVid(rows)
  {
    var k := MaxVid(rows);
    assert IsMaxVid(rows, k);
    if m >= 0 { var c :| c in rows && rows[c].vid == Some(m); }
    if k >= 0 { var c :| c in rows && rows[c].vid == Some(k); }
  }

  /** The hashes that make a new draft an exact duplicate: those of rows that are not duplicates. */
  function CanonicalHashes(rows: Rows): set<string> {
    set c | c in rows && !rows[c].dup :: rows[c].hash
  }

  /** Ids that no row has yet, each once. */
  predicate Unused(rows: Rows, ids: map<ChunkId, VectorId>) {
    && (forall a, b :: a in ids && b in ids && a != b ==> ids[a] != ids[b])
    && forall a, c :: a in ids && c in rows ==> rows[c].vid != Some(ids[a])
  }

  lemma AssignedVidsUnique(rows: Rows, ids: map<ChunkId, VectorId>)
    requires VidsUnique(rows) && Unused(rows, ids)
    ensures VidsUnique(WithIds(rows, ids))
  {
    var after := WithIds(rows, ids);
    forall a, b | a in after && b in after && a != b && after[a].vid.Some? && after[b].vid.Some?
      ensures after[a].vid != after[b].vid
    {
      assert after[a] == if a in ids then rows[a].(vid := Some(ids[a])) else rows[a];
      assert after[b] == if b in ids then rows[b].(vid := Some(ids[b])) else rows[b];
    }
  }

  class Database {
    var docs: map<DocId, Doc>
    var rows: Rows

    constructor (docs: map<DocId, Doc>, rows: Rows)
      ensures this.docs == docs && this.rows == rows
    {
      this.docs, this.rows := docs, rows;
    }

    method CreateDocument(d: DocId, created: nat)
      modifies this`docs
      ensures docs == old(docs)[d := Doc(Queued, created)]
    {
      docs := docs[d := Doc(Queued, created)];
    }

    method UpdateStatus(d: DocId, st: Status)
      modifies this`docs
      ensures docs == WithStatus(old(docs), d, st)
    {
      if d in docs {
        docs := docs[d := docs[d].(status := st)];
      }
    }

    /** Chunks go with their document (ON DELETE CASCADE), so none is left without one; where there is no
        document there is nothing to delete. */
    method DeleteDocument(d: DocId) returns (deleted: bool)
      modifies this
      ensures docs == old(docs) - {d} && rows == Others(old(rows), d)
      ensures old(OwnersExist(docs, rows)) ==> OwnersExist(docs, rows)
      ensures deleted == (d in old(docs)) && |docs| == |old(docs)| - if deleted then 1 else 0
      ensures old(OwnersExist(docs, rows)) && !deleted ==> docs == old(docs) && rows == old(rows)
    {
      deleted := d in docs;
      docs := docs - {d};
      rows := Others(rows, d);
      assert docs.Keys == old(docs).Keys - {d} && |docs| == |docs.Keys| && |old(docs)| == |old(docs).Keys|;
    }

    method BulkCreate(items: Rows)
      modifies this`rows
      ensures rows == old(rows) + items
    {
      rows := rows + items;
    }

    method MaxVectorId() returns (m: int)
      ensures m == MaxVid(rows)
    {
      m := -1;
      var left := rows.Keys;
      while left != {}
        invariant left <= rows.Keys
        invariant m >= -1
        invariant forall c :: c in rows && c !in left && rows[c].vid.Some? ==> rows[c].vid.value <= m
        invariant m >= 0 ==> exists c :: c in rows && rows[c].vid == Some(m)
        decreases left
      {
        var c :| c in left;
        left := left - {c};
        if rows[c].vid.Some? && rows[c].vid.value > m {
          m := rows[c].vid.value;
        }
      }
      MaxVidUnique(rows, m);
    }

    /** One update a pair: listed chunks that exist get their ids, nothing else changes, and ids that are
        distinct and in no row leave the column unique. */
    method AssignVectorIds(ids: map<ChunkId, VectorId>)
      modifies this`rows
      ensures rows == WithIds(old(rows), ids)
      ensures old(VidsUnique(rows)) && Unused(old(rows), ids) ==> VidsUnique(rows)
    {
      var left := ids.Keys;
      while left != {}
        invariant left <= ids.Keys && rows.Keys == old(rows).Keys
        invariant forall c :: c in rows && (c !in ids || c in left) ==> rows[c] == old(rows)[c]
        invariant forall c :: c in rows && c in ids && c !in left ==> rows[c] == old(rows)[c].(vid := Some(ids[c]))
        decreases left
      {
        var c :| c in left;
        left := left - {c};
        if c in rows { rows := rows[c := rows[c].(vid := Some(ids[c]))]; }
      }
      if old(VidsUnique(rows)) && Unused(old(rows), ids) { AssignedVidsUnique(old(rows), ids); }
    }

    /** The given hashes that some row, not itself a duplicate, already has. */
    method ExistingContentHashes(hashes: set<string>) returns (found: set<string>)
      ensures forall h :: h in found <==> h in hashes && exists c :: c in rows && !rows[c].dup && rows[c].hash == h
    {
      found := {};
      var left := rows.Keys;
      while left != {}
        invariant left <= rows.Keys
        invariant forall c :: c in rows && c !in left && !rows[c].dup && rows[c].hash in hashes ==>
                  rows[c].hash in found
        invariant forall h :: h in found ==> h in hashes && exists c :: c in rows && !rows[c].dup && rows[c].hash == h
        decreases left
      {
        var c :| c in left;
        left := left - {c};
        if !rows[c].dup && rows[c].hash in hashes { found := found + {rows[c].hash}; }
      }
    }

    method ListByDocument(d: DocId) returns (ids: set<ChunkId>)
      ensures ids == ChunksOfDoc(rows, d)
    {
      ids := ChunksOfDoc(rows, d);
    }

    /** Exactly the document's rows go; the row count says how many. */
    method DeleteByDocument(d: DocId) returns (removed: nat)
      modifies this`rows
      ensures rows == Others(old(rows), d)
      ensures forall c :: c in rows <==> c in old(rows) && old(rows)[c].doc != d
      ensures removed + |rows| == |old(rows)|
      ensures removed == |ChunksOfDoc(old(rows), d)|
    {
      var gone := ChunksOfDoc(rows, d);
      removed := |gone|;
      rows := Others(rows, d);
      assert old(rows).Keys == rows.Keys + gone && |rows| == |rows.Keys| && |old(rows)| == |old(rows).Keys|;
    }

    /** The startup mapping rows: one record per non-duplicate row that carries a vector id. */
    method ListMapped() returns (recs: seq<Record>)
      ensures forall i, j :: 0 <= i < j < |recs| ==> recs[i].chunk != recs[j].chunk
      ensures forall i :: 0 <= i < |recs| ==>
                var r := recs[i];
                r.chunk in Mapped(rows) && r.vid == Mapped(rows)[r.chunk] && r.doc == rows[r.chunk].doc
      ensures forall c :: c in Mapped(rows) ==> exists i :: 0 <= i < |recs| && recs[i].chunk == c
      ensures |recs| == |Mapped(rows)|
    {
      recs := [];
      var left := Mapped(rows).Keys;
      while left != {}
        invariant left <= Mapped(rows).Keys && |recs| + |left| == |Mapped(rows).Keys|
        invariant forall i, j :: 0 <= i < j < |recs| ==> recs[i].chunk != recs[j].chunk
        invariant forall i :: 0 <= i < |recs| ==>
                    var r := recs[i];
                    r.chunk in Mapped(rows) && r.chunk !in left
                    && r.vid == Mapped(rows)[r.chunk] && r.doc == rows[r.chunk].doc
        invariant forall c :: c in Mapped(rows) && c !in left ==> exists i :: 0 <= i < |recs| && recs[i].chunk == c
        decreases left
      {
        var c :| c in left;
        left := left - {c};
        ghost var before := recs;
        recs := recs + [Record(c, rows[c].doc, rows[c].vid.value, [])];
        assert recs[|before|].chunk == c;
        forall x | x in Mapped(rows) && x !in left ensures exists i :: 0 <= i < |recs| && recs[i].chunk == x {
          if x != c {
            var i :| 0 <= i < |before| && before[i].chunk == x;
            assert recs[i].chunk == x;
          }
        }
      }
    }
  }
}
