/** The knowledge store: the `knowledgebase` table (id, content, embedding)
    behind a bounded connection pool. Inserts and nearest-neighbour queries
    acquire a connection, open a cursor, run one statement inside
    try/finally and hand the connection back. */
module Db {
  import opened Blocks

  type Uuid = string

  /** A fixed-dimension vector; its entries are never computed with here. */
  type Embedding = seq<real>

  /** The distance operator of the vector index, left uninterpreted. Being a
      `nat`, it is never negative. */
  type Distance = (Embedding, Embedding) -> nat

  datatype Record = Record(id: Uuid, content: string, embedding: Embedding)

  /** One item of a query result: the selected distance column is dropped. */
  datatype Row = Row(id: Uuid, content: string)

  const MaxConnections: nat := 8

  const PoolExhaustedError := "connection pool exhausted"
  const DuplicateKeyError := "duplicate key value violates unique constraint"

  /** The first step of a store call that raises, if one does, with the
      message it raises. */
  datatype Fault =
    | NoFault
    | ConnectFails(message: string)
    | CursorFails(message: string)
    | ExecuteFails(message: string)
    | CommitFails(message: string)

  predicate HasId(table: seq<Record>, id: Uuid) {
    exists k :: 0 <= k < |table| && table[k].id == id
  }

  /** `id` is the table's primary key. */
  ghost predicate UniqueIds(table: seq<Record>) {
    forall i, j :: 0 <= i < j < |table| ==> table[i].id != table[j].id
  }

  /** Connections a call takes from the pool and never returns: `cursor()`
      runs after `getconn()` but before the `try`, so when it raises the
      connection is not handed back. */
  function Leaked(free: nat, fault: Fault): nat {
    if free > 0 && fault.CursorFails? then 1 else 0
  }

  /** Distance of the k-th record to the query vector. */
  function DistanceAt(table: seq<Record>, query: Embedding, dist: Distance, k: nat): nat
    requires k < |table|
  {
    dist(table[k].embedding, query)
  }

  function Min(a: nat, b: nat): nat {
    if a <= b then a else b
  }

  /** `idx` picks the rows `ORDER BY distance ASC LIMIT limit` may return:
      as many as the limit allows, each record at most once, in ascending
      distance, and no record left out is nearer than one picked. Ties may
      be broken either way. */
  ghost predicate IsNearest(table: seq<Record>, query: Embedding, limit: nat, dist: Distance, idx: seq<nat>) {
    |idx| == Min(limit, |table|) && NearestFirst(table, query, dist, idx)
  }

  /** `idx` lists distinct positions of the table in ascending distance, and
      no position left out is nearer than one listed. */
  ghost predicate NearestFirst(table: seq<Record>, query: Embedding, dist: Distance, idx: seq<nat>) {
    && (forall i :: 0 <= i < |idx| ==> idx[i] < |table|)
    && (forall i, j :: 0 <= i < j < |idx| ==> idx[i] != idx[j])
    && (forall i, j :: 0 <= i < j < |idx| ==>
          DistanceAt(table, query, dist, idx[i]) <= DistanceAt(table, query, dist, idx[j]))
    && (forall i, k :: 0 <= i < |idx| && 0 <= k < |table| && k !in idx ==>
          DistanceAt(table, query, dist, idx[i]) <= DistanceAt(table, query, dist, k))
  }

  /** The list comprehension that keeps the id and content of each fetched
      row, in fetch order. */
  function Project(table: seq<Record>, idx: seq<nat>): (rows: seq<Row>)
    requires forall i :: 0 <= i < |idx| ==> idx[i] < |table|
    ensures |rows| == |idx|
    ensures forall i :: 0 <= i < |idx| ==> rows[i] == Row(table[idx[i]].id, table[idx[i]].content)
  {
    if idx == [] then [] else Project(table, idx[..|idx| - 1]) + [Row(table[idx[|idx| - 1]].id, table[idx[|idx| - 1]].content)]
  }

  /** Pigeonhole: fewer than `n` distinct positions below `n` miss one. */
  lemma {:induction false} MissingPosition(idx: seq<nat>, n: nat) returns (k: nat)
    requires forall i :: 0 <= i < |idx| ==> idx[i] < n
    requires forall i, j :: 0 <= i < j < |idx| ==> idx[i] != idx[j]
    requires |idx| < n
    ensures k < n && k !in idx
  {
    if n - 1 !in idx {
      return n - 1;
    }
    var p :| 0 <= p < |idx| && idx[p] == n - 1;
    var rest := idx[..p] + idx[p + 1..];
    assert forall i :: 0 <= i < |rest| ==> rest[i] == if i < p then idx[i] else idx[i + 1];
    k := MissingPosition(rest, n - 1);
    assert forall i :: 0 <= i < |idx| && i != p ==> idx[i] in rest by {
      forall i | 0 <= i < |idx| && i != p ensures idx[i] in rest {
        if i < p { assert rest[i] == idx[i]; } else { assert rest[i - 1] == idx[i]; }
      }
    }
  }

  /** One scan of the table for the nearest record not picked yet, the
      lowest position first among equals. */
  method NearestUnpicked(table: seq<Record>, query: Embedding, dist: Distance, idx: seq<nat>) returns (best: nat)
    requires exists k :: 0 <= k < |table| && k !in idx
    ensures best < |table| && best !in idx
    ensures forall k :: 0 <= k < |table| && k !in idx ==>
      DistanceAt(table, query, dist, best) <= DistanceAt(table, query, dist, k)
  {
    var found := false;
    best := 0;
    var j := 0;
    while j < |table|
      invariant 0 <= j <= |table|
      invariant !found ==> forall k :: 0 <= k < j ==> k in idx
      invariant found ==> best < |table| && best !in idx
      invariant found ==> forall k :: 0 <= k < j && k !in idx ==>
        DistanceAt(table, query, dist, best) <= DistanceAt(table, query, dist, k)
    {
      if j !in idx && (!found || DistanceAt(table, query, dist, j) < DistanceAt(table, query, dist, best)) {
        best, found := j, true;
      }
      j := j + 1;
    }
  }

  /** Appending the nearest position not listed yet keeps the list nearest
      first. */
  lemma PickNearest(table: seq<Record>, query: Embedding, dist: Distance, idx: seq<nat>, best: nat)
    requires NearestFirst(table, query, dist, idx)
    requires best < |table| && best !in idx
    requires forall k :: 0 <= k < |table| && k !in idx ==>
      DistanceAt(table, query, dist, best) <= DistanceAt(table, query, dist, k)
    ensures NearestFirst(table, query, dist, idx + [best])
  {
    var idx' := idx + [best];
    forall i, k | 0 <= i < |idx'| && 0 <= k < |table| && k !in idx'
      ensures DistanceAt(table, query, dist, idx'[i]) <= DistanceAt(table, query, dist, k)
    {
      assert k !in idx;
      if i < |idx| { assert idx'[i] == idx[i]; }
    }
    forall i, j | 0 <= i < j < |idx'|
      ensures DistanceAt(table, query, dist, idx'[i]) <= DistanceAt(table, query, dist, idx'[j])
    {
      if j == |idx| { assert idx'[i] == idx[i] && best !in idx; }
    }
  }

  /** The database side of the SELECT: repeatedly pick the nearest record
      not picked yet until the limit or the table is exhausted. */
  method SelectNearest(table: seq<Record>, query: Embedding, limit: nat, dist: Distance) returns (idx: seq<nat>)
    ensures IsNearest(table, query, limit, dist, idx)
  {
    idx := [];
    while |idx| < limit && |idx| < |table|
      invariant |idx| <= Min(limit, |table|)
      invariant NearestFirst(table, query, dist, idx)
      decreases |table| - |idx|
    {
      ghost var some := MissingPosition(idx, |table|);
      var best := NearestUnpicked(table, query, dist, idx);
      PickNearest(table, query, dist, idx, best);
      idx := idx + [best];
    }
  }

  /** A nearest-neighbour query for the vector of a stored record finds that
      record first when it is the only one at distance zero from it. */
  lemma ZeroDistanceComesFirst(table: seq<Record>, query: Embedding, limit: nat, dist: Distance, idx: seq<nat>, k0: nat)
    requires IsNearest(table, query, limit, dist, idx)
    requires limit > 0 && k0 < |table|
    requires DistanceAt(table, query, dist, k0) == 0
    requires forall k :: 0 <= k < |table| && k != k0 ==> DistanceAt(table, query, dist, k) > 0
    ensures |idx| > 0 && idx[0] == k0
    ensures Project(table, idx)[0] == Row(table[k0].id, table[k0].content)
  {
  }

  class KnowledgeStore {
    /** The committed rows of `knowledgebase`, in insertion order. */
    var table: seq<Record>
    /** Connections the pool can still hand out. */
    var free: nat

    ghost predicate Valid()
      reads this
    {
      free <= MaxConnections && UniqueIds(table)
    }

    /** A freshly built pool over the rows `knowledgebase` already holds:
        every connection is free. */
    constructor (rows: seq<Record>)
      requires UniqueIds(rows)
      ensures Valid() && table == rows && free == MaxConnections
    {
      table := rows;
      free := MaxConnections;
    }

    /** `pool.getconn()`: raises when every connection is handed out, or
        when opening a connection fails. */
    method GetConn(fault: Fault) returns (r: Result<()>)
      requires Valid()
      modifies this`free
      ensures Valid()
      ensures r.Success? <==> old(free) > 0 && !fault.ConnectFails?
      ensures old(free) == 0 ==> r == Failure(PoolExhaustedError)
      ensures free == if r.Success? then old(free) - 1 else old(free)
    {
      if free == 0 {
        return Failure(PoolExhaustedError);
      }
      if fault.ConnectFails? {
        return Failure(fault.message);
      }
      free := free - 1;
      r := Success(());
    }

    /** `pool.putconn(conn)`. */
    method PutConn()
      requires Valid() && free < MaxConnections
      modifies this`free
      ensures Valid() && free == old(free) + 1
    {
      free := free + 1;
    }

    /** `create_db_record`: the id is drawn before the pool is touched and is
        the one returned; the row is visible only once execute and commit
        both succeed; the connection goes back to the pool on every path
        through the `try`. */
    method CreateRecord(newId: Uuid, content: string, embedding: Embedding, fault: Fault) returns (r: Result<Uuid>)
      requires Valid()
      modifies this
      ensures Valid()
      ensures r.Success? <==> old(free) > 0 && fault == NoFault && !HasId(old(table), newId)
      ensures r.Success? ==> r.value == newId && table == old(table) + [Record(newId, content, embedding)]
      ensures r.Failure? ==> table == old(table)
      ensures free == old(free) - Leaked(old(free), fault)
    {
      var conn := GetConn(fault);
      if conn.Failure? {
        return Failure(conn.error);
      }
      if fault.CursorFails? {
        return Failure(fault.message);
      }
      // try:
      if fault.ExecuteFails? {
        r := Failure(fault.message);
      } else if HasId(table, newId) {
        r := Failure(DuplicateKeyError);
      } else if fault.CommitFails? {
        r := Failure(fault.message);
      } else {
        table := table + [Record(newId, content, embedding)];
        r := Success(newId);
      }
      // finally:
      PutConn();
    }

    /** `get_db_records_by_embedding`: at most `limit` rows nearest to the
        query, nearest first, each reduced to its id and content. */
    method GetRecordsByEmbedding(query: Embedding, limit: nat, dist: Distance, fault: Fault)
      returns (r: Result<seq<Row>>, ghost fetched: seq<nat>)
      requires Valid()
      modifies this`free
      ensures Valid() && table == old(table)
      ensures r.Success? <==> old(free) > 0 && (fault.NoFault? || fault.CommitFails?)
      ensures r.Success? ==> IsNearest(table, query, limit, dist, fetched) && r.value == Project(table, fetched)
      ensures r.Success? ==> |r.value| <= limit
      ensures free == old(free) - Leaked(old(free), fault)
    {
      fetched := [];
      var conn := GetConn(fault);
      if conn.Failure? {
        return Failure(conn.error), fetched;
      }
      if fault.CursorFails? {
        return Failure(fault.message), fetched;
      }
      // try:
      if fault.ExecuteFails? {
        r := Failure(fault.message);
      } else {
        var picked := SelectNearest(table, query, limit, dist);
        fetched := picked;
        r := Success(Project(table, picked));
      }
      // finally:
      PutConn();
    }
  }

  /** Default number of rows a knowledge query returns. */
  const DefaultLimit: nat := 5
}
