/** The `requests` table: the record a finished survey becomes, the store that assigns it an
    id and a creation time, and the cells a row is shown as in the CSV export and the
    spreadsheet. Times are integer clock ticks. */
module Models {
  import opened Wrappers

  /** Declared maximum lengths of the `String` columns. */
  const UsernameLength: nat := 100
  const DestinationLength: nat := 200
  const DepartureDateLength: nat := 20

  /** The columns a new row is inserted with. `username` and `comment` are the nullable ones;
      `id` and `created_at` are filled in by the store. */
  datatype Fields = Fields(
    userId: int,
    username: Option<string>,
    destination: string,
    departureDate: string,
    nights: int,
    adults: int,
    children: int,
    budget: int,
    comment: Option<string>)

  /** A stored row. */
  datatype Request = Request(id: int, fields: Fields, createdAt: int)

  /** The values fit the declared column lengths. */
  predicate FitsDeclaredLengths(f: Fields)
  {
    (f.username.Some? ==> |f.username.value| <= UsernameLength)
    && |f.destination| <= DestinationLength
    && |f.departureDate| <= DepartureDateLength
  }

  /** Rows in insertion order carry strictly increasing ids. */
  predicate IdsIncreasing(rows: seq<Request>)
  {
    forall i, j :: 0 <= i < j < |rows| ==> rows[i].id < rows[j].id
  }

  /** `SELECT ... WHERE id = :id`, which yields at most one row since the id is the key. */
  function FindById(rows: seq<Request>, id: int): (r: Option<Request>)
    ensures r.Some? ==> r.value in rows && r.value.id == id
    ensures r.None? <==> forall q :: q in rows ==> q.id != id
  {
    if rows == [] then None
    else if rows[0].id == id then Some(rows[0])
    else
      var r := FindById(rows[1..], id);
      assert forall q :: q in rows ==> q == rows[0] || q in rows[1..];
      r
  }

  /** The rows left after deleting the row with the given id; the others keep their order. */
  function Without(rows: seq<Request>, id: int): (r: seq<Request>)
    ensures forall q :: q in r <==> q in rows && q.id != id
    ensures |r| <= |rows|
  {
    if rows == [] then []
    else if rows[0].id == id then Without(rows[1..], id)
    else
      var r := [rows[0]] + Without(rows[1..], id);
      assert forall q :: q in rows ==> q == rows[0] || q in rows[1..];
      r
  }

  lemma IncreasingTail(rows: seq<Request>)
    requires IdsIncreasing(rows) && rows != []
    ensures IdsIncreasing(rows[1..])
    ensures forall q :: q in rows[1..] ==> rows[0].id < q.id
  {
    forall i, j | 0 <= i < j < |rows[1..]| ensures rows[1..][i].id < rows[1..][j].id {
      assert rows[1..][i] == rows[i + 1] && rows[1..][j] == rows[j + 1];
    }
    forall q | q in rows[1..] ensures rows[0].id < q.id {
      var k :| 0 <= k < |rows[1..]| && rows[1..][k] == q;
      assert rows[k + 1] == q;
    }
  }

  lemma IncreasingCons(x: Request, rest: seq<Request>)
    requires IdsIncreasing(rest) && forall q :: q in rest ==> x.id < q.id
    ensures IdsIncreasing([x] + rest)
  {
    var r := [x] + rest;
    forall i, j | 0 <= i < j < |r| ensures r[i].id < r[j].id {
      assert r[j] == rest[j - 1];
      if i > 0 { assert r[i] == rest[i - 1]; }
    }
  }

  /** Deleting keeps the ids increasing. */
  lemma {:induction false} WithoutIncreasing(rows: seq<Request>, id: int)
    requires IdsIncreasing(rows)
    ensures IdsIncreasing(Without(rows, id))
  {
    if rows != [] {
      IncreasingTail(rows);
      WithoutIncreasing(rows[1..], id);
      if rows[0].id != id {
        IncreasingCons(rows[0], Without(rows[1..], id));
      }
    }
  }

  /** With unique ids, deleting a stored id removes exactly that one row and nothing else. */
  lemma WithoutRemovesOne(rows: seq<Request>, id: int)
    requires IdsIncreasing(rows)
    ensures FindById(rows, id).Some? ==> multiset(Without(rows, id)) + multiset{FindById(rows, id).value} == multiset(rows)
    ensures FindById(rows, id).None? ==> Without(rows, id) == rows
  {
    if FindById(rows, id).None? {
      WithoutAbsent(rows, id);
    } else {
      WithoutFound(rows, id);
    }
  }

  /** Deleting an id no row carries changes nothing. */
  lemma {:induction false} WithoutAbsent(rows: seq<Request>, id: int)
    requires forall q :: q in rows ==> q.id != id
    ensures Without(rows, id) == rows
  {
    if rows != [] {
      assert forall q :: q in rows[1..] ==> q in rows;
      WithoutAbsent(rows[1..], id);
    }
  }

  lemma {:induction false} WithoutFound(rows: seq<Request>, id: int)
    requires IdsIncreasing(rows) && FindById(rows, id).Some?
    ensures multiset(Without(rows, id)) + multiset{FindById(rows, id).value} == multiset(rows)
  {
    var tail := rows[1..];
    assert rows == [rows[0]] + tail;
    IncreasingTail(rows);
    if rows[0].id == id {
      WithoutAbsent(tail, id);
    } else {
      WithoutFound(tail, id);
      assert Without(rows, id) == [rows[0]] + Without(tail, id);
    }
  }

  /** The table: its rows in insertion order and the next value of the id sequence. Every id ever
      handed out is remembered, so that an id is never assigned twice, even after a delete. */
  class RequestStore {
    var rows: seq<Request>
    var nextId: int
    ghost var issued: set<int>

    ghost predicate Valid()
      reads this
    {
      nextId >= 1
      && IdsIncreasing(rows)
      && (forall r :: r in rows ==> r.id in issued)
      && (forall i :: i in issued ==> 1 <= i < nextId)
    }

    /** An empty table. */
    constructor ()
      ensures Valid() && rows == [] && nextId == 1 && issued == {}
    {
      rows := [];
      nextId := 1;
      issued := {};
    }

    /** `session.add` plus `commit`: the row gets the next id and the insert-time clock. */
    method Add(f: Fields, now: int) returns (r: Request)
      requires Valid()
      modifies this
      ensures Valid()
      ensures r == Request(old(nextId), f, now)
      ensures rows == old(rows) + [r]
      ensures r.id !in old(issued) && issued == old(issued) + {r.id}
      ensures forall q :: q in old(rows) ==> q.id < r.id
      ensures nextId == old(nextId) + 1
    {
      r := Request(nextId, f, now);
      assert forall q :: q in rows ==> q.id < r.id;
      rows := rows + [r];
      issued := issued + {r.id};
      nextId := nextId + 1;
    }

    /** `session.delete` plus `commit` of the row with the given id, if there is one. */
    method Delete(id: int) returns (removed: Option<Request>)
      requires Valid()
      modifies this
      ensures Valid()
      ensures removed == FindById(old(rows), id)
      ensures rows == Without(old(rows), id)
      ensures nextId == old(nextId) && issued == old(issued)
    {
      removed := FindById(rows, id);
      WithoutIncreasing(rows, id);
      rows := Without(rows, id);
    }
  }

  /** `ORDER BY created_at DESC`. */
  predicate NewestFirst(rows: seq<Request>)
  {
    forall i, j :: 0 <= i < j < |rows| ==> rows[i].createdAt >= rows[j].createdAt
  }

  lemma NewestTail(rows: seq<Request>)
    requires NewestFirst(rows) && rows != []
    ensures NewestFirst(rows[1..])
    ensures forall q :: q in rows ==> rows[0].createdAt >= q.createdAt
  {
    forall i, j | 0 <= i < j < |rows[1..]| ensures rows[1..][i].createdAt >= rows[1..][j].createdAt {
      assert rows[1..][i] == rows[i + 1] && rows[1..][j] == rows[j + 1];
    }
    forall q | q in rows ensures rows[0].createdAt >= q.createdAt {
      var k :| 0 <= k < |rows| && rows[k] == q;
      assert k == 0 || rows[0].createdAt >= rows[k].createdAt;
    }
  }

  /** A bound on every row and on the inserted one bounds every row of the result. */
  lemma BoundsInsertion(x: int, r: Request, tail: seq<Request>, rest: seq<Request>)
    requires multiset(rest) == multiset(tail) + multiset{r}
    requires x >= r.createdAt && forall q :: q in tail ==> x >= q.createdAt
    ensures forall q :: q in rest ==> x >= q.createdAt
  {
    forall q | q in rest ensures x >= q.createdAt {
      assert q in multiset(rest);
      assert q == r || q in multiset(tail);
    }
  }

  lemma NewestCons(x: Request, rest: seq<Request>)
    requires NewestFirst(rest) && forall q :: q in rest ==> x.createdAt >= q.createdAt
    ensures NewestFirst([x] + rest)
  {
    var r := [x] + rest;
    forall i, j | 0 <= i < j < |r| ensures r[i].createdAt >= r[j].createdAt {
      assert r[j] == rest[j - 1];
      if i > 0 { assert r[i] == rest[i - 1]; }
    }
  }

  /** `r` placed into newest-first rows before the first row that is not newer than it. */
  function InsertNewest(r: Request, rows: seq<Request>): (s: seq<Request>)
    requires NewestFirst(rows)
    ensures NewestFirst(s)
    ensures multiset(s) == multiset(rows) + multiset{r}
    ensures |s| == |rows| + 1
  {
    if rows == [] then [r]
    else if rows[0].createdAt <= r.createdAt then
      NewestTail(rows);
      NewestCons(r, rows);
      [r] + rows
    else
      NewestTail(rows);
      var rest := InsertNewest(r, rows[1..]);
      assert rows == [rows[0]] + rows[1..];
      BoundsInsertion(rows[0].createdAt, r, rows[1..], rest);
      NewestCons(rows[0], rest);
      [rows[0]] + rest
  }

  /** The rows ordered newest first: a sorted permutation of the input. */
  function SortNewestFirst(rows: seq<Request>): (s: seq<Request>)
    ensures NewestFirst(s)
    ensures multiset(s) == multiset(rows)
    ensures |s| == |rows|
  {
    if rows == [] then []
    else
      assert rows == [rows[0]] + rows[1..];
      InsertNewest(rows[0], SortNewestFirst(rows[1..]))
  }

  /** One cell of a row as the CSV export and the spreadsheet show it; the creation time stays a
      clock value (its `strftime` rendering is not modelled). */
  datatype Cell = IntCell(i: int) | TextCell(s: string) | TimeCell(t: int)

  /** Python's `value or fallback` on a nullable text column: None and "" are both falsy. */
  function OrText(v: Option<string>, fallback: string): (s: string)
    ensures v.Some? && v.value != [] ==> s == v.value
    ensures v.None? || v.value == [] ==> s == fallback
  {
    if v.Some? && v.value != [] then v.value else fallback
  }
}
