/**
 * The `practice_sessions` table as the application uses it: rows are only
 * ever appended, each gets the next serial id and the insertion time, and a
 * user's sessions are read back newest first.
 */
module Sessions {
  import opened Wrappers
  import opened Protocol

  /** The columns a client or the serverless function writes; `None` is SQL `null` or an unset column. */
  datatype NewSession = NewSession(
    userId: string,
    title: Option<string>,
    resumeText: Option<string>,
    jobDescriptionText: Option<string>,
    questionCount: int,
    questionTypes: Option<seq<string>>,
    difficulty: string,
    questions: seq<Json>,
    score: Option<int>,
    duration: Option<string>,
    status: Option<string>)

  /** A stored row: the written columns plus the id and `created_at` the database assigns. */
  datatype StoredSession = StoredSession(id: nat, createdAt: string, data: NewSession)

  /** Row `i` carries id `i`: ids grow with insertion order. */
  predicate Serial(rows: seq<StoredSession>) {
    forall i :: 0 <= i < |rows| ==> rows[i].id == i
  }

  /**
   * `select('*').eq('user_id', u).order('created_at', { ascending: false })`,
   * with creation times growing in insertion order: the user's rows, last
   * inserted first.
   */
  function NewestFirst(rows: seq<StoredSession>, userId: string): (r: seq<StoredSession>)
    ensures |r| <= |rows|
    ensures forall x :: x in r ==> x in rows && x.data.userId == userId
    ensures forall x :: x in rows && x.data.userId == userId ==> x in r
  {
    if |rows| == 0 then []
    else
      var last := rows[|rows| - 1];
      (if last.data.userId == userId then [last] else []) + NewestFirst(rows[..|rows| - 1], userId)
  }

  /** Appending a row puts it at the head of its user's list and leaves every other user's list alone. */
  lemma NewestFirstAppend(rows: seq<StoredSession>, s: StoredSession, userId: string)
    ensures s.data.userId == userId ==> NewestFirst(rows + [s], userId) == [s] + NewestFirst(rows, userId)
    ensures s.data.userId != userId ==> NewestFirst(rows + [s], userId) == NewestFirst(rows, userId)
  {
    assert (rows + [s])[..|rows|] == rows;
  }

  /** Ids strictly decrease along the list. */
  predicate Descending(r: seq<StoredSession>) {
    forall i, j :: 0 <= i < j < |r| ==> r[i].id > r[j].id
  }

  /** Serially numbered rows all have ids below the row count. */
  lemma IdsBelowCount(rows: seq<StoredSession>)
    requires Serial(rows)
    ensures forall x :: x in rows ==> x.id < |rows|
  {
    forall x | x in rows
      ensures x.id < |rows|
    {
      var k :| 0 <= k < |rows| && rows[k] == x;
    }
  }

  /** A row newer than every row of a descending list can head it. */
  lemma DescendingCons(x: StoredSession, r: seq<StoredSession>)
    requires Descending(r)
    requires forall y :: y in r ==> y.id < x.id
    ensures Descending([x] + r)
  {
    var t := [x] + r;
    forall i, j | 0 <= i < j < |t|
      ensures t[i].id > t[j].id
    {
      assert t[j] == r[j - 1];
      if i > 0 {
        assert t[i] == r[i - 1];
      } else {
        assert r[j - 1] in r;
      }
    }
  }

  /** Over serially numbered rows the list is strictly newest first. */
  lemma {:induction false} NewestFirstDescending(rows: seq<StoredSession>, userId: string)
    requires Serial(rows)
    ensures Descending(NewestFirst(rows, userId))
    decreases |rows|
  {
    if |rows| > 0 {
      var prefix := rows[..|rows| - 1];
      var last := rows[|rows| - 1];
      assert Serial(prefix);
      NewestFirstDescending(prefix, userId);
      IdsBelowCount(prefix);
      var rest := NewestFirst(prefix, userId);
      if last.data.userId == userId {
        DescendingCons(last, rest);
      }
    }
  }

  /** The table: an append-only sequence of rows. */
  class Store {
    var rows: seq<StoredSession>

    ghost predicate Valid()
      reads this
    {
      Serial(rows)
    }

    constructor ()
      ensures Valid() && rows == []
    {
      rows := [];
    }

    /** `insert(...)`: appends one row with the next id and the given time, and returns it. */
    method Insert(data: NewSession, now: string) returns (stored: StoredSession)
      requires Valid()
      modifies this
      ensures Valid()
      ensures stored == StoredSession(|old(rows)|, now, data)
      ensures rows == old(rows) + [stored]
    {
      stored := StoredSession(|rows|, now, data);
      rows := rows + [stored];
    }

    /** What `getUserSessions(userId)` reads. */
    function UserSessions(userId: string): seq<StoredSession>
      reads this
    {
      NewestFirst(rows, userId)
    }
  }
}
