/** The generic record access of `BaseRepository`: one database table, the
    keyword arguments the handlers pass, and the read, insert, update and
    delete operations with their commit/rollback behaviour. */
module Repository {
  import opened Wrappers

  // ---- Keyword arguments ----

  /** A keyword-argument value as the handlers pass it. */
  datatype Value = Null | Bool(b: bool) | Real(x: real) | Str(s: string) | Instant(t: int)

  /** Python's truthiness: None, False, 0.0 and "" are false; a datetime is always true. */
  predicate Truthy(v: Value) {
    match v
    case Null => false
    case Bool(b) => b
    case Real(x) => x != 0.0
    case Str(s) => s != ""
    case Instant(_) => true
  }

  /** `**kwargs`: field names with their values, in the order they were passed. */
  type Kwargs = seq<(string, Value)>

  predicate AnyTruthy(kwargs: Kwargs) {
    exists i :: 0 <= i < |kwargs| && Truthy(kwargs[i].1)
  }

  /** The comprehension of `update_by_id`: the pairs whose value is not None, in order. */
  function DropNone(kwargs: Kwargs): (r: Kwargs)
    ensures forall p :: p in r <==> p in kwargs && p.1 != Null
    ensures |r| <= |kwargs|
  {
    if kwargs == [] then []
    else (if kwargs[0].1 == Null then [] else [kwargs[0]]) + DropNone(kwargs[1..])
  }

  /** One iteration of `update`'s loop: `setattr` only when the value is truthy. */
  function Assign<R>(item: R, kwarg: (string, Value), setAttr: (R, string, Value) -> R): R {
    if Truthy(kwarg.1) then setAttr(item, kwarg.0, kwarg.1) else item
  }

  /** The record after `update` has run its loop over all of `kwargs`. */
  function ApplyKwargs<R>(item: R, kwargs: Kwargs, setAttr: (R, string, Value) -> R): R
    decreases |kwargs|
  {
    if kwargs == [] then item else ApplyKwargs(Assign(item, kwargs[0], setAttr), kwargs[1..], setAttr)
  }

  /** Dropping the None values first changes nothing: `update` never assigns a
      None, because None is falsy. */
  lemma {:induction false} DropNoneIsRedundant<R>(item: R, kwargs: Kwargs, setAttr: (R, string, Value) -> R)
    ensures ApplyKwargs(item, DropNone(kwargs), setAttr) == ApplyKwargs(item, kwargs, setAttr)
  {
    if kwargs != [] {
      var rest := DropNone(kwargs[1..]);
      DropNoneIsRedundant(Assign(item, kwargs[0], setAttr), kwargs[1..], setAttr);
      if kwargs[0].1 == Null {
        assert DropNone(kwargs) == rest;
        DropNoneIsRedundant(item, kwargs[1..], setAttr);
      } else {
        assert DropNone(kwargs) == [kwargs[0]] + rest;
        assert DropNone(kwargs)[1..] == rest;
      }
    }
  }

  /** A keyword list in which no value is truthy leaves the record as it was. */
  lemma {:induction false} FalsyKwargsChangeNothing<R>(item: R, kwargs: Kwargs, setAttr: (R, string, Value) -> R)
    requires !AnyTruthy(kwargs)
    ensures ApplyKwargs(item, kwargs, setAttr) == item
  {
    if kwargs != [] {
      assert !Truthy(kwargs[0].1);
      assert !AnyTruthy(kwargs[1..]) by {
        forall i | 0 <= i < |kwargs[1..]| ensures !Truthy(kwargs[1..][i].1) {
          assert kwargs[1..][i] == kwargs[i + 1];
        }
      }
      FalsyKwargsChangeNothing(item, kwargs[1..], setAttr);
    }
  }

  // ---- Reading a table ----

  /** The primary-key constraint: no two rows share a key. */
  predicate UniqueKeys<K(==), R>(rows: seq<R>, keyOf: R -> K) {
    forall i, j :: 0 <= i < j < |rows| ==> keyOf(rows[i]) != keyOf(rows[j])
  }

  predicate HasKey<K(==), R>(rows: seq<R>, keyOf: R -> K, k: K) {
    exists i :: 0 <= i < |rows| && keyOf(rows[i]) == k
  }

  /** `session.get`: the position of the row whose primary key is `k`. */
  function IndexOfKey<K(==), R>(rows: seq<R>, keyOf: R -> K, k: K): (r: Option<nat>)
    ensures r.Some? ==> r.value < |rows| && keyOf(rows[r.value]) == k
    ensures r.None? <==> !HasKey(rows, keyOf, k)
  {
    if rows == [] then None
    else if keyOf(rows[0]) == k then Some(0)
    else match IndexOfKey(rows[1..], keyOf, k)
      case None => None
      case Some(i) => Some(i + 1)
  }

  /** Under the primary-key constraint, the row with key `k` is at exactly one position. */
  lemma KeyedRowIsUnique<K, R>(rows: seq<R>, keyOf: R -> K, k: K, i: nat)
    requires UniqueKeys(rows, keyOf)
    requires i < |rows| && keyOf(rows[i]) == k
    ensures IndexOfKey(rows, keyOf, k) == Some(i)
  {
  }

  /** `select(model).filter_by(**kwargs).first()`: the first row, in storage
      order, that satisfies the filter, or None. */
  function FirstMatch<R>(rows: seq<R>, p: R -> bool): (r: Option<R>)
    ensures r.None? <==> forall i :: 0 <= i < |rows| ==> !p(rows[i])
    ensures r.Some? ==> exists i :: 0 <= i < |rows| && rows[i] == r.value && p(rows[i]) &&
                                    forall j :: 0 <= j < i ==> !p(rows[j])
  {
    if rows == [] then None
    else if p(rows[0]) then Some(rows[0])
    else
      var r := FirstMatch(rows[1..], p);
      assert r.Some? ==> exists i :: 0 <= i < |rows[1..]| && rows[1..][i] == r.value && p(rows[1..][i]) &&
                                     forall j :: 0 <= j < i ==> !p(rows[1..][j]);
      assert forall i :: 0 <= i < |rows[1..]| ==> rows[1..][i] == rows[i + 1];
      r
  }

  /** `select(model).filter_by(**kwargs)` with all rows fetched, in storage order. */
  function Filter<R(!new)>(rows: seq<R>, p: R -> bool): (r: seq<R>)
    ensures forall x :: x in r <==> x in rows && p(x)
    ensures |r| <= |rows|
  {
    if rows == [] then []
    else (if p(rows[0]) then [rows[0]] else []) + Filter(rows[1..], p)
  }

  /** `select(func.count())...filter_by(**kwargs)`: how many rows satisfy the filter. */
  function CountMatching<R>(rows: seq<R>, p: R -> bool): nat {
    if rows == [] then 0 else (if p(rows[0]) then 1 else 0) + CountMatching(rows[1..], p)
  }

  /** Counting with a filter agrees with fetching with the same filter. */
  lemma {:induction false} CountMatchesFilter<R(!new)>(rows: seq<R>, p: R -> bool)
    ensures CountMatching(rows, p) == |Filter(rows, p)|
  {
    if rows != [] {
      CountMatchesFilter(rows[1..], p);
    }
  }

  /** `.offset(skip).limit(limit)` over the rows in storage order. */
  function Page<R>(rows: seq<R>, skip: nat, limit: nat): (r: seq<R>)
    ensures |r| <= limit
    ensures skip < |rows| ==> |r| == if |rows| - skip < limit then |rows| - skip else limit
    ensures skip >= |rows| ==> r == []
    ensures forall i :: 0 <= i < |r| ==> skip + i < |rows| && r[i] == rows[skip + i]
  {
    if skip >= |rows| then []
    else if skip + limit >= |rows| then rows[skip..]
    else rows[skip..skip + limit]
  }

  // ---- Writing a table ----

  /** The rows left after removing position `i`. */
  function RemoveAt<R>(rows: seq<R>, i: nat): (r: seq<R>)
    requires i < |rows|
    ensures |r| == |rows| - 1
  {
    rows[..i] + rows[i + 1..]
  }

  /** Under the primary-key constraint, removing the row keyed `k` keeps every
      other row and only those. */
  lemma RemoveKeyedRow<K, R>(rows: seq<R>, keyOf: R -> K, k: K, i: nat)
    requires UniqueKeys(rows, keyOf)
    requires i < |rows| && keyOf(rows[i]) == k
    ensures forall x :: x in RemoveAt(rows, i) <==> x in rows && keyOf(x) != k
    ensures UniqueKeys(RemoveAt(rows, i), keyOf)
  {
    var r := RemoveAt(rows, i);
    forall x | x in r ensures x in rows && keyOf(x) != k {
      var j :| 0 <= j < |r| && r[j] == x;
      if j < i { assert r[j] == rows[j]; } else { assert r[j] == rows[j + 1]; }
    }
    forall x | x in rows && keyOf(x) != k ensures x in r {
      var j :| 0 <= j < |rows| && rows[j] == x;
      if j < i { assert r[j] == x; } else { assert j != i; assert r[j - 1] == x; }
    }
  }

  // The details of the 400s raised after a rollback.  The source appends the
  // database's own error text, which this model does not produce.
  const CreateFailed: string := "Error creating record: "
  const UpdateFailed: string := "Error updating record: "
  const DeleteFailed: string := "Error deleting record: "

  /** The detail of `get_by_id`'s and `delete_by_id`'s 404. */
  function NoRecord(keyText: string): (d: string)
    ensures |d| > |keyText| && d[|d| - |keyText|..] == keyText
  {
    "No record found with id: " + keyText
  }

  /** One database table as a `BaseRepository(model)` sees it.  `rows` is the
      table in storage order; `keyOf` gives a row's primary key, `keyText`
      renders a key in a message, `setAttr` is `setattr` on the model. */
  class Table<K(==), R(!new)> {
    const keyOf: R -> K
    const keyText: K -> string
    const setAttr: (R, string, Value) -> R
    var rows: seq<R>

    /** The primary-key constraint holds, and no `setattr` changes a row's key. */
    ghost predicate Valid()
      reads this
    {
      && UniqueKeys(rows, keyOf)
      && forall r: R, n: string, v: Value {:trigger setAttr(r, n, v)} :: keyOf(setAttr(r, n, v)) == keyOf(r)
    }

    constructor (keyOf: R -> K, keyText: K -> string, setAttr: (R, string, Value) -> R)
      requires forall r: R, n: string, v: Value {:trigger setAttr(r, n, v)} :: keyOf(setAttr(r, n, v)) == keyOf(r)
      ensures Valid() && rows == []
      ensures this.keyOf == keyOf && this.keyText == keyText && this.setAttr == setAttr
    {
      this.keyOf := keyOf;
      this.keyText := keyText;
      this.setAttr := setAttr;
      rows := [];
    }

    /** `get_by_id`: the row with that key, or 404. */
    function GetById(k: K): (r: Result<R>)
      reads this
      ensures r.Ok? <==> HasKey(rows, keyOf, k)
      ensures r.Ok? ==> r.value in rows && keyOf(r.value) == k
      ensures r.Err? ==> r.error == HttpError(404, NoRecord(keyText(k)))
    {
      match IndexOfKey(rows, keyOf, k)
      case Some(i) => Ok(rows[i])
      case None => Err(HttpError(404, NoRecord(keyText(k))))
    }

    /** `get_by_item`: the first row satisfying the filter, or None. */
    function GetByItem(p: R -> bool): (r: Option<R>)
      reads this
      ensures r.None? <==> forall x :: x in rows ==> !p(x)
      ensures r.Some? ==> r.value in rows && p(r.value)
      ensures r.Some? ==> exists i :: 0 <= i < |rows| && rows[i] == r.value && p(rows[i]) &&
                                      forall j :: 0 <= j < i ==> !p(rows[j])
    {
      FirstMatch(rows, p)
    }

    /** `get_all_by`: every row satisfying the filter. */
    function GetAllBy(p: R -> bool): (r: seq<R>)
      reads this
      ensures forall x :: x in r <==> x in rows && p(x)
    {
      Filter(rows, p)
    }

    /** `count_by`: the number of rows `get_all_by` returns for the same filter. */
    function CountBy(p: R -> bool): (n: nat)
      reads this
      ensures n == |GetAllBy(p)|
    {
      CountMatchesFilter(rows, p);
      CountMatching(rows, p)
    }

    /** `get_all_paginated`: at most `limit` rows, starting after the first `skip`. */
    function GetAllPaginated(skip: nat, limit: nat): (r: seq<R>)
      reads this
      ensures |r| <= limit
      ensures skip < |rows| ==> |r| == if |rows| - skip < limit then |rows| - skip else limit
      ensures skip >= |rows| ==> r == []
      ensures forall i :: 0 <= i < |r| ==> skip + i < |rows| && r[i] == rows[skip + i]
    {
      Page(rows, skip, limit)
    }

    /** `create`: insert one row and commit; a primary-key clash makes the
        commit fail, which rolls back and raises 400. */
    method Create(item: R) returns (r: Result<R>)
      requires Valid()
      modifies this
      ensures Valid()
      ensures HasKey(old(rows), keyOf, keyOf(item)) ==>
                r == Err(HttpError(400, CreateFailed)) && rows == old(rows)
      ensures !HasKey(old(rows), keyOf, keyOf(item)) ==>
                r == Ok(item) && rows == old(rows) + [item]
    {
      if HasKey(rows, keyOf, keyOf(item)) {
        r := Err(HttpError(400, CreateFailed));
      } else {
        rows := rows + [item];
        r := Ok(item);
      }
    }

    /** `create_all`: insert all rows in one commit; if any key clashes, with
        the table or within the batch, nothing is inserted and it raises 400. */
    method CreateAll(items: seq<R>) returns (r: Result<seq<R>>)
      requires Valid()
      modifies this
      ensures Valid()
      ensures UniqueKeys(old(rows) + items, keyOf) ==> r == Ok(items) && rows == old(rows) + items
      ensures !UniqueKeys(old(rows) + items, keyOf) ==>
                r == Err(HttpError(400, CreateFailed)) && rows == old(rows)
    {
      if UniqueKeys(rows + items, keyOf) {
        rows := rows + items;
        r := Ok(items);
      } else {
        r := Err(HttpError(400, CreateFailed));
      }
    }

    /** `update`: on the row keyed `k`, assign every truthy keyword argument,
        in order, and commit. */
    method Update(k: K, kwargs: Kwargs) returns (item: R)
      requires Valid() && HasKey(rows, keyOf, k)
      modifies this
      ensures Valid()
      ensures var i := IndexOfKey(old(rows), keyOf, k).value;
              item == ApplyKwargs(old(rows)[i], kwargs, setAttr) && rows == old(rows)[i := item]
    {
      var i := IndexOfKey(rows, keyOf, k).value;
      item := rows[i];
      var n := 0;
      while n < |kwargs|
        invariant 0 <= n <= |kwargs|
        invariant keyOf(item) == keyOf(rows[i])
        invariant ApplyKwargs(item, kwargs[n..], setAttr) == ApplyKwargs(rows[i], kwargs, setAttr)
      {
        assert kwargs[n..][1..] == kwargs[n + 1..];
        var (name, value) := kwargs[n];
        if Truthy(value) {
          item := setAttr(item, name, value);
        }
        n := n + 1;
      }
      rows := rows[i := item];
      assert forall j :: 0 <= j < |rows| ==> keyOf(rows[j]) == keyOf(old(rows)[j]);
    }

    /** `update_by_id`: drop the None values, then `update` the row keyed `k`.
        With no such row, `update` runs on None: the first truthy value makes
        `setattr` raise, which rolls back and raises 400; with none, it
        commits nothing and returns None. */
    method UpdateById(k: K, kwargs: Kwargs) returns (r: Result<Option<R>>)
      requires Valid()
      modifies this
      ensures Valid()
      ensures HasKey(old(rows), keyOf, k) ==>
                var i := IndexOfKey(old(rows), keyOf, k).value;
                var item := ApplyKwargs(old(rows)[i], kwargs, setAttr);
                r == Ok(Some(item)) && rows == old(rows)[i := item]
      ensures !HasKey(old(rows), keyOf, k) ==>
                rows == old(rows) &&
                r == if AnyTruthy(kwargs) then Err(HttpError(400, UpdateFailed)) else Ok(None)
    {
      var kept := DropNone(kwargs);
      if HasKey(rows, keyOf, k) {
        var item := Update(k, kept);
        DropNoneIsRedundant(old(rows)[IndexOfKey(old(rows), keyOf, k).value], kwargs, setAttr);
        r := Ok(Some(item));
      } else if AnyTruthy(kept) {
        assert AnyTruthy(kwargs) by {
          var i :| 0 <= i < |kept| && Truthy(kept[i].1);
          assert kept[i] in kwargs;
        }
        r := Err(HttpError(400, UpdateFailed));
      } else {
        assert !AnyTruthy(kwargs) by {
          forall i | 0 <= i < |kwargs| ensures !Truthy(kwargs[i].1) {
            if kwargs[i].1 != Null {
              assert kwargs[i] in kept;
            }
          }
        }
        r := Ok(None);
      }
    }

    /** `delete`: remove the row keyed `k` and commit.  `restricted` says that
        a foreign key in another table still refers to the row, so the commit
        fails, rolls back and raises 400. */
    method Delete(k: K, restricted: bool) returns (r: Result<()>)
      requires Valid() && HasKey(rows, keyOf, k)
      modifies this
      ensures Valid()
      ensures restricted ==> r == Err(HttpError(400, DeleteFailed)) && rows == old(rows)
      ensures !restricted ==>
                r == Ok(()) && rows == RemoveAt(old(rows), IndexOfKey(old(rows), keyOf, k).value)
    {
      if restricted {
        r := Err(HttpError(400, DeleteFailed));
      } else {
        var i := IndexOfKey(rows, keyOf, k).value;
        RemoveKeyedRow(rows, keyOf, k, i);
        rows := RemoveAt(rows, i);
        r := Ok(());
      }
    }

    /** `delete_by_id`: 404 when no row has key `k`, otherwise `delete`. */
    method DeleteById(k: K, restricted: bool) returns (r: Result<()>)
      requires Valid()
      modifies this
      ensures Valid()
      ensures !HasKey(old(rows), keyOf, k) ==>
                r == Err(HttpError(404, NoRecord(keyText(k)))) && rows == old(rows)
      ensures HasKey(old(rows), keyOf, k) && restricted ==>
                r == Err(HttpError(400, DeleteFailed)) && rows == old(rows)
      ensures HasKey(old(rows), keyOf, k) && !restricted ==>
                r == Ok(()) && rows == RemoveAt(old(rows), IndexOfKey(old(rows), keyOf, k).value)
    {
      if HasKey(rows, keyOf, k) {
        r := Delete(k, restricted);
      } else {
        r := Err(HttpError(404, NoRecord(keyText(k))));
      }
    }
  }
}
