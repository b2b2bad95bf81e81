/** The status query: which targets it lists, and how its pages fit together. */
module Paging {
  import opened Entities
  import opened Tables
  import opened Iteration
  import opened Requests
  import opened Database

  const INT32_MIN: int := -0x8000_0000
  const INT32_MAX: int := 0x7FFF_FFFF
  const TWO32: int := 0x1_0000_0000

  newtype int32 = x: int | -0x8000_0000 <= x < 0x8000_0000

  /** Two's complement on 32 bits. */
  function Wrap32(x: int): int { (x - INT32_MIN) % TWO32 + INT32_MIN }

  lemma WrapExact32(x: int)
    ensures Wrap32(x) == x <==> INT32_MIN <= x <= INT32_MAX
    ensures x > INT32_MAX ==> Wrap32(x) < x
  {
  }

  function Min(a: int, b: int): int { if a < b then a else b }

  /** The window of a query: `Offset` has no effect unless it is positive. */
  function Window<T>(rows: seq<T>, offset: int, limit: nat): seq<T> {
    var from := if offset <= 0 then 0 else Min(offset, |rows|);
    rows[from..Min(from + limit, |rows|)]
  }

  /** What the service returns for a page: everything unless both numbers are positive. */
  function PageOf<T>(rows: seq<T>, index: int32, size: int32): seq<T> {
    if index > 0 && size > 0 then Window(rows, Wrap32(Wrap32(index as int - 1) * size as int), size as nat) else rows
  }

  /** What a page is meant to hold. */
  function TruePage<T>(rows: seq<T>, index: int32, size: int32): seq<T>
    requires index > 0 && size > 0
  {
    Window(rows, (index as int - 1) * size as int, size as nat)
  }

  /** Where the product leaves a page's offset. */
  function OffsetOf(index: int32, size: int32): int { Wrap32((index as int - 1) * size as int) }

  lemma PageWindow<T>(rows: seq<T>, index: int32, size: int32)
    requires index > 0 && size > 0
    ensures PageOf(rows, index, size) == Window(rows, OffsetOf(index, size), size as nat)
  {
    WrapExact32(index as int - 1);
  }

  /** Windows with different starts differ, unless both are empty. */
  lemma WindowsDiffer<T>(rows: seq<T>, a: int, b: int, limit: nat)
    requires Distinct(rows) && limit > 0 && 0 <= a < b
    ensures Window(rows, a, limit) == Window(rows, b, limit) <==> a >= |rows|
  {
    if a < |rows| {
      assert Window(rows, a, limit)[0] == rows[a];
      if b < |rows| { assert Window(rows, b, limit)[0] == rows[b]; }
    }
  }

  /**
    A page holds what it should exactly when its offset fits in 32 bits, or when even the wrapped
    offset is past the last row.
   */
  lemma PageRight<T>(rows: seq<T>, index: int32, size: int32)
    requires Distinct(rows) && index > 0 && size > 0
    ensures PageOf(rows, index, size) == TruePage(rows, index, size) <==>
              (index as int - 1) * size as int <= INT32_MAX || OffsetOf(index, size) >= |rows| || rows == []
  {
    var k := (index as int - 1) * size as int;
    assert k >= 0;
    PageWindow(rows, index, size);
    WrapExact32(k);
    if k > INT32_MAX {
      var from := if OffsetOf(index, size) <= 0 then 0 else OffsetOf(index, size);
      assert Window(rows, OffsetOf(index, size), size as nat) == Window(rows, from, size as nat);
      WindowsDiffer(rows, from, k, size as nat);
    }
  }

  /** So page 65537 of size 65536 shows the first page again: its offset, 2^32, wraps to nothing. */
  lemma FarPageIsFirst<T>(rows: seq<T>)
    ensures PageOf(rows, 65537, 65536) == PageOf(rows, 1, 65536)
    ensures rows != [] && |rows| <= TWO32 ==> PageOf(rows, 65537, 65536) != TruePage(rows, 65537, 65536)
  {
  }

  /** Pages 1 to n, one after another. */
  function PagesUpTo<T>(rows: seq<T>, n: nat, size: int32): seq<T>
    requires n <= INT32_MAX
  {
    if n == 0 then [] else PagesUpTo(rows, n - 1, size) + PageOf(rows, n as int32, size)
  }

  lemma WindowAppends<T>(rows: seq<T>, k: nat, limit: nat)
    ensures rows[..Min(k, |rows|)] + Window(rows, k, limit) == rows[..Min(k + limit, |rows|)]
  {
  }

  /** The offset of page n fits, so those of all earlier pages do. */
  predicate Fits(n: int, size: int32) { (n - 1) * size as int <= INT32_MAX }

  lemma OnePageLess(n: int, size: int32)
    requires size > 0 && n > 0
    ensures (n - 1) * size as int >= 0 && n * size as int == (n - 1) * size as int + size as int
    ensures Fits(n, size) ==> Fits(n - 1, size)
  {
  }

  lemma {:induction false} PagesPrefix<T>(rows: seq<T>, n: nat, size: int32)
    requires size > 0 && n <= INT32_MAX && Fits(n, size)
    ensures PagesUpTo(rows, n, size) == rows[..Min(n * size as int, |rows|)]
  {
    if n > 0 {
      OnePageLess(n, size);
      PagesPrefix(rows, n - 1, size);
      PageWindow(rows, n as int32, size);
      WrapExact32((n - 1) * size as int);
      WindowAppends(rows, (n - 1) * size as int, size as nat);
    }
  }

  function PageCount(total: nat, size: int32): nat
    requires size > 0
  {
    (total + size as int - 1) / size as int
  }

  lemma RoundUp(total: nat, s: int)
    requires s > 0
    ensures ((total + s - 1) / s) * s >= total
  {
  }

  /**
    The pages 1 to ceil(total / size) of a fixed result are the whole result, in order and each row
    once, as long as the last page's offset fits in 32 bits.
   */
  lemma PagesReassemble<T>(rows: seq<T>, size: int32)
    requires size > 0 && PageCount(|rows|, size) <= INT32_MAX && Fits(PageCount(|rows|, size), size)
    ensures PagesUpTo(rows, PageCount(|rows|, size), size) == rows
  {
    RoundUp(|rows|, size as int);
    PagesPrefix(rows, PageCount(|rows|, size), size);
  }

  function LengthsUpTo<T>(rows: seq<T>, n: nat, size: int32): nat
    requires n <= INT32_MAX
  {
    if n == 0 then 0 else LengthsUpTo(rows, n - 1, size) + |PageOf(rows, n as int32, size)|
  }

  lemma {:induction false} LengthsAdd<T>(rows: seq<T>, n: nat, size: int32)
    requires n <= INT32_MAX
    ensures LengthsUpTo(rows, n, size) == |PagesUpTo(rows, n, size)|
  {
    if n > 0 { LengthsAdd(rows, n - 1, size); }
  }

  /** The lengths of those pages sum to the total. */
  lemma LengthsSumToTotal<T>(rows: seq<T>, size: int32)
    requires size > 0 && PageCount(|rows|, size) <= INT32_MAX && Fits(PageCount(|rows|, size), size)
    ensures LengthsUpTo(rows, PageCount(|rows|, size), size) == |rows|
  {
    PagesReassemble(rows, size);
    LengthsAdd(rows, PageCount(|rows|, size), size);
  }

  lemma WindowsDisjoint<T>(rows: seq<T>, a: nat, b: nat, limit: nat)
    requires Distinct(rows) && a + limit <= b
    ensures forall x :: x in Window(rows, a, limit) ==> x !in Window(rows, b, limit)
  {
  }

  /** No row is on two pages whose offsets fit. */
  lemma PagesDisjoint<T>(rows: seq<T>, size: int32, i: int32, j: int32)
    requires size > 0 && Distinct(rows) && 0 < i < j && Fits(j as int, size)
    ensures forall x :: x in PageOf(rows, i, size) ==> x !in PageOf(rows, j, size)
  {
    var a, b := (i as int - 1) * size as int, (j as int - 1) * size as int;
    OnePageLess(i as int, size);
    assert i as int * size as int <= b;
    PageWindow(rows, i, size);
    PageWindow(rows, j, size);
    WrapExact32(a);
    WrapExact32(b);
    WindowsDisjoint(rows, a, b, size as nat);
  }

  /******* The query *******/

  /** Empty texts and a missing page are not filters. */
  datatype ListRequest = ListRequest(
    mtype: MessageType, messageId: Option<Id>, receiver: Option<Bytes>, startAt: Time, endAt: Time,
    page: Option<(int32, int32)>)

  /** The join and the filters; canceled rows are listed too. */
  predicate Listed(messages: map<Id, Message>, t: Target, req: ListRequest, hash: Bytes -> string) {
    && t.messageId in messages && messages[t.messageId].mtype == req.mtype
    && Within(messages[t.messageId].createdAt, req.startAt, req.endAt)
    && Within(t.createdAt, req.startAt, req.endAt)
    && (req.messageId.Some? ==> t.messageId == req.messageId.value)
    && (req.receiver.Some? ==> t.receiverHash == hash(req.receiver.value))
  }

  function Matching(s: Store, req: ListRequest, hash: Bytes -> string): set<Id> {
    set t | t in s.targets && Listed(s.messages, s.targets[t], req, hash)
  }

  /** The page of the matching rows, in the order the database has them, and how many match in all. */
  method ListStatusWithPaging(db: Db, req: ListRequest, hash: Bytes -> string, fails: bool)
      returns (r: Option<(seq<Row>, nat)>, ghost all: seq<Row>)
    ensures r.None? <==> fails
    ensures r.Some? ==>
              && Loads(db.targets, Matching(db.Contents(), req, hash), all)
              && r.value.1 == |all| == |Matching(db.Contents(), req, hash)|
              && r.value.0 == if req.page.Some? then PageOf(all, req.page.value.0, req.page.value.1) else all
  {
    all := [];
    if fails {
      return None, [];
    }
    var matching := map t | t in db.targets && Listed(db.messages, db.targets[t], req, hash) :: db.targets[t];
    var order := Range(matching);
    var rows: seq<Row> := [];
    for i := 0 to |order|
      invariant |rows| == i && forall k :: 0 <= k < i ==> rows[k] == (order[k], db.targets[order[k]])
    {
      rows := rows + [(order[i], matching[order[i]])];
    }
    forall t | t in matching ensures exists i :: 0 <= i < |rows| && rows[i].0 == t {
      assert t in order;
      var i :| 0 <= i < |order| && order[i] == t;
      assert rows[i].0 == t;
    }
    assert matching.Keys == Matching(db.Contents(), req, hash);
    all := rows;
    var page := if req.page.Some? then PageOf(rows, req.page.value.0, req.page.value.1) else rows;
    r := Some((page, |rows|));
  }
}
