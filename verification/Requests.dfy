/** What a worker hands to a provider: the decrypted receivers of the targets it loaded. */
module Requests {
  import opened Entities
  import opened AesGcm
  import opened MitakeSms

  /** A target with its id, as the preload returns it. */
  type Row = (Id, Target)

  /** A receiver that does not decrypt leaves the zero value in its place. */
  function SmsEntry(a: Aead, row: Row): SmsReceiver {
    match Decrypt(a, row.1.receiver)
    case Plain(p) => SmsReceiver(TextOf(row.0), p)
    case _ => NOBODY
  }

  function MailEntry(a: Aead, row: Row): Bytes {
    match Decrypt(a, row.1.receiver)
    case Plain(p) => p
    case _ => []
  }

  function SmsRequest(a: Aead, rows: seq<Row>): seq<SmsReceiver> {
    seq(|rows|, i requires 0 <= i < |rows| => SmsEntry(a, rows[i]))
  }

  function MailRequest(a: Aead, rows: seq<Row>): seq<Bytes> {
    seq(|rows|, i requires 0 <= i < |rows| => MailEntry(a, rows[i]))
  }

  method SendSms(a: Aead, targets: seq<Row>, message: Bytes, reply: Reply)
      returns (request: seq<SmsReceiver>, payload: Bytes, response: SmsResponse)
    ensures request == SmsRequest(a, targets) && payload == Payload(request, message)
    ensures |request| == |targets| && forall i :: 0 <= i < |targets| ==>
              match Decrypt(a, targets[i].1.receiver)
              case Plain(p) => request[i] == SmsReceiver(TextOf(targets[i].0), p)
              case _ => request[i] == SmsReceiver([], [])
    ensures response.status == Verdict(StatusesOf(reply)) && ListsRows(response.rows, StatusesOf(reply))
  {
    var receivers := new SmsReceiver[|targets|](_ => NOBODY);
    for i := 0 to |targets|
      invariant forall k :: 0 <= k < i ==> receivers[k] == SmsEntry(a, targets[k])
      invariant forall k :: i <= k < |targets| ==> receivers[k] == NOBODY
    {
      var receiver := AesDecrypt(a, targets[i].1.receiver);
      if receiver.Plain? {
        receivers[i] := SmsReceiver(TextOf(targets[i].0), receiver.text);
      }
    }
    request := receivers[..];
    payload, response := SendBatchSms(request, message, reply);
  }

  method SendEmail(a: Aead, targets: seq<Row>) returns (request: seq<Bytes>)
    ensures request == MailRequest(a, targets)
    ensures |request| == |targets| && forall i :: 0 <= i < |targets| ==>
              match Decrypt(a, targets[i].1.receiver) case Plain(p) => request[i] == p case _ => request[i] == []
  {
    var receivers := new Bytes[|targets|](_ => []);
    for i := 0 to |targets|
      invariant forall k :: 0 <= k < i ==> receivers[k] == MailEntry(a, targets[k])
      invariant forall k :: i <= k < |targets| ==> receivers[k] == []
    {
      var receiver := AesDecrypt(a, targets[i].1.receiver);
      if receiver.Plain? {
        receivers[i] := receiver.text;
      }
    }
    request := receivers[..];
  }

  /******* Order of the rows *******/

  function Receivers(request: seq<SmsReceiver>): seq<Bytes> {
    seq(|request|, i requires 0 <= i < |request| => request[i].receiver)
  }

  /** `rows` lists the targets `ids` as they stand in the table, each once. */
  ghost predicate Loads(targets: map<Id, Target>, ids: set<Id>, rows: seq<Row>) {
    && (forall i, j :: 0 <= i < j < |rows| ==> rows[i].0 != rows[j].0)
    && (forall i :: 0 <= i < |rows| ==> rows[i].0 in ids && rows[i].0 in targets && rows[i].1 == targets[rows[i].0])
    && (forall t :: t in ids ==> exists i :: 0 <= i < |rows| && rows[i].0 == t)
  }

  predicate AllIn<V>(ids: seq<Id>, value: map<Id, V>) { forall i :: 0 <= i < |ids| ==> ids[i] in value }

  /** One value per row, looked up by its id. */
  function Column<V>(rows: seq<Id>, value: map<Id, V>): seq<V>
    requires AllIn(rows, value)
  {
    seq(|rows|, i requires 0 <= i < |rows| => value[rows[i]])
  }

  lemma ColumnSplit<V>(rows: seq<Id>, value: map<Id, V>, i: nat)
    requires i < |rows| && AllIn(rows, value)
    ensures multiset(Column(rows, value)) == multiset(Column(rows[..i] + rows[i + 1..], value)) + multiset{value[rows[i]]}
  {
    var c := Column(rows, value);
    assert c == c[..i] + [c[i]] + c[i + 1..];
    assert Column(rows[..i] + rows[i + 1..], value) == c[..i] + c[i + 1..];
  }

  /** Two listings of the same ids carry the same multiset of values. */
  lemma {:induction false} ColumnOrderFree<V>(xs: seq<Id>, ys: seq<Id>, value: map<Id, V>)
    requires Distinct(xs) && Distinct(ys) && SetOf(xs) == SetOf(ys)
    requires AllIn(xs, value) && AllIn(ys, value)
    ensures |xs| == |ys| && multiset(Column(xs, value)) == multiset(Column(ys, value))
    decreases |xs|
  {
    if xs == [] {
      SomeMember(ys);
    } else {
      var n := |xs| - 1;
      assert xs[n] in SetOf(ys);
      var i :| 0 <= i < |ys| && ys[i] == xs[n];
      var xs', ys' := xs[..n] + xs[n + 1..], ys[..i] + ys[i + 1..];
      SetWithout(xs, n);
      SetWithout(ys, i);
      ColumnOrderFree(xs', ys', value);
      ColumnSplit(xs, value, n);
      ColumnSplit(ys, value, i);
    }
  }

  lemma SomeMember(s: seq<Id>)
    ensures s != [] ==> SetOf(s) != {}
  {
    if s != [] { assert s[0] in SetOf(s); }
  }

  lemma SetWithout(s: seq<Id>, i: nat)
    requires i < |s| && Distinct(s)
    ensures var s' := s[..i] + s[i + 1..];
            Distinct(s') && SetOf(s') == SetOf(s) - {s[i]} && forall x :: x in s' ==> x in s
  {
  }

  function IdsOf(rows: seq<Row>): seq<Id> { seq(|rows|, i requires 0 <= i < |rows| => rows[i].0) }

  lemma LoadedKeys(targets: map<Id, Target>, ids: set<Id>, rows: seq<Row>)
    requires Loads(targets, ids, rows)
    ensures Distinct(IdsOf(rows)) && SetOf(IdsOf(rows)) == ids
  {
    var keys := IdsOf(rows);
    forall t ensures t in SetOf(keys) <==> t in ids {
      if t in ids {
        var p :| 0 <= p < |rows| && rows[p].0 == t;
        assert keys[p] == t;
      }
    }
  }

  lemma {:induction false} DistinctCount(ids: seq<Id>)
    requires Distinct(ids)
    ensures |SetOf(ids)| == |ids|
  {
    if ids != [] {
      var n := |ids| - 1;
      DistinctCount(ids[..n]);
      assert SetOf(ids) == SetOf(ids[..n]) + {ids[n]};
    }
  }
}
