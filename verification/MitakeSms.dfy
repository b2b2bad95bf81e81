/** The SMS provider: the bulk payload it is sent, and how its answer is read. */
module MitakeSms {
  import opened Entities
  import opened Iteration

  const DOLLAR: byte := 36
  const CR: byte := 13
  const LF: byte := 10
  const CRLF: Bytes := [CR, LF]
  const CALLBACK_URL: Bytes := []

  datatype SmsReceiver = SmsReceiver(targetId: Bytes, receiver: Bytes)

  /** What Go's zero value of the receiver is. */
  const NOBODY: SmsReceiver := SmsReceiver([], [])

  /******* Ids as text *******/

  function Decimal(n: nat): Bytes {
    (if n < 10 then [] else Decimal(n / 10)) + [(48 + n % 10) as byte]
  }

  function TextOf(id: Id): Bytes { if id < 0 then [45] + Decimal(-id) else Decimal(id) }

  function ParseDecimal(b: Bytes): int {
    if b == [] then 0 else ParseDecimal(b[..|b| - 1]) * 10 + b[|b| - 1] as int - 48
  }

  function ParseId(b: Bytes): Id { if b != [] && b[0] == 45 then -ParseDecimal(b[1..]) else ParseDecimal(b) }

  lemma {:induction false} DecimalParses(n: nat)
    ensures ParseDecimal(Decimal(n)) == n
    ensures Decimal(n) != [] && forall i :: 0 <= i < |Decimal(n)| ==> 48 <= Decimal(n)[i] <= 57
  {
    var front, last := if n < 10 then [] else Decimal(n / 10), (48 + n % 10) as byte;
    assert Decimal(n) == front + [last];
    assert (front + [last])[..|front|] == front;
    if n >= 10 { DecimalParses(n / 10); }
    assert n >= 10 ==> (n / 10) * 10 + n % 10 == n;
  }

  /** An id can be read back from its text, and its text can neither end a field nor a line. */
  lemma IdTextParses(id: Id)
    ensures ParseId(TextOf(id)) == id && IsField(TextOf(id))
  {
    DecimalParses(if id < 0 then -id else id);
    if id < 0 { assert TextOf(id)[1..] == Decimal(-id); }
  }

  /******* The payload *******/

  function Dollars(n: nat): Bytes { seq(n, _ => DOLLAR) }

  function Join(fields: seq<Bytes>): Bytes {
    if fields == [] then [] else if |fields| == 1 then fields[0] else fields[0] + Dollars(2) + Join(fields[1..])
  }

  function FormatPayload(r: SmsReceiver, message: Bytes): Bytes {
    Join([r.targetId, r.receiver, [], [], [], CALLBACK_URL, message]) + CRLF
  }

  function Payload(receivers: seq<SmsReceiver>, message: Bytes): Bytes {
    if receivers == [] then [] else FormatPayload(receivers[0], message) + Payload(receivers[1..], message)
  }

  method BuildPayload(receivers: seq<SmsReceiver>, message: Bytes) returns (payload: Bytes)
    ensures payload == Payload(receivers, message)
  {
    payload := [];
    for i := 0 to |receivers|
      invariant payload + Payload(receivers[i..], message) == Payload(receivers, message)
    {
      payload := payload + FormatPayload(receivers[i], message);
    }
  }

  /******* A decoder for it *******/

  predicate CrlfAt(p: Bytes, i: nat) { i + 1 < |p| && p[i] == CR && p[i + 1] == LF }

  ghost predicate NoCrlf(p: Bytes) { forall i: nat :: !CrlfAt(p, i) }

  /** Neither a dollar sign nor a line end. */
  ghost predicate IsField(p: Bytes) { DOLLAR !in p && NoCrlf(p) }

  function FindCrlf(p: Bytes): (i: nat)
    ensures i <= |p|
  {
    if p == [] || CrlfAt(p, 0) then 0 else 1 + FindCrlf(p[1..])
  }

  function FindDollar(p: Bytes): (i: nat)
    ensures i <= |p|
  {
    if p == [] || p[0] == DOLLAR then 0 else 1 + FindDollar(p[1..])
  }

  function DecodeLine(line: Bytes): Option<(SmsReceiver, Bytes)> {
    var i := FindDollar(line);
    if |line| < i + 2 || line[i..i + 2] != Dollars(2) then None
    else
      var rest := line[i + 2..];
      var j := FindDollar(rest);
      if |rest| < j + 10 || rest[j..j + 10] != Dollars(10) then None
      else Some((SmsReceiver(line[..i], rest[..j]), rest[j + 10..]))
  }

  function DecodePayload(p: Bytes): Option<seq<(SmsReceiver, Bytes)>>
    decreases |p|
  {
    if p == [] then Some([])
    else
      var i := FindCrlf(p);
      if |p| < i + 2 then None
      else match (DecodeLine(p[..i]), DecodePayload(p[i + 2..]))
        case (Some(first), Some(rest)) => Some([first] + rest)
        case _ => None
  }

  function Addressed(receivers: seq<SmsReceiver>, message: Bytes): seq<(SmsReceiver, Bytes)> {
    seq(|receivers|, i requires 0 <= i < |receivers| => (receivers[i], message))
  }

  lemma {:induction false} CrlfAfter(a: Bytes, rest: Bytes)
    requires NoCrlf(a)
    ensures FindCrlf(a + CRLF + rest) == |a|
  {
    var p := a + CRLF + rest;
    if a == [] {
      assert CrlfAt(p, 0);
    } else {
      assert !CrlfAt(a, 0);
      assert !CrlfAt(p, 0);
      forall i: nat ensures !CrlfAt(a[1..], i) { assert !CrlfAt(a, i + 1); }
      CrlfAfter(a[1..], rest);
      assert p[1..] == a[1..] + CRLF + rest;
    }
  }

  lemma {:induction false} DollarAfter(a: Bytes, rest: Bytes)
    requires DOLLAR !in a
    ensures FindDollar(a + [DOLLAR] + rest) == |a|
  {
    if a != [] {
      DollarAfter(a[1..], rest);
      assert (a + [DOLLAR] + rest)[1..] == a[1..] + [DOLLAR] + rest;
    }
  }

  function Head(r: SmsReceiver): Bytes { r.targetId + Dollars(2) + r.receiver + Dollars(10) }

  lemma FormatIsHead(r: SmsReceiver, message: Bytes)
    ensures FormatPayload(r, message) == Head(r) + message + CRLF
  {
    var d := Dollars(2);
    assert Join([CALLBACK_URL, message]) == d + message;
    assert Join([[], CALLBACK_URL, message]) == d + d + message;
    assert Join([[], [], CALLBACK_URL, message]) == d + d + d + message;
    assert Join([[], [], [], CALLBACK_URL, message]) == d + d + d + d + message;
    assert Join([r.receiver, [], [], [], CALLBACK_URL, message]) == r.receiver + d + d + d + d + d + message;
    assert Dollars(10) == d + d + d + d + d;
  }

  ghost predicate FieldsOnly(receivers: seq<SmsReceiver>) {
    forall i :: 0 <= i < |receivers| ==> IsField(receivers[i].targetId) && IsField(receivers[i].receiver)
  }

  lemma Slices(a: Bytes, b: Bytes, c: Bytes)
    ensures var p := a + b + c;
            p[..|a|] == a && p[|a|..|a| + |b|] == b && p[|a| + |b|..] == c
  {
  }

  /** The first dollars end the first field. */
  lemma FieldCut(a: Bytes, n: nat, rest: Bytes)
    requires DOLLAR !in a && n >= 1
    ensures var p := a + Dollars(n) + rest;
            && FindDollar(p) == |a| && |p| >= |a| + n
            && p[..|a|] == a && p[|a|..|a| + n] == Dollars(n) && p[|a| + n..] == rest
  {
    Slices(a, Dollars(n), rest);
    assert a + Dollars(n) + rest == a + [DOLLAR] + (Dollars(n - 1) + rest);
    DollarAfter(a, Dollars(n - 1) + rest);
  }

  /** A line that starts like a formatted one decodes to the same receiver and whatever text follows. */
  lemma LineDecodes(r: SmsReceiver, text: Bytes)
    requires DOLLAR !in r.targetId && DOLLAR !in r.receiver
    ensures DecodeLine(Head(r) + text) == Some((r, text))
  {
    var rest := r.receiver + Dollars(10) + text;
    assert Head(r) + text == r.targetId + Dollars(2) + rest;
    FieldCut(r.targetId, 2, rest);
    FieldCut(r.receiver, 10, text);
  }

  /** No line end hides in the fixed part of a line, or where it meets the text. */
  lemma HeadNoCrlf(r: SmsReceiver, text: Bytes)
    requires IsField(r.targetId) && IsField(r.receiver) && NoCrlf(text)
    ensures NoCrlf(Head(r) + text)
  {
    var line, n, m := Head(r) + text, |r.targetId|, |r.receiver|;
    forall i: nat ensures !CrlfAt(line, i) {
      if i < n {
        assert !CrlfAt(r.targetId, i);
      } else if n + 2 <= i < n + 2 + m {
        assert !CrlfAt(r.receiver, i - n - 2);
      } else if i >= n + m + 12 {
        assert !CrlfAt(text, i - n - m - 12);
      }
    }
  }

  /** What the decoder makes of one line end after `text`, with anything behind it. */
  lemma FirstLine(r: SmsReceiver, text: Bytes, rest: Bytes)
    requires IsField(r.targetId) && IsField(r.receiver) && NoCrlf(text)
    ensures DecodePayload(Head(r) + text + CRLF + rest) ==
            match DecodePayload(rest) case Some(more) => Some([(r, text)] + more) case None => None
  {
    var p, line := Head(r) + text + CRLF + rest, Head(r) + text;
    HeadNoCrlf(r, text);
    CrlfAfter(line, rest);
    assert p[..|line|] == line && p[|line| + 2..] == rest;
    LineDecodes(r, text);
  }

  /** A text with a line end, cut at the first one. */
  lemma {:induction false} CutAtCrlf(p: Bytes) returns (a: Bytes, b: Bytes)
    requires !NoCrlf(p)
    ensures p == a + CRLF + b && NoCrlf(a)
  {
    if CrlfAt(p, 0) {
      a, b := [], p[2..];
    } else {
      var i: nat :| CrlfAt(p, i);
      assert CrlfAt(p[1..], i - 1);
      a, b := CutAtCrlf(p[1..]);
      forall k: nat ensures !CrlfAt([p[0]] + a, k) {
        if k > 0 { assert !CrlfAt(a, k - 1); }
        else if a != [] { assert p[1] == a[0]; }
      }
      a := [p[0]] + a;
    }
  }

  lemma {:induction false} CleanPayloadDecodes(receivers: seq<SmsReceiver>, message: Bytes)
    requires FieldsOnly(receivers) && NoCrlf(message)
    ensures DecodePayload(Payload(receivers, message)) == Some(Addressed(receivers, message))
  {
    if receivers != [] {
      var r, rest := receivers[0], Payload(receivers[1..], message);
      CleanPayloadDecodes(receivers[1..], message);
      FormatIsHead(r, message);
      FirstLine(r, message, rest);
      assert Payload(receivers, message) == Head(r) + message + CRLF + rest;
      assert Addressed(receivers, message) == [(r, message)] + Addressed(receivers[1..], message);
    }
  }

  lemma Regroup(head: Bytes, a: Bytes, b: Bytes, rest: Bytes)
    ensures head + (a + CRLF + b) + CRLF + rest == head + a + CRLF + (b + CRLF + rest)
  {
  }

  /** With a line end in the message, the first decoded line, if all can be decoded, has a shorter text. */
  lemma FirstTextCut(receivers: seq<SmsReceiver>, message: Bytes)
    requires FieldsOnly(receivers) && receivers != [] && !NoCrlf(message)
    ensures var decoded := DecodePayload(Payload(receivers, message));
            decoded.Some? ==> decoded.value != [] && |decoded.value[0].1| < |message|
  {
    var a, b := CutAtCrlf(message);
    var r, more := receivers[0], b + CRLF + Payload(receivers[1..], message);
    FormatIsHead(r, message);
    Regroup(Head(r), a, b, Payload(receivers[1..], message));
    FirstLine(r, a, more);
  }

  /**
    The payload decodes to exactly its receivers, each with the whole message, if and only if the
    message has no line end; dollar signs in the message do no harm.
   */
  lemma PayloadDecodes(receivers: seq<SmsReceiver>, message: Bytes)
    requires FieldsOnly(receivers) && receivers != []
    ensures DecodePayload(Payload(receivers, message)) == Some(Addressed(receivers, message)) <==> NoCrlf(message)
  {
    if NoCrlf(message) {
      CleanPayloadDecodes(receivers, message);
    } else {
      FirstTextCut(receivers, message);
      assert Addressed(receivers, message)[0] == (receivers[0], message);
    }
  }

  lemma AddressedUnique(rs1: seq<SmsReceiver>, m1: Bytes, rs2: seq<SmsReceiver>, m2: Bytes)
    requires Addressed(rs1, m1) == Addressed(rs2, m2)
    ensures rs1 == rs2 && (rs1 != [] ==> m1 == m2)
  {
    var a, b := Addressed(rs1, m1), Addressed(rs2, m2);
    assert |rs1| == |a| == |b| == |rs2|;
    forall i | 0 <= i < |rs1| ensures rs1[i] == rs2[i] && m1 == m2 {
      assert a[i] == (rs1[i], m1) && b[i] == (rs2[i], m2);
    }
    if rs1 != [] { assert a[0] == (rs1[0], m1) && b[0] == (rs2[0], m2); }
  }

  /** Two requests with the same payload have the same receivers and the same message. */
  lemma PayloadUnique(rs1: seq<SmsReceiver>, m1: Bytes, rs2: seq<SmsReceiver>, m2: Bytes)
    requires FieldsOnly(rs1) && FieldsOnly(rs2) && NoCrlf(m1) && NoCrlf(m2)
    requires Payload(rs1, m1) == Payload(rs2, m2)
    ensures rs1 == rs2 && (rs1 != [] ==> m1 == m2)
  {
    CleanPayloadDecodes(rs1, m1);
    CleanPayloadDecodes(rs2, m2);
    AddressedUnique(rs1, m1, rs2, m2);
  }

  /** With line ends allowed it is ambiguous: a message can carry a second receiver's line inside it. */
  lemma CrlfAmbiguous(r1: SmsReceiver, r2: SmsReceiver, text: Bytes)
    ensures Payload([r1], text + CRLF + Head(r2) + text) == Payload([r1, r2], text)
  {
    var inner := text + CRLF + Head(r2) + text;
    FormatIsHead(r1, inner);
    FormatIsHead(r1, text);
    FormatIsHead(r2, text);
    OneOrTwo(r1, r2, text, inner);
    Nested(Head(r1), text, CRLF, Head(r2));
  }

  lemma OneOrTwo(r1: SmsReceiver, r2: SmsReceiver, text: Bytes, inner: Bytes)
    ensures Payload([r1], inner) == FormatPayload(r1, inner)
    ensures Payload([r1, r2], text) == FormatPayload(r1, text) + FormatPayload(r2, text)
  {
    assert [r1, r2][1..] == [r2] && [r2][1..] == [] && [r1][1..] == [];
    assert Payload([r2], text) == FormatPayload(r2, text);
  }

  lemma Nested(a: Bytes, x: Bytes, e: Bytes, b: Bytes)
    ensures a + (x + e + b + x) + e == (a + x + e) + (b + x + e)
  {
  }

  /******* The answer *******/

  /** A section of the answer with its status, as the handler loops over them. */
  datatype SmsRow = SmsRow(section: Section, status: Status)

  datatype SmsResponse = SmsResponse(status: Status, rows: seq<SmsRow>)

  /** How the provider's HTTP answer can turn out; parsing gives each section its status code. */
  datatype Reply = RequestFailed | UnexpectedStatus | Unparsable | Sections(codes: map<Section, string>)

  const SENT_CODES: set<string> := {"0", "1", "2", "3", "4"}
  const FAILED_CODES: set<string> :=
    {"*", "a", "b", "c", "d", "e", "f", "h", "k", "m", "n", "p", "r", "s", "t", "u", "v", "5", "6", "7", "8", "9"}

  /** A code the table does not list gives the empty status. */
  function CodeStatus(code: string): Status {
    if code in SENT_CODES then Sent else if code in FAILED_CODES then Failed else Blank
  }

  function Statuses(codes: map<Section, string>): map<Section, Status> {
    map n | n in codes :: CodeStatus(codes[n])
  }

  /** The status of every section the reply has; none when it could not be had or read. */
  function StatusesOf(reply: Reply): map<Section, Status> {
    if reply.Sections? then Statuses(reply.codes) else map[]
  }

  /** The batch verdict: the `DEFAULT` section's status, or failed. */
  function Verdict(rows: map<Section, Status>): Status { if Default in rows then rows[Default] else Failed }

  /** Codes 0 to 4 are sent, the other codes of the table failed, and any other code is no status at all. */
  lemma CodesExactly(code: string)
    ensures CodeStatus(code) == Sent <==> |code| == 1 && '0' <= code[0] <= '4'
    ensures CodeStatus(code) == Failed <==> |code| == 1 && code[0] in "*abcdefhkmnprstuv56789"
    ensures CodeStatus(code) in {Sent, Failed, Blank}
  {
    if |code| == 1 {
      assert code == [code[0]];
    }
  }

  /** A batch is a success exactly when the reply was read and its `DEFAULT` section has a code from 0 to 4. */
  lemma AcceptedExactly(reply: Reply)
    ensures Verdict(StatusesOf(reply)) == Sent <==>
              reply.Sections? && Default in reply.codes && |reply.codes[Default]| == 1 && '0' <= reply.codes[Default][0] <= '4'
    ensures forall n :: n in StatusesOf(reply) <==> reply.Sections? && n in reply.codes
  {
    if reply.Sections? && Default in reply.codes { CodesExactly(reply.codes[Default]); }
  }

  /** `rows` lists the sections of `m` with their statuses, each once, in some order. */
  ghost predicate ListsRows(rows: seq<SmsRow>, m: map<Section, Status>) {
    && (forall i, j :: 0 <= i < j < |rows| ==> rows[i].section != rows[j].section)
    && (forall i :: 0 <= i < |rows| ==> rows[i].section in m && rows[i].status == m[rows[i].section])
    && (forall n :: n in m ==> SmsRow(n, m[n]) in rows)
  }

  /** One row per section, in whatever order the map yields them. */
  method ConvertToSmsResponse(codes: map<Section, string>) returns (rows: seq<SmsRow>)
    ensures ListsRows(rows, Statuses(codes))
  {
    var order := Range(codes);
    rows := [];
    for i := 0 to |order|
      invariant |rows| == i
      invariant forall k :: 0 <= k < i ==> rows[k] == SmsRow(order[k], CodeStatus(codes[order[k]]))
    {
      rows := rows + [SmsRow(order[i], CodeStatus(codes[order[i]]))];
    }
    forall n | n in codes ensures SmsRow(n, Statuses(codes)[n]) in rows {
      assert n in order;
      var k :| 0 <= k < |order| && order[k] == n;
      assert rows[k] == SmsRow(n, Statuses(codes)[n]);
    }
  }

  /** The loop stops at the `DEFAULT` row; wherever that stands, the verdict is the same. */
  method NewResponse(rows: seq<SmsRow>, ghost m: map<Section, Status>) returns (response: SmsResponse)
    requires ListsRows(rows, m)
    ensures response == SmsResponse(Verdict(m), rows)
  {
    var status := Failed;
    for i := 0 to |rows|
      invariant status == Failed
      invariant forall k :: 0 <= k < i ==> rows[k].section != Default
    {
      if rows[i].section == Default {
        status := rows[i].status;
        break;
      }
    }
    response := SmsResponse(status, rows);
  }

  method SendBatchSms(receivers: seq<SmsReceiver>, message: Bytes, reply: Reply)
      returns (payload: Bytes, response: SmsResponse)
    ensures payload == Payload(receivers, message)
    ensures response.status == Verdict(StatusesOf(reply)) && ListsRows(response.rows, StatusesOf(reply))
  {
    payload := BuildPayload(receivers, message);
    match reply {
      case Sections(codes) =>
        var rows := ConvertToSmsResponse(codes);
        response := NewResponse(rows, Statuses(codes));
      case _ =>
        response := SmsResponse(Failed, []);
    }
  }
}
