/**
 Delivery of stored messages: `process_msg_plain` and `process_msg_pdu` of `Sender`, and the loops
 that call them over a snapshot of the message table while they delete rows from it.
 */
module Delivery {
  import opened Outcomes
  import opened Failures
  import opened Address
  import Reassembly

  /** The concatenation element of a user data header. */
  datatype Concatenation = Concatenation(reference: int, parts: nat, sequence: nat)

  /** What the PDU library makes of stored bytes. */
  datatype Pdu =
    | Malformed
    | Undecodable
    | Decoded(text: string, concat: Option<Concatenation>)

  /** A row holds either a PDU or a text (constraint `messages_pdu_or_text`). */
  datatype Body = Sms(pdu: Pdu) | Plain(text: string)

  datatype Row = Row(id: int, addr: Addr, csms: Option<int>, group: Option<int>, body: Body, source: int, ts: int)

  type Table = map<int, Row>

  /** What the database and the clock decide: the order in which the rows of a concatenated message
      come back, and the time stamp put before a late message. */
  datatype Oracle = Oracle(concatOrder: set<int> -> seq<int>, stamp: int -> string)

  ghost predicate Honest(o: Oracle) {
    forall s: set<int> :: Lists(o.concatOrder(s), s)
  }

  /** The `csms` column of a row is the reference in its header, as `cmgl_complete` stores it. */
  predicate StoredByModem(row: Row) {
    match row.body
    case Sms(Decoded(_, Some(c))) => row.csms == Some(c.reference)
    case _ => row.csms == None
  }

  predicate WellKept(table: Table) {
    forall i :: i in table ==> table[i].id == i && StoredByModem(table[i])
  }

  /** The rows of one concatenated message: `get_all_concatenated`. */
  function Group(table: Table, addr: Addr, reference: int): set<int> {
    set i | i in table && table[i].csms == Some(reference) && table[i].addr == addr
  }

  const ACTION: string := "\U{1}ACTION "

  /** The text of a plain message with its stamp, which goes after the prefix of an action. */
  function Stamped(stamp: string, text: string): (r: string)
    ensures stamp == [] ==> r == text
    ensures |r| == |stamp| + |text|
  {
    if ACTION <= text then ACTION + stamp + text[|ACTION|..] else stamp + text
  }

  /** One `send_raw_message` call: for which row, which rows are deleted after it, and the text. */
  datatype Send = Send(row: Row, ids: seq<int>, text: string)

  datatype Handled = Kept | Unreadable | Delivered(send: Send)

  /** The pieces of a concatenated message; every row must decode and have its header. */
  function Pieces(table: Table, ids: seq<int>): Result<seq<Reassembly.Piece>, Failure> {
    if ids == [] then Ok([])
    else if ids[0] !in table then Err(Unwrap)
    else match table[ids[0]].body
      case Plain(_) => Err(Unwrap)
      case Sms(Decoded(text, concat)) =>
        (match Pieces(table, ids[1..])
         case Err(e) => Err(e)
         case Ok(rest) =>
           if concat.None? then Err(Unwrap) else Ok([Reassembly.Piece(text, concat.value.sequence)] + rest))
      case Sms(_) => Err(BadPdu)
  }

  /** What becomes of a row of the snapshot, given the table as it is now. */
  function Handle(o: Oracle, table: Table, row: Row): Result<Handled, Failure> {
    match row.body
    case Plain(text) => Ok(Delivered(Send(row, [row.id], Stamped(o.stamp(row.ts), text))))
    case Sms(Malformed) => Err(BadPdu)
    case Sms(Undecodable) => Ok(Unreadable)
    case Sms(Decoded(text, None)) => Ok(Delivered(Send(row, [row.id], text)))
    case Sms(Decoded(_, Some(c))) =>
      var ids := o.concatOrder(Group(table, row.addr, c.reference));
      if |ids| != c.parts then Ok(Kept)
      else match Pieces(table, ids)
        case Err(e) => Err(e)
        case Ok(pieces) => Ok(Delivered(Send(row, ids, Reassembly.Reassemble(pieces))))
  }

  /** What a pass does, in order: a text goes through `send_raw_message`, or a row is deleted. */
  datatype Deed = Said(send: Send) | Removed(id: int)

  /** A pass as far as it got: the table it leaves, what it did, and what stopped it, if anything. */
  datatype Passed = Passed(table: Table, deeds: seq<Deed>, failure: Option<Failure>)

  function After(deeds: seq<Deed>, p: Passed): Passed {
    p.(deeds := deeds + p.deeds)
  }

  /** `delete_message` for each id in turn. */
  function Remove(table: Table, ids: seq<int>): Passed {
    if ids == [] then Passed(table, [], None)
    else if ids[0] !in table then Passed(table, [], Some(NoSuchRow))
    else After([Removed(ids[0])], Remove(table - {ids[0]}, ids[1..]))
  }

  /** Send, then delete. */
  function Settle(table: Table, h: Handled): Passed {
    if h.Delivered? then After([Said(h.send)], Remove(table, h.send.ids)) else Passed(table, [], None)
  }

  /** One row: its address must read back; rows of unknown addresses are skipped. */
  function Turn(o: Oracle, accepts: Byte -> bool, table: Table, row: Row, known: set<Addr>): Passed {
    if !Reads(accepts, row.addr) then Passed(table, [], Some(BadAddress))
    else if row.addr !in known then Passed(table, [], None)
    else match Handle(o, table, row)
      case Err(e) => Passed(table, [], Some(e))
      case Ok(h) => Settle(table, h)
  }

  /** A pass over a snapshot, each row handled against the table as it has become. */
  function Pass(o: Oracle, accepts: Byte -> bool, table: Table, snap: seq<Row>, known: set<Addr>): Passed
    decreases snap
  {
    if snap == [] then Passed(table, [], None)
    else
      var p := Turn(o, accepts, table, snap[0], known);
      if p.failure.Some? then p else After(p.deeds, Pass(o, accepts, p.table, snap[1..], known))
  }

  /** A snapshot taken in the order the query asks for. */
  ghost predicate IsSnapshot(table: Table, snap: seq<Row>) {
    && (forall r <- snap :: r.id in table && table[r.id] == r)
    && (forall i :: i in table ==> table[i] in snap)
    && (forall i, j :: 0 <= i < j < |snap| ==> Before(snap[i], snap[j]))
  }

  /** `order((ts.asc(), id.asc()))`. */
  predicate Before(a: Row, b: Row) {
    a.ts < b.ts || (a.ts == b.ts && a.id < b.id)
  }

  // ---- what a pass should do, said of the table it starts from ----

  predicate IsPart(row: Row) {
    row.body.Sms? && row.body.pdu.Decoded? && row.body.pdu.concat.Some?
  }

  /** The rows a row is delivered with. */
  function Takes(table: Table, row: Row): set<int> {
    if IsPart(row) then Group(table, row.addr, row.body.pdu.concat.value.reference) else {row.id}
  }

  /** A readable row that is complete: all the parts it asks for are there. */
  predicate Complete(table: Table, row: Row) {
    match row.body
    case Plain(_) => true
    case Sms(Decoded(_, None)) => true
    case Sms(Decoded(_, Some(c))) => |Takes(table, row)| == c.parts
    case _ => false
  }

  predicate Fires(table: Table, known: set<Addr>, row: Row) {
    row.addr in known && Complete(table, row)
  }

  /** The rows delivered with the rows of `snap`. */
  ghost predicate Taken(table: Table, known: set<Addr>, snap: seq<Row>, i: int) {
    exists t <- snap :: Fires(table, known, t) && i in Takes(table, t)
  }

  ghost function AllTaken(table: Table, known: set<Addr>, snap: seq<Row>): set<int> {
    set i | i in table && Taken(table, known, snap, i)
  }

  /** The text a row is delivered with. */
  function TextOf(o: Oracle, table: Table, row: Row): string {
    match row.body
    case Plain(text) => Stamped(o.stamp(row.ts), text)
    case Sms(Decoded(text, None)) => text
    case Sms(Decoded(_, Some(c))) =>
      (match Pieces(table, o.concatOrder(Takes(table, row)))
       case Ok(pieces) => Reassembly.Reassemble(pieces)
       case Err(_) => "")
    case _ => ""
  }

  /** A send is right for the original table: the row's whole message and its text; or it is the
      empty send of a stale row that asks for no parts. */
  ghost predicate RightSend(o: Oracle, table: Table, known: set<Addr>, s: Send) {
    || (Fires(table, known, s.row) && Lists(s.ids, Takes(table, s.row)) && s.text == TextOf(o, table, s.row))
    || (s.ids == [] && s.text == [])
  }

  function Flat(sends: seq<Send>): seq<int> {
    if sends == [] then [] else sends[0].ids + Flat(sends[1..])
  }

  /** The texts sent. */
  function Sends(deeds: seq<Deed>): seq<Send> {
    if deeds == [] then [] else (if deeds[0].Said? then [deeds[0].send] else []) + Sends(deeds[1..])
  }

  /** The rows deleted. */
  function Removals(deeds: seq<Deed>): seq<int> {
    if deeds == [] then [] else (if deeds[0].Removed? then [deeds[0].id] else []) + Removals(deeds[1..])
  }

  /** A row is deleted only after the text it belongs to was sent. */
  ghost predicate SaidFirst(deeds: seq<Deed>) {
    forall j :: 0 <= j < |deeds| && deeds[j].Removed? ==>
      exists i :: 0 <= i < j && deeds[i].Said? && deeds[j].id in deeds[i].send.ids
  }

  /** A row that stops a pass: its address does not read back, or it is known and its PDU does not parse. */
  predicate Stops(accepts: Byte -> bool, known: set<Addr>, row: Row) {
    !Reads(accepts, row.addr) || (row.addr in known && row.body == Sms(Malformed))
  }

  function Cause(accepts: Byte -> bool, row: Row): Failure {
    if Reads(accepts, row.addr) then BadPdu else BadAddress
  }

  /** How many rows a pass handles: those before the first that stops it. */
  function Reached(accepts: Byte -> bool, known: set<Addr>, snap: seq<Row>): (n: nat)
    ensures n <= |snap| && (n < |snap| ==> Stops(accepts, known, snap[n]))
    ensures forall i :: 0 <= i < n ==> !Stops(accepts, known, snap[i])
  {
    if snap == [] || Stops(accepts, known, snap[0]) then 0 else 1 + Reached(accepts, known, snap[1..])
  }
}
