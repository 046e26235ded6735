/** A delivery pass over a stale snapshot sends every complete message exactly once. */
module DeliveryProofs {
  import opened Outcomes
  import opened Failures
  import opened Address
  import opened Delivery

  lemma {:induction false} PiecesFound(table: Table, ids: seq<int>)
    requires WellKept(table)
    requires forall k :: 0 <= k < |ids| ==> ids[k] in table && table[ids[k]].csms.Some?
    ensures Pieces(table, ids).Ok?
  {
    if ids != [] {
      PiecesFound(table, ids[1..]);
      var i := ids[0];
      assert table[i].id == i;
      assert StoredByModem(table[i]);
    }
  }

  lemma {:induction false} PiecesOfPart(table: Table, part: Table, ids: seq<int>)
    requires forall k :: 0 <= k < |ids| ==> ids[k] in table && ids[k] in part && table[ids[k]] == part[ids[k]]
    ensures Pieces(table, ids) == Pieces(part, ids)
  {
    if ids != [] {
      PiecesOfPart(table, part, ids[1..]);
    }
  }

  /** The deletions of some rows. */
  function Deletions(ids: seq<int>): (r: seq<Deed>)
    ensures |r| == |ids| && forall k :: 0 <= k < |ids| ==> r[k] == Removed(ids[k])
  {
    if ids == [] then [] else [Removed(ids[0])] + Deletions(ids[1..])
  }

  lemma {:induction false} RemoveListed(table: Table, ids: seq<int>, s: set<int>)
    requires Lists(ids, s) && s <= table.Keys
    ensures Remove(table, ids) == Passed(table - s, Deletions(ids), None)
  {
    if ids == [] {
      assert s == {};
      assert table - s == table;
    } else {
      var rest := s - {ids[0]};
      forall x | x in rest ensures x in ids[1..] {
        var k :| 0 <= k < |ids| && ids[k] == x;
        assert ids[1..][k - 1] == x;
      }
      RemoveListed(table - {ids[0]}, ids[1..], rest);
      assert table - {ids[0]} - rest == table - s;
    }
  }

  ghost predicate FromTable(table: Table, snap: seq<Row>) {
    && (forall r <- snap :: r.id in table && table[r.id] == r)
    && (forall i, j :: 0 <= i < j < |snap| ==> snap[i].id != snap[j].id)
  }

  lemma {:induction false} SnapshotFromTable(table: Table, snap: seq<Row>)
    requires IsSnapshot(table, snap)
    ensures FromTable(table, snap)
  {
    forall i, j | 0 <= i < j < |snap| ensures snap[i].id != snap[j].id {
      assert Before(snap[i], snap[j]) && snap[i] in snap && snap[j] in snap;
    }
  }

  /** A concatenated message is taken as a whole or not at all. */
  lemma {:induction false} WholeGroups(table: Table, known: set<Addr>, snap: seq<Row>, row: Row, i: int, j: int)
    requires WellKept(table) && FromTable(table, snap) && IsPart(row)
    requires i in Takes(table, row) && j in Takes(table, row)
    requires Taken(table, known, snap, i)
    ensures Taken(table, known, snap, j)
  {
    var t :| t in snap && Fires(table, known, t) && i in Takes(table, t);
    assert StoredByModem(table[t.id]) && StoredByModem(table[i]);
    assert IsPart(t);
    assert j in Takes(table, t);
  }

  /** A message of one row is taken by that row alone. */
  lemma {:induction false} SingleTaken(table: Table, known: set<Addr>, snap: seq<Row>, row: Row)
    requires WellKept(table) && FromTable(table, snap)
    requires row.id in table && table[row.id] == row && !IsPart(row)
    requires forall t <- snap :: t.id != row.id
    ensures !Taken(table, known, snap, row.id)
  {
    assert StoredByModem(row);
    forall t | t in snap ensures row.id !in Takes(table, t) {
      assert StoredByModem(table[t.id]);
    }
  }

  /** Rows of one message in a table from which other messages have been deleted. */
  lemma {:induction false} GroupNow(table: Table, known: set<Addr>, snap: seq<Row>, row: Row)
    requires WellKept(table) && FromTable(table, snap) && IsPart(row)
    requires row.id in table && table[row.id] == row
    ensures var now := table - AllTaken(table, known, snap);
            Takes(now, row) == if Taken(table, known, snap, row.id) then {} else Takes(table, row)
  {
    var now := table - AllTaken(table, known, snap);
    assert StoredByModem(row);
    assert row.id in Takes(table, row);
    forall i | i in Takes(table, row)
      ensures Taken(table, known, snap, i) <==> Taken(table, known, snap, row.id)
    {
      if Taken(table, known, snap, i) { WholeGroups(table, known, snap, row, i, row.id); }
      if Taken(table, known, snap, row.id) { WholeGroups(table, known, snap, row, row.id, i); }
    }
  }

  lemma {:induction false} TakenStep(table: Table, known: set<Addr>, done: seq<Row>, row: Row)
    ensures AllTaken(table, known, done + [row]) ==
            AllTaken(table, known, done) + (if Fires(table, known, row) then Takes(table, row) * table.Keys else {})
  {
    forall i | i in table
      ensures Taken(table, known, done + [row], i) <==>
              Taken(table, known, done, i) || (Fires(table, known, row) && i in Takes(table, row))
    {
      assert forall t :: t in done + [row] <==> t in done || t == row;
    }
  }

  /** What handling a row does: the text, then the deletion of its rows. */
  function Deeds(h: Handled): seq<Deed> {
    if h.Delivered? then [Said(h.send)] + Deletions(h.send.ids) else []
  }

  /** `h` is what becomes of `row` after the rows of `done`: the table loses exactly the rows the
      snapshot takes up to here, and a send lists exactly the ones it loses now. */
  ghost predicate Steps(o: Oracle, table: Table, known: set<Addr>, done: seq<Row>, row: Row, h: Handled) {
    var before, after := AllTaken(table, known, done), AllTaken(table, known, done + [row]);
    && Handle(o, table - before, row) == Ok(h)
    && Settle(table - before, h) == Passed(table - after, Deeds(h), None)
    && before <= after
    && (if h.Delivered? then
          h.send.row == row && RightSend(o, table, known, h.send) && Lists(h.send.ids, after - before)
        else after == before)
  }

  /** Handling one row of the snapshot, the earlier ones having been handled. */
  lemma {:induction false} HandleNext(o: Oracle, table: Table, known: set<Addr>, done: seq<Row>, row: Row)
    returns (h: Handled)
    requires Honest(o) && WellKept(table) && FromTable(table, done + [row])
    requires row.addr in known && row.body != Sms(Malformed)
    ensures Steps(o, table, known, done, row, h)
  {
    Earlier(table, done, row);
    if IsPart(row) {
      h := HandlePart(o, table, known, done, row);
    } else {
      SingleTaken(table, known, done, row);
      h := HandleSingle(o, table, known, done, row);
    }
  }

  lemma {:induction false} Earlier(table: Table, done: seq<Row>, row: Row)
    requires FromTable(table, done + [row])
    ensures FromTable(table, done)
    ensures row.id in table && table[row.id] == row
    ensures forall t <- done :: t.id != row.id
  {
    var all := done + [row];
    assert row in all;
    forall i, j | 0 <= i < j < |done| ensures done[i].id != done[j].id {
      assert all[i].id != all[j].id;
    }
    forall t | t in done ensures t.id != row.id && t in all {
      var k :| 0 <= k < |done| && done[k] == t;
      assert all[k].id != all[|done|].id;
    }
  }

  lemma {:induction false} HandleSingle(o: Oracle, table: Table, known: set<Addr>, done: seq<Row>, row: Row)
    returns (h: Handled)
    requires row.addr in known && !IsPart(row) && row.body != Sms(Malformed)
    requires row.id in table && table[row.id] == row && !Taken(table, known, done, row.id)
    ensures Steps(o, table, known, done, row, h)
  {
    var before, after := AllTaken(table, known, done), AllTaken(table, known, done + [row]);
    TakenStep(table, known, done, row);
    h := Handle(o, table - before, row).value;
    if h.Delivered? {
      SingleTakes(table, known, done, row);
      hide AllTaken, Taken;
      RemoveListed(table - before, [row.id], {row.id});
    } else {
      assert after == before;
    }
  }

  lemma {:induction false} SingleTakes(table: Table, known: set<Addr>, done: seq<Row>, row: Row)
    requires Fires(table, known, row) && !IsPart(row) && row.id in table && !Taken(table, known, done, row.id)
    ensures AllTaken(table, known, done + [row]) - AllTaken(table, known, done) == {row.id}
    ensures table - AllTaken(table, known, done) - {row.id} == table - AllTaken(table, known, done + [row])
  {
    TakenStep(table, known, done, row);
    assert Takes(table, row) == {row.id};
  }

  lemma {:induction false} HandlePart(o: Oracle, table: Table, known: set<Addr>, done: seq<Row>, row: Row)
    returns (h: Handled)
    requires Honest(o) && WellKept(table) && FromTable(table, done)
    requires row.id in table && table[row.id] == row && row.addr in known && IsPart(row)
    ensures Steps(o, table, known, done, row, h)
  {
    var now := table - AllTaken(table, known, done);
    var c := row.body.pdu.concat.value;
    GroupNow(table, known, done, row);
    TakenStep(table, known, done, row);
    assert StoredByModem(row);
    assert row.id in Takes(table, row);
    var here := Group(now, row.addr, c.reference);
    assert here == Takes(now, row);
    var ids := o.concatOrder(here);
    assert Lists(ids, here);
    ListsSize(ids, here);
    if Taken(table, known, done, row.id) {
      StaleTaken(table, known, done, row);
      EmptySend(o, now, row);
      h := Handle(o, now, row).value;
    } else if |here| == c.parts {
      FreshTaken(table, known, done, row);
      forall k | 0 <= k < |ids| ensures ids[k] in now && now[ids[k]].csms.Some? {
        assert ids[k] in here;
      }
      PiecesFound(now, ids);
      PiecesOfPart(table, now, ids);
      RemoveListed(now, ids, here);
      h := Handle(o, now, row).value;
    } else {
      assert !Fires(table, known, row);
      h := Kept;
      assert AllTaken(table, known, done + [row]) == AllTaken(table, known, done);
    }
  }

  lemma {:induction false} StaleTaken(table: Table, known: set<Addr>, done: seq<Row>, row: Row)
    requires WellKept(table) && FromTable(table, done) && IsPart(row)
    requires row.id in table && table[row.id] == row && Taken(table, known, done, row.id)
    ensures AllTaken(table, known, done + [row]) == AllTaken(table, known, done)
  {
    TakenStep(table, known, done, row);
    assert StoredByModem(row);
    forall i | i in Takes(table, row) ensures i in AllTaken(table, known, done) {
      WholeGroups(table, known, done, row, row.id, i);
    }
  }

  lemma {:induction false} FreshTaken(table: Table, known: set<Addr>, done: seq<Row>, row: Row)
    requires WellKept(table) && FromTable(table, done) && IsPart(row)
    requires row.id in table && table[row.id] == row && !Taken(table, known, done, row.id)
    requires Fires(table, known, row)
    ensures AllTaken(table, known, done + [row]) - AllTaken(table, known, done) == Takes(table, row)
    ensures table - AllTaken(table, known, done) - Takes(table, row) == table - AllTaken(table, known, done + [row])
  {
    TakenStep(table, known, done, row);
    assert StoredByModem(row);
    forall i | i in Takes(table, row) ensures i !in AllTaken(table, known, done) {
      if Taken(table, known, done, i) { WholeGroups(table, known, done, row, i, row.id); }
    }
  }

  /** A stale part: its siblings are gone, so nothing is sent, whatever number of parts it asks for. */
  lemma {:induction false} EmptySend(o: Oracle, now: Table, row: Row)
    requires IsPart(row) && o.concatOrder(Takes(now, row)) == []
    ensures Handle(o, now, row).Ok?
    ensures var h := Handle(o, now, row).value; Settle(now, h) == Passed(now, Deeds(h), None)
    ensures var h := Handle(o, now, row).value; h.Delivered? ==> h.send == Send(row, [], [])
  {
  }

  lemma {:induction false} ListsAppend(xs: seq<int>, ys: seq<int>, s: set<int>, t: set<int>)
    requires Lists(xs, s) && Lists(ys, t) && s !! t
    ensures Lists(xs + ys, s + t)
  {
    forall i, j | 0 <= i < j < |xs + ys| ensures (xs + ys)[i] != (xs + ys)[j] {
      if i < |xs| <= j { assert xs[i] in s && ys[j - |xs|] in t; }
    }
  }

  // ---- what was done ----

  lemma {:induction false} SendsAppend(xs: seq<Deed>, ys: seq<Deed>)
    ensures Sends(xs + ys) == Sends(xs) + Sends(ys)
  {
    if xs == [] {
      assert xs + ys == ys;
    } else {
      SendsAppend(xs[1..], ys);
      Regroup(if xs[0].Said? then [xs[0].send] else [], Sends(xs[1..]), Sends(ys));
      assert (xs + ys)[0] == xs[0] && (xs + ys)[1..] == xs[1..] + ys;
    }
  }

  lemma {:induction false} RemovalsAppend(xs: seq<Deed>, ys: seq<Deed>)
    ensures Removals(xs + ys) == Removals(xs) + Removals(ys)
  {
    if xs == [] {
      assert xs + ys == ys;
    } else {
      RemovalsAppend(xs[1..], ys);
      Regroup(if xs[0].Removed? then [xs[0].id] else [], Removals(xs[1..]), Removals(ys));
      assert (xs + ys)[0] == xs[0] && (xs + ys)[1..] == xs[1..] + ys;
    }
  }

  lemma {:induction false} DeletionsDo(ids: seq<int>)
    ensures Sends(Deletions(ids)) == [] && Removals(Deletions(ids)) == ids
  {
    if ids != [] {
      DeletionsDo(ids[1..]);
      assert Deletions(ids)[1..] == Deletions(ids[1..]);
    }
  }

  lemma {:induction false} DeedsDo(h: Handled)
    ensures Sends(Deeds(h)) == if h.Delivered? then [h.send] else []
    ensures Removals(Deeds(h)) == if h.Delivered? then h.send.ids else []
    ensures SaidFirst(Deeds(h))
  {
    if h.Delivered? {
      DeletionsDo(h.send.ids);
      var deeds := Deeds(h);
      assert deeds[1..] == Deletions(h.send.ids);
      forall j | 0 <= j < |deeds| && deeds[j].Removed?
        ensures exists i :: 0 <= i < j && deeds[i].Said? && deeds[j].id in deeds[i].send.ids
      {
        assert deeds[j] == Deletions(h.send.ids)[j - 1] && deeds[0].Said?;
      }
    }
  }

  lemma {:induction false} SaidFirstAppend(xs: seq<Deed>, ys: seq<Deed>)
    requires SaidFirst(xs) && SaidFirst(ys)
    ensures SaidFirst(xs + ys)
  {
    var all := xs + ys;
    forall j | 0 <= j < |all| && all[j].Removed?
      ensures exists i :: 0 <= i < j && all[i].Said? && all[j].id in all[i].send.ids
    {
      if j < |xs| {
        var i :| 0 <= i < j && xs[i].Said? && xs[j].id in xs[i].send.ids;
        assert all[i] == xs[i];
      } else {
        var i :| 0 <= i < j - |xs| && ys[i].Said? && ys[j - |xs|].id in ys[i].send.ids;
        assert all[|xs| + i] == ys[i];
      }
    }
  }

  // ---- whole passes ----

  /** The table lost exactly the rows between `from` and `to`, each after the one right send it
      belongs to. */
  ghost predicate PassDone(o: Oracle, table: Table, known: set<Addr>, from: set<int>, to: set<int>, p: Passed) {
    && p.table == table - to
    && Lists(Removals(p.deeds), to - from)
    && Flat(Sends(p.deeds)) == Removals(p.deeds)
    && SaidFirst(p.deeds)
    && (forall s <- Sends(p.deeds) :: RightSend(o, table, known, s))
  }

  lemma {:induction false} PassNone(o: Oracle, table: Table, known: set<Addr>, from: set<int>, failure: Option<Failure>)
    ensures PassDone(o, table, known, from, from, Passed(table - from, [], failure))
  {
  }

  lemma {:induction false} PassStep(o: Oracle, table: Table, known: set<Addr>, from: set<int>, mid: set<int>,
                                    to: set<int>, h: Handled, p: Passed)
    requires from <= mid <= to && PassDone(o, table, known, mid, to, p)
    requires if h.Delivered? then RightSend(o, table, known, h.send) && Lists(h.send.ids, mid - from) else mid == from
    ensures PassDone(o, table, known, from, to, After(Deeds(h), p))
  {
    DeedsDo(h);
    SendsAppend(Deeds(h), p.deeds);
    RemovalsAppend(Deeds(h), p.deeds);
    SaidFirstAppend(Deeds(h), p.deeds);
    hide Sends, Removals, SaidFirst, RightSend;
    if h.Delivered? {
      ListsAppend(h.send.ids, Removals(p.deeds), mid - from, to - mid);
      assert (mid - from) + (to - mid) == to - from;
      assert ([h.send] + Sends(p.deeds))[1..] == Sends(p.deeds);
    } else {
      assert [] + Sends(p.deeds) == Sends(p.deeds) && [] + Removals(p.deeds) == Removals(p.deeds);
    }
  }

  /** One row, after the rows of `done`: what it does, or why it stops the pass before doing anything. */
  lemma {:induction false} TurnExact(o: Oracle, accepts: Byte -> bool, table: Table, known: set<Addr>, done: seq<Row>,
                                     row: Row)
    returns (h: Handled)
    requires Honest(o) && WellKept(table) && FromTable(table, done + [row])
    ensures var from, to := AllTaken(table, known, done), AllTaken(table, known, done + [row]);
            var p := Turn(o, accepts, table - from, row, known);
            if Stops(accepts, known, row) then p == Passed(table - from, [], Some(Cause(accepts, row)))
            else
              && p == Passed(table - to, Deeds(h), None) && from <= to
              && (if h.Delivered? then RightSend(o, table, known, h.send) && Lists(h.send.ids, to - from)
                  else to == from)
  {
    h := Kept;
    if !Stops(accepts, known, row) {
      if row.addr in known {
        h := HandleNext(o, table, known, done, row);
      } else {
        TakenStep(table, known, done, row);
        assert AllTaken(table, known, done + [row]) == AllTaken(table, known, done);
      }
    }
  }

  lemma {:induction false} PassFrom(o: Oracle, accepts: Byte -> bool, table: Table, known: set<Addr>, done: seq<Row>,
                                    rest: seq<Row>)
    requires Honest(o) && WellKept(table) && FromTable(table, done + rest)
    ensures var n := Reached(accepts, known, rest);
            var from, to := AllTaken(table, known, done), AllTaken(table, known, done + rest[..n]);
            var p := Pass(o, accepts, table - from, rest, known);
            && from <= to && PassDone(o, table, known, from, to, p)
            && p.failure == if n < |rest| then Some(Cause(accepts, rest[n])) else None
    decreases rest
  {
    hide PassDone, RightSend, Turn, WellKept, AllTaken, FromTable, Lists, Deeds, Stops, Cause;
    var from := AllTaken(table, known, done);
    if rest == [] {
      assert done + rest == done && done + rest[..0] == done;
      PassNone(o, table, known, from, None);
    } else {
      var row, later := rest[0], rest[1..];
      var next := done + [row];
      assert done + rest == next + later;
      Prefix(table, next, later);
      var h := TurnExact(o, accepts, table, known, done, row);
      if Stops(accepts, known, row) {
        assert done + rest[..0] == done;
        PassNone(o, table, known, from, Some(Cause(accepts, row)));
      } else {
        PassFrom(o, accepts, table, known, next, later);
        var n := Reached(accepts, known, later);
        assert rest[..n + 1] == [row] + later[..n] && next + later[..n] == done + rest[..n + 1];
        PassStep(o, table, known, from, AllTaken(table, known, next), AllTaken(table, known, done + rest[..n + 1]), h,
                 Pass(o, accepts, table - AllTaken(table, known, next), later, known));
      }
    }
  }

  lemma {:induction false} Prefix(table: Table, a: seq<Row>, b: seq<Row>)
    requires FromTable(table, a + b)
    ensures FromTable(table, a)
  {
    forall r | r in a ensures r in a + b {}
    forall i, j | 0 <= i < j < |a| ensures a[i].id != a[j].id {
      assert (a + b)[i].id != (a + b)[j].id;
    }
  }

  /** Rows a pass leaves: no contact yet, unreadable, or part of a message no part of which finds the
      number of parts it asks for. */
  ghost predicate Stays(table: Table, known: set<Addr>, row: Row) {
    || row.addr !in known
    || (row.body.Sms? && !row.body.pdu.Decoded?)
    || (IsPart(row) && forall j <- Takes(table, row) :: j in table ==> !Complete(table, table[j]))
  }

  /** The rows of the known addresses are all in the snapshot. */
  ghost predicate Covers(table: Table, snap: seq<Row>, known: set<Addr>) {
    FromTable(table, snap) && forall i :: i in table && table[i].addr in known ==> table[i] in snap
  }

  lemma {:induction false} TakenUnlessStays(table: Table, snap: seq<Row>, known: set<Addr>, i: int)
    requires WellKept(table) && Covers(table, snap, known) && i in table
    ensures Taken(table, known, snap, i) <==> !Stays(table, known, table[i])
  {
    var row := table[i];
    assert StoredByModem(row) && i in Takes(table, row);
    if Taken(table, known, snap, i) {
      var t :| t in snap && Fires(table, known, t) && i in Takes(table, t);
      assert StoredByModem(table[t.id]);
      assert t.id in Takes(table, row);
    } else if row.addr in known {
      assert row in snap;
      forall j | j in Takes(table, row) && j in table && IsPart(row) ensures !Fires(table, known, table[j]) {
        assert StoredByModem(table[j]) && table[j] in snap;
      }
    }
  }

  /** What a pass over rows of a table did, for a set of addresses that have a contact or a recipient.
      Exactly a row whose address does not read back, or whose PDU is known and does not parse, stops
      it, at the first such row and before doing anything about it; it never deletes a row twice.
      Stopped or not, the rows removed are exactly those taken by the rows before; each is covered by
      exactly one send and removed after it, and each send carries the text of one complete message. */
  ghost predicate PassedExactly(o: Oracle, accepts: Byte -> bool, table: Table, snap: seq<Row>, known: set<Addr>,
                                p: Passed) {
    var n := Reached(accepts, known, snap);
    && p.failure == (if n < |snap| then Some(Cause(accepts, snap[n])) else None)
    && PassDone(o, table, known, {}, AllTaken(table, known, snap[..n]), p)
  }

  /** With all rows of the known addresses, a pass not stopped leaves exactly the rows that stay. */
  lemma {:induction false} CoveredPassExact(o: Oracle, accepts: Byte -> bool, table: Table, snap: seq<Row>,
                                            known: set<Addr>)
    requires Honest(o) && WellKept(table) && FromTable(table, snap)
    ensures var p := Pass(o, accepts, table, snap, known);
            && PassedExactly(o, accepts, table, snap, known, p)
            && (p.failure.None? && Covers(table, snap, known) ==>
                  forall i :: i in p.table <==> i in table && Stays(table, known, table[i]))
  {
    hide Honest, WellKept, Pass, Stays, RightSend, Cause, Stops, Reached;
    assert [] + snap == snap && forall n :: 0 <= n <= |snap| ==> [] + snap[..n] == snap[..n];
    assert AllTaken(table, known, []) == {} && table - {} == table;
    PassFrom(o, accepts, table, known, [], snap);
    var n := Reached(accepts, known, snap);
    if n == |snap| && Covers(table, snap, known) {
      assert snap[..n] == snap;
      forall i | i in table ensures Taken(table, known, snap, i) <==> !Stays(table, known, table[i]) {
        TakenUnlessStays(table, snap, known, i);
      }
    }
  }

  /** The same over the snapshot of a whole table. */
  lemma {:induction false} PassExact(o: Oracle, accepts: Byte -> bool, table: Table, snap: seq<Row>, known: set<Addr>)
    requires Honest(o) && WellKept(table) && IsSnapshot(table, snap)
    ensures var p := Pass(o, accepts, table, snap, known);
            && PassedExactly(o, accepts, table, snap, known, p)
            && (p.failure.None? ==> forall i :: i in p.table <==> i in table && Stays(table, known, table[i]))
  {
    SnapshotFromTable(table, snap);
    CoveredPassExact(o, accepts, table, snap, known);
  }
}
