/** A contact's channels, its delivery passes and its mode, over whole runs. */
module ContactProofs {
  import opened Outcomes
  import opened Failures
  import opened Address
  import opened Peer
  import opened ContactModel
  import Delivery
  import DeliveryProofs
  import Fragments
  import LinkInvariant
  import LinkModel
  import LinkPass
  import LinkRuns
  import LinkSteps

  // ---- channels ----

  /** What the server knows of the contact: the client joined `home` by itself. */
  function AtStart(home: string): View {
    map[ME := Seen("", "", {home})]
  }

  /** The server has the contact in the channels of its groups, and in `home` unless a group has ever
      had that channel: then it counts as a group's. */
  ghost predicate Joined(home: string, channels: seq<string>, sent: seq<Wire>) {
    var v := Replay(AtStart(home), sent);
    && ME in v
    && v[ME].channels == Elements(channels) + (if Out(Join(ME, home)) in sent then {} else {home})
    && (home in channels ==> Out(Join(ME, home)) in sent)
  }

  /** The row agrees with the mode, the tables are as their writers keep them, and the server's view
      is that of the `channels` field. */
  ghost predicate Inv(cfg: Config, s: State) {
    && Joined(cfg.home, s.channels, s.sent)
    && (s.recipient.Some? ==> s.recipient.value.whatsapp == s.waMode)
    && LinkInvariant.Stored(s.messages, s.groups)
  }

  /** Lines about nobody's channels. */
  ghost predicate QuietLines(ws: seq<Wire>) {
    forall i :: 0 <= i < |ws| ==> Quiet(ws[i])
  }

  lemma {:induction false} QuietJoined(home: string, channels: seq<string>, sent: seq<Wire>, ws: seq<Wire>)
    requires Joined(home, channels, sent) && QuietLines(ws)
    ensures Joined(home, channels, sent + ws)
  {
    ReplayAppend(AtStart(home), sent, ws);
    ReplayQuiet(Replay(AtStart(home), sent), ws);
    assert Out(Join(ME, home)) in sent + ws <==> Out(Join(ME, home)) in sent;
  }

  /** Joining the wanted channels and parting the dropped ones. */
  lemma {:induction false} SwitchJoined(home: string, had: seq<string>, wanted: seq<string>, sent: seq<Wire>)
    requires Joined(home, had, sent)
    ensures Joined(home, wanted, sent + (Joins(ME, wanted) + Parts(ME, Dropped(had, wanted))))
  {
    hide Joins, Parts, Dropped, Replay;
    var joins, parts := Joins(ME, wanted), Parts(ME, Dropped(had, wanted));
    var v := Replay(AtStart(home), sent);
    ReplayAppend(AtStart(home), sent, joins + parts);
    ReplayAppend(v, joins, parts);
    ReplayJoins(v, ME, wanted);
    ReplayParts(Replay(v, joins), ME, Dropped(had, wanted));
    JoinSaid(home, wanted);
    var all := sent + (joins + parts);
    assert Out(Join(ME, home)) in all <==> Out(Join(ME, home)) in sent || home in wanted;
    assert home in Dropped(had, wanted) <==> home in had && home !in wanted;
  }

  lemma {:induction false} JoinSaid(home: string, wanted: seq<string>)
    ensures Out(Join(ME, home)) in Joins(ME, wanted) <==> home in wanted
  {
    if home in wanted {
      var i :| 0 <= i < |wanted| && wanted[i] == home;
      assert Joins(ME, wanted)[i] == Out(Join(ME, home));
    }
  }

  /** After `process_groups` the server has the contact in the channels of exactly its groups, and still
      in the channel it joined by itself exactly if no group has ever had that one. */
  lemma {:induction false} GroupsExact(cfg: Config, w: LinkModel.World, s: State)
    requires Inv(cfg, s) && LinkModel.Honest(w) && s.connected
    ensures var r := ProcessGroups(w, s);
            && (r.Err? <==> s.recipient.None?) && Inv(cfg, Left(r))
            && (r.Ok? ==>
                  var v := Replay(AtStart(cfg.home), r.value.sent);
                  var mine := LinkRuns.ChannelsWith(s.groups, s.recipient.value.id);
                  && Elements(r.value.channels) == mine
                  && ME in v
                  && v[ME].channels == mine + (if Out(Join(ME, cfg.home)) in r.value.sent then {} else {cfg.home}))
  {
    if s.recipient.Some? {
      var id := s.recipient.value.id;
      LinkRuns.ChannelsListed(w, s.groups, id);
      SwitchJoined(cfg.home, s.channels, Wanted(w, s.groups, s.recipient.value), s.sent);
    }
  }

  // ---- delivery ----

  /** The contact as the sender of its lines. */
  function Me(a: Addr): map<Addr, LinkModel.Contact> {
    map[a := LinkModel.Contact(ME, [], false)]
  }

  /** The texts sent and the deletions that go with what a pass does. */
  function DeedLines(a: Addr, groups: map<int, LinkModel.Group>, deeds: seq<Delivery.Deed>): seq<Wire> {
    LinkPass.AllActs(Me(a), groups, deeds)
  }

  ghost predicate GroupsKnown(groups: map<int, LinkModel.Group>, rows: seq<Delivery.Row>) {
    forall i :: 0 <= i < |rows| && rows[i].group.Some? ==> rows[i].group.value in groups
  }

  ghost predicate AllFrom(a: Addr, rows: seq<Delivery.Row>) {
    forall i :: 0 <= i < |rows| ==> rows[i].addr == a
  }

  /** What a pass did: the deeds and nothing else to people, the table left so, the mode following. */
  ghost predicate Passed(s: State, s': State, a: Addr, rows: seq<Delivery.Row>, p: Delivery.Passed) {
    && s.sent <= s'.sent && Says(s'.sent[|s.sent|..], s.groups, s.waMode, a, rows, p.deeds)
    && Ends(s, s', a, rows, p)
  }

  /** Lines that are the deeds, and notices where the mode had to follow the messages. */
  ghost predicate Says(ws: seq<Wire>, groups: map<int, LinkModel.Group>, mode: bool, a: Addr, rows: seq<Delivery.Row>,
                       deeds: seq<Delivery.Deed>) {
    && QuietLines(ws) && LinkPass.Acts(ws) == DeedLines(a, groups, deeds)
    && LinkPass.Notices(ws, ME) == LinkPass.Alternations(mode, LinkPass.Kinds(rows, a))
  }

  ghost predicate Ends(s: State, s': State, a: Addr, rows: seq<Delivery.Row>, p: Delivery.Passed) {
    && s' == s.(waMode := LinkPass.Latest(s.waMode, LinkPass.Kinds(rows, a)), recipient := s'.recipient,
                messages := p.table, sent := s'.sent)
    && (s.recipient.None? ==> s'.recipient.None?)
    && (s.recipient.Some? && s.recipient.value.whatsapp == s.waMode ==>
          s'.recipient == Some(s.recipient.value.(whatsapp := s'.waMode)))
  }

  /** The lines a switch of mode says. */
  function SwitchLines(mode: bool, wa: bool): seq<Wire> {
    if mode == wa then [] else [Out(ModeNotice(ME, wa))]
  }

  /** The lines that come with a handled row. */
  function HandledLines(a: Addr, groups: map<int, LinkModel.Group>, h: Delivery.Handled): seq<Wire> {
    if h.Unreadable? then [Out(ErrorNotice(ME))] else DeedLines(a, groups, DeliveryProofs.Deeds(h))
  }

  lemma {:induction false} SwitchHeard(mode: bool, wa: bool)
    ensures var ws := SwitchLines(mode, wa);
            QuietLines(ws) && LinkPass.Acts(ws) == [] && LinkPass.Notices(ws, ME) == if mode == wa then 0 else 1
  {
    if mode != wa { LinkPass.OneNotice(ME, wa, ME); }
  }

  lemma {:induction false} HandledHeard(a: Addr, groups: map<int, LinkModel.Group>, h: Delivery.Handled)
    ensures var ws := HandledLines(a, groups, h);
            && QuietLines(ws) && LinkPass.Notices(ws, ME) == 0
            && LinkPass.Acts(ws) == DeedLines(a, groups, DeliveryProofs.Deeds(h))
  {
    if h.Unreadable? {
      LinkPass.UnspokenLines([Out(ErrorNotice(ME))], ME);
    } else {
      AllAct(a, groups, DeliveryProofs.Deeds(h));
      LinkPass.ActLines(HandledLines(a, groups, h), ME);
    }
  }

  lemma {:induction false} AllAct(a: Addr, groups: map<int, LinkModel.Group>, deeds: seq<Delivery.Deed>)
    ensures var ws := DeedLines(a, groups, deeds); forall i :: 0 <= i < |ws| ==> LinkPass.IsAct(ws[i]) && Quiet(ws[i])
  {
    if deeds != [] {
      AllAct(a, groups, deeds[1..]);
      var first := LinkPass.ActsOf(Me(a), groups, deeds[0]);
      assert forall i :: 0 <= i < |first| ==> LinkPass.IsAct(first[i]) && Quiet(first[i]);
      assert DeedLines(a, groups, deeds) == first + DeedLines(a, groups, deeds[1..]);
    }
  }

  /** The state after a row: its lines, and the table as it was settled. */
  function After(s: State, row: Delivery.Row, h: Delivery.Handled, table: Delivery.Table): State {
    Say(SwitchMode(s, row.body.Plain?), HandledLines(row.addr, s.groups, h)).(messages := table)
  }

  lemma {:induction false} RemoveRowsIs(s: State, ids: seq<int>)
    requires Delivery.Remove(s.messages, ids).failure.None?
    ensures RemoveRows(s, ids) ==
            Ok(Say(s, LinkSteps.Erasures(ids)).(messages := Delivery.Remove(s.messages, ids).table))
    decreases ids
  {
    if ids == [] {
      assert s.sent + [] == s.sent;
    } else {
      var s1 := Say(s, [Removed(ids[0])]).(messages := s.messages - {ids[0]});
      RemoveRowsIs(s1, ids[1..]);
      Regroup(s.sent, [Removed(ids[0])], LinkSteps.Erasures(ids[1..]));
    }
  }

  lemma {:induction false} SentThenRemoved(s: State, send: Delivery.Send)
    requires send.row.group.Some? ==> send.row.group.value in s.groups
    requires Delivery.Remove(s.messages, send.ids).failure.None?
    ensures SendThenRemove(s, send) ==
            Ok(Say(s, DeedLines(send.row.addr, s.groups, DeliveryProofs.Deeds(Delivery.Delivered(send))))
               .(messages := Delivery.Remove(s.messages, send.ids).table))
  {
    hide Delivery.Remove, Fragments.Chunks, Fragments.Lines, LinkModel.Privmsgs, LinkPass.AllActs, RemoveRows,
         LinkSteps.Erasures;
    var a := send.row.addr;
    var s1 := SendRaw(s, send.text, send.row.group).value;
    RemoveRowsIs(s1, send.ids);
    LinkPass.ErasuresAre(Me(a), s.groups, send.ids);
    LinkPass.SaidThenRemoved(Me(a), s.groups, send);
    Regroup(s.sent, LinkPass.Lines(Me(a), s.groups, send), LinkSteps.Erasures(send.ids));
  }

  lemma {:induction false} DeliverExact(o: Delivery.Oracle, s: State, row: Delivery.Row, h: Delivery.Handled)
    requires row.group.Some? ==> row.group.value in s.groups
    requires Delivery.Handle(o, s.messages, row) == Ok(h) && Delivery.Settle(s.messages, h).failure.None?
    ensures var p := Delivery.Settle(s.messages, h);
            && p.deeds == DeliveryProofs.Deeds(h)
            && Deliver(o, s, row) == Ok(Say(s, HandledLines(row.addr, s.groups, h)).(messages := p.table))
  {
    if h.Delivered? {
      LinkPass.HandledRow(o, s.messages, row);
      LinkPass.RemoveDeeds(s.messages, h.send.ids);
      hide SendThenRemove, Delivery.Remove, Delivery.Handle, LinkPass.AllActs;
      SentThenRemoved(s, h.send);
    } else {
      hide Delivery.Handle;
      assert s.sent + [] == s.sent;
    }
  }

  lemma {:induction false} TurnHandles(o: Delivery.Oracle, accepts: Byte -> bool, table: Delivery.Table,
                                       row: Delivery.Row)
    requires Reads(accepts, row.addr) && Delivery.Turn(o, accepts, table, row, {row.addr}).failure.None?
    ensures var h := Delivery.Handle(o, table, row);
            && h.Ok? && row.body != Delivery.Sms(Delivery.Malformed)
            && Delivery.Turn(o, accepts, table, row, {row.addr}) == Delivery.Settle(table, h.value)
  {
    hide Delivery.Settle, Reads;
  }

  /** One row that does not stop the pass does what the pass over the table does with it, and says what
      goes with that. */
  lemma {:induction false} RowExact(o: Delivery.Oracle, accepts: Byte -> bool, s: State, row: Delivery.Row)
    returns (h: Delivery.Handled)
    requires row.group.Some? ==> row.group.value in s.groups
    requires Reads(accepts, row.addr) && Delivery.Turn(o, accepts, s.messages, row, {row.addr}).failure.None?
    ensures var p := Delivery.Turn(o, accepts, s.messages, row, {row.addr});
            p.deeds == DeliveryProofs.Deeds(h) && HandleRow(o, s, row) == Ok(After(s, row, h, p.table))
  {
    hide Delivery.Handle, Delivery.Settle, Delivery.Turn, Deliver, Reads, HandledLines, DeliveryProofs.Deeds;
    TurnHandles(o, accepts, s.messages, row);
    h := Delivery.Handle(o, s.messages, row).value;
    DeliverExact(o, SwitchMode(s, row.body.Plain?), row, h);
  }

  /** A pass that is not stopped is the pass over the table, for this contact alone. */
  lemma {:induction false} RowsExact(o: Delivery.Oracle, accepts: Byte -> bool, s: State, a: Addr,
                                     rows: seq<Delivery.Row>)
    requires AllFrom(a, rows) && GroupsKnown(s.groups, rows) && Reads(accepts, a)
    requires Delivery.Pass(o, accepts, s.messages, rows, {a}).failure.None?
    ensures HandleRows(o, s, rows).Ok?
    ensures Passed(s, HandleRows(o, s, rows).value, a, rows, Delivery.Pass(o, accepts, s.messages, rows, {a}))
    decreases rows
  {
    hide Delivery.Turn, HandleRow, Reads, After;
    if rows == [] {
      NothingPassed(s, a);
    } else {
      var row, later := rows[0], rows[1..];
      forall i | 0 <= i < |later| ensures later[i] == rows[i + 1] {}
      var h := RowExact(o, accepts, s, row);
      var s1 := HandleRow(o, s, row).value;
      AfterKeeps(s, row, h, Delivery.Turn(o, accepts, s.messages, row, {a}).table);
      RowsExact(o, accepts, s1, a, later);
      hide Passed;
      PassedStep(s, HandleRows(o, s1, later).value, a, rows, h, s1.messages,
                 Delivery.Pass(o, accepts, s1.messages, later, {a}));
    }
  }

  lemma {:induction false} NothingPassed(s: State, a: Addr)
    ensures Passed(s, s, a, [], Delivery.Passed(s.messages, [], None))
  {
    assert s.sent[|s.sent|..] == [];
  }

  lemma {:induction false} PassedStep(s: State, s2: State, a: Addr, rows: seq<Delivery.Row>, h: Delivery.Handled,
                                      table: Delivery.Table, p: Delivery.Passed)
    requires rows != [] && rows[0].addr == a && Passed(After(s, rows[0], h, table), s2, a, rows[1..], p)
    ensures Passed(s, s2, a, rows, Delivery.After(DeliveryProofs.Deeds(h), p))
  {
    hide Says, Ends, After, SwitchLines, HandledLines;
    var s1 := After(s, rows[0], h, table);
    AfterSays(s, rows[0], h, table, s2);
    AfterKeeps(s, rows[0], h, table);
    SaysStep(s2.sent[|s1.sent|..], s.groups, s.waMode, a, rows, h, p.deeds);
    EndsStep(s, s2, a, rows, h, table, p);
  }

  lemma {:induction false} EndsStep(s: State, s2: State, a: Addr, rows: seq<Delivery.Row>, h: Delivery.Handled,
                                    table: Delivery.Table, p: Delivery.Passed)
    requires rows != [] && rows[0].addr == a && Ends(After(s, rows[0], h, table), s2, a, rows[1..], p)
    ensures Ends(s, s2, a, rows, Delivery.After(DeliveryProofs.Deeds(h), p))
  {
    hide LinkPass.Kinds, LinkPass.Latest, LinkPass.Alternations, HandledLines, DeliveryProofs.Deeds;
    LinkPass.KindsStep(rows, s.waMode, a);
    AfterIs(s, rows[0], h, table);
    hide After;
  }

  /** All that a row changes. */
  lemma AfterIs(s: State, row: Delivery.Row, h: Delivery.Handled, table: Delivery.Table)
    ensures var s1 := After(s, row, h, table);
            && s1 == s.(waMode := row.body.Plain?, recipient := s1.recipient, messages := table, sent := s1.sent)
            && s1.recipient == (if s.waMode == row.body.Plain? || s.recipient.None? then s.recipient
                                else Some(s.recipient.value.(whatsapp := row.body.Plain?)))
  {
    hide HandledLines;
  }

  lemma {:induction false} SaysStep(ws: seq<Wire>, groups: map<int, LinkModel.Group>, mode: bool, a: Addr,
                                    rows: seq<Delivery.Row>, h: Delivery.Handled, deeds: seq<Delivery.Deed>)
    requires rows != [] && rows[0].addr == a && Says(ws, groups, rows[0].body.Plain?, a, rows[1..], deeds)
    ensures Says(SwitchLines(mode, rows[0].body.Plain?) + HandledLines(a, groups, h) + ws, groups, mode, a, rows,
                 DeliveryProofs.Deeds(h) + deeds)
  {
    hide LinkPass.Acts, LinkPass.Notices, LinkPass.Kinds, LinkPass.Latest, LinkPass.Alternations, SwitchLines,
         HandledLines,
         LinkPass.AllActs, QuietLines, DeliveryProofs.Deeds;
    var wa := rows[0].body.Plain?;
    SwitchHeard(mode, wa);
    HandledHeard(a, groups, h);
    Heard(SwitchLines(mode, wa), HandledLines(a, groups, h), ws);
    LinkPass.AllActsAppend(Me(a), groups, DeliveryProofs.Deeds(h), deeds);
    LinkPass.KindsStep(rows, mode, a);
    var first: seq<Wire> := DeedLines(a, groups, DeliveryProofs.Deeds(h));
    assert [] + first == first;
  }

  lemma AfterKeeps(s: State, row: Delivery.Row, h: Delivery.Handled, table: Delivery.Table)
    ensures var s1 := After(s, row, h, table);
            s1.groups == s.groups && s1.waMode == row.body.Plain? && s1.messages == table
  {
    hide HandledLines;
  }

  lemma {:induction false} AfterSays(s: State, row: Delivery.Row, h: Delivery.Handled, table: Delivery.Table, s2: State)
    requires After(s, row, h, table).sent <= s2.sent
    ensures var s1 := After(s, row, h, table);
            && s.sent <= s2.sent
            && s2.sent[|s.sent|..] ==
                 SwitchLines(s.waMode, row.body.Plain?) + HandledLines(row.addr, s.groups, h) + s2.sent[|s1.sent|..]
  {
    hide HandledLines;
    var s1 := After(s, row, h, table);
    assert s1.sent == s.sent + SwitchLines(s.waMode, row.body.Plain?) + HandledLines(row.addr, s.groups, h);
    assert s2.sent == s1.sent + s2.sent[|s1.sent|..];
  }

  lemma {:induction false} Heard(x: seq<Wire>, y: seq<Wire>, z: seq<Wire>)
    ensures LinkPass.Acts(x + y + z) == LinkPass.Acts(x) + LinkPass.Acts(y) + LinkPass.Acts(z)
    ensures LinkPass.Notices(x + y + z, ME) ==
            LinkPass.Notices(x, ME) + LinkPass.Notices(y, ME) + LinkPass.Notices(z, ME)
    ensures QuietLines(x) && QuietLines(y) && QuietLines(z) ==> QuietLines(x + y + z)
  {
    hide LinkPass.Acts, LinkPass.Notices;
    LinkPass.ActsAppend(x + y, z);
    LinkPass.ActsAppend(x, y);
    LinkPass.NoticesAppend(x + y, z, ME);
    LinkPass.NoticesAppend(x, y, ME);
  }

  // ---- whole passes, stopped or not ----

  lemma {:induction false} HandleRowsAppend(o: Delivery.Oracle, s: State, xs: seq<Delivery.Row>, ys: seq<Delivery.Row>)
    requires HandleRows(o, s, xs).Ok?
    ensures HandleRows(o, s, xs + ys) == HandleRows(o, HandleRows(o, s, xs).value, ys)
    decreases xs
  {
    hide HandleRow;
    if xs == [] {
      assert xs + ys == ys;
    } else {
      assert (xs + ys)[0] == xs[0] && (xs + ys)[1..] == xs[1..] + ys;
      HandleRowsAppend(o, HandleRow(o, s, xs[0]).value, xs[1..], ys);
    }
  }

  /** The contact's rows are all of them and only them. */
  lemma {:induction false} InboxExact(cfg: Config, w: LinkModel.World, s: State)
    requires LinkInvariant.Stored(s.messages, s.groups) && LinkModel.Honest(w)
    ensures var rows := Inbox(cfg, w, s);
            && AllFrom(cfg.addr, rows) && DeliveryProofs.Covers(s.messages, rows, {cfg.addr})
            && GroupsKnown(s.groups, rows)
  {
    var own, rows := Own(s.messages, cfg.addr), Inbox(cfg, w, s);
    assert Delivery.WellKept(own);
    assert Delivery.IsSnapshot(own, rows);
    DeliveryProofs.SnapshotFromTable(own, rows);
    forall i | 0 <= i < |rows| ensures rows[i].id in own && own[rows[i].id] == rows[i] {
      assert rows[i] in rows;
    }
    forall i | i in s.messages && s.messages[i].addr in {cfg.addr} ensures s.messages[i] in rows {
      assert i in own;
    }
  }

  lemma {:induction false} StopsHere(accepts: Byte -> bool, a: Addr, rows: seq<Delivery.Row>)
    requires AllFrom(a, rows) && Reads(accepts, a)
    ensures forall i :: 0 <= i < |rows| ==>
              (Delivery.Stops(accepts, {a}, rows[i]) <==> rows[i].body == Delivery.Sms(Delivery.Malformed))
  {
  }

  /** Stopped at row `n` or not: the rows before it are handled as the pass over the table does, and
      nothing is done about it. */
  lemma {:induction false} PassExact(o: Delivery.Oracle, accepts: Byte -> bool, s: State, a: Addr,
                                     rows: seq<Delivery.Row>)
    returns (n: nat)
    requires Delivery.Honest(o) && Delivery.WellKept(s.messages) && DeliveryProofs.Covers(s.messages, rows, {a})
    requires AllFrom(a, rows) && GroupsKnown(s.groups, rows) && Reads(accepts, a)
    ensures var r := HandleRows(o, s, rows);
            && n <= |rows| && (n == |rows| <==> r.Ok?)
            && (r.Err? ==> r.error.why == BadPdu && rows[n].body == Delivery.Sms(Delivery.Malformed))
            && (forall i :: 0 <= i < n ==> rows[i].body != Delivery.Sms(Delivery.Malformed))
            && var p := Delivery.Pass(o, accepts, s.messages, rows[..n], {a});
            && Passed(s, Left(r), a, rows[..n], p)
            && DeliveryProofs.PassDone(o, s.messages, {a}, {}, Delivery.AllTaken(s.messages, {a}, rows[..n]), p)
            && (r.Ok? ==> forall i :: i in p.table <==>
                 i in s.messages && DeliveryProofs.Stays(s.messages, {a}, s.messages[i]))
  {
    hide Passed, DeliveryProofs.PassDone, DeliveryProofs.Stays, Delivery.Pass, Delivery.Stops, Reads,
         DeliveryProofs.Covers;
    StopsHere(accepts, a, rows);
    n := Delivery.Reached(accepts, {a}, rows);
    var done := rows[..n];
    assert rows == done + rows[n..];
    CoveredFromTable(s.messages, rows, done, {a});
    DeliveryProofs.CoveredPassExact(o, accepts, s.messages, done, {a});
    var k := Delivery.Reached(accepts, {a}, done);
    forall i | 0 <= i < n ensures !Delivery.Stops(accepts, {a}, done[i]) {
      assert done[i] == rows[i];
    }
    assert done[..k] == done;
    RowsExact(o, accepts, s, a, done);
    HandleRowsAppend(o, s, done, rows[n..]);
    if n < |rows| {
      assert rows[n..][0] == rows[n];
    } else {
      assert done == rows && rows[n..] == [];
    }
  }

  lemma CoveredFromTable(table: Delivery.Table, rows: seq<Delivery.Row>, done: seq<Delivery.Row>, known: set<Addr>)
    requires DeliveryProofs.Covers(table, rows, known) && done <= rows
    ensures DeliveryProofs.FromTable(table, done)
  {
    assert rows == done + rows[|done|..];
    DeliveryProofs.Prefix(table, done, rows[|done|..]);
  }

  /** A pass of a connected contact whose admin is there, stopped at row `n` or not; exactly a PDU of its
      own that does not parse stops it, before anything is done about that row. Its PRIVMSG lines and
      deletions, in order, are those of its deeds: each text right for one complete message, each row
      deleted once and after the text it belongs to. The rows deleted are exactly those that the rows
      before `n` take, nobody else's among them; a pass not stopped leaves incomplete messages and
      undecodable PDUs. The mode becomes the kind of the last message before `n`, with one notice for
      each alternation. */
  lemma {:induction false} MessagesExact(cfg: Config, w: LinkModel.World, s: State) returns (n: nat,
                                         deeds: seq<Delivery.Deed>)
    requires Inv(cfg, s) && LinkModel.Honest(w) && Reads(cfg.accepts, cfg.addr) && s.connected && s.adminOnline
    ensures var r, rows, a := ProcessMessages(cfg, w, s), Inbox(cfg, w, s), cfg.addr;
            var s' := Left(r);
            && n <= |rows| && (n == |rows| <==> r.Ok?)
            && (r.Err? ==> r.error.why == BadPdu && rows[n].body == Delivery.Sms(Delivery.Malformed))
            && (forall i :: 0 <= i < n ==> rows[i].body != Delivery.Sms(Delivery.Malformed))
            && Inv(cfg, s')
            && s'.messages == s.messages - Delivery.AllTaken(s.messages, {a}, rows[..n])
            && s.sent <= s'.sent && LinkPass.Acts(s'.sent[|s.sent|..]) == DeedLines(a, s.groups, deeds)
            && Delivery.SaidFirst(deeds)
            && Lists(Delivery.Removals(deeds), Delivery.AllTaken(s.messages, {a}, rows[..n]))
            && Delivery.Flat(Delivery.Sends(deeds)) == Delivery.Removals(deeds)
            && (forall x <- Delivery.Sends(deeds) :: Delivery.RightSend(w.oracle, s.messages, {a}, x))
            && s'.waMode == LinkPass.Latest(s.waMode, LinkPass.Kinds(rows[..n], a))
            && LinkPass.Notices(s'.sent[|s.sent|..], ME) ==
                 LinkPass.Alternations(s.waMode, LinkPass.Kinds(rows[..n], a))
            && (r.Ok? ==> forall i :: i in s'.messages <==>
                  i in s.messages && DeliveryProofs.Stays(s.messages, {a}, s.messages[i]))
  {
    hide DeliveryProofs.Stays, Delivery.RightSend, Delivery.Flat, Delivery.Removals, Delivery.Sends, Delivery.SaidFirst,
         Delivery.Pass, HandleRows, Joined, Delivery.AllTaken;
    var a, rows := cfg.addr, Inbox(cfg, w, s);
    InboxExact(cfg, w, s);
    n := PassExact(w.oracle, cfg.accepts, s, a, rows);
    var p := Delivery.Pass(w.oracle, cfg.accepts, s.messages, rows[..n], {a});
    deeds := p.deeds;
    PassedKeeps(cfg, s, Left(HandleRows(w.oracle, s, rows)), rows[..n], p,
                Delivery.AllTaken(s.messages, {a}, rows[..n]));
    var taken := Delivery.AllTaken(s.messages, {a}, rows[..n]);
    assert taken - {} == taken;
  }

  lemma {:induction false} PassedKeeps(cfg: Config, s: State, s': State, rows: seq<Delivery.Row>, p: Delivery.Passed,
                                       gone: set<int>)
    requires Inv(cfg, s) && Passed(s, s', cfg.addr, rows, p) && p.table == s.messages - gone
    ensures Inv(cfg, s')
  {
    hide LinkPass.Acts, LinkPass.Notices, LinkPass.Kinds, LinkPass.Latest, LinkPass.Alternations, Joined, DeedLines;
    QuietJoined(cfg.home, s.channels, s.sent, s'.sent[|s.sent|..]);
    assert s.sent + s'.sent[|s.sent|..] == s'.sent;
  }

  // ---- steps ----

  /** A stored PDU of the contact's own does not parse. */
  ghost predicate Poisoned(cfg: Config, s: State) {
    exists i :: i in s.messages && s.messages[i].addr == cfg.addr
                && s.messages[i].body == Delivery.Sms(Delivery.Malformed)
  }

  lemma {:induction false} MessagesKeep(cfg: Config, w: LinkModel.World, s: State)
    requires Inv(cfg, s) && LinkModel.Honest(w) && Reads(cfg.accepts, cfg.addr)
    ensures var r := ProcessMessages(cfg, w, s);
            && Inv(cfg, Left(r)) && Left(r).connected == s.connected && (Left(r).recipient.None? <==> s.recipient.None?)
            && (r.Err? <==> s.connected && s.adminOnline && Poisoned(cfg, s))
            && (r.Err? ==> r.error.why == BadPdu)
  {
    if s.connected && s.adminOnline {
      var n, deeds := MessagesExact(cfg, w, s);
      InboxExact(cfg, w, s);
      var k := PassExact(w.oracle, cfg.accepts, s, cfg.addr, Inbox(cfg, w, s));
      PoisonedExactly(cfg, w, s);
    }
  }

  lemma {:induction false} PoisonedExactly(cfg: Config, w: LinkModel.World, s: State)
    requires LinkInvariant.Stored(s.messages, s.groups) && LinkModel.Honest(w)
    ensures var rows := Inbox(cfg, w, s);
            Poisoned(cfg, s) <==> exists i :: 0 <= i < |rows| && rows[i].body == Delivery.Sms(Delivery.Malformed)
  {
    InboxExact(cfg, w, s);
    var rows := Inbox(cfg, w, s);
    if i :| 0 <= i < |rows| && rows[i].body == Delivery.Sms(Delivery.Malformed) {
      assert rows[i] in rows;
      assert s.messages[rows[i].id] == rows[i];
    }
    if i :| i in s.messages && s.messages[i].addr == cfg.addr
            && s.messages[i].body == Delivery.Sms(Delivery.Malformed)
    {
      assert s.messages[i] in rows;
      var k :| 0 <= k < |rows| && rows[k] == s.messages[i];
    }
  }

  /** Which events end the contact. */
  ghost predicate Fails(cfg: Config, s: State, e: Event) {
    match e
    case Welcome => (s.adminOnline && Poisoned(cfg, s)) || s.recipient.None?
    case AdminIs(online) => online && !s.adminOnline && s.connected && Poisoned(cfg, s)
    case DoMessages => s.connected && s.adminOnline && Poisoned(cfg, s)
    case DoGroups => s.connected && s.recipient.None?
    case _ => false
  }

  /** Other tasks keep the tables as their constraints have them. */
  ghost predicate Allowed(e: Event) {
    e.DbTables? ==> LinkInvariant.Stored(e.messages, e.groups)
  }

  lemma {:induction false} PresenceKeeps(cfg: Config, s: State)
    requires Inv(cfg, s)
    ensures Inv(cfg, TellPresence(s))
  {
    QuietJoined(cfg.home, s.channels, s.sent, [Out(Away(ME, s.presence))]);
  }

  lemma {:induction false} NickKeeps(cfg: Config, s: State, nick: string, source: int)
    requires Inv(cfg, s)
    ensures Inv(cfg, ChangeNick(s, nick, source))
  {
    ReplayOne(AtStart(cfg.home), s.sent, Out(NickLine(ME, nick)));
  }

  /** Every event, whether it ends the contact or not, leaves the server's view equal to `channels` with
      the channel joined on connecting, the mode equal to the stored one and the tables well kept. It
      ends the contact exactly on a PDU of its own that does not parse, or without a recipient row. */
  lemma {:induction false} StepKeeps(cfg: Config, w: LinkModel.World, s: State, e: Event)
    requires Inv(cfg, s) && LinkModel.Honest(w) && Reads(cfg.accepts, cfg.addr) && Allowed(e)
    ensures var r := Step(cfg, w, s, e);
            Inv(cfg, Left(r)) && (r.Err? <==> Fails(cfg, s, e)) && (r.Err? ==>
              r.error.why in {BadPdu, RecipientMissing})
  {
    hide Joined, ProcessMessages, ProcessGroups, TellPresence, ChangeNick, Reads, LinkInvariant.Stored, Poisoned;
    match e
    case Welcome => WelcomeKeeps(cfg, w, s);
    case AdminIs(online) =>
      if online && !s.adminOnline {
        MessagesKeep(cfg, w, s.(adminOnline := true));
        PoisonedSame(cfg, s, s.(adminOnline := true));
      }
    case DoMessages => MessagesKeep(cfg, w, s);
    case DoGroups =>
      if s.connected { GroupsExact(cfg, w, s); }
      QuietGroups(w, s);
    case DoAway(reason) =>
      PresenceKeeps(cfg, s.(presence := reason));
    case DoNick(nick, source) => NickKeeps(cfg, s, nick, source);
    case _ =>
  }

  lemma {:induction false} WelcomeKeeps(cfg: Config, w: LinkModel.World, s: State)
    requires Inv(cfg, s) && LinkModel.Honest(w) && Reads(cfg.accepts, cfg.addr)
    ensures var r := Step(cfg, w, s, Welcome);
            && Inv(cfg, Left(r)) && (r.Err? <==> Fails(cfg, s, Welcome))
            && (r.Err? ==> r.error.why in {BadPdu, RecipientMissing})
  {
    hide Joined, ProcessMessages, Reads, LinkInvariant.Stored, Poisoned;
    var s0 := s.(connected := true);
    MessagesKeep(cfg, w, s0);
    PoisonedSame(cfg, s, s0);
    var m := ProcessMessages(cfg, w, s0);
    if m.Ok? {
      var s1 := Say(m.value, [Out(Watch)]);
      QuietJoined(cfg.home, m.value.channels, m.value.sent, [Out(Watch)]);
      PresenceKeeps(cfg, s1);
      GroupsExact(cfg, w, TellPresence(s1));
      QuietGroups(w, TellPresence(s1));
    }
  }

  /** Why `process_groups` fails, and that it does nothing before connecting. */
  lemma QuietGroups(w: LinkModel.World, s: State)
    ensures !s.connected ==> ProcessGroups(w, s) == Ok(s)
    ensures ProcessGroups(w, s).Err? ==> ProcessGroups(w, s).error.why == RecipientMissing
  {
  }

  lemma PoisonedSame(cfg: Config, s: State, s': State)
    requires s'.messages == s.messages
    ensures Poisoned(cfg, s') <==> Poisoned(cfg, s)
  {
  }

  // ---- runs ----

  datatype Move = Move(w: LinkModel.World, e: Event)

  /** A run from a new contact on a well-kept database. */
  ghost predicate Run(cfg: Config, states: seq<State>, moves: seq<Move>) {
    && |states| == |moves| + 1
    && (var s := states[0];
        LinkInvariant.Stored(s.messages, s.groups) && Begins(cfg, s))
    && (forall i :: 0 <= i < |moves| ==> Moves(cfg, states[i], moves[i], states[i + 1]))
  }

  ghost predicate Begins(cfg: Config, s: State) {
    s.recipient.Some? && New(cfg, s.recipient.value, s.groups, s.messages) == Ok(s)
  }

  /** A step; or a failed step and later a new contact on the messages and groups it left. */
  ghost predicate Moves(cfg: Config, s: State, m: Move, s': State) {
    && LinkModel.Honest(m.w) && Allowed(m.e)
    && match Step(cfg, m.w, s, m.e)
       case Ok(next) => s' == next
       case Err(stop) => Begins(cfg, s') && s'.groups == stop.at.groups && s'.messages == stop.at.messages
  }

  lemma {:induction false} BeginsHolds(cfg: Config, s: State)
    requires Begins(cfg, s) && LinkInvariant.Stored(s.messages, s.groups)
    ensures Inv(cfg, s) && Reads(cfg.accepts, cfg.addr)
  {
    assert Elements<string>([]) + {cfg.home} == {cfg.home};
  }

  /** At every point of a run, whatever failures and restarts it goes through: the server has the contact
      in exactly its channels and in the one it joined on connecting, which stays exactly until a group
      has it and then goes as a group's channel does; the mode is the stored one. */
  lemma {:induction false} RunKeeps(cfg: Config, states: seq<State>, moves: seq<Move>, i: nat)
    requires Run(cfg, states, moves) && i < |states|
    ensures Inv(cfg, states[i]) && Reads(cfg.accepts, cfg.addr)
  {
    hide Joined, Step, Fails, LinkModel.Honest, LinkInvariant.Stored, Reads, Begins;
    if i == 0 {
      BeginsHolds(cfg, states[0]);
    } else {
      RunKeeps(cfg, states, moves, i - 1);
      var s, m := states[i - 1], moves[i - 1];
      assert Moves(cfg, s, m, states[i]);
      StepKeeps(cfg, m.w, s, m.e);
      if Step(cfg, m.w, s, m.e).Err? {
        BeginsHolds(cfg, states[i]);
      }
    }
  }

  /** Over a run the contact is in the channel it joined by itself exactly if that is one of its groups'
      or no group ever had it since it connected. */
  lemma {:induction false} HomeKept(cfg: Config, states: seq<State>, moves: seq<Move>, i: nat)
    requires Run(cfg, states, moves) && i < |states|
    ensures var s := states[i];
            var v := Replay(AtStart(cfg.home), s.sent);
            && ME in v
            && v[ME].channels - {cfg.home} == Elements(s.channels) - {cfg.home}
            && (cfg.home in v[ME].channels <==> cfg.home in s.channels || Out(Join(ME, cfg.home)) !in s.sent)
  {
    hide Run;
    RunKeeps(cfg, states, moves, i);
  }
}
