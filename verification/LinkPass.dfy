/** `process_messages`: what a whole pass over the message table says and leaves. */
module LinkPass {
  import opened Outcomes
  import opened Failures
  import opened Address
  import opened Peer
  import opened LinkModel
  import opened LinkInvariant
  import opened LinkSteps
  import Delivery
  import DeliveryProofs
  import Fragments

  // ---- what is heard ----

  /** What counts of a history: texts sent and rows deleted. */
  predicate IsAct(w: Wire) {
    (w.Out? && w.line.Privmsg?) || w.Removed?
  }

  /** The PRIVMSG lines and the deletions, in order. */
  function Acts(ws: seq<Wire>): seq<Wire> {
    if ws == [] then [] else (if IsAct(ws[0]) then [ws[0]] else []) + Acts(ws[1..])
  }

  /** The number of automatic mode notices from one ghost. */
  function Notices(ws: seq<Wire>, u: Uid): nat {
    if ws == [] then 0
    else (if ws[0].Out? && ws[0].line.ModeNotice? && ws[0].line.uid == u then 1 else 0) + Notices(ws[1..], u)
  }

  predicate Unspoken(w: Wire) {
    !IsAct(w) && (w.Out? ==> !w.line.ModeNotice?)
  }

  lemma {:induction false} ActsAppend(xs: seq<Wire>, ys: seq<Wire>)
    ensures Acts(xs + ys) == Acts(xs) + Acts(ys)
  {
    hide IsAct;
    if xs == [] {
      assert xs + ys == ys;
    } else {
      assert (xs + ys)[0] == xs[0] && (xs + ys)[1..] == xs[1..] + ys;
      ActsAppend(xs[1..], ys);
      Regroup(if IsAct(xs[0]) then [xs[0]] else [], Acts(xs[1..]), Acts(ys));
    }
  }

  lemma {:induction false} NoticesAppend(xs: seq<Wire>, ys: seq<Wire>, u: Uid)
    ensures Notices(xs + ys, u) == Notices(xs, u) + Notices(ys, u)
  {
    if xs == [] {
      assert xs + ys == ys;
    } else {
      assert (xs + ys)[1..] == xs[1..] + ys;
      NoticesAppend(xs[1..], ys, u);
    }
  }

  lemma {:induction false} UnspokenLines(ws: seq<Wire>, u: Uid)
    requires forall i :: 0 <= i < |ws| ==> Unspoken(ws[i])
    ensures Acts(ws) == [] && Notices(ws, u) == 0
  {
    if ws != [] { UnspokenLines(ws[1..], u); }
  }

  lemma {:induction false} ActLines(ws: seq<Wire>, u: Uid)
    requires forall i :: 0 <= i < |ws| ==> IsAct(ws[i])
    ensures Acts(ws) == ws && Notices(ws, u) == 0
  {
    if ws != [] { ActLines(ws[1..], u); }
  }

  /** The lines between two states. */
  function Since(s: State, s': State): seq<Wire> {
    if |s.log| <= |s'.log| then s'.log[|s.log|..] else []
  }

  /** One state's log continues another's. */
  predicate Continues(s: State, s': State) {
    s.log <= s'.log
  }

  lemma {:induction false} SinceSplit(s: State, s1: State, s2: State)
    requires Continues(s, s1) && Continues(s1, s2)
    ensures Continues(s, s2) && Since(s, s2) == Since(s, s1) + Since(s1, s2)
  {
  }

  // ---- the setup of a contact says nothing ----

  lemma {:induction false} SetupUnspoken(cfg: Config, w: World, s: State, recip: Recipient, a: Addr)
    requires SetupContactFor(cfg, w, s, recip, a).Ok?
    ensures var s' := SetupContactFor(cfg, w, s, recip, a).value;
            Continues(s, s') && forall i :: 0 <= i < |Since(s, s')| ==> Unspoken(Since(s, s')[i])
  {
    var s2 := Introduced1(cfg, s, recip, a);
    assert Since(s, s2) == [s2.log[|s.log|]];
    if s2.phase == Linked {
      var s3 := ProcessGroupsFor(cfg, w, s2, a).value;
      var ct, ct' := s2.contacts[a], s3.contacts[a];
      assert Since(s2, s3) == Joins(ct.uuid, ct'.channels) + Parts(ct.uuid, Dropped(ct.channels, ct'.channels));
      SinceSplit(s, s2, s3);
    }
  }

  /** The cases of `request_contact`. */
  lemma RequestIs(cfg: Config, w: World, s: State, a: Addr, source: int)
    ensures RequestContact(cfg, w, s, a, source) ==
            if a !in s.recipients then Ok(s.(log := s.log + [Asked(a, source)]))
            else if !Reads(cfg.accepts, a) then Err(Stop(BadAddress, s))
            else if a in s.contacts then Ok(s)
            else SetupContactFor(cfg, w, s, s.recipients[a], a)
  {
    hide SetupContactFor, Reads;
  }

  /** Making the contact of a row, or asking for it, or failing to. */
  lemma {:induction false} RequestSays(cfg: Config, w: World, s: State, a: Addr, source: int, u: Uid)
    requires Inv(cfg, s)
    ensures var s' := Left(RequestContact(cfg, w, s, a, source));
            Continues(s, s') && Acts(Since(s, s')) == [] && Notices(Since(s, s'), u) == 0
  {
    hide Inv, RequestContact, SetupContactFor, Reads;
    RequestIs(cfg, w, s, a, source);
    var s' := Left(RequestContact(cfg, w, s, a, source));
    if a !in s.recipients {
      assert Since(s, s') == [Asked(a, source)];
      UnspokenLines([Asked(a, source)], u);
    } else if a in s.contacts || !Reads(cfg.accepts, a) {
      assert Since(s, s') == [];
    } else {
      SetupKeeps(cfg, w, s, a);
      if s.nextUser > MAX_USER_ID {
        SetupStops(cfg, w, s, a);
        assert Since(s, s') == [];
      } else {
        SetupUnspoken(cfg, w, s, s.recipients[a], a);
        UnspokenLines(Since(s, s'), u);
      }
    }
  }

  /** When the UUIDs have run out, at most the nick of the recipient has changed. */
  lemma {:induction false} SetupStops(cfg: Config, w: World, s: State, a: Addr)
    requires a in s.recipients && s.nextUser > MAX_USER_ID
    ensures var r := SetupContactFor(cfg, w, s, s.recipients[a], a);
            && r.Err? && r.error.at == s.(recipients := r.error.at.recipients) && SameModes(s, r.error.at)
  {
    hide Introduce, ProcessGroupsFor;
  }

  // ---- a row of a contact ----

  function TargetOf(groups: map<int, Group>, group: Option<int>): Target {
    if group.Some? && group.value in groups then ToChannel(groups[group.value].channel) else ToAdmin
  }

  /** The lines of one send. */
  function Lines(contacts: map<Addr, Contact>, groups: map<int, Group>, send: Delivery.Send): seq<Wire> {
    if send.row.addr !in contacts then []
    else Privmsgs(contacts[send.row.addr].uuid, TargetOf(groups, send.row.group),
                  Fragments.Chunks(Fragments.Lines(send.text)))
  }

  /** What a deed looks like in the history: the lines of a text, or the deletion of a row. */
  function ActsOf(contacts: map<Addr, Contact>, groups: map<int, Group>, d: Delivery.Deed): seq<Wire> {
    match d
    case Said(send) => Lines(contacts, groups, send)
    case Removed(id) => [Peer.Wire.Removed(id)]
  }

  function AllActs(contacts: map<Addr, Contact>, groups: map<int, Group>, deeds: seq<Delivery.Deed>): seq<Wire> {
    if deeds == [] then [] else ActsOf(contacts, groups, deeds[0]) + AllActs(contacts, groups, deeds[1..])
  }

  lemma {:induction false} ErasuresAre(contacts: map<Addr, Contact>, groups: map<int, Group>, ids: seq<int>)
    ensures AllActs(contacts, groups, DeliveryProofs.Deletions(ids)) == Erasures(ids)
  {
    if ids != [] {
      ErasuresAre(contacts, groups, ids[1..]);
      assert DeliveryProofs.Deletions(ids)[1..] == DeliveryProofs.Deletions(ids[1..]);
    }
  }

  /** Deleting rows in turn does nothing else, as far as it gets. */
  lemma {:induction false} RemoveDeeds(table: Delivery.Table, ids: seq<int>)
    ensures var p := Delivery.Remove(table, ids);
            && |p.deeds| <= |ids| && (p.failure.None? ==> p.deeds == DeliveryProofs.Deletions(ids))
            && forall i :: 0 <= i < |p.deeds| ==> p.deeds[i] == Delivery.Removed(ids[i])
  {
    if ids != [] && ids[0] in table { RemoveDeeds(table - {ids[0]}, ids[1..]); }
  }

  lemma {:induction false} SendRawSays(cfg: Config, s: State, u: Uid, text: string, group: Option<int>, v: Uid)
    requires SendRaw(cfg, s, u, text, group).Ok?
    ensures var s' := SendRaw(cfg, s, u, text, group).value;
            && Continues(s, s')
            && Acts(Since(s, s')) == Privmsgs(u, TargetOf(s.groups, group), Fragments.Chunks(Fragments.Lines(text)))
            && Notices(Since(s, s'), v) == 0
  {
    hide Acts, Notices, Privmsgs, Fragments.Chunks, Fragments.Lines;
    var s' := SendRaw(cfg, s, u, text, group).value;
    var lines := Privmsgs(u, TargetOf(s.groups, group), Fragments.Chunks(Fragments.Lines(text)));
    ActLines(lines, v);
    if group.Some? && cfg.ensureJoined && AdminHere(cfg, s) {
      var join := [Out(SvsJoin(s.groups[group.value].channel))];
      UnspokenLines(join, v);
      ActsAppend(join, lines);
      NoticesAppend(join, lines, v);
      assert Since(s, s') == join + lines;
    } else {
      assert Since(s, s') == lines;
    }
  }

  /** What delivering a row says, and what it leaves in the table. */
  ghost predicate Delivers(s: State, s': State, h: Delivery.Handled, v: Uid) {
    var p := Delivery.Settle(s.messages, h);
    && p.failure.None? && p.table == s'.messages
    && Continues(s, s')
    && Acts(Since(s, s')) == AllActs(s.contacts, s.groups, p.deeds)
    && Notices(Since(s, s'), v) == 0
  }

  lemma {:induction false} DeliverSays(cfg: Config, w: World, s: State, row: Delivery.Row, v: Uid)
    requires row.addr in s.contacts && Deliver(cfg, w, s, s.contacts[row.addr].uuid, row).Ok?
    ensures Delivery.Handle(w.oracle, s.messages, row).Ok?
    ensures Delivers(s, Deliver(cfg, w, s, s.contacts[row.addr].uuid, row).value,
                     Delivery.Handle(w.oracle, s.messages, row).value, v)
  {
    var u := s.contacts[row.addr].uuid;
    var s' := Deliver(cfg, w, s, u, row).value;
    hide SendThenRemove, Delivery.Handle, Delivery.Remove;
    match Delivery.Handle(w.oracle, s.messages, row).value
    case Kept => assert Since(s, s') == [];
    case Unreadable =>
      assert Since(s, s') == [Out(ErrorNotice(u))];
      UnspokenLines([Out(ErrorNotice(u))], v);
    case Delivered(send) =>
      HandledRow(w.oracle, s.messages, row);
      DeliveredSays(cfg, s, send, v);
  }

  lemma {:induction false} DeliveredSays(cfg: Config, s: State, send: Delivery.Send, v: Uid)
    requires send.row.addr in s.contacts
    requires SendThenRemove(cfg, s, s.contacts[send.row.addr].uuid, send).Ok?
    ensures var s' := SendThenRemove(cfg, s, s.contacts[send.row.addr].uuid, send).value;
            Delivers(s, s', Delivery.Delivered(send), v) && s' == s.(log := s'.log, messages := s'.messages)
  {
    hide Acts, Notices, AllActs, Lines, Erasures, Delivery.Remove, Fragments.Chunks, Fragments.Lines, SendRaw,
         RemoveRows;
    var u := s.contacts[send.row.addr].uuid;
    var s1 := SendRaw(cfg, s, u, send.text, send.row.group).value;
    SendRawSays(cfg, s, u, send.text, send.row.group, v);
    SendRawFrame(cfg, s, u, send.text, send.row.group);
    LinesAre(s, send);
    RemoveRowsIs(s1, send.ids);
    RemoveDeeds(s.messages, send.ids);
    ErasuresAre(s.contacts, s.groups, send.ids);
    SaidThenRemoved(s.contacts, s.groups, send);
    var lines, gone := Since(s, s1), Erasures(send.ids);
    ActLines(gone, v);
    ActsAppend(lines, gone);
    NoticesAppend(lines, gone, v);
    assert (s1.log + gone)[|s.log|..] == lines + gone;
  }

  lemma LinesAre(s: State, send: Delivery.Send)
    requires send.row.addr in s.contacts
    ensures Lines(s.contacts, s.groups, send) ==
            Privmsgs(s.contacts[send.row.addr].uuid, TargetOf(s.groups, send.row.group),
                     Fragments.Chunks(Fragments.Lines(send.text)))
  {
  }

  lemma SaidThenRemoved(contacts: map<Addr, Contact>, groups: map<int, Group>, send: Delivery.Send)
    ensures var deletions := DeliveryProofs.Deletions(send.ids);
            AllActs(contacts, groups, [Delivery.Said(send)] + deletions) ==
            Lines(contacts, groups, send) + AllActs(contacts, groups, deletions)
  {
    hide Lines, DeliveryProofs.Deletions;
    var deletions := DeliveryProofs.Deletions(send.ids);
    assert ([Delivery.Said(send)] + deletions)[1..] == deletions;
  }

  lemma {:induction false} SendRawFrame(cfg: Config, s: State, u: Uid, text: string, group: Option<int>)
    requires SendRaw(cfg, s, u, text, group).Ok?
    ensures OnlyTalk(s, SendRaw(cfg, s, u, text, group).value)
  {
    hide Fragments.Chunks, Fragments.Lines, Privmsgs;
  }

  lemma {:induction false} HandledRow(o: Delivery.Oracle, table: Delivery.Table, row: Delivery.Row)
    requires Delivery.Handle(o, table, row).Ok? && Delivery.Handle(o, table, row).value.Delivered?
    ensures Delivery.Handle(o, table, row).value.send.row == row
  {
  }

  // ---- modes ----

  /** The recipients stay and keep their modes. */
  ghost predicate SameModes(s: State, s': State) {
    && s'.recipients.Keys == s.recipients.Keys
    && (forall a :: a in s.recipients ==> s'.recipients[a].whatsapp == s.recipients[a].whatsapp)
  }

  lemma {:induction false} RequestModes(cfg: Config, w: World, s: State, a: Addr, source: int)
    requires Inv(cfg, s)
    ensures SameModes(s, Left(RequestContact(cfg, w, s, a, source)))
  {
    hide Inv, RequestContact, SetupContactFor, Reads;
    RequestIs(cfg, w, s, a, source);
    if a in s.recipients && a !in s.contacts && Reads(cfg.accepts, a) {
      SetupModes(cfg, w, s, a);
    }
  }

  lemma {:induction false} SetupModes(cfg: Config, w: World, s: State, a: Addr)
    requires Inv(cfg, s) && a in s.recipients && a !in s.contacts && Reads(cfg.accepts, a)
    ensures SameModes(s, Left(SetupContactFor(cfg, w, s, s.recipients[a], a)))
  {
    hide Inv, Reads, SetupContactFor;
    SetupKeeps(cfg, w, s, a);
    if s.nextUser > MAX_USER_ID {
      SetupStops(cfg, w, s, a);
    } else {
      IntroducedModes(cfg, w, s, a);
    }
  }

  lemma {:induction false} IntroducedModes(cfg: Config, w: World, s: State, a: Addr)
    requires a in s.recipients && SetupContactFor(cfg, w, s, s.recipients[a], a).Ok?
    ensures SameModes(s, SetupContactFor(cfg, w, s, s.recipients[a], a).value)
  {
    hide SetupContactFor;
    SetupRows(cfg, w, s, s.recipients[a], a);
  }

  /** The mode of one recipient becomes that of its last message. */
  ghost predicate ModeSet(s: State, s': State, a: Addr, wa: bool) {
    && s'.recipients.Keys == s.recipients.Keys
    && (forall b :: b in s.recipients ==> s'.recipients[b].whatsapp == if b == a then wa else s.recipients[b].whatsapp)
  }

  lemma {:induction false} OneNotice(u: Uid, wa: bool, v: Uid)
    ensures var ws := [Out(ModeNotice(u, wa))]; Acts(ws) == [] && Notices(ws, v) == if v == u then 1 else 0
  {
    var ws := [Out(ModeNotice(u, wa))];
    assert ws[1..] == [];
    assert ws[0].line.uid == u;
  }

  lemma {:induction false} SwitchSays(cfg: Config, s: State, a: Addr, wa: bool, v: Uid)
    requires a in s.contacts && a in s.recipients && SwitchMode(cfg, s, a, wa).Ok?
    requires s.contacts[a].waMode == s.recipients[a].whatsapp
    ensures var s' := SwitchMode(cfg, s, a, wa).value;
            && Continues(s, s') && Acts(Since(s, s')) == []
            && Notices(Since(s, s'), v) == (if s.recipients[a].whatsapp != wa && v == s.contacts[a].uuid then 1 else 0)
            && ModeSet(s, s', a, wa)
  {
    var s' := SwitchMode(cfg, s, a, wa).value;
    var u := s.contacts[a].uuid;
    if s.contacts[a].waMode != wa {
      var x, y := Out(FHost(u, HostFor(cfg, wa))), Out(ModeNotice(u, wa));
      assert Since(s, s') == [x] + [y];
      UnspokenLines([x], v);
      OneNotice(u, wa, v);
      ActsAppend([x], [y]);
      NoticesAppend([x], [y], v);
    } else {
      assert Since(s, s') == [];
    }
  }

  // ---- one turn of the loop ----

  lemma {:induction false} SameActs(c: map<Addr, Contact>, c': map<Addr, Contact>, groups: map<int, Group>,
                                    deeds: seq<Delivery.Deed>)
    requires c.Keys <= c'.Keys && forall a :: a in c ==> c'[a].uuid == c[a].uuid
    requires forall i :: 0 <= i < |deeds| && deeds[i].Said? ==> deeds[i].send.row.addr in c
    ensures AllActs(c, groups, deeds) == AllActs(c', groups, deeds)
  {
    if deeds != [] {
      assert deeds[0].Said? ==> deeds[0].send.row.addr in c;
      SameActs(c, c', groups, deeds[1..]);
    }
  }

  /** What handling a row of a contact says and changes. */
  ghost predicate Turn(w: World, s: State, s': State, row: Delivery.Row, v: Uid) {
    && row.addr in s'.contacts && Continues(s, s')
    && Delivery.Handle(w.oracle, s.messages, row).Ok?
    && (var h := Delivery.Handle(w.oracle, s.messages, row).value;
        var p := Delivery.Settle(s.messages, h);
        && p.failure.None? && p.table == s'.messages
        && Acts(Since(s, s')) == AllActs(s'.contacts, s'.groups, p.deeds)
        && (forall i :: 0 <= i < |p.deeds| && p.deeds[i].Said? ==> p.deeds[i].send.row == row))
    && Notices(Since(s, s'), v) ==
         (if row.addr in s.recipients && s.recipients[row.addr].whatsapp != row.body.Plain?
             && v == s'.contacts[row.addr].uuid
          then 1 else 0)
    && ModeSet(s, s', row.addr, row.body.Plain?)
  }

  lemma {:induction false} HandleRowTurn(cfg: Config, w: World, s: State, row: Delivery.Row, v: Uid)
    requires Inv(cfg, s) && row.addr in s.contacts && HandleRow(cfg, w, s, row).Ok?
    ensures Turn(w, s, HandleRow(cfg, w, s, row).value, row, v)
  {
    hide Registry, Numbered, Counted, Named, Cached, Agreed, Stored, Acts, Notices, Delivery.Handle, Delivery.Settle,
         SwitchMode, Deliver, Since;
    var wa := row.body.Plain?;
    ContactFacts(cfg, s, row.addr);
    SwitchKeeps(cfg, s, row.addr, wa);
    SwitchSays(cfg, s, row.addr, wa, v);
    var s1 := SwitchMode(cfg, s, row.addr, wa).value;
    DeliverSays(cfg, w, s1, row, v);
    var s' := HandleRow(cfg, w, s, row).value;
    DeliverFrame(cfg, w, s1, row);
    SinceSplit(s, s1, s');
    ActsAppend(Since(s, s1), Since(s1, s'));
    NoticesAppend(Since(s, s1), Since(s1, s'), v);
    SettledRow(w.oracle, s.messages, row);
    SameActs(s.contacts, s'.contacts, s.groups,
             Delivery.Settle(s.messages, Delivery.Handle(w.oracle, s.messages, row).value).deeds);
    assert [] + Acts(Since(s1, s')) == Acts(Since(s1, s'));
  }

  /** The one text a row leads to is sent for that row. */
  lemma {:induction false} SettledRow(o: Delivery.Oracle, table: Delivery.Table, row: Delivery.Row)
    requires Delivery.Handle(o, table, row).Ok?
    ensures var deeds := Delivery.Settle(table, Delivery.Handle(o, table, row).value).deeds;
            forall i :: 0 <= i < |deeds| && deeds[i].Said? ==> deeds[i].send.row == row
  {
    hide Delivery.Handle, Delivery.Remove;
    var h := Delivery.Handle(o, table, row).value;
    if h.Delivered? {
      HandledRow(o, table, row);
      RemoveDeeds(table, h.send.ids);
      var deeds := Delivery.Settle(table, h).deeds;
      forall i | 0 <= i < |deeds|
        ensures deeds[i] == if i == 0 then Delivery.Said(h.send) else Delivery.Removed(h.send.ids[i - 1])
      {
      }
    }
  }

  lemma {:induction false} DeliverFrame(cfg: Config, w: World, s: State, row: Delivery.Row)
    requires row.addr in s.contacts && Deliver(cfg, w, s, s.contacts[row.addr].uuid, row).Ok?
    ensures var s' := Deliver(cfg, w, s, s.contacts[row.addr].uuid, row).value;
            s' == s.(log := s'.log, messages := s'.messages)
  {
    hide SendThenRemove, Delivery.Handle;
    match Delivery.Handle(w.oracle, s.messages, row).value
    case Delivered(send) =>
      HandledRow(w.oracle, s.messages, row);
      DeliveredSays(cfg, s, send, "");
    case _ =>
  }

  // ---- the whole pass ----

  /** The kinds of the messages of one contact, in order: true for WhatsApp. */
  function Kinds(rows: seq<Delivery.Row>, a: Addr): seq<bool> {
    if rows == [] then [] else (if rows[0].addr == a then [rows[0].body.Plain?] else []) + Kinds(rows[1..], a)
  }

  function Latest(mode: bool, kinds: seq<bool>): bool {
    if kinds == [] then mode else kinds[|kinds| - 1]
  }

  /** How often the mode changes when it follows the messages. */
  function Alternations(mode: bool, kinds: seq<bool>): nat
    decreases kinds
  {
    if kinds == [] then 0 else (if kinds[0] != mode then 1 else 0) + Alternations(kinds[0], kinds[1..])
  }

  /** Why a row stops a pass, if it does: it does not read back, or it is of a recipient and either needs
      a UUID when there is none left, or holds a PDU that does not parse. */
  function RowCause(cfg: Config, known: set<Addr>, g: Ghosts, row: Delivery.Row): Option<Failure> {
    if row.addr !in known then if Reads(cfg.accepts, row.addr) then None else Some(BadAddress)
    else match SetupCause(cfg, g, row.addr)
      case Some(why) => Some(why)
      case None => if row.body == Delivery.Sms(Delivery.Malformed) then Some(BadPdu) else None
  }

  /** The contacts after a row that does not stop the pass. */
  function GhostsAfter(known: set<Addr>, g: Ghosts, row: Delivery.Row): Ghosts {
    if row.addr in known then Met(g, row.addr) else g
  }

  /** How many rows a pass gets through, as the state before tells. */
  function StopIndex(cfg: Config, known: set<Addr>, g: Ghosts, rows: seq<Delivery.Row>): (n: nat)
    ensures n <= |rows|
    decreases rows
  {
    if rows == [] || RowCause(cfg, known, g, rows[0]).Some? then 0
    else 1 + StopIndex(cfg, known, GhostsAfter(known, g, rows[0]), rows[1..])
  }

  /** Why it is stopped there, if it is. */
  function PassCause(cfg: Config, known: set<Addr>, g: Ghosts, rows: seq<Delivery.Row>): (why: Option<Failure>)
    ensures why.None? <==> StopIndex(cfg, known, g, rows) == |rows|
    decreases rows
  {
    if rows == [] then None
    else match RowCause(cfg, known, g, rows[0])
      case Some(why) => Some(why)
      case None => PassCause(cfg, known, GhostsAfter(known, g, rows[0]), rows[1..])
  }

  /** The state part of one turn: when it fails, and that the table is again the original one less what
      was taken. */
  lemma {:induction false} RowKeeps(cfg: Config, w: World, s: State, table: Delivery.Table,
                                    done: seq<Delivery.Row>, row: Delivery.Row)
    requires Inv(cfg, s) && Honest(w) && Delivery.WellKept(table)
    requires DeliveryProofs.FromTable(table, done + [row])
    requires s.messages == table - Delivery.AllTaken(table, s.recipients.Keys, done)
    requires row.group.Some? ==> row.group.value in s.groups
    ensures var r := ProcessRow(cfg, w, s, row);
            && Why(r) == RowCause(cfg, s.recipients.Keys, GhostsOf(s), row)
            && Inv(cfg, Left(r)) && Onward(s, Left(r))
            && (r.Err? ==> r.error.at.messages == s.messages)
            && (r.Ok? ==>
                  && r.value.messages == table - Delivery.AllTaken(table, s.recipients.Keys, done + [row])
                  && GhostsOf(r.value) == GhostsAfter(s.recipients.Keys, GhostsOf(s), row))
  {
    hide Registry, Numbered, Counted, Named, Cached, Agreed, Stored, Onward, Reads;
    OnwardSame(s);
    if Reads(cfg.accepts, row.addr) {
      CounterBound(cfg, s);
      if row.addr in s.contacts {
        ContactRowKeeps(cfg, w, s, s, table, done, row);
      } else {
        RequestKeeps(cfg, w, s, row.addr, row.source);
        hide RequestContact;
        var r := RequestContact(cfg, w, s, row.addr, row.source);
        if r.Ok? {
          if row.addr !in s.recipients {
            SkipTaken(table, s.recipients.Keys, done, row);
          } else {
            ContactRowKeeps(cfg, w, s, r.value, table, done, row);
          }
        }
      }
    }
  }

  lemma {:induction false} ContactRowKeeps(cfg: Config, w: World, s: State, s1: State, table: Delivery.Table,
                                           done: seq<Delivery.Row>, row: Delivery.Row)
    requires Inv(cfg, s1) && Onward(s, s1) && s1.messages == s.messages && Honest(w) && Delivery.WellKept(table)
    requires DeliveryProofs.FromTable(table, done + [row])
    requires s.messages == table - Delivery.AllTaken(table, s.recipients.Keys, done)
    requires row.addr in s1.contacts && (row.group.Some? ==> row.group.value in s.groups)
    ensures var r := HandleRow(cfg, w, s1, row);
            && (r.Err? <==> row.body == Delivery.Sms(Delivery.Malformed)) && (r.Err? ==> r.error == Stop(BadPdu, s1))
            && Inv(cfg, Left(r)) && Onward(s, Left(r)) && GhostsOf(Left(r)) == GhostsOf(s1)
            && (r.Ok? ==> r.value.messages == table - Delivery.AllTaken(table, s.recipients.Keys, done + [row]))
  {
    hide Registry, Numbered, Counted, Named, Cached, Agreed, Stored, Onward;
    OnwardFacts(s, s1);
    if row.body != Delivery.Sms(Delivery.Malformed) {
      HandleRowKeeps(cfg, w, s1, table, done, row);
      OnwardTrans(s, s1, HandleRow(cfg, w, s1, row).value);
    }
  }

  lemma {:induction false} HandleRowKeeps(cfg: Config, w: World, s: State, table: Delivery.Table,
                                          done: seq<Delivery.Row>, row: Delivery.Row)
    requires Inv(cfg, s) && Honest(w) && Delivery.WellKept(table)
    requires DeliveryProofs.FromTable(table, done + [row])
    requires s.messages == table - Delivery.AllTaken(table, s.recipients.Keys, done)
    requires row.addr in s.contacts && row.body != Delivery.Sms(Delivery.Malformed)
    requires row.group.Some? ==> row.group.value in s.groups
    ensures var r := HandleRow(cfg, w, s, row);
            && r.Ok? && Inv(cfg, r.value) && Onward(s, r.value) && GhostsOf(r.value) == GhostsOf(s)
            && r.value.messages == table - Delivery.AllTaken(table, s.recipients.Keys, done + [row])
  {
    hide Registry, Numbered, Counted, Named, Cached, Agreed, Stored, Onward;
    ContactFacts(cfg, s, row.addr);
    SwitchKeeps(cfg, s, row.addr, row.body.Plain?);
    var s1 := SwitchMode(cfg, s, row.addr, row.body.Plain?).value;
    OnwardFacts(s, s1);
    DeliverKeeps(cfg, w, s1, table, s.recipients.Keys, done, row);
    OnwardFrame(s, s1, HandleRow(cfg, w, s, row).value);
  }

  lemma {:induction false} OnwardFrame(s: State, s1: State, s2: State)
    requires Onward(s, s1) && s2 == s1.(log := s2.log, messages := s2.messages)
    ensures Onward(s, s2)
  {
  }

  lemma {:induction false} SkipTaken(table: Delivery.Table, known: set<Addr>, done: seq<Delivery.Row>,
                                     row: Delivery.Row)
    requires row.addr !in known
    ensures Delivery.AllTaken(table, known, done + [row]) == Delivery.AllTaken(table, known, done)
  {
    DeliveryProofs.TakenStep(table, known, done, row);
  }

  lemma {:induction false} OnwardSame(s: State)
    ensures Onward(s, s)
  {
  }

  lemma {:induction false} OnwardFacts(s: State, s': State)
    requires Onward(s, s')
    ensures s'.recipients.Keys == s.recipients.Keys && s'.groups == s.groups && s.contacts.Keys <= s'.contacts.Keys
    ensures forall a :: a in s.contacts ==> s'.contacts[a].uuid == s.contacts[a].uuid
  {
  }

  lemma {:induction false} OnwardTrans(s: State, s1: State, s2: State)
    requires Onward(s, s1) && Onward(s1, s2)
    ensures Onward(s, s2)
  {
  }

  /** The rest of a pass can be made from here. */
  ghost predicate Underway(cfg: Config, w: World, s: State, table: Delivery.Table,
                           done: seq<Delivery.Row>, rest: seq<Delivery.Row>) {
    && Inv(cfg, s) && Honest(w) && Delivery.WellKept(table)
    && DeliveryProofs.FromTable(table, done + rest)
    && s.messages == table - Delivery.AllTaken(table, s.recipients.Keys, done)
    && (forall i :: 0 <= i < |rest| && rest[i].group.Some? ==> rest[i].group.value in s.groups)
  }

  lemma {:induction false} NextRow(cfg: Config, w: World, s: State, table: Delivery.Table,
                                   done: seq<Delivery.Row>, rest: seq<Delivery.Row>)
    requires Underway(cfg, w, s, table, done, rest) && rest != []
    ensures var r := ProcessRow(cfg, w, s, rest[0]);
            && Why(r) == RowCause(cfg, s.recipients.Keys, GhostsOf(s), rest[0])
            && Inv(cfg, Left(r)) && Onward(s, Left(r))
            && (r.Err? ==> r.error.at.messages == s.messages)
            && (r.Ok? ==> Underway(cfg, w, r.value, table, done + [rest[0]], rest[1..])
                          && GhostsOf(r.value) == GhostsAfter(s.recipients.Keys, GhostsOf(s), rest[0])
                          && !Delivery.Stops(cfg.accepts, s.recipients.Keys, rest[0]))
  {
    hide Inv, Onward, Reads;
    var row, next := rest[0], done + [rest[0]];
    assert done + rest == next + rest[1..];
    DeliveryProofs.Prefix(table, next, rest[1..]);
    RowKeeps(cfg, w, s, table, done, row);
    var r := ProcessRow(cfg, w, s, row);
    hide ProcessRow;
    if r.Ok? {
      OnwardFacts(s, r.value);
      forall i | 0 <= i < |rest[1..]| && rest[1..][i].group.Some? ensures rest[1..][i].group.value in r.value.groups {
        assert rest[1..][i] == rest[i + 1];
      }
    }
  }

  /** A pass gets exactly as far as the state before tells, for the cause it tells, and leaves the table
      less what the rows before took; stopped or not, it keeps the invariant. */
  lemma {:induction false} RowsKeep(cfg: Config, w: World, s: State, table: Delivery.Table,
                                    done: seq<Delivery.Row>, rest: seq<Delivery.Row>)
    requires Underway(cfg, w, s, table, done, rest)
    ensures var r, known := ProcessRows(cfg, w, s, rest), s.recipients.Keys;
            var n := StopIndex(cfg, known, GhostsOf(s), rest);
            && Why(r) == PassCause(cfg, known, GhostsOf(s), rest)
            && Inv(cfg, Left(r)) && Onward(s, Left(r))
            && Left(r).messages == table - Delivery.AllTaken(table, known, done + rest[..n])
            && (forall i :: 0 <= i < n ==> !Delivery.Stops(cfg.accepts, known, rest[i]))
    decreases rest
  {
    hide Inv, Onward, RowCause, GhostsAfter, Delivery.AllTaken, Underway, Delivery.Stops;
    if rest == [] {
      OnwardSame(s);
      assert done + rest[..0] == done;
      UnderwayNow(cfg, w, s, table, done, rest);
    } else {
      UnderwayNow(cfg, w, s, table, done, rest);
      NextRow(cfg, w, s, table, done, rest);
      var r := ProcessRow(cfg, w, s, rest[0]);
      if r.Ok? {
        OnwardFacts(s, r.value);
        RowsKeep(cfg, w, r.value, table, done + [rest[0]], rest[1..]);
        RowsKeepStep(cfg, w, s, r.value, table, done, rest);
      } else {
        assert done + rest[..0] == done;
      }
    }
  }

  lemma {:induction false} RowsKeepStep(cfg: Config, w: World, s: State, s1: State, table: Delivery.Table,
                                        done: seq<Delivery.Row>, rest: seq<Delivery.Row>)
    requires rest != [] && ProcessRow(cfg, w, s, rest[0]) == Ok(s1) && Onward(s, s1)
    requires RowCause(cfg, s.recipients.Keys, GhostsOf(s), rest[0]) == None
    requires GhostsOf(s1) == GhostsAfter(s.recipients.Keys, GhostsOf(s), rest[0])
    requires !Delivery.Stops(cfg.accepts, s.recipients.Keys, rest[0])
    requires var later, known := rest[1..], s.recipients.Keys;
             var r, n := ProcessRows(cfg, w, s1, later), StopIndex(cfg, known, GhostsOf(s1), later);
             && Onward(s1, Left(r)) && Why(r) == PassCause(cfg, known, GhostsOf(s1), later)
             && Left(r).messages == table - Delivery.AllTaken(table, known, done + [rest[0]] + later[..n])
             && (forall i :: 0 <= i < n ==> !Delivery.Stops(cfg.accepts, known, later[i]))
    ensures var r, known := ProcessRows(cfg, w, s, rest), s.recipients.Keys;
            var n := StopIndex(cfg, known, GhostsOf(s), rest);
            && r == ProcessRows(cfg, w, s1, rest[1..]) && Onward(s, Left(r))
            && Why(r) == PassCause(cfg, known, GhostsOf(s), rest)
            && Left(r).messages == table - Delivery.AllTaken(table, known, done + rest[..n])
            && (forall i :: 0 <= i < n ==> !Delivery.Stops(cfg.accepts, known, rest[i]))
  {
    hide Onward, RowCause, GhostsAfter, Delivery.AllTaken, Delivery.Stops, ProcessRow;
    var later := rest[1..];
    var r, n := ProcessRows(cfg, w, s1, later), StopIndex(cfg, s.recipients.Keys, GhostsOf(s1), later);
    assert done + [rest[0]] + later[..n] == done + rest[..n + 1];
    OnwardTrans(s, s1, Left(r));
    forall i | 0 <= i < n + 1 ensures !Delivery.Stops(cfg.accepts, s.recipients.Keys, rest[i]) {
      if i > 0 { assert rest[i] == later[i - 1]; }
    }
  }

  /** One turn for an address without a recipient: nothing is said, nothing changes. */
  ghost predicate Skip(s: State, s': State, v: Uid) {
    && Continues(s, s') && Acts(Since(s, s')) == [] && Notices(Since(s, s'), v) == 0
    && s'.messages == s.messages && SameModes(s, s')
  }

  lemma {:induction false} RowTurn(cfg: Config, w: World, s: State, row: Delivery.Row, v: Uid)
    requires Inv(cfg, s) && ProcessRow(cfg, w, s, row).Ok?
    ensures Reads(cfg.accepts, row.addr)
    ensures var s' := ProcessRow(cfg, w, s, row).value;
            if row.addr in s.recipients then Turn(w, s, s', row, v) else Skip(s, s', v)
  {
    hide Registry, Numbered, Counted, Named, Cached, Agreed, Stored, Onward, Acts, Notices, Delivery.Handle,
         Delivery.Settle,
         Reads, HandleRow, RequestContact;
    CounterBound(cfg, s);
    if row.addr in s.contacts {
      HandleRowTurn(cfg, w, s, row, v);
    } else {
      RequestKeeps(cfg, w, s, row.addr, row.source);
      RequestSays(cfg, w, s, row.addr, row.source, v);
      RequestModes(cfg, w, s, row.addr, row.source);
      if row.addr in s.recipients {
        var s1 := RequestContact(cfg, w, s, row.addr, row.source).value;
        HandleRowTurn(cfg, w, s1, row, v);
        TurnAfter(w, s, s1, HandleRow(cfg, w, s1, row).value, row, v);
      }
    }
  }

  /** What a row that stops the pass leaves: at most its contact, or a new nick for its recipient;
      nothing was said for it, nothing deleted. */
  lemma {:induction false} RowStops(cfg: Config, w: World, s: State, row: Delivery.Row, v: Uid)
    requires Inv(cfg, s) && Why(ProcessRow(cfg, w, s, row)) == RowCause(cfg, s.recipients.Keys, GhostsOf(s), row)
    requires ProcessRow(cfg, w, s, row).Err?
    ensures Skip(s, ProcessRow(cfg, w, s, row).error.at, v)
  {
    hide Registry, Numbered, Counted, Named, Cached, Agreed, Stored, Onward, Acts, Notices, Reads, RequestContact;
    SkipSame(s, v);
    CounterBound(cfg, s);
    if Reads(cfg.accepts, row.addr) && row.addr !in s.contacts {
      RequestKeeps(cfg, w, s, row.addr, row.source);
      RequestSays(cfg, w, s, row.addr, row.source, v);
      RequestModes(cfg, w, s, row.addr, row.source);
    }
  }

  lemma SkipSame(s: State, v: Uid)
    ensures Skip(s, s, v)
  {
    assert Since(s, s) == [];
  }

  lemma {:induction false} TurnAfter(w: World, s: State, s1: State, s2: State, row: Delivery.Row, v: Uid)
    requires Continues(s, s1) && Acts(Since(s, s1)) == [] && Notices(Since(s, s1), v) == 0
    requires s1.messages == s.messages && SameModes(s, s1) && Turn(w, s1, s2, row, v) && row.addr in s.recipients
    ensures Turn(w, s, s2, row, v)
  {
    hide Acts, Notices, Delivery.Handle, Delivery.Settle;
    SinceSplit(s, s1, s2);
    ActsAppend(Since(s, s1), Since(s1, s2));
    NoticesAppend(Since(s, s1), Since(s1, s2), v);
    assert [] + Acts(Since(s1, s2)) == Acts(Since(s1, s2));
  }

  // ---- what a pass says ----

  /** The texts and deletions of a pass, in order, are exactly its deeds. */
  ghost predicate Spoken(cfg: Config, w: World, s: State, s': State, rest: seq<Delivery.Row>,
                         deeds: seq<Delivery.Deed>) {
    && Continues(s, s')
    && Delivery.Pass(w.oracle, cfg.accepts, s.messages, rest, s.recipients.Keys) ==
         Delivery.Passed(s'.messages, deeds, None)
    && Acts(Since(s, s')) == AllActs(s'.contacts, s'.groups, deeds)
    && (forall i :: 0 <= i < |deeds| && deeds[i].Said? ==> deeds[i].send.row.addr in s'.contacts)
  }

  /** Each contact's mode follows its messages, with a notice at each change. */
  ghost predicate Followed(s: State, s': State, rest: seq<Delivery.Row>) {
    && s'.recipients.Keys == s.recipients.Keys
    && (forall a :: a in s.recipients ==>
          s'.recipients[a].whatsapp == Latest(s.recipients[a].whatsapp, Kinds(rest, a)))
    && (forall a :: a in s'.contacts && a in s.recipients ==>
          Notices(Since(s, s'), s'.contacts[a].uuid) == Alternations(s.recipients[a].whatsapp, Kinds(rest, a)))
  }

  lemma {:induction false} SpokenStep(cfg: Config, w: World, s: State, s1: State, s2: State, rest: seq<Delivery.Row>,
                                      v: Uid,
                                      deeds: seq<Delivery.Deed>) returns (all: seq<Delivery.Deed>)
    requires rest != [] && Onward(s, s1) && Onward(s1, s2) && Reads(cfg.accepts, rest[0].addr)
    requires if rest[0].addr in s.recipients then Turn(w, s, s1, rest[0], v) else Skip(s, s1, v)
    requires Spoken(cfg, w, s1, s2, rest[1..], deeds)
    ensures Spoken(cfg, w, s, s2, rest, all)
  {
    hide Acts, Delivery.Handle, Delivery.Settle, Reads, AllActs;
    SinceSplit(s, s1, s2);
    ActsAppend(Since(s, s1), Since(s1, s2));
    if rest[0].addr in s.recipients {
      var first := Delivery.Settle(s.messages, Delivery.Handle(w.oracle, s.messages, rest[0]).value).deeds;
      all := first + deeds;
      SameActs(s1.contacts, s2.contacts, s.groups, first);
      AllActsAppend(s2.contacts, s.groups, first, deeds);
      forall i | 0 <= i < |all| && all[i].Said? ensures all[i].send.row.addr in s2.contacts {
        if i < |first| { assert first[i].send.row == rest[0]; } else { assert all[i] == deeds[i - |first|]; }
      }
    } else {
      all := deeds;
      assert [] + deeds == deeds;
      assert [] + Acts(Since(s1, s2)) == Acts(Since(s1, s2));
    }
  }

  lemma {:induction false} AllActsAppend(c: map<Addr, Contact>, groups: map<int, Group>,
                                         xs: seq<Delivery.Deed>, ys: seq<Delivery.Deed>)
    ensures AllActs(c, groups, xs + ys) == AllActs(c, groups, xs) + AllActs(c, groups, ys)
  {
    if xs == [] {
      assert xs + ys == ys;
    } else {
      AllActsAppend(c, groups, xs[1..], ys);
      Regroup(ActsOf(c, groups, xs[0]), AllActs(c, groups, xs[1..]), AllActs(c, groups, ys));
      assert (xs + ys)[0] == xs[0] && (xs + ys)[1..] == xs[1..] + ys;
    }
  }

  /** One turn, seen from one recipient. */
  lemma {:induction false} ModeStep(w: World, s: State, s1: State, row: Delivery.Row, v: Uid, a: Addr)
    requires if row.addr in s.recipients then Turn(w, s, s1, row, v) else Skip(s, s1, v)
    requires a in s.recipients
    ensures a in s1.recipients
    ensures s1.recipients[a].whatsapp == if row.addr == a then row.body.Plain? else s.recipients[a].whatsapp
  {
    hide Acts, Notices, Delivery.Handle, Delivery.Settle;
  }

  lemma {:induction false} NoticeStep(w: World, s: State, s1: State, s2: State, row: Delivery.Row, a: Addr, v: Uid)
    requires Registry(s2) && Onward(s1, s2) && a in s2.contacts && a in s.recipients && v == s2.contacts[a].uuid
    requires if row.addr in s.recipients then Turn(w, s, s1, row, v) else Skip(s, s1, v)
    ensures Notices(Since(s, s1), v) == if row.addr == a && s.recipients[a].whatsapp != row.body.Plain? then 1 else 0
  {
    hide Acts, Notices, Delivery.Handle, Delivery.Settle;
    if row.addr in s.recipients && row.addr != a {
      assert s2.contacts[row.addr].uuid != v by {
        assert s2.owners[v] == a && s2.owners[s2.contacts[row.addr].uuid] == row.addr;
      }
    }
  }

  lemma {:induction false} KindsStep(rest: seq<Delivery.Row>, mode: bool, a: Addr)
    requires rest != []
    ensures var mode1 := if rest[0].addr == a then rest[0].body.Plain? else mode;
            && Latest(mode, Kinds(rest, a)) == Latest(mode1, Kinds(rest[1..], a))
            && Alternations(mode, Kinds(rest, a)) ==
                 (if rest[0].addr == a && mode != rest[0].body.Plain? then 1 else 0)
                 + Alternations(mode1, Kinds(rest[1..], a))
  {
    var later := Kinds(rest[1..], a);
    if rest[0].addr == a {
      assert Kinds(rest, a) == [rest[0].body.Plain?] + later;
      assert ([rest[0].body.Plain?] + later)[1..] == later;
    } else {
      assert Kinds(rest, a) == [] + later == later;
    }
  }

  /** A pass from any point on, up to where it is stopped: what is said and deleted is what the pass over
      the table does, and the modes follow the messages. */
  lemma {:induction false} RowsHeard(cfg: Config, w: World, s: State, table: Delivery.Table,
                                     done: seq<Delivery.Row>, rest: seq<Delivery.Row>)
    returns (deeds: seq<Delivery.Deed>)
    requires Underway(cfg, w, s, table, done, rest)
    ensures var s', n := Left(ProcessRows(cfg, w, s, rest)), StopIndex(cfg, s.recipients.Keys, GhostsOf(s), rest);
            Spoken(cfg, w, s, s', rest[..n], deeds) && Followed(s, s', rest[..n])
    decreases rest
  {
    hide Inv, Onward, Turn, Skip, Spoken, Followed, Underway, RowCause, GhostsAfter, Reads, ProcessRow,
         Delivery.Stops,
         Delivery.AllTaken;
    if rest == [] {
      deeds := [];
      forall v ensures Skip(s, s, v) {
        SkipSame(s, v);
      }
      NothingHeard(cfg, w, s, s);
      assert rest[..0] == [];
    } else {
      UnderwayNow(cfg, w, s, table, done, rest);
      NextRow(cfg, w, s, table, done, rest);
      var r := ProcessRow(cfg, w, s, rest[0]);
      if r.Err? {
        deeds := [];
        forall v ensures Skip(s, r.error.at, v) {
          RowStops(cfg, w, s, rest[0], v);
        }
        NothingHeard(cfg, w, s, r.error.at);
        assert rest[..0] == [];
      } else {
        var s1, later := r.value, rest[1..];
        OnwardFacts(s, s1);
        var n := StopIndex(cfg, s1.recipients.Keys, GhostsOf(s1), later);
        var s2 := Left(ProcessRows(cfg, w, s1, later));
        RowsKeep(cfg, w, s1, table, done + [rest[0]], later);
        var after := RowsHeard(cfg, w, s1, table, done + [rest[0]], later);
        assert rest[..n + 1][1..] == later[..n] && rest[..n + 1][0] == rest[0];
        deeds := HeardStep(cfg, w, s, s1, s2, rest[..n + 1], after);
      }
    }
  }

  lemma {:induction false} HeardStep(cfg: Config, w: World, s: State, s1: State, s2: State, rest: seq<Delivery.Row>,
                                     after: seq<Delivery.Deed>) returns (deeds: seq<Delivery.Deed>)
    requires Inv(cfg, s) && rest != [] && ProcessRow(cfg, w, s, rest[0]) == Ok(s1)
    requires Inv(cfg, s2) && Onward(s, s1) && Onward(s1, s2)
    requires Spoken(cfg, w, s1, s2, rest[1..], after) && Followed(s1, s2, rest[1..])
    ensures Spoken(cfg, w, s, s2, rest, deeds) && Followed(s, s2, rest)
  {
    hide Inv, Onward, Turn, Skip, Spoken, Followed, Reads, ProcessRow;
    RowTurn(cfg, w, s, rest[0], "");
    deeds := SpokenStep(cfg, w, s, s1, s2, rest, "", after);
    FollowedStep(cfg, w, s, s1, s2, rest, after);
  }

  lemma {:induction false} NothingHeard(cfg: Config, w: World, s: State, s': State)
    requires forall v :: Skip(s, s', v)
    ensures Spoken(cfg, w, s, s', [], []) && Followed(s, s', [])
  {
    assert Skip(s, s', "");
    forall a | a in s'.contacts && a in s.recipients ensures Notices(Since(s, s'), s'.contacts[a].uuid) == 0 {
      assert Skip(s, s', s'.contacts[a].uuid);
    }
  }

  lemma {:induction false} UnderwayNow(cfg: Config, w: World, s: State, table: Delivery.Table,
                                       done: seq<Delivery.Row>, rest: seq<Delivery.Row>)
    requires Underway(cfg, w, s, table, done, rest)
    ensures Inv(cfg, s) && s.messages == table - Delivery.AllTaken(table, s.recipients.Keys, done)
  {
  }

  lemma {:induction false} TurnContinues(w: World, s: State, s1: State, row: Delivery.Row, v: Uid)
    requires if row.addr in s.recipients then Turn(w, s, s1, row, v) else Skip(s, s1, v)
    ensures Continues(s, s1)
  {
    hide Acts, Notices, Delivery.Handle, Delivery.Settle;
  }

  lemma {:induction false} FollowedStep(cfg: Config, w: World, s: State, s1: State, s2: State, rest: seq<Delivery.Row>,
                                        later: seq<Delivery.Deed>)
    requires Inv(cfg, s) && rest != [] && ProcessRow(cfg, w, s, rest[0]) == Ok(s1)
    requires Inv(cfg, s2) && Onward(s, s1) && Onward(s1, s2) && Spoken(cfg, w, s1, s2, rest[1..], later)
    requires Followed(s1, s2, rest[1..])
    ensures Followed(s, s2, rest)
  {
    hide Registry, Numbered, Counted, Named, Cached, Agreed, Stored, Onward, Turn, Skip, Latest, Alternations, Kinds,
         Notices, ProcessRow;
    OnwardFacts(s, s1);
    OnwardFacts(s1, s2);
    RowTurn(cfg, w, s, rest[0], "");
    TurnContinues(w, s, s1, rest[0], "");
    SinceSplit(s, s1, s2);
    forall a | a in s.recipients
      ensures s2.recipients[a].whatsapp == Latest(s.recipients[a].whatsapp, Kinds(rest, a))
    {
      ModeStep(w, s, s1, rest[0], "", a);
      KindsStep(rest, s.recipients[a].whatsapp, a);
    }
    forall a | a in s2.contacts && a in s.recipients
      ensures Notices(Since(s, s2), s2.contacts[a].uuid) == Alternations(s.recipients[a].whatsapp, Kinds(rest, a))
    {
      var v := s2.contacts[a].uuid;
      RowTurn(cfg, w, s, rest[0], v);
      ModeStep(w, s, s1, rest[0], v, a);
      NoticeStep(w, s, s1, s2, rest[0], a, v);
      KindsStep(rest, s.recipients[a].whatsapp, a);
      NoticesAppend(Since(s, s1), Since(s1, s2), v);
    }
  }

  // ---- process_messages ----

  lemma {:induction false} Begin(cfg: Config, w: World, s: State)
    requires Inv(cfg, s) && Honest(w)
    ensures Delivery.IsSnapshot(s.messages, w.messageOrder(s.messages))
    ensures Underway(cfg, w, s, s.messages, [], w.messageOrder(s.messages))
  {
    hide Registry, Numbered, Counted, Named, Cached, Agreed;
    var rows := w.messageOrder(s.messages);
    assert Delivery.IsSnapshot(s.messages, rows);
    DeliveryProofs.SnapshotFromTable(s.messages, rows);
    assert [] + rows == rows;
    assert Delivery.AllTaken(s.messages, s.recipients.Keys, []) == {};
    assert s.messages - {} == s.messages;
    forall i | 0 <= i < |rows| && rows[i].group.Some? ensures rows[i].group.value in s.groups {
      assert rows[i] in rows;
    }
  }

  lemma {:induction false} MessagesKeep(cfg: Config, w: World, s: State)
    requires Inv(cfg, s) && Honest(w)
    ensures var r, rows := ProcessMessages(cfg, w, s), w.messageOrder(s.messages);
            && Inv(cfg, Left(r)) && Onward(s, Left(r))
            && Why(r) == if AdminHere(cfg, s) then PassCause(cfg, s.recipients.Keys, GhostsOf(s), rows) else None
  {
    hide Inv, Onward, StopIndex, PassCause;
    OnwardSame(s);
    if AdminHere(cfg, s) {
      Begin(cfg, w, s);
      RowsKeep(cfg, w, s, s.messages, [], w.messageOrder(s.messages));
    }
  }

  /** A pass of `process_messages` with the admin connected, stopped at row `n` or not. Its PRIVMSG lines
      and deletions, in order, are those of its deeds: each text right for one complete message, each
      row deleted once and after the text it belongs to. The rows deleted are exactly those that the
      rows before `n` take; a pass not stopped leaves those without a recipient, incomplete messages
      and undecodable PDUs. Each mode is that of the last message before `n`, with a notice at each
      change. */
  lemma {:induction false} MessagesExact(cfg: Config, w: World, s: State) returns (n: nat, deeds: seq<Delivery.Deed>)
    requires Inv(cfg, s) && Honest(w) && AdminHere(cfg, s)
    ensures var r, rows, known := ProcessMessages(cfg, w, s), w.messageOrder(s.messages), s.recipients.Keys;
            var s' := Left(r);
            && n == StopIndex(cfg, known, GhostsOf(s), rows) && Why(r) == PassCause(cfg, known, GhostsOf(s), rows)
            && (forall i :: 0 <= i < n ==> !Delivery.Stops(cfg.accepts, known, rows[i]))
            && Inv(cfg, s') && Continues(s, s')
            && s'.messages == s.messages - Delivery.AllTaken(s.messages, known, rows[..n])
            && Acts(Since(s, s')) == AllActs(s'.contacts, s'.groups, deeds)
            && Delivery.SaidFirst(deeds)
            && Lists(Delivery.Removals(deeds), s.messages.Keys - s'.messages.Keys)
            && Delivery.Flat(Delivery.Sends(deeds)) == Delivery.Removals(deeds)
            && (forall x <- Delivery.Sends(deeds) :: Delivery.RightSend(w.oracle, s.messages, known, x))
            && Followed(s, s', rows[..n])
            && (r.Ok? ==> forall i :: i in s'.messages <==>
                  i in s.messages && DeliveryProofs.Stays(s.messages, known, s.messages[i]))
  {
    hide Inv, Onward, Followed, Delivery.RightSend, Delivery.SaidFirst, Delivery.Removals, Delivery.Sends,
         Delivery.Flat, DeliveryProofs.Stays, ProcessRows;
    Begin(cfg, w, s);
    var rows, known := w.messageOrder(s.messages), s.recipients.Keys;
    n := StopIndex(cfg, known, GhostsOf(s), rows);
    RowsKeep(cfg, w, s, s.messages, [], rows);
    deeds := RowsHeard(cfg, w, s, s.messages, [], rows);
    assert [] + rows[..n] == rows[..n];
    WellKeptNow(cfg, s);
    TableExact(cfg, w, s, rows, n, deeds);
  }

  /** The pass over the table alone, for the rows before the one that stopped it. */
  lemma {:induction false} TableExact(cfg: Config, w: World, s: State, rows: seq<Delivery.Row>, n: nat,
                                      deeds: seq<Delivery.Deed>)
    requires Honest(w) && Delivery.WellKept(s.messages) && Delivery.IsSnapshot(s.messages, rows) && n <= |rows|
    requires var p := Delivery.Pass(w.oracle, cfg.accepts, s.messages, rows[..n], s.recipients.Keys);
             p.deeds == deeds && p.failure.None?
    ensures var table, known := s.messages, s.recipients.Keys;
            var p := Delivery.Pass(w.oracle, cfg.accepts, table, rows[..n], known);
            && DeliveryProofs.PassDone(w.oracle, table, known, {}, Delivery.AllTaken(table, known, rows[..n]), p)
            && Lists(Delivery.Removals(deeds), table.Keys - p.table.Keys)
            && (n == |rows| ==> forall i :: i in p.table <==>
                 i in table && DeliveryProofs.Stays(table, known, table[i]))
  {
    hide DeliveryProofs.Stays, Delivery.RightSend, Delivery.Pass, Delivery.Sends, Delivery.Removals, Delivery.Flat,
         Delivery.SaidFirst, Delivery.Stops, Reads;
    var table, known := s.messages, s.recipients.Keys;
    DeliveryProofs.SnapshotFromTable(table, rows);
    assert rows[..n] + rows[n..] == rows;
    DeliveryProofs.Prefix(table, rows[..n], rows[n..]);
    DeliveryProofs.CoveredPassExact(w.oracle, cfg.accepts, table, rows[..n], known);
    var k := Delivery.Reached(cfg.accepts, known, rows[..n]);
    assert rows[..n][..n] == rows[..n];
    var taken := Delivery.AllTaken(table, known, rows[..n]);
    assert table.Keys - (table - taken).Keys == taken - {};
    if n == |rows| {
      assert rows[..n] == rows;
    }
  }

  /** In the history of a pass, a row is deleted only after all lines of the text it belongs to. */
  lemma {:induction false} RemovedAfterLines(c: map<Addr, Contact>, groups: map<int, Group>, deeds: seq<Delivery.Deed>,
                                             j: nat, id: int) returns (k: nat)
    requires Delivery.SaidFirst(deeds)
    requires j < |AllActs(c, groups, deeds)| && AllActs(c, groups, deeds)[j] == Peer.Wire.Removed(id)
    ensures k < |deeds| && deeds[k].Said? && id in deeds[k].send.ids
    ensures AllActs(c, groups, deeds[..k + 1]) == AllActs(c, groups, deeds[..k]) + Lines(c, groups, deeds[k].send)
    ensures AllActs(c, groups, deeds[..k + 1]) <= AllActs(c, groups, deeds)[..j]
  {
    hide AllActs, Lines, ActsOf, Delivery.SaidFirst;
    var m := DeedAt(c, groups, deeds, j, id);
    k := SaidBefore(deeds, m);
    ActsPrefix(c, groups, deeds, k + 1, m);
    ActsPrefix(c, groups, deeds, m, |deeds|);
    assert deeds[..|deeds|] == deeds && deeds[..k + 1] == deeds[..k] + [deeds[k]];
    AllActsAppend(c, groups, deeds[..k], [deeds[k]]);
    OneAct(c, groups, deeds[k]);
    assert AllActs(c, groups, deeds[..m]) == AllActs(c, groups, deeds)[..j];
  }

  lemma {:induction false} SaidBefore(deeds: seq<Delivery.Deed>, m: nat) returns (k: nat)
    requires Delivery.SaidFirst(deeds) && m < |deeds| && deeds[m].Removed?
    ensures k < m && deeds[k].Said? && deeds[m].id in deeds[k].send.ids
  {
    k :| 0 <= k < m && deeds[k].Said? && deeds[m].id in deeds[k].send.ids;
  }

  lemma {:induction false} ActsPrefix(c: map<Addr, Contact>, groups: map<int, Group>, deeds: seq<Delivery.Deed>,
                                      k: nat, m: nat)
    requires k <= m <= |deeds|
    ensures AllActs(c, groups, deeds[..k]) <= AllActs(c, groups, deeds[..m])
  {
    hide AllActs;
    assert deeds[..m] == deeds[..k] + deeds[k..m];
    AllActsAppend(c, groups, deeds[..k], deeds[k..m]);
  }

  lemma OneAct(c: map<Addr, Contact>, groups: map<int, Group>, d: Delivery.Deed)
    ensures AllActs(c, groups, [d]) == ActsOf(c, groups, d)
    ensures d.Said? ==> ActsOf(c, groups, d) == Lines(c, groups, d.send)
  {
    assert [d][1..] == [] && ActsOf(c, groups, d) + [] == ActsOf(c, groups, d);
  }

  /** The deed behind a deletion in the history. */
  lemma {:induction false} DeedAt(c: map<Addr, Contact>, groups: map<int, Group>, deeds: seq<Delivery.Deed>, j: nat,
                                  id: int)
    returns (m: nat)
    requires j < |AllActs(c, groups, deeds)| && AllActs(c, groups, deeds)[j] == Peer.Wire.Removed(id)
    ensures m < |deeds| && deeds[m] == Delivery.Removed(id) && |AllActs(c, groups, deeds[..m])| == j
  {
    var first := ActsOf(c, groups, deeds[0]);
    if j < |first| {
      assert first[j] == Peer.Wire.Removed(id);
      m := 0;
    } else {
      var rest := deeds[1..];
      m := DeedAt(c, groups, rest, j - |first|, id);
      assert deeds[..m + 1][1..] == rest[..m] && deeds[..m + 1][0] == deeds[0];
      m := m + 1;
    }
  }

  lemma {:induction false} WellKeptNow(cfg: Config, s: State)
    requires Inv(cfg, s)
    ensures Delivery.WellKept(s.messages)
  {
  }
}
