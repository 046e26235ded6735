/** Every message accepted for WhatsApp stays tracked under exactly one id until it expires. */
module WaConservation {
  import opened Outcomes
  import opened WaModel

  /** A tracked id and the message it carries. */
  ghost predicate Entry(s: Sends, m: Mid)
    requires m in s.outgoing
  {
    && m in s.owner && s.owner[m] < |s.accepted|
    && s.owner[m] in s.holder && s.holder[s.owner[m]] == m
    && s.outgoing[m].item == s.accepted[s.owner[m]]
    && m in s.used && (s.outgoing[m].unsent <==> m !in s.transmitted)
    && (s.outgoing[m].unsent ==> s.outgoing[m].ack == None)
  }

  /** Each accepted message is held by one id, retired, or waiting; never two of these. */
  ghost predicate Accounted(s: Sends, waiting: set<nat>) {
    && (forall i :: i in s.holder ==> i !in s.retired && i !in waiting && s.holder[i] in s.outgoing
                                      && s.holder[i] in s.owner && s.owner[s.holder[i]] == i)
    && s.retired !! waiting
    && (forall i: nat :: i < |s.accepted| <==> i in s.holder || i in s.retired || i in waiting)
  }

  ghost predicate Tracked(s: Sends) {
    forall m :: m in s.outgoing ==> Entry(s, m)
  }

  function Count(rs: seq<Report>, r: Report): nat {
    if rs == [] then 0 else (if rs[0] == r then 1 else 0) + Count(rs[1..], r)
  }

  /** The warnings given for an id are the ones its flags record. */
  ghost predicate WarnedFor(s: Sends, m: Mid) {
    var unacked, pending := Count(s.reports, UnackedWarning(m)), Count(s.reports, PendingWarning(m));
    if m in s.outgoing then
      unacked == (if s.outgoing[m].alerted then 1 else 0) && pending == (if s.outgoing[m].alertedPending then 1 else 0)
    else if m in s.used then unacked <= 1 && pending <= 1
    else unacked == 0 && pending == 0
  }

  /** The books: who carries which message, and who carries none. */
  ghost predicate Booked(s: Sends, waiting: set<nat>) {
    Tracked(s) && Accounted(s, waiting) && s.transmitted <= s.used && s.owner.Keys == s.outgoing.Keys
  }

  ghost predicate AlarmsMatch(s: Sends) {
    forall m :: WarnedFor(s, m)
  }

  ghost predicate Conserved(s: Sends, waiting: set<nat>) {
    Booked(s, waiting) && AlarmsMatch(s)
  }

  ghost predicate Inv(s: Sends) {
    Conserved(s, {})
  }

  // ---- warnings ----

  lemma {:induction false} CountAppend(xs: seq<Report>, ys: seq<Report>, r: Report)
    ensures Count(xs + ys, r) == Count(xs, r) + Count(ys, r)
  {
    if xs == [] {
      assert xs + ys == ys;
    } else {
      assert (xs + ys)[1..] == xs[1..] + ys;
      CountAppend(xs[1..], ys, r);
    }
  }

  lemma {:induction false} CountWarnings(cfg: Config, mid: Mid, st: Status, now: int, m: Mid)
    ensures Count(Warnings(cfg, mid, st, now), UnackedWarning(m)) ==
            if m == mid && WarnsUnacked(cfg, st, now) then 1 else 0
    ensures Count(Warnings(cfg, mid, st, now), PendingWarning(m)) ==
            if m == mid && WarnsPending(cfg, st, now) then 1 else 0
  {
    var a := if WarnsUnacked(cfg, st, now) then [UnackedWarning(mid)] else [];
    var b := if WarnsPending(cfg, st, now) then [PendingWarning(mid)] else [];
    CountAppend(a, b, UnackedWarning(m));
    CountAppend(a, b, PendingWarning(m));
    assert a != [] ==> a[1..] == [];
    assert b != [] ==> b[1..] == [];
  }

  lemma {:induction false} CountAll(cfg: Config, outgoing: map<Mid, Status>, order: seq<Mid>, now: int, m: Mid)
    requires forall i, j :: 0 <= i < j < |order| ==> order[i] != order[j]
    ensures Count(AllWarnings(cfg, outgoing, order, now), UnackedWarning(m)) ==
            if m in order && m in outgoing && WarnsUnacked(cfg, outgoing[m], now) then 1 else 0
    ensures Count(AllWarnings(cfg, outgoing, order, now), PendingWarning(m)) ==
            if m in order && m in outgoing && WarnsPending(cfg, outgoing[m], now) then 1 else 0
  {
    if order != [] {
      var x, later := order[0], order[1..];
      CountAll(cfg, outgoing, later, now, m);
      assert m in order <==> m == x || m in later;
      assert x !in later;
      var first := if x in outgoing then Warnings(cfg, x, outgoing[x], now) else [];
      if x in outgoing { CountWarnings(cfg, x, outgoing[x], now, m); }
      CountAppend(first, AllWarnings(cfg, outgoing, later, now), UnackedWarning(m));
      CountAppend(first, AllWarnings(cfg, outgoing, later, now), PendingWarning(m));
    }
  }

  lemma {:induction false} OtherCounts(rs: seq<Report>, m: Mid)
    ensures Count(rs + [OtherReport], UnackedWarning(m)) == Count(rs, UnackedWarning(m))
    ensures Count(rs + [OtherReport], PendingWarning(m)) == Count(rs, PendingWarning(m))
  {
    CountAppend(rs, [OtherReport], UnackedWarning(m));
    CountAppend(rs, [OtherReport], PendingWarning(m));
    assert [OtherReport][1..] == [];
  }

  lemma {:induction false} ComplainKeeps(s: Sends, waiting: set<nat>, needed: bool)
    requires Conserved(s, waiting)
    ensures Conserved(Complain(s, needed), waiting)
    ensures Complain(s, needed).outgoing == s.outgoing && Complain(s, needed).holder == s.holder
  {
    var s' := Complain(s, needed);
    ComplainBooked(s, waiting, needed);
    hide Booked;
    forall m ensures WarnedFor(s', m) {
      assert WarnedFor(s, m);
      OtherCounts(s.reports, m);
    }
  }

  lemma ComplainKeepsInv(s: Sends, needed: bool)
    requires Inv(s)
    ensures Inv(Complain(s, needed))
  {
    ComplainKeeps(s, {}, needed);
  }

  lemma {:induction false} ComplainBooked(s: Sends, waiting: set<nat>, needed: bool)
    requires Booked(s, waiting)
    ensures Booked(Complain(s, needed), waiting)
  {
    forall m | m in s.outgoing ensures Entry(Complain(s, needed), m) { assert Entry(s, m); }
  }

  // ---- a new id for a message ----

  /** What `Own` and `Register` do together, whatever happens to the outbox. */
  ghost predicate Adopts(s: Sends, s': Sends, item: Item, mid: Mid, serial: nat, unsent: bool, now: int) {
    && s'.outgoing == s.outgoing[mid := Status(None, now, item, unsent, false, false)]
    && s'.owner == s.owner[mid := serial] && s'.holder == s.holder[serial := mid]
    && s'.accepted == s.accepted && s'.retired == s.retired && s'.reports == s.reports
    && s'.used == s.used + {mid}
    && s'.transmitted == if unsent then s.transmitted else s.transmitted + {mid}
  }

  lemma {:induction false} AdoptKeeps(s: Sends, s': Sends, item: Item, mid: Mid, serial: nat, unsent: bool, now: int,
                                      waiting: set<nat>)
    requires Conserved(s, waiting) && mid !in s.used && serial in waiting
    requires serial < |s.accepted| && s.accepted[serial] == item
    requires Adopts(s, s', item, mid, serial, unsent, now)
    ensures Conserved(s', waiting - {serial})
  {
    hide Booked, AlarmsMatch;
    AdoptBooked(s, s', item, mid, serial, unsent, now, waiting);
    KnownIds(s, waiting);
    AdoptAlarms(s, s', item, mid, serial, unsent, now);
  }

  lemma {:induction false} KnownIds(s: Sends, waiting: set<nat>)
    requires Booked(s, waiting)
    ensures s.outgoing.Keys <= s.used
  {
    forall m | m in s.outgoing ensures m in s.used { assert Entry(s, m); }
  }

  lemma {:induction false} AdoptAlarms(s: Sends, s': Sends, item: Item, mid: Mid, serial: nat, unsent: bool, now: int)
    requires AlarmsMatch(s) && s.outgoing.Keys <= s.used && mid !in s.used
    requires Adopts(s, s', item, mid, serial, unsent, now)
    ensures AlarmsMatch(s')
  {
    forall m ensures WarnedFor(s', m) {
      assert WarnedFor(s, m);
      assert m !in s.used ==> m !in s.outgoing.Keys;
    }
  }

  lemma {:induction false} AdoptBooked(s: Sends, s': Sends, item: Item, mid: Mid, serial: nat, unsent: bool, now: int,
                                       waiting: set<nat>)
    requires Booked(s, waiting) && mid !in s.used && serial in waiting
    requires serial < |s.accepted| && s.accepted[serial] == item
    requires Adopts(s, s', item, mid, serial, unsent, now)
    ensures Booked(s', waiting - {serial})
  {
    AdoptTracked(s, s', item, mid, serial, unsent, now, waiting);
    AdoptAccounted(s, s', item, mid, serial, unsent, now, waiting);
  }

  lemma {:induction false} AdoptTracked(s: Sends, s': Sends, item: Item, mid: Mid, serial: nat, unsent: bool, now: int,
                                        waiting: set<nat>)
    requires Booked(s, waiting) && mid !in s.used && serial in waiting
    requires serial < |s.accepted| && s.accepted[serial] == item
    requires Adopts(s, s', item, mid, serial, unsent, now)
    ensures Tracked(s') && s'.transmitted <= s'.used && s'.owner.Keys == s'.outgoing.Keys
  {
    forall m | m in s'.outgoing ensures Entry(s', m) {
      if m != mid { assert Entry(s, m); }
    }
  }

  lemma {:induction false} AdoptAccounted(s: Sends, s': Sends, item: Item, mid: Mid, serial: nat, unsent: bool,
                                          now: int,
                                          waiting: set<nat>)
    requires Booked(s, waiting) && mid !in s.used && serial in waiting
    requires Adopts(s, s', item, mid, serial, unsent, now)
    ensures Accounted(s', waiting - {serial})
  {
    KnownIds(s, waiting);
    hide Tracked;
    forall i | i in s'.holder && i != serial ensures s'.holder[i] != mid && i in s.holder {
      assert s.holder[i] in s.outgoing.Keys;
    }
  }

  lemma {:induction false} TransmitAdopts(cfg: Config, s: Sends, item: Item, mid: Mid, serial: nat, now: int)
    ensures Adopts(s, Own(Transmit(cfg, s, item, mid, now), mid, serial), item, mid, serial, false, now)
    ensures Adopts(s, Transmit(cfg, Own(s, mid, serial), item, mid, now), item, mid, serial, false, now)
  {
  }

  lemma {:induction false} SendKeeps(cfg: Config, s: Sends, item: Item, mid: Mid, link: Link, now: int)
    requires Inv(s) && mid !in s.used
    ensures Inv(Send(cfg, s, item, mid, link, now))
  {
    hide Conserved;
    var serial := |s.accepted|;
    var s1 := s.(accepted := s.accepted + [item]);
    var queued := !s.connected || !link.Running?;
    var s2 := if queued then Register(Own(s1, mid, serial), item, mid, true, now)
              else Transmit(cfg, Own(s1, mid, serial), item, mid, now);
    AcceptKeeps(s, item);
    if !queued { TransmitAdopts(cfg, s1, item, mid, serial, now); }
    AdoptKeeps(s1, s2, item, mid, serial, queued, now, {serial});
    assert {serial} - {serial} == {};
    ComplainKeeps(s2, {}, queued && link.Disabled?);
  }

  lemma {:induction false} AcceptKeeps(s: Sends, item: Item)
    requires Inv(s)
    ensures Conserved(s.(accepted := s.accepted + [item]), {|s.accepted|})
  {
    var s1 := s.(accepted := s.accepted + [item]);
    forall m | m in s1.outgoing ensures Entry(s1, m) { assert Entry(s, m); }
    forall m ensures WarnedFor(s1, m) { assert WarnedFor(s, m); }
  }

  // ---- reconnecting ----

  lemma {:induction false} WithoutBooked(s: Sends, gone: set<Mid>)
    requires Booked(s, {}) && gone <= s.outgoing.Keys
    ensures Booked(Without(s, gone), Serials(s, gone))
  {
    var s1 := Without(s, gone);
    forall m | m in s1.outgoing ensures Entry(s1, m) { assert Entry(s, m); }
  }

  lemma {:induction false} WithoutKeeps(s: Sends, gone: set<Mid>)
    requires Inv(s) && gone <= s.outgoing.Keys
    ensures Conserved(Without(s, gone), Serials(s, gone))
  {
    WithoutBooked(s, gone);
    forall m | m in s.outgoing ensures m in s.used { assert Entry(s, m); }
    hide Booked;
    forall m ensures WarnedFor(Without(s, gone), m) { assert WarnedFor(s, m); }
  }

  /** Each id of `order` carried its own message before the connection came back. */
  ghost predicate Waited(was: Sends, order: seq<Mid>) {
    && (forall i :: 0 <= i < |order| ==> order[i] in was.outgoing && order[i] in was.owner)
    && (forall i :: 0 <= i < |order| ==> was.owner[order[i]] < |was.accepted|)
    && (forall i :: 0 <= i < |order| ==> was.accepted[was.owner[order[i]]] == was.outgoing[order[i]].item)
    && (forall i, j :: 0 <= i < j < |order| ==> was.owner[order[i]] != was.owner[order[j]])
  }

  ghost predicate AllSent(s: Sends) {
    forall m :: m in s.outgoing ==> !s.outgoing[m].unsent
  }

  function Owned(was: Sends, order: seq<Mid>): set<nat>
    requires forall i :: 0 <= i < |order| ==> order[i] in was.owner
  {
    set i | 0 <= i < |order| :: was.owner[order[i]]
  }

  /** The messages queued for the connection, in order. */
  function Sendings(box: seq<Request>): seq<Request> {
    if box == [] then [] else (if box[0].SendMessage? then [box[0]] else []) + Sendings(box[1..])
  }

  /** The queued messages, each under its new id. */
  function Resends(was: Sends, order: seq<Mid>, ids: seq<Mid>): (rs: seq<Request>)
    requires |ids| == |order| && forall i :: 0 <= i < |order| ==> order[i] in was.outgoing
    ensures |rs| == |order|
    ensures forall i :: 0 <= i < |order| ==> rs[i] == SendMessage(ids[i], was.outgoing[order[i]].item)
  {
    if order == [] then []
    else [SendMessage(ids[0], was.outgoing[order[0]].item)] + Resends(was, order[1..], ids[1..])
  }

  lemma {:induction false} SendingsAppend(xs: seq<Request>, ys: seq<Request>)
    ensures Sendings(xs + ys) == Sendings(xs) + Sendings(ys)
  {
    if xs == [] {
      assert xs + ys == ys;
    } else {
      SendingsAppend(xs[1..], ys);
      var first := if xs[0].SendMessage? then [xs[0]] else [];
      calc {
        Sendings(xs + ys);
        { assert (xs + ys)[0] == xs[0] && (xs + ys)[1..] == xs[1..] + ys; }
        first + (Sendings(xs[1..]) + Sendings(ys));
        (first + Sendings(xs[1..])) + Sendings(ys);
        Sendings(xs) + Sendings(ys);
      }
    }
  }

  lemma {:induction false} TransmitSends(cfg: Config, s: Sends, item: Item, mid: Mid, now: int)
    ensures Sendings(Transmit(cfg, s, item, mid, now).outbox) == Sendings(s.outbox) + [SendMessage(mid, item)]
  {
    var send := [SendMessage(mid, item)];
    var sub := if Subscribes(cfg, s, item.to, now) then [SubscribePresence(item.to)] else [];
    assert send[1..] == [] && (sub != [] ==> sub[1..] == []);
    SendingsAppend(s.outbox, send);
    SendingsAppend(s.outbox + send, sub);
  }

  lemma {:induction false} ResendKeeps(cfg: Config, s: Sends, was: Sends, order: seq<Mid>, ids: seq<Mid>, now: int)
    requires Waited(was, order) && |ids| == |order| && FreshIds(s.used, ids) && s.accepted == was.accepted
    requires Conserved(s, Owned(was, order)) && AllSent(s)
    ensures var s' := ResendAll(cfg, s, was, order, ids, now);
            && Conserved(s', {}) && AllSent(s')
            && s'.accepted == s.accepted && s'.retired == s.retired
    decreases order
  {
    hide Conserved;
    if order == [] {
      assert Owned(was, order) == {};
    } else {
      var m, id, serial := order[0], ids[0], was.owner[order[0]];
      var item := was.outgoing[m].item;
      var s1 := Own(Transmit(cfg, s, item, id, now), id, serial);
      TransmitAdopts(cfg, s, item, id, serial, now);
      WaitedStep(was, order);
      AdoptKeeps(s, s1, item, id, serial, false, now, Owned(was, order));
      FreshStep(s.used, ids);
      ResendKeeps(cfg, s1, was, order[1..], ids[1..], now);
    }
  }

  lemma {:induction false} ResendSends(cfg: Config, s: Sends, was: Sends, order: seq<Mid>, ids: seq<Mid>, now: int)
    requires Waited(was, order) && |ids| == |order|
    ensures Sendings(ResendAll(cfg, s, was, order, ids, now).outbox) == Sendings(s.outbox) + Resends(was, order, ids)
    decreases order
  {
    hide Transmit, Sendings;
    if order == [] {
      assert Sendings(s.outbox) + [] == Sendings(s.outbox);
    } else {
      var m, id, serial := order[0], ids[0], was.owner[order[0]];
      var s1 := Own(Transmit(cfg, s, was.outgoing[m].item, id, now), id, serial);
      TransmitSends(cfg, s, was.outgoing[m].item, id, now);
      WaitedStep(was, order);
      ResendSends(cfg, s1, was, order[1..], ids[1..], now);
      Regroup(Sendings(s.outbox), [SendMessage(id, was.outgoing[m].item)], Resends(was, order[1..], ids[1..]));
    }
  }

  lemma {:induction false} FreshStep(used: set<Mid>, ids: seq<Mid>)
    requires FreshIds(used, ids) && ids != []
    ensures FreshIds(used + {ids[0]}, ids[1..])
  {
    forall i | 0 <= i < |ids[1..]| ensures ids[1..][i] !in used + {ids[0]} {
      assert ids[1..][i] == ids[i + 1] && ids[0] != ids[i + 1];
    }
  }

  lemma {:induction false} WaitedStep(was: Sends, order: seq<Mid>)
    requires Waited(was, order) && order != []
    ensures Waited(was, order[1..])
    ensures was.owner[order[0]] in Owned(was, order)
    ensures Owned(was, order) - {was.owner[order[0]]} == Owned(was, order[1..])
  {
    forall i | 0 <= i < |order[1..]| ensures order[1..][i] == order[i + 1] {}
    OwnedStep(was, order);
  }

  lemma {:induction false} OwnedStep(was: Sends, order: seq<Mid>)
    requires order != [] && forall i :: 0 <= i < |order| ==> order[i] in was.owner
    requires forall i, j :: 0 <= i < j < |order| ==> was.owner[order[i]] != was.owner[order[j]]
    ensures was.owner[order[0]] in Owned(was, order)
    ensures Owned(was, order) - {was.owner[order[0]]} == Owned(was, order[1..])
  {
    forall x | x in Owned(was, order) && x != was.owner[order[0]] ensures x in Owned(was, order[1..]) {
      var i :| 0 <= i < |order| && was.owner[order[i]] == x;
      assert order[1..][i - 1] == order[i];
    }
    forall x | x in Owned(was, order[1..]) ensures x in Owned(was, order) && x != was.owner[order[0]] {
      var i :| 0 <= i < |order[1..]| && was.owner[order[1..][i]] == x;
      assert order[i + 1] == order[1..][i];
    }
  }

  /** `on_established` hands every queued message over exactly once, in the order it meets them, and
      leaves no unsent entry; every message stays accounted for. */
  lemma {:induction false} EstablishedExact(cfg: Config, s: Sends, jid: Jid, order: seq<Mid>, ids: seq<Mid>, now: int)
    requires Inv(s) && Lists(order, Unsent(s)) && FreshIds(s.used, ids) && |ids| == |order|
    ensures forall i :: 0 <= i < |order| ==> order[i] in s.outgoing
    ensures var s' := Established(cfg, s, jid, order, ids, now);
            && Inv(s') && Unsent(s') == {} && s'.connected
            && Sendings(s'.outbox) == Sendings(s.outbox) + Resends(s, order, ids)
            && s'.accepted == s.accepted && s'.retired == s.retired
  {
    ResentExact(cfg, s, jid, order, ids, now);
    hide Conserved, ResendAll, Sendings, Resends, Lists, FreshIds, Dequeued, Waited;
    UnrelatedKeeps(ResendAll(cfg, Dequeued(s, jid), s, order, ids, now), Established(cfg, s, jid, order, ids, now));
  }

  lemma {:induction false} ResentExact(cfg: Config, s: Sends, jid: Jid, order: seq<Mid>, ids: seq<Mid>, now: int)
    requires Inv(s) && Lists(order, Unsent(s)) && FreshIds(s.used, ids) && |ids| == |order|
    ensures Waited(s, order)
    ensures var r := ResendAll(cfg, Dequeued(s, jid), s, order, ids, now);
            && Inv(r) && AllSent(r)
            && Sendings(r.outbox) == Sendings(s.outbox) + Resends(s, order, ids)
            && r.accepted == s.accepted && r.retired == s.retired
  {
    hide Booked, AlarmsMatch, Waited, ResendAll, Sendings, Resends, Lists, FreshIds, Dequeued, AllSent, Serials, Owned;
    DequeuedKeeps(s, jid);
    DequeuedFrame(s, jid);
    OwnedAre(s, order, Unsent(s));
    ResendKeeps(cfg, Dequeued(s, jid), s, order, ids, now);
    ResendSends(cfg, Dequeued(s, jid), s, order, ids, now);
  }

  lemma {:induction false} DequeuedKeeps(s: Sends, jid: Jid)
    requires Inv(s)
    ensures Conserved(Dequeued(s, jid), Serials(s, Unsent(s))) && AllSent(Dequeued(s, jid))
  {
    hide Booked, AlarmsMatch, Complain;
    var changed := s.prevJid.Some? && s.prevJid.value != jid;
    var s1 := Complain(s.(ourJid := Some(jid)), changed);
    UnrelatedKeeps(s, s.(ourJid := Some(jid)));
    ComplainKeeps(s.(ourJid := Some(jid)), {}, changed);
    WithoutKeeps(s1, Unsent(s));
    assert Serials(s1, Unsent(s)) == Serials(s, Unsent(s));
  }

  lemma DequeuedFrame(s: Sends, jid: Jid)
    ensures var s0 := Dequeued(s, jid);
            s0.used == s.used && s0.accepted == s.accepted && s0.retired == s.retired && s0.outbox == s.outbox
  {
    hide HeldWithout, Unsent;
  }

  lemma {:induction false} OwnedAre(s: Sends, order: seq<Mid>, gone: set<Mid>)
    requires Booked(s, {}) && Lists(order, gone) && gone <= s.outgoing.Keys
    ensures Waited(s, order) && Owned(s, order) == Serials(s, gone)
    ensures forall i :: 0 <= i < |order| ==> order[i] in s.outgoing
  {
    forall i | 0 <= i < |order| ensures order[i] in s.outgoing && Entry(s, order[i]) {
      assert order[i] in order;
    }
    forall x | x in Serials(s, gone) ensures x in Owned(s, order) {
      assert s.holder[x] in order;
      var i :| 0 <= i < |order| && order[i] == s.holder[x];
    }
    forall x | x in Owned(s, order) ensures x in Serials(s, gone) {
      var i :| 0 <= i < |order| && s.owner[order[i]] == x;
      assert order[i] in order;
    }
  }

  /** Nothing that is tracked depends on the connection, the groups or the incoming messages. */
  ghost predicate Unrelated(s: Sends, s': Sends) {
    && s'.outgoing == s.outgoing && s'.reports == s.reports && s'.accepted == s.accepted && s'.owner == s.owner
    && s'.holder == s.holder && s'.retired == s.retired && s'.transmitted == s.transmitted && s.used <= s'.used
  }

  lemma {:induction false} UnrelatedKeeps(s: Sends, s': Sends)
    requires Inv(s) && Unrelated(s, s')
    ensures Inv(s')
  {
    forall m | m in s'.outgoing ensures Entry(s', m) { assert Entry(s, m); }
    forall m ensures WarnedFor(s', m) { assert WarnedFor(s, m); }
  }

  // ---- acknowledgements and time ----

  lemma {:induction false} AckKeeps(s: Sends, mid: Mid, level: Level)
    requires Inv(s) && mid in s.transmitted
    ensures Inv(Ack(s, mid, level))
  {
    hide Booked;
    AckBooked(s, mid, level);
    forall m ensures WarnedFor(Ack(s, mid, level), m) {
      assert WarnedFor(s, m);
      OtherCounts(s.reports, m);
    }
  }

  lemma {:induction false} AckBooked(s: Sends, mid: Mid, level: Level)
    requires Booked(s, {}) && mid in s.transmitted
    ensures Booked(Ack(s, mid, level), {})
  {
    var s' := Ack(s, mid, level);
    forall m | m in s'.outgoing ensures Entry(s', m) { assert Entry(s, m); }
  }

  lemma {:induction false} TickKeeps(cfg: Config, s: Sends, order: seq<Mid>, now: int)
    requires Inv(s) && Lists(order, s.outgoing.Keys)
    ensures Inv(Tick(cfg, s, order, now))
  {
    TickBooked(cfg, s, order, now);
    forall m | m in s.outgoing ensures m in s.used { assert Entry(s, m); }
    hide Booked;
    forall m ensures WarnedFor(Tick(cfg, s, order, now), m) {
      assert WarnedFor(s, m);
      TickAlarms(cfg, s, order, now, m);
    }
  }

  lemma {:induction false} TickAlarms(cfg: Config, s: Sends, order: seq<Mid>, now: int, m: Mid)
    requires WarnedFor(s, m) && Lists(order, s.outgoing.Keys) && (m in s.outgoing ==> m in s.used)
    ensures WarnedFor(Tick(cfg, s, order, now), m)
  {
    hide Count, AllWarnings, HeldWithout, Serials;
    CountAll(cfg, s.outgoing, order, now, m);
    CountAppend(s.reports, AllWarnings(cfg, s.outgoing, order, now), UnackedWarning(m));
    CountAppend(s.reports, AllWarnings(cfg, s.outgoing, order, now), PendingWarning(m));
    assert m in order <==> m in s.outgoing.Keys;
  }

  /** The flags change, some entries go, and what these carried is retired. */
  lemma {:induction false} TickBooked(cfg: Config, s: Sends, order: seq<Mid>, now: int)
    requires Booked(s, {})
    ensures Booked(Tick(cfg, s, order, now), {})
  {
    var gone := ExpiredIds(cfg, s.outgoing, now);
    var marked := s.(outgoing := WarnedAll(cfg, s.outgoing, now),
                     reports := s.reports + AllWarnings(cfg, s.outgoing, order, now));
    forall m | m in marked.outgoing ensures Entry(marked, m) { assert Entry(s, m); }
    assert Booked(marked, {});
    WithoutBooked(marked, gone);
    var left := Without(marked, gone);
    RetireBooked(left, Serials(marked, gone));
    assert Tick(cfg, s, order, now) == left.(retired := left.retired + Serials(marked, gone));
  }

  lemma {:induction false} RetireBooked(s: Sends, serials: set<nat>)
    requires Booked(s, serials)
    ensures Booked(s.(retired := s.retired + serials), {})
  {
    var s' := s.(retired := s.retired + serials);
    forall m | m in s'.outgoing ensures Entry(s', m) { assert Entry(s, m); }
  }

  /** Milliseconds since a message was sent; if the clock went back, the difference wraps round. */
  function Elapsed(sent: int, now: int): int {
    if sent <= now then now - sent else now - sent + 18446744073709551616
  }

  /** An entry is dropped exactly if it is acknowledged, but not as pending, and the expiry period is over. */
  predicate Over(cfg: Config, st: Status, now: int) {
    st.ack != None && st.ack != Some(PendingSend) && Elapsed(st.sentTs, now) >= cfg.ackExpiry
  }

  /** What the timer does to one entry: it goes if it is over; it gets the warning it is due for, once. */
  lemma {:induction false} TickExact(cfg: Config, s: Sends, order: seq<Mid>, now: int, m: Mid)
    requires Inv(s) && Lists(order, s.outgoing.Keys) && m in s.outgoing
    ensures var s', st := Tick(cfg, s, order, now), s.outgoing[m];
            && (m !in s'.outgoing <==> Over(cfg, st, now))
            && Count(s'.reports, UnackedWarning(m))
               == (if st.ack == None && Elapsed(st.sentTs, now) >= cfg.ackWarn then 1
                   else Count(s.reports, UnackedWarning(m)))
            && Count(s'.reports, PendingWarning(m))
               == (if st.ack == Some(PendingSend) && Elapsed(st.sentTs, now) >= cfg.ackWarnPending then 1
                   else Count(s.reports, PendingWarning(m)))
            && s'.outbox == s.outbox && s'.msgids == s.msgids && s'.connected == s.connected
  {
    hide Booked, Count, AllWarnings, HeldWithout, Serials;
    assert WarnedFor(s, m);
    CountAll(cfg, s.outgoing, order, now, m);
    CountAppend(s.reports, AllWarnings(cfg, s.outgoing, order, now), UnackedWarning(m));
    CountAppend(s.reports, AllWarnings(cfg, s.outgoing, order, now), PendingWarning(m));
    assert m in order;
  }

  lemma {:induction false} TickRetires(cfg: Config, s: Sends, order: seq<Mid>, now: int, i: nat)
    requires Inv(s)
    ensures i in Tick(cfg, s, order, now).retired && i !in s.retired <==>
              i in s.holder && s.holder[i] in s.outgoing && Over(cfg, s.outgoing[s.holder[i]], now)
  {
    hide Tracked, AlarmsMatch, HeldWithout, WarnedAll, AllWarnings;
  }

  /** The message with serial number `i` is tracked under id `m`. */
  ghost predicate Carries(s: Sends, m: Mid, i: nat) {
    m in s.outgoing && m in s.owner && s.owner[m] == i
  }

  /** Conservation: an accepted message that is not retired is tracked, with its destination and
      content, under exactly one id; a retired one under none. */
  lemma {:induction false} TrackedOnce(s: Sends, i: nat)
    requires Inv(s) && i < |s.accepted|
    ensures i !in s.retired <==> exists m :: Carries(s, m, i)
    ensures forall m :: Carries(s, m, i) ==> s.outgoing[m].item == s.accepted[i]
    ensures forall m, n :: Carries(s, m, i) && Carries(s, n, i) ==> m == n
  {
    forall m | m in s.outgoing ensures Entry(s, m) {}
    if i !in s.retired {
      assert Carries(s, s.holder[i], i);
    }
  }

  /** No id ever has more than one warning of each kind, even after it expired. */
  lemma {:induction false} WarnedOnce(s: Sends, m: Mid)
    requires Inv(s)
    ensures Count(s.reports, UnackedWarning(m)) <= 1 && Count(s.reports, PendingWarning(m)) <= 1
  {
    assert WarnedFor(s, m);
  }
}
