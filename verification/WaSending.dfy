/** When messages are handed to WhatsApp: at once while connected, and otherwise on the next login, once each. */
module WaSending {
  import opened Outcomes
  import opened WaModel
  import opened WaConservation

  // ---- one message ----

  /** A direct message asks for the presence of its recipient unless it did so within the last five minutes. */
  predicate Renews(cfg: Config, s: Sends, j: Jid, now: int) {
    !j.isGroup && cfg.trackPresence && !(j in s.presence && now - s.presence[j] < 300000)
  }

  /** What is asked of WhatsApp to send a message. */
  function Asking(cfg: Config, s: Sends, item: Item, mid: Mid, now: int): seq<Request> {
    [SendMessage(mid, item)] + (if Renews(cfg, s, item.to, now) then [SubscribePresence(item.to)] else [])
  }

  /** While the session and its connection are up a message is handed over at once, under the id it is tracked by,
      which is stored. Otherwise it waits as unsent, nothing is asked or stored, and there is a complaint exactly if
      WhatsApp is not set up. */
  lemma {:induction false} SendExact(cfg: Config, s: Sends, item: Item, mid: Mid, link: Link, now: int)
    ensures var s', up := Send(cfg, s, item, mid, link, now), s.connected && link.Running?;
            && s'.outgoing == s.outgoing[mid := Status(None, now, item, !up, false, false)]
            && s'.accepted == s.accepted + [item] && s'.owner == s.owner[mid := |s.accepted|]
            && s'.used == s.used + {mid} && s'.retired == s.retired
            && s'.connected == s.connected && s'.ourJid == s.ourJid && s'.prevJid == s.prevJid
            && (up ==>
                  && s'.outbox == s.outbox + Asking(cfg, s, item, mid, now)
                  && Sendings(s'.outbox) == Sendings(s.outbox) + [SendMessage(mid, item)]
                  && s'.msgids == s.msgids + {mid} && s'.transmitted == s.transmitted + {mid}
                  && s'.reports == s.reports
                  && s'.presence == if Renews(cfg, s, item.to, now) then s.presence[item.to := now] else s.presence)
            && (!up ==>
                  && s'.outbox == s.outbox && s'.msgids == s.msgids && s'.transmitted == s.transmitted
                  && s'.reports == s.reports + (if link.Disabled? then [OtherReport] else [])
                  && s'.presence == s.presence)
  {
    hide Sendings;
    if s.connected && link.Running? {
      TransmitSends(cfg, Own(s.(accepted := s.accepted + [item]), mid, |s.accepted|), item, mid, now);
      assert s.outbox + [SendMessage(mid, item)] + [] == s.outbox + [SendMessage(mid, item)];
    }
  }

  /** A number that gives no JID is reported, and nothing else happens. */
  lemma {:induction false} DirectExact(cfg: Config, s: Sends, to: Option<Jid>, content: string, mid: Mid, link: Link,
                                       now: int)
    ensures to.None? ==> SendDirect(cfg, s, to, content, mid, link, now) == s.(reports := s.reports + [OtherReport])
    ensures to.Some? ==> SendDirect(cfg, s, to, content, mid, link, now)
                         == Send(cfg, s, Item(to.value, content), mid, link, now)
  {
  }

  // ---- the outbox ----

  /** Each message in the outbox is there once, under an id that was transmitted; and while that id is tracked, what
      is in the outbox is what is tracked. */
  ghost predicate Handed(s: Sends) {
    && (forall r <- s.outbox :: r.SendMessage? ==>
          r.mid in s.transmitted && (r.mid in s.outgoing ==> r.item == s.outgoing[r.mid].item))
    && (forall i, j :: 0 <= i < j < |s.outbox| && s.outbox[i].SendMessage? && s.outbox[j].SendMessage? ==>
          s.outbox[i].mid != s.outbox[j].mid)
  }

  lemma {:induction false} TransmitHands(cfg: Config, s: Sends, item: Item, mid: Mid, serial: nat, now: int)
    requires Handed(s) && mid !in s.transmitted
    ensures Handed(Own(Transmit(cfg, s, item, mid, now), mid, serial))
    ensures Handed(Transmit(cfg, Own(s, mid, serial), item, mid, now))
  {
    var s' := Own(Transmit(cfg, s, item, mid, now), mid, serial);
    forall r | r in s.outbox && r.SendMessage? ensures r.mid != mid {}
    forall i | 0 <= i < |s'.outbox| ensures i < |s.outbox| ==> s'.outbox[i] == s.outbox[i]
    {}
  }

  lemma {:induction false} ResendHands(cfg: Config, s: Sends, was: Sends, order: seq<Mid>, ids: seq<Mid>, now: int)
    requires Handed(s) && FreshIds(s.used, ids) && s.transmitted <= s.used
    ensures Handed(ResendAll(cfg, s, was, order, ids, now))
    decreases order
  {
    hide Handed;
    if !(order == [] || ids == [] || order[0] !in was.outgoing || order[0] !in was.owner) {
      var s1 := Own(Transmit(cfg, s, was.outgoing[order[0]].item, ids[0], now), ids[0], was.owner[order[0]]);
      TransmitHands(cfg, s, was.outgoing[order[0]].item, ids[0], was.owner[order[0]], now);
      FreshStep(s.used, ids);
      ResendHands(cfg, s1, was, order[1..], ids[1..], now);
    }
  }

  // ---- logging in ----

  ghost predicate AllOwned(s: Sends, order: seq<Mid>) {
    forall i :: 0 <= i < |order| ==> order[i] in s.outgoing && order[i] in s.owner
  }

  /** The entries under `ids` are fresh, with the content and the serial numbers of those under `order`; all others
      are as before. */
  ghost predicate Renewed(s: Sends, s': Sends, was: Sends, order: seq<Mid>, ids: seq<Mid>, now: int)
    requires |ids| == |order| && AllOwned(was, order)
  {
    && (forall m :: m in s'.outgoing <==> m in s.outgoing || m in ids)
    && (forall m :: m in s.outgoing && m !in ids ==>
          s'.outgoing[m] == s.outgoing[m] && (m in s.owner ==> m in s'.owner && s'.owner[m] == s.owner[m]))
    && (forall i :: 0 <= i < |ids| ==>
          && ids[i] in s'.outgoing && ids[i] in s'.owner
          && s'.outgoing[ids[i]] == Status(None, now, was.outgoing[order[i]].item, false, false, false)
          && s'.owner[ids[i]] == was.owner[order[i]])
  }

  /** What sending again leaves alone, and the ids it adds. */
  ghost predicate OnlyAdds(s: Sends, s': Sends, ids: seq<Mid>) {
    && s'.msgids == s.msgids + Elements(ids) && s'.transmitted == s.transmitted + Elements(ids)
    && s'.used == s.used + Elements(ids)
    && s'.reports == s.reports && s'.connected == s.connected && s'.ourJid == s.ourJid && s'.prevJid == s.prevJid
  }

  lemma {:induction false} ResendRenews(cfg: Config, s: Sends, was: Sends, order: seq<Mid>, ids: seq<Mid>, now: int)
    requires |ids| == |order| && AllOwned(was, order) && FreshIds(s.used, ids)
    ensures Renewed(s, ResendAll(cfg, s, was, order, ids, now), was, order, ids, now)
    ensures OnlyAdds(s, ResendAll(cfg, s, was, order, ids, now), ids)
    decreases order
  {
    hide Renewed, OnlyAdds, Transmit;
    if order == [] {
      NothingRenewed(s, was, now);
    } else {
      var item, serial := was.outgoing[order[0]].item, was.owner[order[0]];
      var s1 := Own(Transmit(cfg, s, item, ids[0], now), ids[0], serial);
      FirstRenewed(cfg, s, item, ids[0], serial, now);
      FreshStep(s.used, ids);
      LaterOwned(was, order);
      ResendRenews(cfg, s1, was, order[1..], ids[1..], now);
      RenewedStep(s, s1, ResendAll(cfg, s1, was, order[1..], ids[1..], now), was, order, ids, now);
    }
  }

  lemma NothingRenewed(s: Sends, was: Sends, now: int)
    ensures Renewed(s, s, was, [], [], now) && OnlyAdds(s, s, [])
  {
  }

  lemma LaterOwned(was: Sends, order: seq<Mid>)
    requires order != [] && AllOwned(was, order)
    ensures AllOwned(was, order[1..])
  {
    forall i | 0 <= i < |order[1..]| ensures order[1..][i] == order[i + 1] {}
  }

  /** One message sent again. */
  ghost predicate OneRenewed(s: Sends, s1: Sends, item: Item, id: Mid, serial: nat, now: int) {
    && s1.outgoing == s.outgoing[id := Status(None, now, item, false, false, false)]
    && s1.owner == s.owner[id := serial] && s1.used == s.used + {id} && OnlyAdds(s, s1, [id])
  }

  lemma FirstRenewed(cfg: Config, s: Sends, item: Item, id: Mid, serial: nat, now: int)
    ensures var s1 := Own(Transmit(cfg, s, item, id, now), id, serial);
            OneRenewed(s, s1, item, id, serial, now) && s1.used == s.used + {id}
  {
  }

  lemma {:induction false} RenewedStep(s: Sends, s1: Sends, s': Sends, was: Sends, order: seq<Mid>, ids: seq<Mid>,
                                       now: int)
    requires |ids| == |order| > 0 && AllOwned(was, order) && AllOwned(was, order[1..]) && FreshIds(s.used, ids)
    requires OneRenewed(s, s1, was.outgoing[order[0]].item, ids[0], was.owner[order[0]], now)
    requires Renewed(s1, s', was, order[1..], ids[1..], now) && OnlyAdds(s1, s', ids[1..])
    ensures Renewed(s, s', was, order, ids, now) && OnlyAdds(s, s', ids)
  {
    var id, later := ids[0], ids[1..];
    assert ids == [id] + later;
    assert Elements(ids) == Elements([id]) + Elements(later);
    assert forall m :: m in ids <==> m == id || m in later;
    forall i | 0 <= i < |later| ensures later[i] == ids[i + 1] && later[i] != id {}
    forall i | 0 <= i < |ids|
      ensures ids[i] in s'.outgoing && ids[i] in s'.owner
      ensures s'.outgoing[ids[i]] == Status(None, now, was.outgoing[order[i]].item, false, false, false)
      ensures s'.owner[ids[i]] == was.owner[order[i]]
    {
      if i > 0 { assert later[i - 1] == ids[i] && order[1..][i - 1] == order[i]; }
    }
  }

  /** The entries that wait for a connection. */
  function Waiting(s: Sends): set<Mid> {
    set m | m in s.outgoing && s.outgoing[m].unsent
  }

  /** What `extract_unsent` leaves, with the complaint about another number. */
  lemma DequeuedIs(s: Sends, jid: Jid)
    ensures var s0, gone := Dequeued(s, jid), Waiting(s);
            && s0.outgoing == s.outgoing - gone && s0.owner == s.owner - gone && s0.ourJid == Some(jid)
            && s0.msgids == s.msgids && s0.transmitted == s.transmitted && s0.used == s.used
            && s0.reports == s.reports + (if s.prevJid.Some? && s.prevJid.value != jid then [OtherReport] else [])
  {
    hide HeldWithout;
    assert UnsentIds(s.outgoing) == Waiting(s);
  }

  /** Every message that waits is sent, once, under a new id and with its own content and serial number; the other
      entries stay. The ids are stored, the session is up under the given JID, and there is a complaint exactly if it
      is another one than last time. */
  ghost predicate SentAll(s: Sends, s': Sends, jid: Jid, order: seq<Mid>, ids: seq<Mid>, now: int)
    requires |ids| == |order| && AllOwned(s, order)
  {
    && Renewed(s.(outgoing := s.outgoing - Waiting(s), owner := s.owner - Waiting(s)), s', s, order, ids, now)
    && s'.msgids == s.msgids + Elements(ids) && s'.transmitted == s.transmitted + Elements(ids)
    && s'.connected && s'.ourJid == Some(jid) && s'.prevJid == Some(jid)
    && s'.reports == s.reports + (if s.prevJid.Some? && s.prevJid.value != jid then [OtherReport] else [])
    && Sendings(s'.outbox) == Sendings(s.outbox) + Resends(s, order, ids)
  }

  /** What a login does, exactly. */
  lemma {:induction false} EstablishedEffect(cfg: Config, s: Sends, jid: Jid, order: seq<Mid>, ids: seq<Mid>, now: int)
    requires Inv(s) && Lists(order, Waiting(s)) && FreshIds(s.used, ids) && |ids| == |order|
    ensures AllOwned(s, order) && SentAll(s, Established(cfg, s, jid, order, ids, now), jid, order, ids, now)
  {
    hide Inv, ResendAll, Dequeued, Sendings, Resends, Lists, Renewed, FreshIds;
    WaitOwned(s, order);
    DequeuedIs(s, jid);
    EstablishedExact(cfg, s, jid, order, ids, now);
    var s0 := Dequeued(s, jid);
    ResendRenews(cfg, s0, s, order, ids, now);
    var r := ResendAll(cfg, s0, s, order, ids, now);
    SameRenewed(s0, r, s.(outgoing := s.outgoing - Waiting(s), owner := s.owner - Waiting(s)), LoggedOn(r, jid), s,
                order, ids, now);
  }

  lemma WaitOwned(s: Sends, order: seq<Mid>)
    requires Inv(s) && Lists(order, Waiting(s))
    ensures Lists(order, Unsent(s)) && AllOwned(s, order)
  {
    assert Unsent(s) == Waiting(s);
    forall i | 0 <= i < |order| ensures order[i] in s.outgoing { assert order[i] in order; }
    assert s.owner.Keys == s.outgoing.Keys;
  }

  lemma SameRenewed(s: Sends, s': Sends, t: Sends, t': Sends, was: Sends, order: seq<Mid>, ids: seq<Mid>, now: int)
    requires |ids| == |order| && AllOwned(was, order)
    requires Renewed(s, s', was, order, ids, now)
    requires t.outgoing == s.outgoing && t.owner == s.owner && t'.outgoing == s'.outgoing && t'.owner == s'.owner
    ensures Renewed(t, t', was, order, ids, now)
  {
  }

  // ---- the rest ----

  /** After a failure the session is down and forgotten, what is tracked and queued stays, and there is a complaint
      where one is due. */
  lemma {:induction false} LoggedOffExact(s: Sends, reported: bool)
    ensures LoggedOff(s, reported) == s.(ourJid := None, connected := false,
                                         reports := if reported then s.reports + [OtherReport] else s.reports)
  {
  }

  /** Requests leave the outbox from the front, and nothing else happens. */
  lemma {:induction false} DrainExact(s: Sends, n: nat)
    requires n <= |s.outbox|
    ensures Drained(s, n) == s.(outbox := s.outbox[n..])
  {
  }

  /** An acknowledgement at error level of a tracked message is reported, and no other is. */
  lemma {:induction false} AckReports(s: Sends, mid: Mid, level: Level)
    ensures var s' := Ack(s, mid, level);
            && s'.reports == s.reports + (if mid in s.outgoing && level.LevelError? then [OtherReport] else [])
            && s' == s.(outgoing := s'.outgoing, reports := s'.reports) && s'.outgoing.Keys == s.outgoing.Keys
            && (forall m :: m in s.outgoing && m != mid ==> s'.outgoing[m] == s.outgoing[m])
            && (mid in s.outgoing ==> s'.outgoing[mid] == s.outgoing[mid].(ack := Some(level)))
  {
  }

  lemma {:induction false} SilentlyHanded(s: Sends, s': Sends)
    requires Handed(s) && s'.transmitted == s.transmitted && s'.outbox == s.outbox
    requires forall m :: m in s'.outgoing && m in s.transmitted ==>
               m in s.outgoing && s'.outgoing[m].item == s.outgoing[m].item
    ensures Handed(s')
  {
  }

  lemma {:induction false} SendHands(cfg: Config, s: Sends, item: Item, mid: Mid, link: Link, now: int)
    requires Handed(s) && mid !in s.used && s.transmitted <= s.used
    ensures Handed(Send(cfg, s, item, mid, link, now))
  {
    var s1 := s.(accepted := s.accepted + [item]);
    SilentlyHanded(s, s1);
    TransmitHands(cfg, s1, item, mid, |s.accepted|, now);
    if !(s.connected && link.Running?) {
      hide Handed;
      SilentlyHanded(s, Send(cfg, s, item, mid, link, now));
    }
  }

  lemma {:induction false} EstablishedHands(cfg: Config, s: Sends, jid: Jid, order: seq<Mid>, ids: seq<Mid>, now: int)
    requires Handed(s) && s.transmitted <= s.used && FreshIds(s.used, ids)
    ensures Handed(Established(cfg, s, jid, order, ids, now))
  {
    hide Handed, ResendAll, HeldWithout, FreshIds;
    var s0 := Dequeued(s, jid);
    assert s0.outgoing == s.outgoing - Unsent(s);
    SilentlyHanded(s, s0);
    ResendHands(cfg, s0, s, order, ids, now);
    var r := ResendAll(cfg, s0, s, order, ids, now);
    SilentlyHanded(r, LoggedOn(r, jid));
  }

  lemma {:induction false} TickHands(cfg: Config, s: Sends, order: seq<Mid>, now: int)
    requires Handed(s)
    ensures Handed(Tick(cfg, s, order, now))
  {
    hide Handed, HeldWithout, AllWarnings, Serials;
    SilentlyHanded(s, Tick(cfg, s, order, now));
  }

  lemma {:induction false} DrainHands(s: Sends, n: nat)
    requires Handed(s)
    ensures Handed(Drained(s, n))
  {
  }

  /** Every event of the sending half leaves the outbox in order. */
  lemma {:induction false} StepHands(cfg: Config, s: State, e: Event)
    requires Handed(s.sends) && s.sends.transmitted <= s.sends.used && Allowed(s, e)
    ensures Handed(SendsStep(cfg, s.sends, e))
  {
    hide Handed, Send, Established, Tick, Drained;
    match e
    case SendEvent(to, content, mid, link, now) =>
      if to.Some? {
        SendHands(cfg, s.sends, Item(to.value, content), mid, link, now);
      } else {
        SilentlyHanded(s.sends, Complain(s.sends, true));
      }
    case EstablishedEvent(jid, order, ids, now) => EstablishedHands(cfg, s.sends, jid, order, ids, now);
    case ErrorEvent(reported) => SilentlyHanded(s.sends, LoggedOff(s.sends, reported));
    case AckEvent(mid, level) => SilentlyHanded(s.sends, Ack(s.sends, mid, level));
    case TickEvent(order, now) => TickHands(cfg, s.sends, order, now);
    case DrainEvent(n) => DrainHands(s.sends, n);
    case _ =>
  }

  lemma {:induction false} AsksHand(s: Sends, s': Sends)
    requires Handed(s) && s'.transmitted == s.transmitted && s'.outgoing == s.outgoing
    requires s.outbox <= s'.outbox && forall i :: |s.outbox| <= i < |s'.outbox| ==> !s'.outbox[i].SendMessage?
    ensures Handed(s')
  {
  }

  lemma TransmittedUsed(s: Sends)
    requires Inv(s)
    ensures s.transmitted <= s.used
  {
  }
}
