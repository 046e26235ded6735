/**
 `WhatsappManager` as the class it is: methods that update its fields, its tracker and its tables,
 each proved to do what the step functions of `WaModel` say.
 */
module WaManager {
  import opened Outcomes
  import opened Failures
  import opened Address
  import opened WaModel
  import opened WaTracker
  import WaConservation
  import WaGroups
  import WaIncoming
  import WaSending

  type Verdict = Result<(), Failure>

  /** The rows of the message table that came in over WhatsApp. */
  function AllRows(batches: seq<Batch>): seq<Row> {
    if batches == [] then [] else AllRows(batches[..|batches| - 1]) + batches[|batches| - 1].rows
  }

  /** The rows whose group is still there. */
  function Live(groups: map<int, Group>, rows: seq<Row>): seq<Row> {
    if rows == [] then []
    else
      var last := rows[|rows| - 1];
      Live(groups, rows[..|rows| - 1]) + if last.group.Some? && last.group.value !in groups then [] else [last]
  }

  /** `on delete cascade` of a group's messages. */
  function Cascade(rows: seq<Row>, gid: int): seq<Row> {
    if rows == [] then []
    else
      var last := rows[|rows| - 1];
      Cascade(rows[..|rows| - 1], gid) + if last.group == Some(gid) then [] else [last]
  }

  /** The message table holds the batches, less the rows of groups since deleted; no row is of a group
      still to be made. */
  ghost predicate Kept(rows: seq<Row>, batches: seq<Batch>, groups: map<int, Group>, nextGroup: int) {
    && rows == Live(groups, AllRows(batches))
    && (forall r <- AllRows(batches) :: r.group.Some? ==> r.group.value < nextGroup)
  }

  class WhatsappManager {
    const cfg: Config
    const cb: ControlBot
    const ackp: WaAckTracker
    var connected: bool
    var ourJid: Option<Jid>
    var prevJid: Option<Jid>
    var presence: map<Jid, int>
    var chats: map<Jid, Option<string>>
    var outbox: seq<Request>
    var orders: seq<Order>
    var msgids: set<Mid>
    var groups: map<int, Group>
    var nextGroup: int
    var recipients: map<Addr, int>
    var nextRecipient: int
    var rows: seq<Row>
    ghost var accepted: seq<Item>
    ghost var owner: map<Mid, nat>
    ghost var holder: map<nat, Mid>
    ghost var retired: set<nat>
    ghost var used: set<Mid>
    ghost var transmitted: set<Mid>
    ghost var jobs: set<Mid>
    ghost var batches: seq<Batch>

    ghost function SendsNow(): Sends
      reads ackp, cb, `connected, `ourJid, `prevJid, `presence, `outbox, `msgids
      reads `accepted, `owner, `holder, `retired, `used, `transmitted
    {
      Sends(ackp.outgoing, connected, ourJid, prevJid, presence, outbox, cb.reports, msgids,
            accepted, owner, holder, retired, used, transmitted)
    }

    ghost function BridgeNow(): Bridge
      reads `groups, `nextGroup, `recipients, `nextRecipient, `orders
    {
      Bridge(groups, nextGroup, recipients, nextRecipient, orders)
    }

    ghost function View(): State
      reads this, ackp, cb
    {
      State(SendsNow(), BridgeNow(), chats, jobs, batches)
    }

    /** The tracker reports to the same channel; nothing ever reassigns either. */
    ghost predicate Wired() {
      ackp.cb == cb && ackp.cfg == cfg
    }

    /** No two groups share a JID or a channel. */
    ghost predicate Paired()
      reads `groups, `nextGroup
    {
      WaGroups.OneToOne(groups, nextGroup)
    }

    /** The message table holds what was stored for groups that are there. */
    ghost predicate Logged()
      reads `rows, `batches, `groups, `nextGroup
    {
      Kept(rows, batches, groups, nextGroup)
    }

    constructor (cfg: Config, msgids: set<Mid>, groups: map<int, Group>, nextGroup: int, recipients: map<Addr, int>,
                 nextRecipient: int)
      requires WaGroups.OneToOne(groups, nextGroup)
      ensures Wired() && Paired() && Logged() && fresh(ackp) && fresh(cb) && this.cfg == cfg
      ensures View() == Start(msgids, Bridge(groups, nextGroup, recipients, nextRecipient, []))
      ensures !connected && ourJid == None && ackp.outgoing == map[] && outbox == [] && this.msgids == msgids
    {
      this.cfg := cfg;
      var bot := new ControlBot();
      var tracker := new WaAckTracker(cfg, bot);
      cb, ackp := bot, tracker;
      connected, ourJid, prevJid, presence, chats, outbox, orders := false, None, None, map[], map[], [], [];
      this.msgids, this.groups, this.nextGroup := msgids, groups, nextGroup;
      this.recipients, this.nextRecipient, rows := recipients, nextRecipient, [];
      accepted, owner, holder, retired, used, transmitted, jobs, batches := [], map[], map[], {}, msgids, {}, {}, [];
    }

    // ---- sending ----

    /** `queue_message`. */
    method QueueMessage(item: Item, mid: Mid, link: Link, now: int)
      requires Wired()
      modifies ackp, cb, `used
      ensures SendsNow() == Complain(Register(old(SendsNow()), item, mid, true, now), link.Disabled?)
    {
      ackp.RegisterSend(item, mid, true, now);
      used := used + {mid};
      if link.Disabled? {
        cb.ReportFailure(OtherReport);
      }
    }

    /** The subscription part of `send_message`. */
    method RenewSubscription(jid: Jid, now: int)
      modifies `presence, `outbox
      ensures var subscribes := old(Subscribes(cfg, SendsNow(), jid, now));
              && presence == (if subscribes then old(presence)[jid := now] else old(presence))
              && outbox == old(outbox) + (if subscribes then [SubscribePresence(jid)] else [])
    {
      if !jid.isGroup && cfg.trackPresence {
        var update := true;
        if jid in presence {
          if now - presence[jid] < RESUBSCRIBE_MS {
            update := false;
          }
        }
        if update {
          presence := presence[jid := now];
          outbox := outbox + [SubscribePresence(jid)];
        }
      }
    }

    /** `send_message`. */
    method SendMessage(item: Item, mid: Mid, now: int)
      requires Wired()
      modifies ackp, `msgids, `used, `transmitted, `presence, `outbox
      ensures SendsNow() == Transmit(cfg, old(SendsNow()), item, mid, now)
    {
      ghost var sub := if Subscribes(cfg, SendsNow(), item.to, now) then [SubscribePresence(item.to)] else [];
      msgids := msgids + {mid};
      ackp.RegisterSend(item, mid, false, now);
      used, transmitted := used + {mid}, transmitted + {mid};
      outbox := outbox + [WaModel.SendMessage(mid, item)];
      RenewSubscription(item.to, now);
    }

    /** `send_direct_message`; a number that gives no JID is reported. */
    method SendDirectMessage(to: Option<Jid>, content: string, mid: Mid, link: Link, now: int)
      requires Wired()
      modifies ackp, cb, `msgids, `used, `transmitted, `presence, `outbox, `accepted, `owner, `holder
      ensures SendsNow() == SendDirect(cfg, old(SendsNow()), to, content, mid, link, now)
      ensures to.Some? ==>
                var up := old(connected) && link.Running?;
                && mid in ackp.outgoing && ackp.outgoing[mid].unsent == !up
                && outbox == old(outbox) + (if up then WaSending.Asking(cfg, old(SendsNow()), Item(to.value, content),
                                                                       mid, now) else [])
    {
      hide Send, WaSending.Asking;
      match to {
        case None =>
          cb.ReportFailure(OtherReport);
        case Some(jid) =>
          SendOrQueue(Item(jid, content), mid, link, now);
      }
    }

    /** Queue while disconnected, else send. */
    method SendOrQueue(item: Item, mid: Mid, link: Link, now: int)
      requires Wired()
      modifies ackp, cb, `msgids, `used, `transmitted, `presence, `outbox, `accepted, `owner, `holder
      ensures SendsNow() == Send(cfg, old(SendsNow()), item, mid, link, now)
      ensures var up := old(connected) && link.Running?;
              && mid in ackp.outgoing && ackp.outgoing[mid].unsent == !up && ackp.outgoing[mid].item == item
              && outbox == old(outbox) + (if up then WaSending.Asking(cfg, old(SendsNow()), item, mid, now) else [])
    {
      WaSending.SendExact(cfg, SendsNow(), item, mid, link, now);
      hide Transmit, Register, Complain, WaSending.Asking;
      owner, holder := owner[mid := |accepted|], holder[|accepted| := mid];
      accepted := accepted + [item];
      if !connected || !link.Running? {
        QueueMessage(item, mid, link, now);
      } else {
        SendMessage(item, mid, now);
      }
    }

    /** `send_group_message`: to the group bridged to a channel, if there is one. */
    method SendGroupMessage(channel: string, content: string, mid: Mid, link: Link, now: int)
      requires Wired() && Paired()
      modifies ackp, cb, `msgids, `used, `transmitted, `presence, `outbox, `accepted, `owner, `holder
      ensures !ChannelUsed(old(BridgeNow()), channel) ==> SendsNow() == old(SendsNow())
      ensures forall g :: g in groups && groups[g].channel == channel ==>
                SendsNow() == Send(cfg, old(SendsNow()), Item(groups[g].jid, content), mid, link, now)
      ensures forall g :: g in groups && groups[g].channel == channel ==>
                var up := old(connected) && link.Running?;
                && mid in ackp.outgoing && ackp.outgoing[mid].unsent == !up
                && outbox == old(outbox) + (if up then WaSending.Asking(cfg, old(SendsNow()),
                                                                        Item(groups[g].jid, content), mid, now)
                                            else [])
    {
      hide Send, WaSending.Asking;
      var found := GetGroupByChan(channel);
      if found.Some? {
        forall g | g in groups && groups[g].channel == channel ensures g == found.value {}
        SendOrQueue(Item(groups[found.value].jid, content), mid, link, now);
      }
    }

    /** `on_established`; `order` is how the hash table lists the tracked messages. */
    method OnEstablished(jid: Jid, order: seq<Mid>, ids: seq<Mid>, now: int) returns (ghost mids: seq<Mid>)
      requires Wired() && Lists(order, ackp.outgoing.Keys)
      requires |ids| == |Unsent(SendsNow())| && forall m :: m in ackp.outgoing ==> m in owner
      modifies ackp, cb, `msgids, `used, `transmitted, `presence, `outbox, `owner, `holder
      modifies `ourJid, `prevJid, `connected
      ensures Lists(mids, Unsent(old(SendsNow())))
      ensures SendsNow() == Established(cfg, old(SendsNow()), jid, mids, ids, now)
    {
      hide ResendAll;
      ghost var was := SendsNow();
      var unsent;
      unsent, mids := Dequeue(jid, order);
      ListsSize(mids, Unsent(was));
      forall k | 0 <= k < |mids| ensures mids[k] in was.outgoing && mids[k] in was.owner {
        assert mids[k] in mids;
      }
      ResendLoop(unsent, was, mids, ids, now);
      prevJid := Some(jid);
      connected := true;
    }

    /** The first half of `on_established`. */
    method Dequeue(jid: Jid, order: seq<Mid>) returns (unsent: seq<Status>, ghost mids: seq<Mid>)
      requires Wired() && Lists(order, ackp.outgoing.Keys)
      modifies ackp, cb, `owner, `holder, `ourJid
      ensures Lists(mids, Unsent(old(SendsNow())))
      ensures unsent == StatusesOf(old(ackp.outgoing), mids)
      ensures SendsNow() == Dequeued(old(SendsNow()), jid)
    {
      hide HeldWithout, UnsentIds, StatusesOf, Lists;
      ghost var gone := UnsentIds(ackp.outgoing);
      ourJid := Some(jid);
      if prevJid.Some? && prevJid != ourJid {
        cb.ReportFailure(OtherReport);
      }
      unsent, mids := ackp.ExtractUnsent(order);
      owner, holder := owner - gone, HeldWithout(holder, gone);
    }

    /** The loop of `on_established`. */
    method ResendLoop(unsent: seq<Status>, ghost was: Sends, ghost mids: seq<Mid>, ids: seq<Mid>, now: int)
      requires Wired() && |mids| == |ids| && unsent == StatusesOf(was.outgoing, mids)
      requires forall k :: 0 <= k < |mids| ==> mids[k] in was.outgoing && mids[k] in was.owner
      modifies ackp, `msgids, `used, `transmitted, `presence, `outbox, `owner, `holder
      ensures SendsNow() == ResendAll(cfg, old(SendsNow()), was, mids, ids, now)
    {
      ghost var all := ResendAll(cfg, SendsNow(), was, mids, ids, now);
      ResendStart(cfg, SendsNow(), was, mids, ids, now);
      StatusesSize(was.outgoing, mids);
      hide Resending, Transmit, ResendAll, StatusesOf;
      var i := 0;
      while i < |unsent|
        invariant 0 <= i <= |unsent| == |mids|
        invariant Resending(cfg, SendsNow(), was, mids, ids, i, now, all)
      {
        StatusesAt(was.outgoing, mids, i);
        ResendStep(cfg, SendsNow(), was, mids, ids, i, now, all);
        SendMessage(unsent[i].item, ids[i], now);
        owner, holder := owner[ids[i] := was.owner[mids[i]]], holder[was.owner[mids[i]] := ids[i]];
        i := i + 1;
      }
      ResendDone(cfg, SendsNow(), was, mids, ids, now, all);
    }

    /** `on_wa_error`. */
    method OnWaError(reported: bool)
      modifies cb, `ourJid, `connected
      ensures SendsNow() == LoggedOff(old(SendsNow()), reported)
    {
      if reported {
        cb.ReportFailure(OtherReport);
      }
      ourJid := None;
      connected := false;
    }

    method OnMessageAck(mid: Mid, level: Level)
      requires Wired()
      modifies ackp, cb
      ensures SendsNow() == Ack(old(SendsNow()), mid, level)
    {
      ackp.OnMessageAck(mid, level);
    }

    /** The tracker's timer; `order` is how the hash table lists the tracked messages. */
    method CheckAcks(order: seq<Mid>, now: int)
      requires Wired() && Lists(order, ackp.outgoing.Keys)
      modifies ackp, cb, `owner, `holder, `retired
      ensures SendsNow() == Tick(cfg, old(SendsNow()), order, now)
      ensures forall m :: m in ackp.outgoing <==>
                m in old(ackp.outgoing) && !WaConservation.Over(cfg, old(ackp.outgoing)[m], now)
    {
      hide HeldWithout, WarnedAll, ExpiredIds, AllWarnings, Serials, Lists;
      ghost var gone := ExpiredIds(cfg, ackp.outgoing, now);
      retired := retired + Serials(SendsNow(), gone);
      owner, holder := owner - gone, HeldWithout(holder, gone);
      ackp.CheckAcks(order, now);
    }

    /** The outbox loop of `poll`: sends up to a failure, or discards everything when disconnected. */
    method PollOutbox(link: Link, failsAt: nat, reported: bool) returns (failed: bool)
      modifies cb, `ourJid, `connected, `outbox
      ensures failed <==> link.Running? && failsAt < |old(outbox)|
      ensures SendsNow() == if failed then LoggedOff(Drained(old(SendsNow()), failsAt + 1), reported)
                            else Drained(old(SendsNow()), |old(outbox)|)
    {
      failed := false;
      if |outbox| > 0 {
        if link.Running? {
          var n := 0;
          while outbox != []
            invariant n <= |old(outbox)| && n <= failsAt && outbox == old(outbox)[n..]
            invariant SendsNow() == old(SendsNow()).(outbox := outbox)
            decreases outbox
          {
            outbox := outbox[1..];
            n := n + 1;
            if n == failsAt + 1 {
              OnWaError(reported);
              return true;
            }
          }
        } else {
          outbox := [];
        }
      }
    }

    // ---- groups ----

    method GetGroupByJid(jid: Jid) returns (r: Option<int>)
      ensures r.None? <==> !Bridged(BridgeNow(), jid)
      ensures r.Some? ==> r.value in groups && groups[r.value].jid == jid
    {
      if g :| g in groups && groups[g].jid == jid {
        return Some(g);
      }
      return None;
    }

    method GetGroupByChan(channel: string) returns (r: Option<int>)
      ensures r.None? <==> !ChannelUsed(BridgeNow(), channel)
      ensures r.Some? ==> r.value in groups && groups[r.value].channel == channel
    {
      if g :| g in groups && groups[g].channel == channel {
        return Some(g);
      }
      return None;
    }

    /** `group_associate`. */
    method GroupAssociate(jid: Jid, channel: string, update: bool, link: Link) returns (id: Option<int>)
      requires Paired() && Logged()
      modifies `groups, `nextGroup, `orders, `outbox
      ensures Paired() && Logged()
      ensures var spec := Associate(old(BridgeNow()), jid, channel, connected && link.Running?);
              BridgeNow() == spec.0 && id == spec.1
      ensures outbox == old(outbox) + if update && id.Some? then [GetGroupMetadata(jid)] else []
      ensures id.Some? ==> id.value in groups
    {
      hide WaGroups.OneToOne, Kept;
      WaGroups.AssociateKeeps(BridgeNow(), jid, channel, connected && link.Running?);
      AddedKeeps(rows, batches, groups, nextGroup, Group(jid, channel, [], [], SETUP_TOPIC));
      var grp := GetGroupByJid(jid);
      if grp.Some? {
        return None;
      }
      grp := GetGroupByChan(channel);
      if grp.Some? {
        return None;
      }
      hide Bridged, ChannelUsed;
      if !connected || !link.Running? {
        return None;
      }
      if !jid.isGroup {
        return None;
      }
      id := Some(nextGroup);
      groups := groups[nextGroup := Group(jid, channel, [], [], SETUP_TOPIC)];
      nextGroup := nextGroup + 1;
      if update {
        outbox := outbox + [GetGroupMetadata(jid)];
      }
      orders := orders + [ProcessGroups];
    }

    /** `get_wa_recipient`. */
    method GetWaRecipient(jid: Jid) returns (id: Option<int>)
      modifies `recipients, `nextRecipient, `orders
      ensures var a := cfg.address(jid);
              && BridgeNow() == (if a.Some? then Meet(old(BridgeNow()), a.value) else old(BridgeNow()))
              && (id.Some? <==> a.Some?)
              && (a.Some? ==> a.value in recipients && id == Some(recipients[a.value]))
    {
      var a := cfg.address(jid);
      if a.None? {
        return None;
      }
      if a.value !in recipients {
        recipients := recipients[a.value := nextRecipient];
        nextRecipient := nextRecipient + 1;
        orders := orders + [SetupContact(a.value)];
      }
      return Some(recipients[a.value]);
    }

    /** `on_got_group_metadata`; it and `group_autocreate` call each other at most once, since the
        group is bridged by then. */
    method OnGotGroupMetadata(m: Metadata, link: Link) returns (ok: bool)
      requires Paired() && Logged()
      modifies `groups, `nextGroup, `recipients, `nextRecipient, `orders, `outbox
      ensures Paired() && Logged() && outbox == old(outbox)
      ensures (BridgeNow(), ok) == OnMetadata(cfg, old(BridgeNow()), m, connected && link.Running?)
      decreases if Bridged(BridgeNow(), m.jid) then 0 else 1, 1
    {
      hide WaGroups.OneToOne, Update, Kept;
      var grp := GetGroupByJid(m.jid);
      if grp.None? && cfg.autocreate.Some? {
        var _ := GroupAutocreate(cfg.autocreate.value, m, link);
      }
      ok := UpdateGroup(m);
    }

    /** `group_autocreate`. */
    method GroupAutocreate(prefix: string, m: Metadata, link: Link) returns (ok: bool)
      requires Paired() && Logged()
      modifies `groups, `nextGroup, `recipients, `nextRecipient, `orders, `outbox
      ensures Paired() && Logged() && outbox == old(outbox)
      ensures (BridgeNow(), ok) == Autocreate(cfg, prefix, old(BridgeNow()), m, connected && link.Running?)
      decreases if Bridged(BridgeNow(), m.jid) then 0 else 1, 0
    {
      hide WaGroups.OneToOne, Update, OnMetadata, Kept;
      var id := GroupAssociate(m.jid, ChannelName(cfg, prefix, m.subject), false, link);
      if id.None? {
        return false;
      }
      assert groups[id.value].jid == m.jid;
      ok := OnGotGroupMetadata(m, link);
    }

    /** The second half of `on_got_group_metadata`. */
    method UpdateGroup(m: Metadata) returns (ok: bool)
      requires Paired() && Logged()
      modifies `groups, `recipients, `nextRecipient, `orders
      ensures Paired() && Logged()
      ensures (BridgeNow(), ok) == Update(cfg, old(BridgeNow()), m)
    {
      hide RowIds, MeetAll, AllKnown, Kept;
      WaGroups.UpdateExact(cfg, BridgeNow(), m);
      WaGroups.MeetAllFrame(cfg, BridgeNow(), m.members);
      var participants, admins;
      ok, participants, admins := MeetMembers(m.members);
      if ok {
        var found := GetGroupByJid(m.jid);
        if found.None? {
          return false;
        }
        assert found.value == GroupFor(BridgeNow(), m.jid);
        hide WaGroups.OneToOne, Bridged;
        var row := groups[found.value].(participants := participants, admins := admins, topic := m.subject);
        SameKeysKept(rows, batches, groups, groups[found.value := row], nextGroup);
        groups := groups[found.value := row];
        orders := orders + [ProcessGroups];
      }
    }

    method MeetMembers(members: seq<Member>) returns (ok: bool, participants: seq<int>, admins: seq<int>)
      modifies `recipients, `nextRecipient, `orders
      ensures BridgeNow() == MeetAll(cfg, old(BridgeNow()), members)
      ensures ok <==> AllKnown(cfg, members)
      ensures ok ==> participants == RowIds(cfg, recipients, members, false)
      ensures ok ==> admins == RowIds(cfg, recipients, members, true)
    {
      ghost var met := MeetAll(cfg, BridgeNow(), members);
      participants, admins := [], [];
      MeetingStart(cfg, BridgeNow(), members);
      hide Meeting, MeetAll, Meet, RowIds;
      var i := 0;
      while i < |members|
        invariant 0 <= i <= |members|
        invariant forall k :: 0 <= k < i ==> cfg.address(members[k].jid).Some?
        invariant Meeting(cfg, BridgeNow(), members, i, met, participants, admins)
      {
        MeetingStep(cfg, BridgeNow(), members, i, met, participants, admins);
        var id := GetWaRecipient(members[i].jid);
        if id.None? {
          return false, participants, admins;
        }
        participants := participants + [id.value];
        if members[i].admin {
          admins := admins + [id.value];
        }
        i := i + 1;
      }
      MeetingDone(cfg, BridgeNow(), members, met, participants, admins);
      return true, participants, admins;
    }

    /** `group_remove`, with the rows of the group's messages; the ghost result is the row found. */
    method GroupRemove(channel: string) returns (ghost chosen: int)
      requires Paired() && Logged()
      modifies `groups, `orders, `rows
      ensures Paired() && Logged()
      ensures rows == if ChannelUsed(old(BridgeNow()), channel) then Cascade(old(rows), chosen) else old(rows)
      ensures ChannelUsed(old(BridgeNow()), channel) ==> chosen in old(groups) && old(groups)[chosen].channel == channel
      ensures BridgeNow() == Remove(old(BridgeNow()), channel, chosen)
    {
      hide Kept, Cascade;
      chosen := 0;
      var found := GetGroupByChan(channel);
      if found.Some? {
        chosen := found.value;
        GoneKeeps(rows, batches, groups, nextGroup, found.value);
        groups := groups - {found.value};
        rows := Cascade(rows, found.value);
        orders := orders + [ProcessGroups];
      }
    }

    // ---- incoming messages ----

    /** `store_message` for each text of a message. */
    method StoreMessages(mid: Mid, media: bool, from: Jid, texts: seq<string>, group: Option<int>, ts: int)
      returns (r: Verdict)
      requires Paired() && Logged()
      modifies `recipients, `nextRecipient, `orders, `rows, `batches
      ensures Paired() && Logged()
      ensures Did(r, View(), Store(cfg, old(View()), mid, media, from, texts, group, ts))
    {
      hide Meet, Rows, Repeat, Kept, WaGroups.OneToOne, Live, AllRows;
      var a := cfg.address(from);
      if a.None? {
        return Ok(());
      }
      assert batches + [] == batches;
      r := StoreFrom(a.value, mid, media, from, texts, group, ts);
    }

    method StoreFrom(a: Addr, mid: Mid, media: bool, from: Jid, texts: seq<string>, group: Option<int>, ts: int)
      returns (r: Verdict)
      requires Paired() && Logged() && cfg.address(from) == Some(a)
      modifies `recipients, `nextRecipient, `orders, `rows, `batches
      ensures Paired() && Logged()
      ensures if texts != [] && !Placeable(BridgeNow(), group)
              then r == Err(GroupGone) && batches == old(batches) && BridgeNow() == Meet(old(BridgeNow()), a)
              else r == Ok(()) && BridgeNow() == Called(old(BridgeNow()), a, |texts|)
                   && batches == old(batches) +
                        if texts == [] then [] else [Batch(mid, media, Rows(a, texts, group, ts))]
    {
      hide Meet, Rows, Called, Kept, WaGroups.OneToOne;
      r := StoreRows(a, from, texts, group, ts);
      if r.Err? {
        return;
      }
      if |texts| == 0 {
        RowsNone(a, group, ts);
        assert rows == old(rows);
      } else {
        ghost var batch := Batch(mid, media, Rows(a, texts, group, ts));
        BelowNext(groups, nextGroup, group);
        StoredKeeps(old(rows), batches, groups, nextGroup, batch, a, texts, group, ts);
        batches := batches + [batch];
      }
    }

    method StoreRows(a: Addr, from: Jid, texts: seq<string>, group: Option<int>, ts: int) returns (r: Verdict)
      requires cfg.address(from) == Some(a)
      modifies `recipients, `nextRecipient, `orders, `rows
      ensures if texts != [] && !Placeable(BridgeNow(), group)
              then r == Err(GroupGone) && rows == old(rows) && BridgeNow() == Meet(old(BridgeNow()), a)
              else r == Ok(()) && rows == old(rows) + Rows(a, texts, group, ts)
                   && BridgeNow() == Called(old(BridgeNow()), a, |texts|)
    {
      hide Rows, Repeat;
      ghost var before, start := rows, BridgeNow();
      RowsNone(a, group, ts);
      var i := 0;
      while i < |texts|
        invariant 0 <= i <= |texts| && (i > 0 ==> Placeable(BridgeNow(), group))
        invariant rows == before + Rows(a, texts[..i], group, ts)
        invariant BridgeNow() == Called(start, a, i)
      {
        RowsStep(a, texts, i, group, ts);
        CalledStep(start, a, i);
        var _ := GetWaRecipient(from);
        if group.Some? && group.value !in groups {
          return Err(GroupGone);
        }
        rows := rows + [Row(a, texts[i], group, ts)];
        orders := orders + [ProcessMessages];
        i := i + 1;
      }
      assert texts[..i] == texts;
      return Ok(());
    }

    /** Tells WhatsApp that a message was read, where that is wanted. */
    method SendRead(mid: Mid, wanted: bool)
      modifies `outbox
      ensures View() == MarkRead(cfg, old(View()), mid, wanted)
    {
      if wanted && cfg.markRead {
        outbox := outbox + [MessageRead(mid)];
      }
    }

    /** `store_wa_msgid`, which does nothing for an id already there. */
    method StoreMsgid(mid: Mid)
      modifies `msgids
      ensures View() == Know(old(View()), mid)
    {
      msgids := msgids + {mid};
    }

    /** `media_finished`. */
    method MediaFinished(mid: Mid, from: Jid, text: string, group: Option<int>, ts: int, hasPeer: bool)
      returns (r: Verdict)
      requires Paired() && Logged()
      modifies `recipients, `nextRecipient, `orders, `rows, `batches, `msgids, `outbox
      ensures Paired() && Logged()
      ensures Did(r, View(), MediaDone(cfg, old(View()), mid, from, text, group, ts, hasPeer))
    {
      hide Store, MarkRead, Know, Kept, WaGroups.OneToOne;
      r := StoreMessages(mid, true, from, [text], group, ts);
      if r.Err? {
        return;
      }
      StoreMsgid(mid);
      SendRead(mid, hasPeer);
    }

    /** `group_autocreate_from_unbridged`. */
    method GroupAutocreateFromUnbridged(prefix: string, jid: Jid, link: Link) returns (id: Option<int>)
      requires Paired() && Logged()
      modifies `groups, `nextGroup, `orders, `outbox
      ensures Paired() && Logged()
      ensures (View(), id) == FromUnbridged(cfg, prefix, old(View()), jid, link)
      ensures id.Some? ==> id.value in groups
    {
      hide AssociateAsking, WaGroups.OneToOne, ChannelName, Kept;
      if jid !in chats {
        return None;
      }
      var name := chats[jid];
      if name.None? {
        return None;
      }
      id := AssociateAndAsk(jid, ChannelName(cfg, prefix, name.value), link);
    }

    /** `group_associate` with `request_update`. */
    method AssociateAndAsk(jid: Jid, channel: string, link: Link) returns (id: Option<int>)
      requires Paired() && Logged()
      modifies `groups, `nextGroup, `orders, `outbox
      ensures Paired() && Logged()
      ensures (View(), id) == AssociateAsking(old(View()), jid, channel, link)
      ensures id.Some? ==> id.value in groups
    {
      hide Associate, WaGroups.OneToOne, Kept;
      SameUnlessSome(BridgeNow(), jid, channel, connected && link.Running?);
      id := GroupAssociate(jid, channel, true, link);
      assert old(outbox) + [] == old(outbox);
    }

    /** The end of `on_message`, from `process_wa_incoming` on. */
    method Finish(m: Incoming, from: Jid, group: Option<int>)
      requires Paired() && Logged() && Placeable(BridgeNow(), group)
      modifies `recipients, `nextRecipient, `orders, `rows, `batches, `msgids, `outbox, `jobs
      ensures Paired() && Logged() && View() == Accept(cfg, old(View()), m, from, group)
    {
      hide StoreBatch, MarkRead, Know, Kept, WaGroups.OneToOne;
      if m.media {
        jobs := jobs + {m.mid};
      }
      var r := StoreMessages(m.mid, m.media, from, m.texts, group, m.time);
      if |m.texts| > 0 && !m.media {
        StoreMsgid(m.mid);
      }
      SendRead(m.mid, !m.media && !m.direction.Sending?);
    }

    /** The part of `on_message` that deals with a group. */
    method FinishInGroup(m: Incoming, from: Jid, jid: Jid, link: Link)
      requires Paired() && Logged()
      modifies `groups, `nextGroup, `recipients, `nextRecipient, `orders, `rows, `batches, `msgids, `outbox, `jobs
      ensures Paired() && Logged() && View() == AcceptGroup(cfg, old(View()), m, from, jid, link)
    {
      hide Accept, FromUnbridged, Kept;
      if jid.id == "status" {
        return;
      }
      var found := GetGroupByJid(jid);
      if found.None? {
        if cfg.autocreate.None? {
          return;
        }
        found := GroupAutocreateFromUnbridged(cfg.autocreate.value, jid, link);
        if found.None? {
          outbox := outbox + [GetGroupMetadata(jid)];
          return;
        }
      } else {
        assert found.value == GroupFor(BridgeNow(), jid);
      }
      Finish(m, from, found);
    }

    /** The checks at the start of `on_message`. */
    method Check(m: Incoming, isNew: bool) returns (admitted: bool)
      ensures admitted <==> Admits(cfg, View(), m, isNew)
    {
      if !cfg.markRead || !isNew {
        if m.mid in msgids {
          return false;
        }
      }
      if !isNew {
        if cfg.backlogStart.Some? && cfg.backlogStart.value > m.time {
          return false;
        }
      }
      return true;
    }

    /** What `on_message` does with a message it admits. */
    method Dispatch(m: Incoming, link: Link) returns (r: Verdict)
      requires Paired() && Logged()
      modifies `groups, `nextGroup, `recipients, `nextRecipient, `orders, `rows, `batches, `msgids, `outbox, `jobs
      ensures Paired() && Logged()
      ensures Did(r, View(), WaModel.Dispatch(cfg, old(View()), m, link))
    {
      hide Accept, AcceptGroup, Know, Kept, WaGroups.OneToOne;
      match m.direction {
        case Sending(jid) =>
          if ourJid.None? {
            return Err(NotLoggedOn);
          }
          if jid.isGroup {
            FinishInGroup(m, ourJid.value, jid, link);
          } else {
            StoreMsgid(m.mid);
          }
        case FromPerson(who) =>
          Finish(m, who, None);
        case FromGroup(jid, participant) =>
          FinishInGroup(m, participant, jid, link);
      }
      return Ok(());
    }

    /** `on_message`. */
    method OnMessage(m: Incoming, isNew: bool, link: Link) returns (r: Verdict)
      requires Paired() && Logged()
      modifies `groups, `nextGroup, `recipients, `nextRecipient, `orders, `rows, `batches, `msgids, `outbox, `jobs
      modifies `used
      ensures Paired() && Logged()
      ensures Did(r, View(), WaModel.OnMessage(cfg, old(View()), m, isNew, link))
      ensures old(batches) <= batches
      ensures forall i, k :: |old(batches)| <= i < |batches| && 0 <= k < |batches[i].rows| ==>
                WaIncoming.Placed(BridgeNow(), m, batches[i].rows[k].group)
    {
      RowsPlaced(cfg, View(), m, isNew, link);
      hide WaModel.Dispatch, Kept, WaGroups.OneToOne, Admits, WaIncoming.Placed;
      var admitted := Check(m, isNew);
      used := used + {m.mid};
      assert View() == Seen(old(View()), m.mid);
      if !admitted {
        return Ok(());
      }
      r := Dispatch(m, link);
    }
  }

  /** The rows of a message belong to its group, or to none if it is from a person. */
  lemma {:induction false} RowsPlaced(cfg: Config, s: State, m: Incoming, isNew: bool, link: Link)
    ensures var s' := Left(WaModel.OnMessage(cfg, s, m, isNew, link));
            && s.batches <= s'.batches
            && forall i, k :: |s.batches| <= i < |s'.batches| && 0 <= k < |s'.batches[i].rows| ==>
                 WaIncoming.Placed(s'.bridge, m, s'.batches[i].rows[k].group)
  {
    WaIncoming.MessageExact(cfg, s, m, isNew, link);
    hide WaModel.OnMessage, WaIncoming.Placed, WaIncoming.Lands, WaIncoming.Admitted;
  }

  lemma {:induction false} StatusesSize(outgoing: map<Mid, Status>, mids: seq<Mid>)
    requires forall k :: 0 <= k < |mids| ==> mids[k] in outgoing
    ensures |StatusesOf(outgoing, mids)| == |mids|
  {
    if mids != [] { StatusesAt(outgoing, mids, 0); }
  }

  /** Sending the rest again, from `mids[i]` on, leads to `all`. */
  ghost predicate Resending(cfg: Config, s: Sends, was: Sends, mids: seq<Mid>, ids: seq<Mid>, i: nat, now: int,
                            all: Sends) {
    i <= |mids| == |ids| && ResendAll(cfg, s, was, mids[i..], ids[i..], now) == all
  }

  lemma ResendStart(cfg: Config, s: Sends, was: Sends, mids: seq<Mid>, ids: seq<Mid>, now: int)
    requires |mids| == |ids|
    ensures Resending(cfg, s, was, mids, ids, 0, now, ResendAll(cfg, s, was, mids, ids, now))
  {
    assert mids[0..] == mids && ids[0..] == ids;
  }

  lemma ResendStep(cfg: Config, s: Sends, was: Sends, mids: seq<Mid>, ids: seq<Mid>, i: nat, now: int, all: Sends)
    requires Resending(cfg, s, was, mids, ids, i, now, all)
    requires i < |mids| && mids[i] in was.outgoing && mids[i] in was.owner
    ensures Resending(cfg, Own(Transmit(cfg, s, was.outgoing[mids[i]].item, ids[i], now), ids[i], was.owner[mids[i]]),
                      was, mids, ids, i + 1, now, all)
  {
    hide Transmit;
    assert mids[i..][0] == mids[i] && mids[i..][1..] == mids[i + 1..];
    assert ids[i..][0] == ids[i] && ids[i..][1..] == ids[i + 1..];
  }

  lemma ResendDone(cfg: Config, s: Sends, was: Sends, mids: seq<Mid>, ids: seq<Mid>, now: int, all: Sends)
    requires Resending(cfg, s, was, mids, ids, |mids|, now, all)
    ensures s == all
  {
  }

  /** The recipients still to meet, from `members[i]` on, lead to `met`, and their ids complete the lists. */
  ghost predicate Meeting(cfg: Config, b: Bridge, members: seq<Member>, i: nat, met: Bridge, participants: seq<int>,
                          admins: seq<int>) {
    && i <= |members| && MeetAll(cfg, b, members[i..]) == met
    && participants + RowIds(cfg, met.recipients, members[i..], false) == RowIds(cfg, met.recipients, members, false)
    && admins + RowIds(cfg, met.recipients, members[i..], true) == RowIds(cfg, met.recipients, members, true)
  }

  lemma MeetingStart(cfg: Config, b: Bridge, members: seq<Member>)
    ensures Meeting(cfg, b, members, 0, MeetAll(cfg, b, members), [], [])
  {
    assert members[0..] == members;
  }

  lemma {:induction false} MeetingStep(cfg: Config, b: Bridge, members: seq<Member>, i: nat, met: Bridge,
                                       participants: seq<int>, admins: seq<int>)
    requires Meeting(cfg, b, members, i, met, participants, admins) && i < |members|
    ensures var a := cfg.address(members[i].jid);
            && (a.None? ==> b == met)
            && (a.Some? ==>
                  var b1 := Meet(b, a.value);
                  a.value in b1.recipients &&
                  Meeting(cfg, b1, members, i + 1, met, participants + [b1.recipients[a.value]],
                          if members[i].admin then admins + [b1.recipients[a.value]] else admins))
  {
    var later := members[i + 1..];
    assert members[i..][0] == members[i] && members[i..][1..] == later;
    var a := cfg.address(members[i].jid);
    if a.Some? {
      var b1 := Meet(b, a.value);
      var id := b1.recipients[a.value];
      WaGroups.MeetAllFrame(cfg, b1, later);
      Regroup(participants, [id], RowIds(cfg, met.recipients, later, false));
      Regroup(admins, [id], RowIds(cfg, met.recipients, later, true));
    }
  }

  lemma MeetingDone(cfg: Config, b: Bridge, members: seq<Member>, met: Bridge, participants: seq<int>, admins: seq<int>)
    requires Meeting(cfg, b, members, |members|, met, participants, admins)
    ensures b == met
    ensures participants == RowIds(cfg, met.recipients, members, false)
    ensures admins == RowIds(cfg, met.recipients, members, true)
  {
    assert members[|members|..] == [];
  }

  lemma SameUnlessSome(b: Bridge, jid: Jid, channel: string, up: bool)
    ensures Associate(b, jid, channel, up).1.None? ==> Associate(b, jid, channel, up).0 == b
  {
  }

  /** The tables after `n` messages from an address. */
  function Called(b: Bridge, a: Addr, n: nat): Bridge {
    if n == 0 then b
    else
      var met := Meet(b, a);
      met.(orders := met.orders + Repeat(n))
  }

  lemma CalledStep(b: Bridge, a: Addr, n: nat)
    ensures var b1 := Meet(Called(b, a, n), a);
            Called(b, a, n + 1) == b1.(orders := b1.orders + [ProcessMessages])
  {
    RepeatStep(n);
    var met := Meet(b, a);
    Regroup(met.orders, Repeat(n), [ProcessMessages]);
  }

  lemma AllRowsAppend(batches: seq<Batch>, batch: Batch)
    ensures AllRows(batches + [batch]) == AllRows(batches) + batch.rows
  {
    assert (batches + [batch])[..|batches|] == batches;
  }

  // ---- the message table ----

  lemma {:induction false} LiveAppend(groups: map<int, Group>, xs: seq<Row>, ys: seq<Row>)
    ensures Live(groups, xs + ys) == Live(groups, xs) + Live(groups, ys)
    decreases ys
  {
    if ys == [] {
      assert xs + ys == xs;
    } else {
      var n := |ys| - 1;
      assert (xs + ys)[..|xs + ys| - 1] == xs + ys[..n] && (xs + ys)[|xs + ys| - 1] == ys[n];
      LiveAppend(groups, xs, ys[..n]);
      Regroup(Live(groups, xs), Live(groups, ys[..n]),
              if ys[n].group.Some? && ys[n].group.value !in groups then [] else [ys[n]]);
    }
  }

  lemma {:induction false} LiveAll(groups: map<int, Group>, rows: seq<Row>)
    requires forall i :: 0 <= i < |rows| && rows[i].group.Some? ==> rows[i].group.value in groups
    ensures Live(groups, rows) == rows
  {
    if rows != [] {
      LiveAll(groups, rows[..|rows| - 1]);
      assert rows[..|rows| - 1] + [rows[|rows| - 1]] == rows;
    }
  }

  /** Only which groups are there matters, and only for groups that rows are of. */
  lemma {:induction false} LiveSame(groups: map<int, Group>, groups': map<int, Group>, rows: seq<Row>)
    requires forall i :: 0 <= i < |rows| && rows[i].group.Some? ==> (rows[i].group.value in groups <==>
             rows[i].group.value in groups')
    ensures Live(groups', rows) == Live(groups, rows)
  {
    if rows != [] { LiveSame(groups, groups', rows[..|rows| - 1]); }
  }

  lemma {:induction false} LiveGone(groups: map<int, Group>, gid: int, rows: seq<Row>)
    ensures Live(groups - {gid}, rows) == Cascade(Live(groups, rows), gid)
  {
    if rows != [] {
      var earlier, last := rows[..|rows| - 1], rows[|rows| - 1];
      LiveGone(groups, gid, earlier);
      var live := Live(groups, earlier);
      assert (live + [last])[..|live|] == live && live + [] == live;
    }
  }

  lemma {:induction false} AddedKeeps(rows: seq<Row>, batches: seq<Batch>, groups: map<int, Group>, nextGroup: int,
                                      g: Group)
    requires Kept(rows, batches, groups, nextGroup)
    ensures Kept(rows, batches, groups[nextGroup := g], nextGroup + 1)
  {
    forall i | 0 <= i < |AllRows(batches)| && AllRows(batches)[i].group.Some?
      ensures AllRows(batches)[i].group.value < nextGroup
    {
      assert AllRows(batches)[i] in AllRows(batches);
    }
    LiveSame(groups, groups[nextGroup := g], AllRows(batches));
  }

  lemma {:induction false} SameKeysKept(rows: seq<Row>, batches: seq<Batch>, groups: map<int, Group>,
                                        groups': map<int, Group>, nextGroup: int)
    requires Kept(rows, batches, groups, nextGroup) && groups'.Keys == groups.Keys
    ensures Kept(rows, batches, groups', nextGroup)
  {
    LiveSame(groups, groups', AllRows(batches));
  }

  lemma {:induction false} GoneKeeps(rows: seq<Row>, batches: seq<Batch>, groups: map<int, Group>, nextGroup: int,
                                     gid: int)
    requires Kept(rows, batches, groups, nextGroup)
    ensures Kept(Cascade(rows, gid), batches, groups - {gid}, nextGroup)
  {
    LiveGone(groups, gid, AllRows(batches));
  }

  lemma {:induction false} StoredKeeps(rows: seq<Row>, batches: seq<Batch>, groups: map<int, Group>, nextGroup: int,
                                       batch: Batch, a: Addr, texts: seq<string>, group: Option<int>, ts: int)
    requires Kept(rows, batches, groups, nextGroup) && batch.rows == Rows(a, texts, group, ts)
    requires group.Some? ==> group.value in groups && group.value < nextGroup
    ensures Kept(rows + batch.rows, batches + [batch], groups, nextGroup)
  {
    AllRowsAppend(batches, batch);
    WaIncoming.RowsExact(a, texts, group, ts);
    LiveAppend(groups, AllRows(batches), batch.rows);
    LiveAll(groups, batch.rows);
    forall r | r in AllRows(batches) + batch.rows ensures r.group.Some? ==> r.group.value < nextGroup {
      if r !in AllRows(batches) {
        var i :| 0 <= i < |batch.rows| && batch.rows[i] == r;
      }
    }
  }

  lemma BelowNext(groups: map<int, Group>, nextGroup: int, group: Option<int>)
    requires WaGroups.OneToOne(groups, nextGroup) && (group.Some? ==> group.value in groups)
    ensures group.Some? ==> group.value < nextGroup
  {
  }

  lemma RowsNone(a: Addr, group: Option<int>, ts: int)
    ensures Rows(a, [], group, ts) == []
  {
  }

  lemma RowsStep(a: Addr, texts: seq<string>, i: nat, group: Option<int>, ts: int)
    requires i < |texts|
    ensures Rows(a, texts[..i + 1], group, ts) == Rows(a, texts[..i], group, ts) + [Row(a, texts[i], group, ts)]
  {
    assert texts[..i + 1] == texts[..i] + [texts[i]];
    RowsAppend(a, texts[..i], texts[i], group, ts);
  }

  lemma {:induction false} RowsAppend(a: Addr, texts: seq<string>, text: string, group: Option<int>, ts: int)
    ensures Rows(a, texts + [text], group, ts) == Rows(a, texts, group, ts) + [Row(a, text, group, ts)]
  {
    if texts == [] {
      assert (texts + [text])[1..] == [];
    } else {
      assert (texts + [text])[0] == texts[0] && (texts + [text])[1..] == texts[1..] + [text];
      RowsAppend(a, texts[1..], text, group, ts);
    }
  }

  lemma {:induction false} RepeatStep(n: nat)
    ensures Repeat(n + 1) == Repeat(n) + [ProcessMessages]
  {
    if n > 0 { RepeatStep(n - 1); }
  }
}
