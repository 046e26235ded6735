/** The WhatsApp manager over whole runs. */
module WaRuns {
  import opened Outcomes
  import opened WaModel
  import WaConservation
  import WaGroups
  import WaIncoming
  import WaSending

  /** Messages are conserved, the outbox holds what is tracked, groups and channels are paired one to one, and nothing
      is replayed. */
  ghost predicate Inv(cfg: Config, s: State) {
    && WaConservation.Inv(s.sends) && WaGroups.OneToOne(s.bridge.groups, s.bridge.nextGroup)
    && WaIncoming.NoReplays(cfg, s) && WaSending.Handed(s.sends)
  }

  /** The events of the sending half keep what is tracked. */
  lemma {:induction false} SendsStepKeeps(cfg: Config, s: State, e: Event)
    requires WaConservation.Inv(s.sends) && Allowed(s, e)
    ensures WaConservation.Inv(SendsStep(cfg, s.sends, e))
  {
    hide WaConservation.Inv;
    match e
    case SendEvent(to, content, mid, link, now) =>
      if to.Some? {
        WaConservation.SendKeeps(cfg, s.sends, Item(to.value, content), mid, link, now);
      } else {
        WaConservation.ComplainKeepsInv(s.sends, true);
      }
    case EstablishedEvent(jid, order, ids, now) => WaConservation.EstablishedExact(cfg, s.sends, jid, order, ids, now);
    case ErrorEvent(reported) =>
      WaConservation.ComplainKeepsInv(s.sends, reported);
      WaConservation.UnrelatedKeeps(Complain(s.sends, reported), LoggedOff(s.sends, reported));
    case AckEvent(mid, level) => WaConservation.AckKeeps(s.sends, mid, level);
    case TickEvent(order, now) => WaConservation.TickKeeps(cfg, s.sends, order, now);
    case DrainEvent(n) => WaConservation.UnrelatedKeeps(s.sends, Drained(s.sends, n));
    case _ =>
  }

  /** Whether an event belongs to the sending half. */
  predicate OfSends(e: Event) {
    e.SendEvent? || e.EstablishedEvent? || e.ErrorEvent? || e.AckEvent? || e.TickEvent? || e.DrainEvent?
  }

  /** The other events change at most the outbox and the remembered ids there. */
  lemma {:induction false} OthersUnrelated(cfg: Config, s: State, e: Event)
    requires !OfSends(e) && !e.RestartEvent?
    ensures WaConservation.Unrelated(s.sends, Left(Step(cfg, s, e)).sends)
  {
    match e
    case MessageEvent(m, isNew, link) =>
      WaIncoming.MessageExact(cfg, s, m, isNew, link);
      hide OnMessage;
    case _ =>
  }

  /** Incoming traffic and commands keep the pairing of groups and channels. */
  lemma {:induction false} OthersKeepGroups(cfg: Config, s: State, e: Event)
    requires WaGroups.OneToOne(s.bridge.groups, s.bridge.nextGroup) && !OfSends(e) && !e.RestartEvent?
    ensures var b := Left(Step(cfg, s, e)).bridge; WaGroups.OneToOne(b.groups, b.nextGroup)
  {
    hide WaGroups.OneToOne, Associate, Remove;
    match e
    case MessageEvent(m, isNew, link) => MessageKeepsGroups(cfg, s, m, isNew, link);
    case MediaEvent(mid, from, text, group, ts, hasPeer) =>
      BatchKeepsGroups(cfg, s, mid, true, from, [text], group, ts);
    case ChatEvent(_) =>
    case MetadataEvent(m, link) => WaGroups.MetadataExact(cfg, s.bridge, m, Up(s, link));
    case IntroduceEvent(m, isNew, link) =>
      if isNew && cfg.autocreate.Some? {
        WaGroups.AutocreateKeeps(cfg, cfg.autocreate.value, s.bridge, m, Up(s, link));
      }
    case AssociateEvent(jid, channel, link) => WaGroups.AssociateKeeps(s.bridge, jid, channel, Up(s, link));
    case RemoveEvent(channel, chosen) => WaGroups.RemoveKeeps(s.bridge, channel, chosen);
  }

  lemma {:induction false} BatchKeepsGroups(cfg: Config, s: State, mid: Mid, media: bool, from: Jid, texts: seq<string>,
                                            group: Option<int>, ts: int)
    requires WaGroups.OneToOne(s.bridge.groups, s.bridge.nextGroup)
    ensures var b := StoreBatch(cfg, s, mid, media, from, texts, group, ts).bridge;
            WaGroups.OneToOne(b.groups, b.nextGroup)
  {
  }

  lemma {:induction false} MessageKeepsGroups(cfg: Config, s: State, m: Incoming, isNew: bool, link: Link)
    requires WaGroups.OneToOne(s.bridge.groups, s.bridge.nextGroup)
    ensures var b := Left(OnMessage(cfg, s, m, isNew, link)).bridge; WaGroups.OneToOne(b.groups, b.nextGroup)
  {
    hide WaGroups.OneToOne;
    var s0 := Seen(s, m.mid);
    match m.direction
    case Sending(jid) =>
      if s.sends.ourJid.Some? && jid.isGroup { GroupKeepsGroups(cfg, s0, m, s.sends.ourJid.value, jid, link); }
    case FromPerson(who) => AcceptKeepsGroups(cfg, s0, m, who, None);
    case FromGroup(jid, participant) => GroupKeepsGroups(cfg, s0, m, participant, jid, link);
  }

  lemma {:induction false} AcceptKeepsGroups(cfg: Config, s: State, m: Incoming, from: Jid, group: Option<int>)
    requires WaGroups.OneToOne(s.bridge.groups, s.bridge.nextGroup)
    ensures var b := Accept(cfg, s, m, from, group).bridge; WaGroups.OneToOne(b.groups, b.nextGroup)
  {
    var s1 := if m.media then s.(jobs := s.jobs + {m.mid}) else s;
    BatchKeepsGroups(cfg, s1, m.mid, m.media, from, m.texts, group, m.time);
    hide WaGroups.OneToOne, StoreBatch;
  }

  lemma {:induction false} GroupKeepsGroups(cfg: Config, s: State, m: Incoming, from: Jid, jid: Jid, link: Link)
    requires WaGroups.OneToOne(s.bridge.groups, s.bridge.nextGroup)
    ensures var b := AcceptGroup(cfg, s, m, from, jid, link).bridge; WaGroups.OneToOne(b.groups, b.nextGroup)
  {
    hide WaGroups.OneToOne, Accept;
    if jid.id != "status" {
      if Bridged(s.bridge, jid) {
        AcceptKeepsGroups(cfg, s, m, from, Some(GroupFor(s.bridge, jid)));
      } else if cfg.autocreate.Some? {
        var (s1, id) := FromUnbridged(cfg, cfg.autocreate.value, s, jid, link);
        if jid in s.chats && s.chats[jid].Some? {
          WaGroups.AssociateKeeps(s.bridge, jid, ChannelName(cfg, cfg.autocreate.value, s.chats[jid].value),
                                  Up(s, link));
        }
        AcceptKeepsGroups(cfg, s1, m, from, id);
      }
    }
  }

  /** They ask WhatsApp for nothing that sends a message. */
  lemma {:induction false} OthersHand(cfg: Config, s: State, e: Event)
    requires WaSending.Handed(s.sends) && !OfSends(e) && !e.RestartEvent?
    ensures WaSending.Handed(Left(Step(cfg, s, e)).sends)
  {
    hide WaSending.Handed, OnMessage, MediaDone, OnMetadata, Autocreate, Associate, Remove, WaIncoming.Lands,
         WaIncoming.Admitted;
    var s' := Left(Step(cfg, s, e)).sends;
    OthersUnrelated(cfg, s, e);
    match e
    case MessageEvent(m, isNew, link) =>
      WaIncoming.MessageTells(cfg, s, m, isNew, link);
      WaSending.AsksHand(s.sends, s');
    case MediaEvent(mid, from, text, group, ts, hasPeer) =>
      WaIncoming.MediaExact(cfg, s, mid, from, text, group, ts, hasPeer);
      WaSending.AsksHand(s.sends, s');
    case AssociateEvent(jid, channel, link) =>
      WaSending.AsksHand(s.sends, s');
    case _ => WaSending.SilentlyHanded(s.sends, s');
  }

  lemma {:induction false} OthersKeepIds(cfg: Config, s: State, e: Event)
    requires WaIncoming.NoReplays(cfg, s) && !OfSends(e) && Allowed(s, e)
    ensures WaIncoming.NoReplays(cfg, Left(Step(cfg, s, e)))
  {
    match e
    case MessageEvent(m, isNew, link) => WaIncoming.MessageKeeps(cfg, s, m, isNew, link);
    case MediaEvent(mid, from, text, group, ts, hasPeer) =>
      WaIncoming.MediaKeeps(cfg, s, mid, from, text, group, ts, hasPeer);
    case _ =>
  }

  /** Starting again, on whatever state was left. */
  lemma {:induction false} AnewKeeps(cfg: Config, s: State)
    requires Inv(cfg, s)
    ensures Inv(cfg, Anew(s))
  {
  }

  lemma {:induction false} OthersFail(cfg: Config, s: State, e: Event)
    requires WaGroups.OneToOne(s.bridge.groups, s.bridge.nextGroup) && !OfSends(e)
    ensures Step(cfg, s, e).Err? <==> Fails(cfg, s, e)
  {
    hide WaGroups.OneToOne, WaIncoming.Admitted, WaGroups.Recordable, Autocreate, AssociateAsking, Remove;
    match e
    case MessageEvent(m, isNew, link) =>
      WaIncoming.MessageExact(cfg, s, m, isNew, link);
      hide OnMessage;
    case MetadataEvent(m, link) =>
      WaGroups.MetadataExact(cfg, s.bridge, m, Up(s, link));
      hide OnMetadata;
    case _ =>
  }

  /** Which handlers return an error. */
  ghost predicate Fails(cfg: Config, s: State, e: Event) {
    match e
    case MessageEvent(m, isNew, _) =>
      WaIncoming.Admitted(cfg, s, m, isNew) && m.direction.Sending? && s.sends.ourJid.None?
    case MediaEvent(_, from, _, group, _, _) =>
      cfg.address(from).Some? && group.Some? && group.value !in s.bridge.groups
    case MetadataEvent(m, link) => !WaGroups.Recordable(cfg, s.bridge, m, Up(s, link))
    case _ => false
  }

  /** Every handler, whether it fails or not, keeps the three invariants; and exactly which fail. */
  lemma {:induction false} StepKeeps(cfg: Config, s: State, e: Event)
    requires Inv(cfg, s) && Allowed(s, e)
    ensures Inv(cfg, Left(Step(cfg, s, e)))
    ensures Step(cfg, s, e).Err? <==> Fails(cfg, s, e)
  {
    hide WaConservation.Inv, WaGroups.OneToOne, WaIncoming.NoReplays, WaSending.Handed, Allowed, SendsStep;
    if OfSends(e) {
      SendsStepKeeps(cfg, s, e);
      WaIncoming.SendsStepGrows(cfg, s, e);
      WaIncoming.SendingKeeps(cfg, s, SendsStep(cfg, s.sends, e));
      WaSending.TransmittedUsed(s.sends);
      WaSending.StepHands(cfg, s, e);
    } else if e.RestartEvent? {
      AnewKeeps(cfg, s);
    } else {
      OthersUnrelated(cfg, s, e);
      WaConservation.UnrelatedKeeps(s.sends, Left(Step(cfg, s, e)).sends);
      OthersKeepGroups(cfg, s, e);
      OthersKeepIds(cfg, s, e);
      OthersHand(cfg, s, e);
      OthersFail(cfg, s, e);
    }
  }

  /** A run from a fresh manager on a database whose groups are paired one to one. */
  ghost predicate Run(cfg: Config, states: seq<State>, events: seq<Event>) {
    && |states| == |events| + 1 && states[0] == Start(states[0].sends.msgids, states[0].bridge)
    && WaGroups.OneToOne(states[0].bridge.groups, states[0].bridge.nextGroup)
    && forall i :: 0 <= i < |events| ==> Moves(cfg, states[i], events[i], states[i + 1])
  }

  /** A step, or a failed step and a new manager on the database it left. */
  ghost predicate Moves(cfg: Config, s: State, e: Event, s': State) {
    && Allowed(s, e)
    && match Step(cfg, s, e)
       case Ok(next) => s' == next
       case Err(stop) => s' == Anew(stop.at)
  }

  lemma {:induction false} StartHolds(cfg: Config, msgids: set<Mid>, bridge: Bridge)
    requires WaGroups.OneToOne(bridge.groups, bridge.nextGroup)
    ensures Inv(cfg, Start(msgids, bridge))
  {
  }

  /** The invariants hold in every state of a run, whatever failures and restarts it goes through. */
  lemma {:induction false} RunKeeps(cfg: Config, states: seq<State>, events: seq<Event>, i: nat)
    requires Run(cfg, states, events) && i < |states|
    ensures Inv(cfg, states[i])
  {
    hide Inv, Allowed, Step, Start, Fails, Anew;
    if i == 0 {
      StartHolds(cfg, states[0].sends.msgids, states[0].bridge);
    } else {
      RunKeeps(cfg, states, events, i - 1);
      assert Moves(cfg, states[i - 1], events[i - 1], states[i]);
      StepKeeps(cfg, states[i - 1], events[i - 1]);
      AnewKeeps(cfg, Left(Step(cfg, states[i - 1], events[i - 1])));
    }
  }

  /** De-duplication over a run with `mark_read` off, restarts included: two batches with one id come from media
      messages, and no batch has the id of a message the bridge sent. */
  lemma {:induction false} StoredOnce(cfg: Config, states: seq<State>, events: seq<Event>, n: nat)
    requires Run(cfg, states, events) && n < |states| && !cfg.markRead
    ensures var s := states[n];
            && (forall i, j :: 0 <= i < j < |s.batches| && s.batches[i].mid == s.batches[j].mid ==>
                 s.batches[i].mid in s.jobs)
            && (forall i :: 0 <= i < |s.batches| ==> s.batches[i].mid !in s.sends.transmitted)
  {
    RunKeeps(cfg, states, events, n);
  }

  /** Conservation over a run: a message accepted since the last start is tracked, with its destination and
      content, under exactly one id, or it is retired and tracked under none. */
  lemma {:induction false} AcceptedTracked(cfg: Config, states: seq<State>, events: seq<Event>, n: nat, i: nat)
    requires Run(cfg, states, events) && n < |states| && i < |states[n].sends.accepted|
    ensures var s := states[n].sends;
            && (i !in s.retired <==> exists m :: WaConservation.Carries(s, m, i))
            && (forall m :: WaConservation.Carries(s, m, i) ==> s.outgoing[m].item == s.accepted[i])
            && (forall m, k :: WaConservation.Carries(s, m, i) && WaConservation.Carries(s, k, i) ==> m == k)
  {
    RunKeeps(cfg, states, events, n);
    WaConservation.TrackedOnce(states[n].sends, i);
  }

  lemma {:induction false} StepRetires(cfg: Config, s: State, e: Event, i: nat)
    requires Inv(cfg, s) && Allowed(s, e)
    ensures i in Left(Step(cfg, s, e)).sends.retired && i !in s.sends.retired <==>
              && e.TickEvent? && i in s.sends.holder && s.sends.holder[i] in s.sends.outgoing
              && WaConservation.Over(cfg, s.sends.outgoing[s.sends.holder[i]], e.now)
  {
    if OfSends(e) {
      SendsRetire(cfg, s, e, i);
      hide SendsStep, WaConservation.Inv, Inv;
    } else if !e.RestartEvent? {
      OthersUnrelated(cfg, s, e);
      hide Step, WaConservation.Inv, Inv;
    }
  }

  lemma {:induction false} SendsRetire(cfg: Config, s: State, e: Event, i: nat)
    requires WaConservation.Inv(s.sends) && Allowed(s, e) && OfSends(e)
    ensures i in SendsStep(cfg, s.sends, e).retired && i !in s.sends.retired <==>
              && e.TickEvent? && i in s.sends.holder && s.sends.holder[i] in s.sends.outgoing
              && WaConservation.Over(cfg, s.sends.outgoing[s.sends.holder[i]], e.now)
  {
    hide WaConservation.Inv, Transmit, Tick;
    match e
    case EstablishedEvent(jid, order, ids, now) => WaConservation.EstablishedExact(cfg, s.sends, jid, order, ids, now);
    case TickEvent(order, now) => WaConservation.TickRetires(cfg, s.sends, order, now, i);
    case SendEvent(to, content, mid, link, now) =>
      if to.Some? { SendRetires(cfg, s.sends, Item(to.value, content), mid, link, now); }
    case _ =>
  }

  lemma SendRetires(cfg: Config, s: Sends, item: Item, mid: Mid, link: Link, now: int)
    ensures Send(cfg, s, item, mid, link, now).retired == s.retired
  {
  }

  // ---- what a step is ----

  /** Each event of the sending half is handled by its handler, and touches nothing else. */
  lemma {:induction false} SendsHandled(cfg: Config, s: State, e: Event)
    requires OfSends(e)
    ensures var r := Step(cfg, s, e);
            && r.Ok? && r.value == s.(sends := r.value.sends)
            && r.value.sends
               == match e
                  case SendEvent(to, content, mid, link, now) => SendDirect(cfg, s.sends, to, content, mid, link, now)
                  case EstablishedEvent(jid, order, ids, now) => Established(cfg, s.sends, jid, order, ids, now)
                  case ErrorEvent(reported) => LoggedOff(s.sends, reported)
                  case AckEvent(mid, level) => Ack(s.sends, mid, level)
                  case TickEvent(order, now) => Tick(cfg, s.sends, order, now)
                  case DrainEvent(n) => Drained(s.sends, n)
  {
    hide SendDirect, Established, LoggedOff, Ack, Tick, Drained;
  }

  /** So is each of the others. */
  lemma {:induction false} OthersHandled(cfg: Config, s: State, e: Event)
    requires !OfSends(e) && !e.MetadataEvent? && !e.IntroduceEvent?
    ensures Step(cfg, s, e)
            == match e
               case MessageEvent(m, isNew, link) => OnMessage(cfg, s, m, isNew, link)
               case MediaEvent(mid, from, text, group, ts, hasPeer) =>
                 MediaDone(cfg, s, mid, from, text, group, ts, hasPeer)
               case ChatEvent(chats) => Ok(s.(chats := chats))
               case RestartEvent => Ok(Anew(s))
               case RemoveEvent(channel, chosen) => Ok(s.(bridge := Remove(s.bridge, channel, chosen)))
               case AssociateEvent(jid, channel, link) =>
                 var (b, id) := Associate(s.bridge, jid, channel, s.sends.connected && link.Running?);
                 Ok(if id.None? then s
                    else s.(bridge := b,
                            sends := s.sends.(outbox := s.sends.outbox + [GetGroupMetadata(jid)])))
  {
    hide OnMessage, MediaDone, Remove, Associate, Anew;
  }

  /** Metadata that is asked for is recorded or is an error; metadata that comes with a group just entered is recorded
      if the group can be bridged now, and is never an error. */
  lemma {:induction false} MetadataHandled(cfg: Config, s: State, m: Metadata, isNew: bool, link: Link)
    ensures var r, up := Step(cfg, s, MetadataEvent(m, link)), s.sends.connected && link.Running?;
            && Left(r) == s.(bridge := OnMetadata(cfg, s.bridge, m, up).0)
            && (r.Ok? <==> OnMetadata(cfg, s.bridge, m, up).1)
    ensures var up := s.sends.connected && link.Running?;
            Step(cfg, s, IntroduceEvent(m, isNew, link))
            == Ok(if isNew && cfg.autocreate.Some?
                  then s.(bridge := Autocreate(cfg, cfg.autocreate.value, s.bridge, m, up).0) else s)
  {
    hide OnMetadata, Autocreate;
  }

  /** Over any run, a message with a destination is tracked from the step on that accepts it. If the session and its
      connection are up, it is handed over in that step, its id stored; otherwise it waits, and goes out at the next
      login. */
  lemma {:induction false} HandedWhenUp(cfg: Config, states: seq<State>, events: seq<Event>, n: nat)
    requires Run(cfg, states, events) && n < |events| && events[n].SendEvent? && events[n].to.Some?
    ensures var s, s', e := states[n].sends, states[n + 1].sends, events[n];
            var item, up := Item(e.to.value, e.content), s.connected && e.link.Running?;
            && e.mid in s'.outgoing && s'.outgoing[e.mid].item == item && s'.outgoing[e.mid].unsent == !up
            && s'.accepted == s.accepted + [item] && e.mid in s'.owner && s'.owner[e.mid] == |s.accepted|
            && WaConservation.Sendings(s'.outbox)
               == WaConservation.Sendings(s.outbox) + (if up then [SendMessage(e.mid, item)] else [])
            && (e.mid in s'.msgids && e.mid in s'.transmitted <==> up)
            && s'.reports == s.reports + (if !up && e.link.Disabled? then [OtherReport] else [])
  {
    hide WaConservation.Sendings, WaConservation.Inv, WaGroups.OneToOne, WaSending.Handed, Send;
    var s, e := states[n], events[n];
    assert Moves(cfg, s, e, states[n + 1]);
    RunKeeps(cfg, states, events, n);
    SendsHandled(cfg, s, e);
    WaSending.DirectExact(cfg, s.sends, e.to, e.content, e.mid, e.link, e.now);
    WaSending.SendExact(cfg, s.sends, Item(e.to.value, e.content), e.mid, e.link, e.now);
    assert WaConservation.Sendings(s.sends.outbox) + [] == WaConservation.Sendings(s.sends.outbox);
    assert s.sends.reports + [] == s.sends.reports;
  }

  /** Over any run, a login hands over every message that waits, once each and under a new id, with the content and
      the serial number it was accepted with. */
  lemma {:induction false} HandedAtLogin(cfg: Config, states: seq<State>, events: seq<Event>, n: nat)
    requires Run(cfg, states, events) && n < |events| && events[n].EstablishedEvent?
    ensures var s, e := states[n].sends, events[n];
            && Lists(e.order, WaSending.Waiting(s)) && |e.ids| == |e.order| && WaSending.AllOwned(s, e.order)
            && WaSending.SentAll(s, states[n + 1].sends, e.jid, e.order, e.ids, e.now)
  {
    hide WaConservation.Inv, WaGroups.OneToOne, WaSending.Handed, WaIncoming.NoReplays, Established, WaSending.SentAll;
    var s, e := states[n], events[n];
    assert Moves(cfg, s, e, states[n + 1]);
    RunKeeps(cfg, states, events, n);
    SendsHandled(cfg, s, e);
    assert Unsent(s.sends) == WaSending.Waiting(s.sends);
    WaSending.EstablishedEffect(cfg, s.sends, e.jid, e.order, e.ids, e.now);
  }

  /** Over any run, each message in the outbox is there once, under an id that was transmitted and stored, and is what
      is tracked under that id, if it still is. */
  lemma {:induction false} OutboxTracked(cfg: Config, states: seq<State>, events: seq<Event>, n: nat)
    requires Run(cfg, states, events) && n < |states|
    ensures var s := states[n].sends;
            && (forall r <- s.outbox :: r.SendMessage? ==>
                  && r.mid in s.transmitted && r.mid in s.msgids
                  && (r.mid in s.outgoing ==> r.item == s.outgoing[r.mid].item && !s.outgoing[r.mid].unsent))
            && (forall i, j :: 0 <= i < j < |s.outbox| && s.outbox[i].SendMessage? && s.outbox[j].SendMessage? ==>
                  s.outbox[i].mid != s.outbox[j].mid)
  {
    RunKeeps(cfg, states, events, n);
    hide WaGroups.OneToOne;
    var s := states[n].sends;
    forall m | m in s.outgoing ensures WaConservation.Entry(s, m) {}
  }

  // ---- what acknowledgements say ----

  /** The level of the last acknowledgement of an id. */
  function LastLevel(events: seq<Event>, m: Mid): Option<Level> {
    if events == [] then None
    else
      var last := events[|events| - 1];
      if last.AckEvent? && last.mid == m then Some(last.level) else LastLevel(events[..|events| - 1], m)
  }

  /** An entry is the one that was there, with its level, or a fresh one under a new id. */
  ghost predicate SameLevel(s: Sends, s': Sends, m: Mid) {
    m in s'.outgoing ==>
      if m in s.outgoing then s'.outgoing[m].ack == s.outgoing[m].ack else s'.outgoing[m].ack == None && m !in s.used
  }

  lemma {:induction false} ResendLevels(cfg: Config, s: Sends, was: Sends, order: seq<Mid>, ids: seq<Mid>, now: int,
                                        m: Mid)
    requires FreshIds(s.used, ids) && s.outgoing.Keys <= s.used
    ensures SameLevel(s, ResendAll(cfg, s, was, order, ids, now), m)
    decreases order
  {
    if !(order == [] || ids == [] || order[0] !in was.outgoing || order[0] !in was.owner) {
      var s1 := Own(Transmit(cfg, s, was.outgoing[order[0]].item, ids[0], now), ids[0], was.owner[order[0]]);
      WaConservation.FreshStep(s.used, ids);
      ResendLevels(cfg, s1, was, order[1..], ids[1..], now, m);
    }
  }

  lemma {:induction false} StepLevels(cfg: Config, s: State, e: Event, m: Mid)
    requires WaConservation.Inv(s.sends) && Allowed(s, e) && OfSends(e) && !(e.AckEvent? && e.mid == m)
    ensures SameLevel(s.sends, SendsStep(cfg, s.sends, e), m)
  {
    hide WaConservation.Booked, WaConservation.AlarmsMatch, WaConservation.Accounted, AllWarnings, Serials,
         HeldWithout, ResendAll;
    WaConservation.KnownIds(s.sends, {});
    match e
    case EstablishedEvent(jid, order, ids, now) =>
      ResendLevels(cfg, Dequeued(s.sends, jid), s.sends, order, ids, now, m);
      QueuedHaveNoLevel(s.sends, jid, m);
    case _ =>
  }

  lemma QueuedHaveNoLevel(s: Sends, jid: Jid, m: Mid)
    ensures var s0 := Dequeued(s, jid);
            && s0.used == s.used && s0.outgoing.Keys <= s.outgoing.Keys
            && (m in s0.outgoing ==> s0.outgoing[m] == s.outgoing[m])
            && (m in s.outgoing && m !in s0.outgoing ==> s.outgoing[m].unsent)
  {
    hide HeldWithout;
  }

  /** Over any run, the level recorded for a tracked id is that of its last acknowledgement. */
  lemma {:induction false} LevelsExact(cfg: Config, states: seq<State>, events: seq<Event>, n: nat, m: Mid)
    requires Run(cfg, states, events) && n < |states|
    ensures m in states[n].sends.outgoing ==> states[n].sends.outgoing[m].ack == LastLevel(events[..n], m)
    ensures LastLevel(events[..n], m).Some? ==> m in states[n].sends.used
  {
    hide Allowed, Step, SendsStep, Inv, WaConservation.Inv;
    if n > 0 {
      var s, e, s' := states[n - 1], events[n - 1], states[n];
      LevelsExact(cfg, states, events, n - 1, m);
      RunKeeps(cfg, states, events, n - 1);
      assert events[..n][..n - 1] == events[..n - 1] && events[..n][n - 1] == e;
      assert Moves(cfg, s, e, s');
      OneLevel(cfg, s, e, s', m);
    }
  }

  lemma {:induction false} OneLevel(cfg: Config, s: State, e: Event, s': State, m: Mid)
    requires Inv(cfg, s) && Moves(cfg, s, e, s')
    ensures s.sends.used <= s'.sends.used
    ensures if e.AckEvent? && e.mid == m
            then m in s'.sends.used && (m in s'.sends.outgoing ==> s'.sends.outgoing[m].ack == Some(e.level))
            else SameLevel(s.sends, s'.sends, m)
  {
    hide WaConservation.Booked, WaConservation.AlarmsMatch, WaGroups.OneToOne;
    if OfSends(e) {
      WaIncoming.SendsStepGrows(cfg, s, e);
      if !(e.AckEvent? && e.mid == m) { StepLevels(cfg, s, e, m); }
    } else if !e.RestartEvent? {
      OthersUnrelated(cfg, s, e);
      hide Step;
    }
  }

  // ---- what time does ----

  /** The time at which an id was sent or queued. */
  function SentAt(events: seq<Event>, m: Mid): Option<int> {
    if events == [] then None
    else
      match events[|events| - 1]
      case SendEvent(to, _, mid, _, now) =>
        if to.Some? && mid == m then Some(now) else SentAt(events[..|events| - 1], m)
      case EstablishedEvent(_, _, ids, now) => if m in ids then Some(now) else SentAt(events[..|events| - 1], m)
      case _ => SentAt(events[..|events| - 1], m)
  }

  /** An entry keeps the time it was sent at, unless this event is the one that sends it. */
  ghost predicate SameAge(s: Sends, s': Sends, e: Event, m: Mid) {
    m in s'.outgoing ==>
      match e
      case SendEvent(to, _, mid, _, now) =>
        if to.Some? && mid == m then s'.outgoing[m].sentTs == now
        else m in s.outgoing && s'.outgoing[m].sentTs == s.outgoing[m].sentTs
      case EstablishedEvent(_, _, ids, now) =>
        if m in ids then s'.outgoing[m].sentTs == now
        else m in s.outgoing && s'.outgoing[m].sentTs == s.outgoing[m].sentTs
      case _ => m in s.outgoing && s'.outgoing[m].sentTs == s.outgoing[m].sentTs
  }

  lemma {:induction false} StepAges(cfg: Config, s: State, e: Event, m: Mid)
    requires WaConservation.Inv(s.sends) && Allowed(s, e) && OfSends(e)
    ensures SameAge(s.sends, SendsStep(cfg, s.sends, e), e, m)
  {
    hide WaConservation.Inv, AllWarnings, Serials, HeldWithout, Established;
    match e
    case SendEvent(to, content, mid, link, now) =>
      if to.Some? {
        WaSending.SendExact(cfg, s.sends, Item(to.value, content), mid, link, now);
        hide Send;
      }
    case EstablishedEvent(jid, order, ids, now) =>
      assert Unsent(s.sends) == WaSending.Waiting(s.sends);
      WaSending.EstablishedEffect(cfg, s.sends, jid, order, ids, now);
    case _ =>
  }

  /** Over any run, a tracked id has the time at which it was sent. */
  lemma {:induction false} AgesExact(cfg: Config, states: seq<State>, events: seq<Event>, n: nat, m: Mid)
    requires Run(cfg, states, events) && n < |states|
    ensures m in states[n].sends.outgoing ==> SentAt(events[..n], m) == Some(states[n].sends.outgoing[m].sentTs)
  {
    hide Allowed, Step, SendsStep, Inv, WaConservation.Inv;
    if n > 0 {
      var s, e, s' := states[n - 1], events[n - 1], states[n];
      AgesExact(cfg, states, events, n - 1, m);
      RunKeeps(cfg, states, events, n - 1);
      assert events[..n][..n - 1] == events[..n - 1] && events[..n][n - 1] == e;
      assert Moves(cfg, s, e, s');
      OneAge(cfg, s, e, s', m);
    }
  }

  lemma {:induction false} OneAge(cfg: Config, s: State, e: Event, s': State, m: Mid)
    requires Inv(cfg, s) && Moves(cfg, s, e, s')
    ensures SameAge(s.sends, s'.sends, e, m)
  {
    hide WaConservation.Inv, WaGroups.OneToOne, WaIncoming.NoReplays, WaSending.Handed;
    if OfSends(e) {
      StepAges(cfg, s, e, m);
      hide SendsStep;
    } else if !e.RestartEvent? {
      OthersUnrelated(cfg, s, e);
      hide Step;
    }
  }

  /** The timer, over any run, for a tracked id, by the level of its last acknowledgement and the time it was sent:
      it is dropped exactly if that level is neither none nor pending and the expiry period is over; it has had the
      first warning from then on if it is still without acknowledgement after that period, the second if it is still
      pending after the other. So a message that is not acknowledged, or only as pending, is never dropped. */
  lemma {:induction false} DueExactly(cfg: Config, states: seq<State>, events: seq<Event>, n: nat, m: Mid)
    requires Run(cfg, states, events) && n < |events| && events[n].TickEvent? && m in states[n].sends.outgoing
    ensures SentAt(events[..n], m).Some?
    ensures var s, s', level := states[n].sends, states[n + 1].sends, LastLevel(events[..n], m);
            var age := WaConservation.Elapsed(SentAt(events[..n], m).value, events[n].now);
            && (m !in s'.outgoing <==> level != None && level != Some(PendingSend) && age >= cfg.ackExpiry)
            && WaConservation.Count(s'.reports, UnackedWarning(m))
               == (if level == None && age >= cfg.ackWarn then 1
                   else WaConservation.Count(s.reports, UnackedWarning(m)))
            && WaConservation.Count(s'.reports, PendingWarning(m))
               == (if level == Some(PendingSend) && age >= cfg.ackWarnPending then 1
                   else WaConservation.Count(s.reports, PendingWarning(m)))
  {
    hide WaConservation.Inv, WaGroups.OneToOne, WaIncoming.NoReplays, WaSending.Handed, WaConservation.Count, Tick;
    RunKeeps(cfg, states, events, n);
    LevelsExact(cfg, states, events, n, m);
    AgesExact(cfg, states, events, n, m);
    assert Moves(cfg, states[n], events[n], states[n + 1]);
    WaConservation.TickExact(cfg, states[n].sends, events[n].order, events[n].now, m);
  }

  /** Over any run, a step retires a message if and only if it is the timer, and the last acknowledgement of the id it
      is under was neither missing nor `PendingSend`, and the expiry period since it was sent is over. */
  lemma {:induction false} RetiredExactly(cfg: Config, states: seq<State>, events: seq<Event>, n: nat, i: nat)
    requires Run(cfg, states, events) && n < |events|
    ensures i in states[n + 1].sends.retired && i !in states[n].sends.retired <==>
              && events[n].TickEvent? && i in states[n].sends.holder
              && var m := states[n].sends.holder[i];
                 var level, sent := LastLevel(events[..n], m), SentAt(events[..n], m);
                 && level != None && level != Some(PendingSend)
                 && sent.Some? && WaConservation.Elapsed(sent.value, events[n].now) >= cfg.ackExpiry
  {
    hide WaConservation.Inv, WaGroups.OneToOne, WaIncoming.NoReplays, WaSending.Handed, Step, WaConservation.Elapsed;
    RunKeeps(cfg, states, events, n);
    assert Moves(cfg, states[n], events[n], states[n + 1]);
    StepRetires(cfg, states[n], events[n], i);
    StepKeeps(cfg, states[n], events[n]);
    if i in states[n].sends.holder {
      HeldTracked(states[n].sends, i);
      LevelsExact(cfg, states, events, n, states[n].sends.holder[i]);
      AgesExact(cfg, states, events, n, states[n].sends.holder[i]);
    }
  }

  lemma HeldTracked(s: Sends, i: nat)
    requires WaConservation.Inv(s) && i in s.holder
    ensures s.holder[i] in s.outgoing
  {
  }
}
