/** Incoming messages: what `on_message` stores, which ids it remembers, and that none comes twice. */
module WaIncoming {
  import opened Outcomes
  import opened Failures
  import opened Address
  import opened WaModel

  // ---- what one message does ----

  /** The group a message is in, if it is in one. */
  function GroupOf(m: Incoming): Option<Jid> {
    match m.direction
    case Sending(jid) => if jid.isGroup then Some(jid) else None
    case FromPerson(_) => None
    case FromGroup(jid, _) => Some(jid)
  }

  /** Some group has this JID. */
  predicate Known(b: Bridge, jid: Jid) {
    exists g :: g in b.groups && b.groups[g].jid == jid
  }

  /** The channel for a group that is bridged on the spot. */
  function NewChannel(cfg: Config, s: State, jid: Jid): string
    requires cfg.autocreate.Some? && jid in s.chats && s.chats[jid].Some?
  {
    cfg.autocreate.value + "-" + cfg.channelFor(s.chats[jid].value)
  }

  /** A group without a channel gets one on the spot: the chat list has its name, the connection is up, and no
      group has the channel. */
  predicate BridgedNow(cfg: Config, s: State, jid: Jid, link: Link) {
    && !Known(s.bridge, jid) && cfg.autocreate.Some? && jid in s.chats && s.chats[jid].Some?
    && s.sends.connected && link.Running? && jid.isGroup
    && forall g :: g in s.bridge.groups ==> s.bridge.groups[g].channel != NewChannel(cfg, s, jid)
  }

  /** Whether a message to this group goes anywhere: it is bridged, or is bridged on the spot. */
  predicate GroupLands(cfg: Config, s: State, jid: Jid, link: Link) {
    jid.id != "status" && (Known(s.bridge, jid) || BridgedNow(cfg, s, jid, link))
  }

  predicate Lands(cfg: Config, s: State, m: Incoming, link: Link) {
    match m.direction
    case Sending(jid) => jid.isGroup && GroupLands(cfg, s, jid, link)
    case FromPerson(_) => true
    case FromGroup(jid, _) => GroupLands(cfg, s, jid, link)
  }

  /** Neither stored already (unless it is new and new messages are marked as read), nor, unless it is new, from
      before the backlog start. */
  predicate Admitted(cfg: Config, s: State, m: Incoming, isNew: bool) {
    && (m.mid in s.sends.msgids ==> isNew && cfg.markRead)
    && (cfg.backlogStart.Some? && m.time < cfg.backlogStart.value ==> isNew)
  }

  /** Whom the message is from: ourselves, when another device of ours sent it. */
  function Author(s: State, m: Incoming): Option<Jid> {
    match m.direction
    case Sending(_) => s.sends.ourJid
    case FromPerson(who) => Some(who)
    case FromGroup(_, participant) => Some(participant)
  }

  /** Where the rows of a message belong: to no group, or to the row of the group it is in. */
  predicate Placed(b: Bridge, m: Incoming, group: Option<int>) {
    match GroupOf(m)
    case None => group.None?
    case Some(jid) => group.Some? && group.value in b.groups && b.groups[group.value].jid == jid
  }

  /** Rows with these texts, in this order, by the author and at the time of the message, in its group. */
  ghost predicate HoldsTexts(cfg: Config, s: State, b: Bridge, m: Incoming, batch: Batch) {
    && batch.mid == m.mid && batch.media == m.media && |batch.rows| == |m.texts|
    && Author(s, m).Some?
    && forall i :: 0 <= i < |m.texts| ==>
         && batch.rows[i].text == m.texts[i] && batch.rows[i].ts == m.time
         && Some(batch.rows[i].from) == cfg.address(Author(s, m).value)
         && Placed(b, m, batch.rows[i].group)
  }

  lemma {:induction false} RowsExact(a: Addr, texts: seq<string>, group: Option<int>, ts: int)
    ensures var rows := Rows(a, texts, group, ts);
            |rows| == |texts| && forall i :: 0 <= i < |texts| ==> rows[i] == Row(a, texts[i], group, ts)
  {
    if texts != [] { RowsExact(a, texts[1..], group, ts); }
  }

  /** What happens to the ids and the stored rows; nothing else in the sending half moves but the
      outbox. */
  ghost predicate Takes(cfg: Config, s: State, s': State, m: Incoming, stored: bool, known: bool, job: bool) {
    && s'.sends == s.sends.(msgids := if known then s.sends.msgids + {m.mid} else s.sends.msgids,
                            used := s'.sends.used, outbox := s'.sends.outbox)
    && s'.jobs == (if job then s.jobs + {m.mid} else s.jobs)
    && |s'.batches| == |s.batches| + (if stored then 1 else 0) && s.batches <= s'.batches
    && (stored ==> HoldsTexts(cfg, s, s'.bridge, m, s'.batches[|s.batches|]))
  }

  lemma {:induction false} AcceptTakes(cfg: Config, s: State, m: Incoming, from: Jid, group: Option<int>)
    requires Author(s, m) == Some(from) && Placed(s.bridge, m, group)
    ensures Takes(cfg, s, Accept(cfg, s, m, from, group), m,
                  m.texts != [] && cfg.address(from).Some?, m.texts != [] && !m.media, m.media)
    ensures Accept(cfg, s, m, from, group).sends.used == s.sends.used
  {
    if cfg.address(from).Some? { RowsExact(cfg.address(from).value, m.texts, group, m.time); }
  }

  lemma {:induction false} AcceptGroupTakes(cfg: Config, s: State, m: Incoming, from: Jid, jid: Jid, link: Link)
    requires Author(s, m) == Some(from) && GroupOf(m) == Some(jid)
    ensures var lands := GroupLands(cfg, s, jid, link);
            Takes(cfg, s, AcceptGroup(cfg, s, m, from, jid, link), m,
                  lands && m.texts != [] && cfg.address(from).Some?, lands && m.texts != [] && !m.media,
                  lands && m.media)
    ensures AcceptGroup(cfg, s, m, from, jid, link).sends.used == s.sends.used
  {
    hide Accept;
    if jid.id != "status" && Known(s.bridge, jid) {
      AcceptTakes(cfg, s, m, from, Some(GroupFor(s.bridge, jid)));
    } else if jid.id != "status" && cfg.autocreate.Some? {
      var (s1, id) := FromUnbridged(cfg, cfg.autocreate.value, s, jid, link);
      if id.Some? { AcceptTakes(cfg, s1, m, from, id); }
    }
  }

  /** Takes the message in as its landing says. */
  ghost predicate TakesAs(cfg: Config, s: State, s': State, m: Incoming, lands: bool, ownPrivate: bool) {
    Takes(cfg, s, s', m, lands && m.texts != [] && Author(s, m).Some? && cfg.address(Author(s, m).value).Some?,
          ownPrivate || (lands && m.texts != [] && !m.media), lands && m.media)
  }

  predicate OwnPrivate(m: Incoming) {
    m.direction.Sending? && !m.direction.to.isGroup
  }

  /** `on_message`, exactly. It fails only for a message from ourselves while not logged on. Texts
      are stored, in one batch, when the message is admitted and lands, the author has an address and
      there is any text; their rows belong to the group the message is in, and to none if it is from a
      person. The id is remembered when an admitted message is ours in a private chat, or lands with text
      and without media: a stub without text does not use up its id. */
  lemma {:induction false} MessageExact(cfg: Config, s: State, m: Incoming, isNew: bool, link: Link)
    ensures var r := OnMessage(cfg, s, m, isNew, link);
            var admitted := Admitted(cfg, s, m, isNew);
            && (r.Err? <==> admitted && m.direction.Sending? && s.sends.ourJid.None?)
            && (r.Err? ==> r.error == Stop(NotLoggedOn, Seen(s, m.mid)))
            && (r.Ok? ==> r.value.sends.used == s.sends.used + {m.mid})
            && (r.Ok? ==> TakesAs(cfg, s, r.value, m, admitted && Lands(cfg, s, m, link), admitted && OwnPrivate(m)))
  {
    var s0 := Seen(s, m.mid);
    hide Takes, GroupLands, AcceptGroup, Accept;
    if !Admitted(cfg, s, m, isNew) {
      SameTakes(cfg, s, s0, m);
    } else {
      hide TakesAs;
      match m.direction
      case Sending(_) => OwnExact(cfg, s, s0, m, isNew, link);
      case FromPerson(_) => PersonExact(cfg, s, s0, m, isNew, link);
      case FromGroup(_, _) => GroupExact(cfg, s, s0, m, isNew, link);
    }
  }

  lemma {:induction false} OwnExact(cfg: Config, s: State, s0: State, m: Incoming, isNew: bool, link: Link)
    requires s0 == Seen(s, m.mid)
    requires Admitted(cfg, s, m, isNew) && m.direction.Sending?
    ensures var r := OnMessage(cfg, s, m, isNew, link);
            && (r.Err? <==> s.sends.ourJid.None?) && (r.Err? ==> r.error == Stop(NotLoggedOn, s0))
            && (r.Ok? ==>
                  && r.value.sends.used == s0.sends.used
                  && TakesAs(cfg, s, r.value, m, Lands(cfg, s, m, link), OwnPrivate(m)))
  {
    hide Takes, GroupLands, AcceptGroup;
    if s.sends.ourJid.Some? {
      if m.direction.to.isGroup {
        AcceptGroupTakes(cfg, s0, m, s.sends.ourJid.value, m.direction.to, link);
        FromSeen(cfg, s, s0, m, m.direction.to, link, s.sends.ourJid.value);
      } else {
        KnowTakes(cfg, s, s0, m);
      }
    }
  }

  lemma {:induction false} PersonExact(cfg: Config, s: State, s0: State, m: Incoming, isNew: bool, link: Link)
    requires s0 == Seen(s, m.mid)
    requires Admitted(cfg, s, m, isNew) && m.direction.FromPerson?
    ensures var r := OnMessage(cfg, s, m, isNew, link);
            r.Ok? && r.value.sends.used == s0.sends.used && TakesAs(cfg, s, r.value, m, true, false)
  {
    hide Takes, Accept;
    var who := m.direction.who;
    AcceptTakes(cfg, s0, m, who, None);
    SeenTakes(cfg, s, s0, Accept(cfg, s0, m, who, None), m, m.texts != [] && cfg.address(who).Some?,
              m.texts != [] && !m.media, m.media);
  }

  lemma {:induction false} GroupExact(cfg: Config, s: State, s0: State, m: Incoming, isNew: bool, link: Link)
    requires s0 == Seen(s, m.mid)
    requires Admitted(cfg, s, m, isNew) && m.direction.FromGroup?
    ensures var r := OnMessage(cfg, s, m, isNew, link);
            r.Ok? && r.value.sends.used == s0.sends.used && TakesAs(cfg, s, r.value, m, Lands(cfg, s, m, link), false)
  {
    hide Takes, GroupLands, AcceptGroup;
    AcceptGroupTakes(cfg, s0, m, m.direction.participant, m.direction.group, link);
    FromSeen(cfg, s, s0, m, m.direction.group, link, m.direction.participant);
  }

  lemma SameTakes(cfg: Config, s: State, s0: State, m: Incoming)
    requires s0 == Seen(s, m.mid)
    ensures Takes(cfg, s, s0, m, false, false, false)
  {
  }

  lemma KnowTakes(cfg: Config, s: State, s0: State, m: Incoming)
    requires s0 == Seen(s, m.mid)
    ensures Takes(cfg, s, Know(s0, m.mid), m, false, true, false)
  {
  }

  /** Noting that an id was seen changes nothing about what is taken. */
  lemma SeenTakes(cfg: Config, s: State, s0: State, s': State, m: Incoming, stored: bool, known: bool, job: bool)
    requires s0 == Seen(s, m.mid)
    requires Takes(cfg, s0, s', m, stored, known, job)
    ensures Takes(cfg, s, s', m, stored, known, job)
  {
  }

  lemma FromSeen(cfg: Config, s: State, s0: State, m: Incoming, jid: Jid, link: Link, from: Jid)
    requires s0 == Seen(s, m.mid) && Author(s, m) == Some(from)
    requires var lands := GroupLands(cfg, s0, jid, link);
             Takes(cfg, s0, AcceptGroup(cfg, s0, m, from, jid, link), m,
                   lands && m.texts != [] && cfg.address(from).Some?, lands && m.texts != [] && !m.media,
                   lands && m.media)
    ensures var lands := GroupLands(cfg, s, jid, link);
            Takes(cfg, s, AcceptGroup(cfg, s0, m, from, jid, link), m,
                  lands && m.texts != [] && cfg.address(from).Some?, lands && m.texts != [] && !m.media,
                  lands && m.media)
  {
    hide AcceptGroup;
  }

  // ---- what else it does ----

  const SETUP: string := "*** Group setup in progress, please wait... ***"

  /** A row is made for group `made`, if any, of which it is told; WhatsApp is asked about group `asked`, if any, and,
      with `read`, to mark the message as read; with a `sender`, its recipient is made unless there is one, and the
      factory is told of each text. Nothing else changes there. */
  ghost predicate Tells(s: State, s': State, m: Incoming, made: Option<(Jid, string)>, asked: Option<Jid>,
                        sender: Option<Addr>, read: bool) {
    var b, b' := s.bridge, s'.bridge;
    var unmet := sender.Some? && sender.value !in b.recipients;
    && s'.chats == s.chats
    && b'.groups == (if made.Some? then b.groups[b.nextGroup := Group(made.value.0, made.value.1, [], [], SETUP)]
                     else b.groups)
    && b'.recipients == (if unmet then b.recipients[sender.value := b.nextRecipient] else b.recipients)
    && b'.orders == b.orders + (if made.Some? then [ProcessGroups] else [])
                    + (if unmet then [SetupContact(sender.value)] else [])
                    + (if sender.Some? then seq(|m.texts|, i => ProcessMessages) else [])
    && s'.sends.outbox == s.sends.outbox + (if asked.Some? then [GetGroupMetadata(asked.value)] else [])
                          + (if read then [MessageRead(m.mid)] else [])
  }

  /** The address the texts of a message that lands are stored under, if they are. */
  function Sender(cfg: Config, m: Incoming, from: Jid): Option<Addr> {
    if m.texts != [] then cfg.address(from) else None
  }

  predicate Marks(cfg: Config, m: Incoming) {
    !m.media && !m.direction.Sending? && cfg.markRead
  }

  lemma {:induction false} RepeatExact(n: nat)
    ensures Repeat(n) == seq(n, i => ProcessMessages)
  {
    if n > 0 { RepeatExact(n - 1); }
  }

  lemma {:induction false} AcceptTells(cfg: Config, s: State, m: Incoming, from: Jid, group: Option<int>)
    ensures Tells(s, Accept(cfg, s, m, from, group), m, None, None, Sender(cfg, m, from), Marks(cfg, m))
  {
    RepeatExact(|m.texts|);
    hide Repeat, Rows;
  }

  /** What is made and asked for a group that is not bridged. */
  function MadeFor(cfg: Config, s: State, jid: Jid, link: Link): Option<(Jid, string)> {
    if jid.id != "status" && BridgedNow(cfg, s, jid, link) then Some((jid, NewChannel(cfg, s, jid))) else None
  }

  function AskedFor(cfg: Config, s: State, jid: Jid): Option<Jid> {
    if jid.id != "status" && !Known(s.bridge, jid) && cfg.autocreate.Some? then Some(jid) else None
  }

  lemma {:induction false} AcceptGroupTells(cfg: Config, s: State, m: Incoming, from: Jid, jid: Jid, link: Link)
    ensures var lands := GroupLands(cfg, s, jid, link);
            Tells(s, AcceptGroup(cfg, s, m, from, jid, link), m, MadeFor(cfg, s, jid, link), AskedFor(cfg, s, jid),
                  if lands then Sender(cfg, m, from) else None, lands && Marks(cfg, m))
  {
    hide Accept;
    if jid.id != "status" && Known(s.bridge, jid) {
      AcceptTells(cfg, s, m, from, Some(GroupFor(s.bridge, jid)));
    } else if jid.id != "status" && cfg.autocreate.Some? {
      var (s1, id) := FromUnbridged(cfg, cfg.autocreate.value, s, jid, link);
      if id.Some? { AcceptTells(cfg, s1, m, from, id); }
    }
  }

  /** An admitted message that does not fail. */
  predicate Handles(cfg: Config, s: State, m: Incoming, isNew: bool) {
    Admitted(cfg, s, m, isNew) && (m.direction.Sending? ==> s.sends.ourJid.Some?)
  }

  /** What `on_message` does besides, exactly: an admitted message of a group not bridged gets it bridged on the spot,
      where that can be done, and its metadata asked for; one that lands with texts has its recipient made and the
      factory told; one that lands without media is marked as read, if such messages are. */
  lemma {:induction false} MessageTells(cfg: Config, s: State, m: Incoming, isNew: bool, link: Link)
    ensures var s', g := Left(OnMessage(cfg, s, m, isNew, link)), GroupOf(m);
            var handles, lands := Handles(cfg, s, m, isNew), Handles(cfg, s, m, isNew) && Lands(cfg, s, m, link);
            Tells(s, s', m, if handles && g.Some? then MadeFor(cfg, s, g.value, link) else None,
                  if handles && g.Some? then AskedFor(cfg, s, g.value) else None,
                  if lands then Sender(cfg, m, Author(s, m).value) else None, lands && Marks(cfg, m))
  {
    hide Accept, AcceptGroup, Tells, MadeFor, AskedFor, GroupLands, Sender, Marks;
    var s0 := Seen(s, m.mid);
    if Handles(cfg, s, m, isNew) {
      var from := Author(s, m).value;
      if GroupOf(m).Some? {
        var jid := GroupOf(m).value;
        AcceptGroupTells(cfg, s0, m, from, jid, link);
        SameWhenSeen(cfg, s, m, jid, link);
        SeenTells(s, AcceptGroup(cfg, s0, m, from, jid, link), m);
      } else if m.direction.Sending? {
        NothingTold(s, Know(s0, m.mid), m);
      } else {
        AcceptTells(cfg, s0, m, from, None);
        SeenTells(s, Accept(cfg, s0, m, from, None), m);
      }
    } else {
      NothingTold(s, s0, m);
    }
  }

  lemma NothingTold(s: State, s': State, m: Incoming)
    requires s'.bridge == s.bridge && s'.chats == s.chats && s'.sends.outbox == s.sends.outbox
    ensures Tells(s, s', m, None, None, None, false)
  {
  }

  lemma SeenTells(s: State, s': State, m: Incoming)
    ensures forall made, asked, sender, read ::
              Tells(Seen(s, m.mid), s', m, made, asked, sender, read) ==> Tells(s, s', m, made, asked, sender, read)
  {
  }

  lemma SameWhenSeen(cfg: Config, s: State, m: Incoming, jid: Jid, link: Link)
    ensures var s0 := Seen(s, m.mid);
            && MadeFor(cfg, s0, jid, link) == MadeFor(cfg, s, jid, link)
            && AskedFor(cfg, s0, jid) == AskedFor(cfg, s, jid)
            && GroupLands(cfg, s0, jid, link) == GroupLands(cfg, s, jid, link)
  {
  }

  // ---- over runs ----

  /** The ids known so far are consistent, and (unless messages are marked read) no batch repeats an
      earlier one or has the id of a message the bridge sent. Ids of media messages are excepted. */
  ghost predicate NoReplays(cfg: Config, s: State) {
    && s.sends.msgids <= s.sends.used && s.jobs <= s.sends.used && s.sends.transmitted <= s.sends.msgids
    && (forall i :: 0 <= i < |s.batches| ==> s.batches[i].mid in s.sends.used)
    && (forall i :: 0 <= i < |s.batches| ==> s.batches[i].mid in s.sends.msgids || s.batches[i].mid in s.jobs)
    && (cfg.markRead || OncePerId(s))
  }

  ghost predicate OncePerId(s: State) {
    && s.jobs !! s.sends.transmitted
    && (forall i :: 0 <= i < |s.batches| ==> s.batches[i].mid !in s.sends.transmitted)
    && (forall i, j :: 0 <= i < j < |s.batches| && s.batches[i].mid == s.batches[j].mid ==> s.batches[i].mid in s.jobs)
  }

  lemma {:induction false} MessageKeeps(cfg: Config, s: State, m: Incoming, isNew: bool, link: Link)
    requires NoReplays(cfg, s)
    ensures NoReplays(cfg, Left(OnMessage(cfg, s, m, isNew, link)))
  {
    MessageExact(cfg, s, m, isNew, link);
    hide OnMessage, Lands;
    var s' := Left(OnMessage(cfg, s, m, isNew, link));
    forall i | 0 <= i < |s.batches| ensures s'.batches[i] == s.batches[i] {}
  }

  /** A finished download stores its text as one row of its author, in its group, if the author has an address;
      then the id is remembered and, where wanted, the message marked as read. Whether it fails or not, the
      recipient is made. */
  lemma {:induction false} MediaExact(cfg: Config, s: State, mid: Mid, from: Jid, text: string, group: Option<int>,
                                      ts: int, hasPeer: bool)
    ensures var r, a := MediaDone(cfg, s, mid, from, text, group, ts, hasPeer), cfg.address(from);
            var s' := Left(r);
            && s'.bridge.groups == s.bridge.groups && s'.chats == s.chats && s'.jobs == s.jobs
            && (r.Err? ==> s'.sends == s.sends && s'.batches == s.batches)
            && s'.bridge.recipients == (if a.Some? && a.value !in s.bridge.recipients
                                        then s.bridge.recipients[a.value := s.bridge.nextRecipient]
                                        else s.bridge.recipients)
            && (r.Ok? ==>
                  && s'.batches == s.batches + (if a.Some? then [Batch(mid, true, [Row(a.value, text, group, ts)])]
                                                else [])
                  && s'.sends == s.sends.(msgids := s.sends.msgids + {mid},
                                          outbox := s.sends.outbox + (if hasPeer && cfg.markRead
                                                                      then [MessageRead(mid)] else []))
                  && s'.bridge.orders == s.bridge.orders
                                         + (if a.Some? && a.value !in s.bridge.recipients then [SetupContact(a.value)]
                                            else [])
                                         + (if a.Some? then [ProcessMessages] else []))
  {
    if cfg.address(from).Some? {
      var a := cfg.address(from).value;
      RowsExact(a, [text], group, ts);
      assert Rows(a, [text], group, ts) == [Row(a, text, group, ts)];
    }
    RepeatExact(1);
    hide Rows, Repeat;
  }

  /** A finished download, which fails exactly when it has a text to store for a group that is gone. */
  lemma {:induction false} MediaKeeps(cfg: Config, s: State, mid: Mid, from: Jid, text: string, group: Option<int>,
                                      ts: int, hasPeer: bool)
    requires NoReplays(cfg, s) && mid in s.jobs
    ensures var r := MediaDone(cfg, s, mid, from, text, group, ts, hasPeer);
            && NoReplays(cfg, Left(r))
            && (r.Err? <==> cfg.address(from).Some? && group.Some? && group.value !in s.bridge.groups)
            && (r.Err? ==> r.error.why == GroupGone && r.error.at.sends == s.sends && r.error.at.batches == s.batches)
            && (r.Ok? ==> mid in r.value.sends.msgids)
  {
  }

  /** Sending under new ids keeps them apart from those of incoming messages. */
  lemma {:induction false} SendingKeeps(cfg: Config, s: State, sends: Sends)
    requires NoReplays(cfg, s) && Grows(s.sends, sends)
    ensures NoReplays(cfg, s.(sends := sends))
  {
  }

  /** New ids are new, and remembered when transmitted. */
  ghost predicate Grows(s: Sends, s': Sends) {
    && s.used <= s'.used && s.msgids <= s'.msgids && s'.msgids <= s'.used && s'.transmitted <= s'.msgids
    && s.transmitted <= s'.transmitted && (s'.transmitted - s.transmitted) !! s.used
  }

  lemma {:induction false} ResendGrows(cfg: Config, s: Sends, was: Sends, order: seq<Mid>, ids: seq<Mid>, now: int)
    requires s.msgids <= s.used && s.transmitted <= s.msgids && FreshIds(s.used, ids)
    ensures Grows(s, ResendAll(cfg, s, was, order, ids, now))
    decreases order
  {
    if !(order == [] || ids == [] || order[0] !in was.outgoing || order[0] !in was.owner) {
      var s1 := Own(Transmit(cfg, s, was.outgoing[order[0]].item, ids[0], now), ids[0], was.owner[order[0]]);
      forall i | 0 <= i < |ids[1..]| ensures ids[1..][i] !in s1.used {
        assert ids[1..][i] == ids[i + 1] && ids[0] != ids[i + 1];
      }
      ResendGrows(cfg, s1, was, order[1..], ids[1..], now);
    }
  }

  lemma {:induction false} SendsStepGrows(cfg: Config, s: State, e: Event)
    requires NoReplays(cfg, s) && Allowed(s, e)
    ensures Grows(s.sends, SendsStep(cfg, s.sends, e))
  {
    match e
    case EstablishedEvent(jid, order, ids, now) => ResendGrows(cfg, Dequeued(s.sends, jid), s.sends, order, ids, now);
    case _ =>
  }

  /** With `mark_read` off, a remembered id is never stored again. */
  lemma {:induction false} ReplayIgnored(cfg: Config, s: State, m: Incoming, isNew: bool, link: Link)
    requires !cfg.markRead && m.mid in s.sends.msgids
    ensures OnMessage(cfg, s, m, isNew, link).Ok? && OnMessage(cfg, s, m, isNew, link).value.batches == s.batches
  {
  }

  /** Exactly when a message whose id is remembered is stored again: `mark_read` is on, the message
      is announced as new, and it would be stored if it were the first. */
  lemma {:induction false} ReplayStoredExactly(cfg: Config, s: State, m: Incoming, isNew: bool, link: Link)
    requires m.mid in s.sends.msgids && Author(s, m).Some?
    ensures var r := OnMessage(cfg, s, m, isNew, link);
            r.Ok? && (r.value.batches != s.batches <==>
                      && cfg.markRead && isNew && Lands(cfg, s, m, link) && m.texts != []
                      && cfg.address(Author(s, m).value).Some?)
  {
    MessageExact(cfg, s, m, isNew, link);
  }
}
