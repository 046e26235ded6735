/** What commands and lines of the peer do to the link, told of the state and of what the peer sees. */
module LinkEffects {
  import opened Outcomes
  import opened Address
  import opened Peer
  import opened LinkModel
  import opened LinkInvariant
  import opened LinkSteps
  import opened LinkPass
  import Decimal
  import Delivery
  import Fragments
  import LinkRuns
  import Nicks

  // ---- nicks ----

  /** A nick that is in use: some user has it, or it is the admin's. */
  predicate InUse(cfg: Config, s: State, nick: string) {
    nick == cfg.adminNick || exists u :: u in s.users && s.users[u].nick == nick
  }

  /** Whoever asks for `nick` gets it if it is free, and otherwise the one with the least number that is. */
  ghost predicate Gets(cfg: Config, s: State, nick: string, got: string) {
    && !InUse(cfg, s, got)
    && if InUse(cfg, s, nick)
       then exists k: nat :: NumberedAs(nick, k, got) && forall j: nat :: j < k ==> InUse(cfg, s, Numbering(nick, j))
       else got == nick
  }

  function Numbering(nick: string, k: nat): string {
    nick + Decimal.Render(k)
  }

  ghost predicate NumberedAs(nick: string, k: nat, got: string) {
    got == Numbering(nick, k)
  }

  lemma {:induction false} SettledGets(cfg: Config, s: State, nick: string)
    ensures Gets(cfg, s, nick, Nicks.Settle(Used(cfg, s), nick))
  {
    var used, got := Used(cfg, s), Nicks.Settle(Used(cfg, s), nick);
    UsedExactly(cfg, s);
    if nick in used {
      var k := Nicks.FirstFree(used, nick, 0);
      assert NumberedAs(nick, k, got);
      forall j: nat | j < k ensures InUse(cfg, s, Numbering(nick, j)) {
        assert Nicks.Alternative(nick, j) in used;
      }
    }
  }

  lemma {:induction false} UsedExactly(cfg: Config, s: State)
    ensures forall n :: n in Used(cfg, s) <==> InUse(cfg, s, n)
  {
  }

  // ---- commands ----

  /** A command to one contact leaves everything else as it is. */
  ghost predicate OthersSame(s: State, s': State, a: Addr)
    requires a in s.contacts && a in s.recipients
  {
    && s' == s.(contacts := s'.contacts, recipients := s'.recipients, users := s'.users, log := s'.log)
    && s'.contacts.Keys == s.contacts.Keys && s'.recipients.Keys == s.recipients.Keys && s'.users.Keys == s.users.Keys
    && (forall b :: b in s.contacts && b != a ==> s'.contacts[b] == s.contacts[b])
    && (forall b :: b in s.recipients && b != a ==> s'.recipients[b] == s.recipients[b])
    && (forall u :: u in s.users && u != s.contacts[a].uuid ==> s'.users[u] == s.users[u])
  }

  /** The user the peer sees for a contact. */
  ghost function SeenOf(s: State, a: Addr): Option<Seen>
    requires a in s.contacts
  {
    var v := Replay(map[], s.log);
    if s.contacts[a].uuid in v then Some(v[s.contacts[a].uuid]) else None
  }

  /** The displayed host of a contact. */
  function HostOf(cfg: Config, wa: bool): string {
    (if wa then "wa." else "s.") + cfg.serverName
  }

  /** An away state is passed on as it is. */
  lemma {:induction false} AwayExact(cfg: Config, s: State, a: Addr, reason: Option<string>)
    requires a in s.contacts
    ensures ForwardCmd(cfg, s, a, UpdateAway(reason)) == Ok(s.(log := s.log + [Out(Away(s.contacts[a].uuid, reason))]))
  {
  }

  /** A contact told to use WhatsApp, or not to, does: its mode, the stored flag and the host the peer sees are those
      of the command, so that messages of the admin go that way from then on. */
  lemma {:induction false} ModeExact(cfg: Config, s: State, a: Addr, on: bool)
    requires Inv(cfg, s) && a in s.contacts
    ensures a in s.recipients && ForwardCmd(cfg, s, a, SetWhatsapp(on)).Ok?
    ensures var s' := ForwardCmd(cfg, s, a, SetWhatsapp(on)).value;
            && OthersSame(s, s', a)
            && s'.contacts[a] == s.contacts[a].(waMode := on) && s'.recipients[a] == s.recipients[a].(whatsapp := on)
            && SeenOf(s', a) == Some(Seen(s.recipients[a].nick, HostOf(cfg, on),
                                          Elements(s.contacts[a].channels)))
            && LinkRuns.Route(cfg, s', s.contacts[a].uuid)
               == (if s.contacts[a].uuid in s.channels then LinkRuns.ToGroup(s.contacts[a].uuid)
                   else if on then LinkRuns.ToWhatsApp(a) else LinkRuns.ToModem(a))
  {
    hide Registry, Numbered, Counted, Named, Cached, Agreed, Stored;
    ContactFacts(cfg, s, a);
    ForwardKeeps(cfg, s, a, SetWhatsapp(on));
    var s' := ForwardCmd(cfg, s, a, SetWhatsapp(on)).value;
    LinkRuns.PeerSees(cfg, s', a);
    LinkRuns.RouteToGhost(cfg, s', a);
  }

  /** A contact told to change its nick keeps it if it is the present one. Otherwise it gets the new one, or where that
      is in use the one with the least free number, and the row says which; the peer sees it. */
  lemma {:induction false} NickExact(cfg: Config, s: State, a: Addr, nick: string, source: int)
    requires Inv(cfg, s) && a in s.contacts
    ensures a in s.recipients && ForwardCmd(cfg, s, a, ChangeNick(nick, source)).Ok?
    ensures var s' := ForwardCmd(cfg, s, a, ChangeNick(nick, source)).value;
            && OthersSame(s, s', a) && s'.contacts == s.contacts
            && (nick == s.recipients[a].nick ==> s' == s)
            && (nick != s.recipients[a].nick ==>
                  && Gets(cfg, s, nick, s'.recipients[a].nick)
                  && s'.recipients[a] == s.recipients[a].(nick := s'.recipients[a].nick,
                       nickSource := if s'.recipients[a].nick == nick then source else 4))
            && SeenOf(s', a) == Some(Seen(s'.recipients[a].nick, HostOf(cfg, s.recipients[a].whatsapp),
                                          Elements(s.contacts[a].channels)))
  {
    hide Inv, Gets, Nicks.Settle, Used, OthersSame, Rename;
    ContactFacts(cfg, s, a);
    ForwardKeeps(cfg, s, a, ChangeNick(nick, source));
    SettledGets(cfg, s, nick);
    var settled := Nicks.Settle(Used(cfg, s), nick);
    RenameFrame(s, a, settled, if settled == nick then source else NICKSRC_COLLISION);
    NothingChanged(s, a);
    LinkRuns.PeerSees(cfg, ForwardCmd(cfg, s, a, ChangeNick(nick, source)).value, a);
  }

  lemma NothingChanged(s: State, a: Addr)
    requires a in s.contacts && a in s.recipients
    ensures OthersSame(s, s, a)
  {
  }

  lemma {:induction false} RenameFrame(s: State, a: Addr, nick: string, source: int)
    requires a in s.contacts && a in s.recipients && s.contacts[a].uuid in s.users
    ensures Rename(s, a, nick, source).Ok?
    ensures var s' := Rename(s, a, nick, source).value;
            && OthersSame(s, s', a) && s'.contacts == s.contacts
            && s'.recipients[a] == s.recipients[a].(nick := nick, nickSource := source)
  {
  }

  /** A command reaches the address it names, or the one its nick stands for, and only that. */
  lemma {:induction false} CommandsHandled(cfg: Config, w: World, s: State, a: Addr, cmd: Command, nick: string,
                                           source: int, found: Option<Addr>)
    ensures Step(cfg, w, s, DoForward(a, cmd), found) == ForwardCmd(cfg, s, a, cmd)
    ensures Step(cfg, w, s, ForwardByNick(nick, cmd), Some(a)) == ForwardCmd(cfg, s, a, cmd)
    ensures Step(cfg, w, s, ForwardByNick(nick, cmd), None) == Ok(s)
    ensures Step(cfg, w, s, DoDrop(a), found) == DropContact(s, a)
    ensures Step(cfg, w, s, DropByNick(nick), Some(a)) == DropContact(s, a)
    ensures Step(cfg, w, s, DropByNick(nick), None) == Ok(s)
    ensures Step(cfg, w, s, DoSetup(a), found) == SetupContact(cfg, w, s, a)
    ensures Step(cfg, w, s, DoQuery(a, source), found) == RequestContact(cfg, w, s, a, source)
    ensures Step(cfg, w, s, DoGroups, found) == ProcessGroups(cfg, w, s)
    ensures Step(cfg, w, s, DoMessages, found) == ProcessMessages(cfg, w, s)
  {
    hide ForwardCmd, DropContact, SetupContact, RequestContact, ProcessGroups, ProcessMessages, RemoveAndRecreate,
         QuasiBurst, OnLinked, DoBurst;
  }

  /** A command for an address without a contact does nothing. */
  lemma {:induction false} NoContactNoEffect(cfg: Config, s: State, a: Addr, cmd: Command)
    requires a !in s.contacts
    ensures ForwardCmd(cfg, s, a, cmd) == Ok(s)
  {
  }

  // ---- contacts ----

  /** A recipient set up gets the next UUID and its nick, or where that is in use the one with the least free number,
      which its row then says; the peer is told at once, and other rows stay. */
  lemma {:induction false} SetupExact(cfg: Config, w: World, s: State, a: Addr)
    requires Inv(cfg, s) && a in s.recipients && a !in s.contacts && Reads(cfg.accepts, a)
    requires s.nextUser <= 99999
    ensures SetupContactFor(cfg, w, s, s.recipients[a], a).Ok?
    ensures var s', row := SetupContactFor(cfg, w, s, s.recipients[a], a).value, s.recipients[a];
            var uuid := cfg.sid + "Z" + Decimal.Pad(s.nextUser, 5);
            && a in s'.recipients && a in s'.contacts && s'.contacts[a].uuid == uuid
            && var got := s'.recipients[a].nick;
            && Gets(cfg, s, row.nick, got)
            && s'.recipients == (if got == row.nick then s.recipients
                                 else s.recipients[a := row.(nick := got, nickSource := 4)])
            && s.log + [Out(UidLine(uuid, got, HostOf(cfg, row.whatsapp)))] <= s'.log
            && SeenOf(s', a) == Some(Seen(got, HostOf(cfg, row.whatsapp), Elements(s'.contacts[a].channels)))
  {
    hide Inv, Gets, Nicks.Settle, Used, ProcessGroupsFor, Onward;
    SetupKeeps(cfg, w, s, a);
    SettledGets(cfg, s, s.recipients[a].nick);
    SetupIs(cfg, w, s, s.recipients[a], a);
    IntroducedFrame(cfg, s, a);
    var s2 := Introduced1(cfg, s, s.recipients[a], a);
    if s2.phase == Linked { GroupsOwn(cfg, w, s2, a); GroupsSay(cfg, w, s2, a); }
    LinkRuns.PeerSees(cfg, SetupContactFor(cfg, w, s, s.recipients[a], a).value, a);
  }

  lemma GroupsSay(cfg: Config, w: World, s: State, a: Addr)
    requires ProcessGroupsFor(cfg, w, s, a).Ok?
    ensures s.log <= ProcessGroupsFor(cfg, w, s, a).value.log
  {
    hide ChannelNames, WithLog, Dropped;
  }

  lemma {:induction false} IntroducedFrame(cfg: Config, s: State, a: Addr)
    requires a in s.recipients
    ensures var s2, row := Introduced1(cfg, s, s.recipients[a], a), s.recipients[a];
            var uuid, got := cfg.sid + "Z" + Decimal.Pad(s.nextUser, 5), Nicks.Settle(Used(cfg, s), row.nick);
            && a in s2.contacts && s2.contacts[a].uuid == uuid && s2.contacts[a].waMode == row.whatsapp
            && s2.recipients == (if got == row.nick then s.recipients
                                 else s.recipients[a := row.(nick := got, nickSource := 4)])
            && s2.log == s.log + [Out(UidLine(uuid, got, HostOf(cfg, row.whatsapp)))]
  {
    hide Nicks.Settle, Used;
  }

  /** An address without a recipient is not set up, nor one that has a contact. */
  lemma {:induction false} NothingToSetUp(cfg: Config, w: World, s: State, a: Addr)
    requires Inv(cfg, s) && (a !in s.recipients || a in s.contacts)
    ensures SetupContact(cfg, w, s, a) == Ok(s)
    ensures a in s.recipients ==> forall source :: RequestContact(cfg, w, s, a, source) == Ok(s)
    ensures a !in s.recipients ==>
              forall source :: RequestContact(cfg, w, s, a, source) == Ok(s.(log := s.log + [Asked(a, source)]))
  {
    hide Numbered, Counted, Named, Agreed, Stored, SetupContactFor;
    if a in s.contacts { assert Shows(cfg, s, a); }
  }

  // ---- messages ----

  /** Where a text goes: to the channel of its group, which the admin is made to join first where that is wanted and
      the admin is there, and otherwise to the admin. */
  lemma {:induction false} SendRawExact(cfg: Config, s: State, u: Uid, text: string, group: Option<int>)
    requires u in s.users && cfg.sid <= u
    ensures var chunks := Fragments.Chunks(Fragments.Lines(text));
            match group
            case None => SendRaw(cfg, s, u, text, group)
                         == Ok(s.(log := s.log + seq(|chunks|, i requires 0 <= i < |chunks| =>
                                                     Out(Privmsg(u, ToAdmin, chunks[i])))))
            case Some(g) =>
              if g !in s.groups then SendRaw(cfg, s, u, text, group).Err?
              else
                var ch := s.groups[g].channel;
                var admin := exists v :: v in s.users && s.users[v].nick == cfg.adminNick;
                SendRaw(cfg, s, u, text, group)
                == Ok(s.(log := s.log + (if cfg.ensureJoined && admin then [Out(SvsJoin(ch))] else [])
                                + seq(|chunks|, i requires 0 <= i < |chunks| =>
                                      Out(Privmsg(u, ToChannel(ch), chunks[i])))))
  {
    hide Fragments.Chunks, Fragments.Lines;
    var chunks := Fragments.Chunks(Fragments.Lines(text));
    var to := if group.Some? && group.value in s.groups then ToChannel(s.groups[group.value].channel) else ToAdmin;
    assert Privmsgs(u, to, chunks) == seq(|chunks|, i requires 0 <= i < |chunks| => Out(Privmsg(u, to, chunks[i])));
    assert s.log + [] == s.log && (chunks == [] ==> Privmsgs(u, to, chunks) == []);
    assert forall sj :: s.log + sj + [] == s.log + sj;
  }

  /** A message that can not be decoded is reported by its contact, after the switch to SMS if one is due, and stays. */
  lemma {:induction false} UndecodableExact(cfg: Config, w: World, s: State, row: Delivery.Row)
    requires Inv(cfg, s) && row.addr in s.contacts && row.body == Delivery.Sms(Delivery.Undecodable)
    ensures HandleRow(cfg, w, s, row).Ok?
    ensures var s', ct := HandleRow(cfg, w, s, row).value, s.contacts[row.addr];
            && s'.messages == s.messages
            && s'.log == s.log + (if ct.waMode then [Out(FHost(ct.uuid, HostOf(cfg, false))),
                                                     Out(ModeNotice(ct.uuid, false))]
                                  else []) + [Out(ErrorNotice(ct.uuid))]
  {
    hide Inv, SwitchMode, Onward;
    ContactFacts(cfg, s, row.addr);
    SwitchKeeps(cfg, s, row.addr, false);
    var s1 := SwitchMode(cfg, s, row.addr, false).value;
    ContactFacts(cfg, s1, row.addr);
    assert s.contacts[row.addr].uuid == s1.contacts[row.addr].uuid;
  }

  // ---- the peer ----

  /** What the peer says of users and topics is noted as it is. */
  lemma {:induction false} NoticesExact(cfg: Config, w: World, s: State, u: Uid, text: string, found: Option<Addr>)
    ensures Step(cfg, w, s, NickEvent(u, text), found)
            == Ok(if u in s.users then s.(users := s.users[u := User(text, s.users[u].host)]) else s)
    ensures Step(cfg, w, s, HostEvent(u, text), found)
            == Ok(if u in s.users then s.(users := s.users[u := User(s.users[u].nick, text)]) else s)
    ensures forall topic :: Step(cfg, w, s, TopicEvent(text, topic), found)
                            == Ok(s.(topics := s.topics[text := topic]))
    ensures Step(cfg, w, s, SquitEvent(text), found)
            == Ok(s.(users := map v | v in s.users && !(text <= v) :: s.users[v]))
  {
  }

  /** A connection begins with our SERVER line, once. */
  lemma {:induction false} ConnectExact(cfg: Config, w: World, s: State, found: Option<Addr>)
    ensures Step(cfg, w, s, ConnectEvent, found)
            == Ok(if s.phase == TcpConnected then s.(log := s.log + [Out(Hello)], phase := ServerSent) else s)
  {
    hide ProcessMessages, ProcessGroups, QuasiBurst, OnLinked, RemoveAndRecreate, SetupContact, RequestContact,
         DropContact, ForwardCmd, WithoutGroup, ParseUid, DoBurst, Squit, Accepted;
  }

  /** A SERVER line is accepted with four arguments, our password and no hops. It fixes the id of the server and is
      answered by the burst that introduces the control user. */
  lemma {:induction false} ServerExact(cfg: Config, w: World, s: State, args: seq<string>, found: Option<Addr>)
    ensures var r := Step(cfg, w, s, ServerEvent(args), found);
            var control := cfg.sid + "A00000";
            && (r.Ok? <==> |args| == 4 && args[1] == cfg.recvPass && args[2] == "0")
            && (r.Ok? ==> r.value == s.(remoteSid := args[3], phase := BurstSent,
                            users := s.users[control := User(cfg.controlNick, cfg.serverName)],
                            log := s.log + [Out(Burst), Out(UidLine(control, cfg.controlNick, cfg.serverName)),
                                            Out(EndBurst)]))
  {
    hide ProcessMessages, ProcessGroups, QuasiBurst, OnLinked, RemoveAndRecreate, SetupContact, RequestContact,
         DropContact, ForwardCmd, WithoutGroup, ParseUid, Squit, Connect, DoBurst;
    BurstIs(cfg, if |args| == 4 then s.(remoteSid := args[3]) else s);
  }

  lemma BurstIs(cfg: Config, s: State)
    ensures var control := cfg.sid + "A00000";
            DoBurst(cfg, s) == s.(users := s.users[control := User(cfg.controlNick, cfg.serverName)],
                                  log := s.log + [Out(Burst), Out(UidLine(control, cfg.controlNick, cfg.serverName)),
                                                  Out(EndBurst)])
  {
    var intro := Out(UidLine(cfg.sid + "A00000", cfg.controlNick, cfg.serverName));
    assert s.log + [Out(Burst)] + [intro] + [Out(EndBurst)] == s.log + [Out(Burst), intro, Out(EndBurst)];
  }

  /** A UID line is taken with nine arguments, a text, and two numbers: then the user has the nick and the displayed
      host it says. If it is the admin, a delivery pass follows, and otherwise nothing. */
  lemma {:induction false} UidExact(cfg: Config, w: World, s: State, args: seq<string>, suffix: Option<string>,
                                    found: Option<Addr>)
    ensures var r := Step(cfg, w, s, UidEvent(args, suffix), found);
            if |args| < 9 || suffix.None? || !Decimal.ParsesI64(args[1]) || !Decimal.ParsesI64(args[7])
            then r.Err? && r.error.at == s
            else
              var s1 := s.(users := s.users[args[0] := User(args[2], args[4])]);
              r == if args[2] == cfg.adminNick then ProcessMessages(cfg, w, s1) else Ok(s1)
  {
  }

  // ---- linking ----

  /** The channels a recipient belongs in. */
  function Belongs(cfg: Config, s: State, a: Addr): set<string>
    requires a in s.recipients
  {
    {cfg.logChan} + set g | g in s.groups && s.recipients[a].id in s.groups[g].participants :: s.groups[g].channel
  }

  ghost predicate SameIds(s: State, s': State) {
    && s'.recipients.Keys == s.recipients.Keys && s'.groups == s.groups
    && forall a :: a in s.recipients ==> s'.recipients[a].id == s.recipients[a].id
  }

  lemma {:induction false} BurstIds(cfg: Config, w: World, s: State, snap: map<Addr, Recipient>, order: seq<Addr>)
    requires SetupEach(cfg, w, s, snap, order).Ok?
    ensures SameIds(s, SetupEach(cfg, w, s, snap, order).value)
    ensures SetupEach(cfg, w, s, snap, order).value.remoteSid == s.remoteSid
    decreases order
  {
    hide Reads, SetupContactFor;
    if order != [] {
      if order[0] in snap {
        if order[0] !in s.contacts { OneIds(cfg, w, s, snap[order[0]], order[0]); }
        BurstIds(cfg, w, SetupRecipient(cfg, w, s, snap[order[0]], order[0]).value, snap, order[1..]);
      } else {
        BurstIds(cfg, w, s, snap, order[1..]);
      }
    }
  }

  lemma {:induction false} OneIds(cfg: Config, w: World, s: State, recip: Recipient, a: Addr)
    requires SetupContactFor(cfg, w, s, recip, a).Ok?
    ensures var s' := SetupContactFor(cfg, w, s, recip, a).value; SameIds(s, s') && s'.remoteSid == s.remoteSid
  {
    hide SetupContactFor, ProcessGroupsFor, Introduced1, Uuid;
    SetupRows(cfg, w, s, recip, a);
    SetupFits(cfg, w, s, recip, a);
    SetupIs(cfg, w, s, recip, a);
    IntroducedIs(cfg, s, recip, a);
    var s2 := Introduced1(cfg, s, recip, a);
    if s2.phase == Linked { GroupsOwn(cfg, w, s2, a); }
  }

  lemma SetupFits(cfg: Config, w: World, s: State, recip: Recipient, a: Addr)
    requires SetupContactFor(cfg, w, s, recip, a).Ok?
    ensures s.nextUser <= MAX_USER_ID
  {
    hide Nicks.Settle, Used, Introduce, ProcessGroupsFor;
  }

  /** Contacts stay in their channels. */
  ghost predicate SameChannels(s: State, s': State) {
    && s'.phase == s.phase && s.log <= s'.log && s.contacts.Keys <= s'.contacts.Keys
    && forall a :: a in s.contacts ==> s'.contacts[a].channels == s.contacts[a].channels
  }

  lemma {:induction false} RowSameChannels(cfg: Config, w: World, s: State, row: Delivery.Row)
    requires Inv(cfg, s)
    ensures SameChannels(s, Left(ProcessRow(cfg, w, s, row)))
  {
    hide Inv, Onward, Reads, HandleRow, RequestContact;
    if Reads(cfg.accepts, row.addr) {
      if row.addr in s.contacts {
        HandleSameChannels(cfg, w, s, row);
      } else {
        RequestKeeps(cfg, w, s, row.addr, row.source);
        RequestSays(cfg, w, s, row.addr, row.source, "");
        var r := RequestContact(cfg, w, s, row.addr, row.source);
        OnwardPhase(s, Left(r));
        if r.Ok? && row.addr in s.recipients { HandleSameChannels(cfg, w, r.value, row); }
      }
    }
  }

  lemma OnwardPhase(s: State, s': State)
    requires Onward(s, s')
    ensures s'.phase == s.phase && s.contacts.Keys <= s'.contacts.Keys
  {
  }

  lemma {:induction false} HandleSameChannels(cfg: Config, w: World, s: State, row: Delivery.Row)
    requires Inv(cfg, s) && row.addr in s.contacts
    ensures SameChannels(s, Left(HandleRow(cfg, w, s, row)))
  {
    hide Inv, Onward, Deliver, SwitchMode;
    SwitchKeeps(cfg, s, row.addr, row.body.Plain?);
    var s1 := SwitchMode(cfg, s, row.addr, row.body.Plain?).value;
    OnwardPhase(s, s1);
    ContactUuid(s, s1, row.addr);
    DeliverTalks(cfg, w, s1, row);
  }

  lemma ContactUuid(s: State, s': State, a: Addr)
    requires Onward(s, s') && a in s.contacts
    ensures a in s'.contacts && s'.contacts[a].uuid == s.contacts[a].uuid
  {
  }

  lemma {:induction false} DeliverTalks(cfg: Config, w: World, s: State, row: Delivery.Row)
    requires row.addr in s.contacts
    ensures SameChannels(s, Left(Deliver(cfg, w, s, s.contacts[row.addr].uuid, row)))
  {
    hide Delivery.Handle, Fragments.Chunks, Fragments.Lines, SendRaw, RemoveRows;
    if Delivery.Handle(w.oracle, s.messages, row).Ok? && Delivery.Handle(w.oracle, s.messages, row).value.Delivered? {
      var send := Delivery.Handle(w.oracle, s.messages, row).value.send;
      var u := s.contacts[row.addr].uuid;
      SendTalks(cfg, s, u, send.text, send.row.group);
      var r := SendRaw(cfg, s, u, send.text, send.row.group);
      if r.Ok? { RemoveTalks(r.value, send.ids); }
    }
  }

  lemma SendTalks(cfg: Config, s: State, u: Uid, text: string, group: Option<int>)
    ensures var s' := Left(SendRaw(cfg, s, u, text, group)); s' == s.(log := s'.log) && s.log <= s'.log
  {
    hide Fragments.Chunks, Fragments.Lines, Privmsgs;
  }

  lemma {:induction false} RemoveTalks(s: State, ids: seq<int>)
    ensures var s' := Left(RemoveRows(s, ids)); s' == s.(log := s'.log, messages := s'.messages) && s.log <= s'.log
    decreases ids
  {
    if ids != [] && ids[0] in s.messages {
      RemoveTalks(s.(messages := s.messages - {ids[0]}, log := s.log + [Removed(ids[0])]), ids[1..]);
    }
  }

  lemma {:induction false} RowsSameChannels(cfg: Config, w: World, s: State, table: Delivery.Table,
                                            done: seq<Delivery.Row>, rest: seq<Delivery.Row>)
    requires Underway(cfg, w, s, table, done, rest)
    ensures SameChannels(s, Left(ProcessRows(cfg, w, s, rest)))
    decreases rest
  {
    hide Inv, Onward, Underway, ProcessRow, RowCause, GhostsAfter, Delivery.Stops;
    if rest != [] {
      UnderwayNow(cfg, w, s, table, done, rest);
      NextRow(cfg, w, s, table, done, rest);
      RowSameChannels(cfg, w, s, rest[0]);
      var r := ProcessRow(cfg, w, s, rest[0]);
      if r.Ok? { RowsSameChannels(cfg, w, r.value, table, done + [rest[0]], rest[1..]); }
    }
  }

  /** When the server we are linked to ends its burst, and nothing fails, the link is up, the control user has joined
      the log channel, and every recipient has a contact that is where it belongs, here and as the peer sees it. The
      end of another burst changes nothing. */
  lemma {:induction false} EndBurstExact(cfg: Config, w: World, s: State, prefix: string)
    requires Inv(cfg, s) && Honest(w)
    ensures var r := Step(cfg, w, s, EndBurstEvent(prefix), None);
            && (prefix != s.remoteSid ==> r == Ok(s))
            && (prefix == s.remoteSid && r.Ok? ==>
                  && r.value.phase == Linked && Out(Join(cfg.sid + "A00000", cfg.logChan)) in r.value.log
                  && r.value.contacts.Keys == s.recipients.Keys
                  && forall a :: a in s.recipients ==>
                       && Elements(r.value.contacts[a].channels) == Belongs(cfg, s, a)
                       && SeenOf(r.value, a).Some? && SeenOf(r.value, a).value.channels == Belongs(cfg, s, a))
  {
    hide Inv, Honest, Onward, SetupEach, ProcessGroups, ProcessRows, LinkRuns.BadRecipient, LinkRuns.TooMany,
         LinkRuns.Poisoned, Belongs;
    if prefix == s.remoteSid && Step(cfg, w, s, EndBurstEvent(prefix), None).Ok? {
      LinkRuns.EndBurstKeeps(cfg, w, s);
      LinkRuns.QuasiBurstKeeps(cfg, w, s);
      BurstIds(cfg, w, s, s.recipients, w.recipientOrder(s.recipients.Keys));
      var s1 := QuasiBurst(cfg, w, s).value.(phase := Linked);
      LinkRuns.SilentKeepsStored(cfg, QuasiBurst(cfg, w, s).value, s1);
      var join := Out(Join(cfg.sid + "A00000", cfg.logChan));
      var s2 := s1.(log := s1.log + [join]);
      ControlKeeps(cfg, s1, join);
      ProcessGroupsKeep(cfg, w, s2);
      LinkRuns.GroupsExact(cfg, w, s2);
      var s3 := ProcessGroups(cfg, w, s2).value;
      PassChannels(cfg, w, s3);
      GroupsLog(cfg, w, s2);
      var s4 := ProcessMessages(cfg, w, s3).value;
      assert Step(cfg, w, s, EndBurstEvent(prefix), None) == Ok(s4);
      forall a | a in s.recipients
        ensures Elements(s4.contacts[a].channels) == Belongs(cfg, s, a)
        ensures SeenOf(s4, a).Some? && SeenOf(s4, a).value.channels == Belongs(cfg, s, a)
      {
        BelongsIs(cfg, s, s2, a);
        assert LinkRuns.InPlace(cfg, s2, s3, a);
        LinkRuns.PeerSees(cfg, s4, a);
      }
      assert join in s2.log;
    }
  }

  lemma BelongsIs(cfg: Config, s: State, s': State, a: Addr)
    requires SameIds(s, s') && a in s.recipients
    ensures Belongs(cfg, s, a) == {cfg.logChan} + LinkRuns.GroupChannels(s', a)
  {
  }

  lemma {:induction false} PassChannels(cfg: Config, w: World, s: State)
    requires Inv(cfg, s) && Honest(w)
    ensures SameChannels(s, Left(ProcessMessages(cfg, w, s)))
  {
    hide Inv, Honest, Underway, ProcessRows;
    Begin(cfg, w, s);
    RowsSameChannels(cfg, w, s, s.messages, [], w.messageOrder(s.messages));
  }

  lemma {:induction false} GroupsLog(cfg: Config, w: World, s: State)
    requires Inv(cfg, s) && Honest(w) && ProcessGroups(cfg, w, s).Ok?
    ensures s.log <= ProcessGroups(cfg, w, s).value.log
  {
    hide Honest, ProcessGroupsEach, TellGroups, Inv;
    var s1 := s.(channels := {});
    EachSays(cfg, w, s1, w.contactOrder(s.contacts.Keys));
    TellGroupsKeep(cfg, w, ProcessGroupsEach(cfg, w, s1, w.contactOrder(s.contacts.Keys)).value,
                   w.groupOrder(s.groups.Keys));
  }

  lemma {:induction false} EachSays(cfg: Config, w: World, s: State, order: seq<Addr>)
    requires ProcessGroupsEach(cfg, w, s, order).Ok?
    ensures var s' := ProcessGroupsEach(cfg, w, s, order).value; s.log <= s'.log && s'.groups == s.groups
    decreases order
  {
    hide ChannelNames, WithLog, Dropped;
    if order != [] { EachSays(cfg, w, ProcessGroupsFor(cfg, w, s, order[0]).value, order[1..]); }
  }
}
