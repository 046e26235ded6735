/**
 The InspIRCd link as the class it is: methods that update its tables and push to its history, each
 proved to do what the step functions of `LinkModel` say, and to keep the link's invariant.
 */
module InspLinks {
  import opened Outcomes
  import opened Failures
  import opened Address
  import opened Peer
  import opened LinkModel
  import opened LinkInvariant
  import opened LinkSteps
  import opened LinkPass
  import opened LinkRuns
  import DeliveredTexts
  import Delivery
  import DeliveryProofs
  import Fragments
  import Nicks
  import Reassembly

  /** What a handler returns: nothing, or the failure that ends the task. */
  type Status = Result<(), Failure>

  class InspLink {
    const cfg: Config
    var users: map<Uid, User>
    var contacts: map<Addr, Contact>
    var owners: map<Uid, Addr>
    var recipients: map<Addr, Recipient>
    var groups: map<int, Group>
    var messages: Delivery.Table
    var channels: set<string>
    var topics: map<string, string>
    var nextUser: nat
    var remoteSid: string
    var phase: Phase
    // everything said, heard and deleted; the lines of it not flushed yet are the source's `outbox`
    var history: seq<Wire>

    ghost function State(): State
      reads this
    {
      LinkModel.State(users, contacts, owners, recipients, groups, messages, channels, topics, nextUser, remoteSid,
                      phase, history)
    }

    constructor (cfg: Config, recipients: map<Addr, Recipient>, groups: map<int, Group>, messages: Delivery.Table)
      requires Stored(messages, groups)
      ensures State() == Start(recipients, groups, messages) && this.cfg == cfg && Inv(cfg, State())
      ensures users == map[] && contacts == map[] && nextUser == 1 && phase == TcpConnected && history == []
    {
      this.cfg := cfg;
      users, contacts, owners := map[], map[], map[];
      this.recipients, this.groups, this.messages := recipients, groups, messages;
      channels, topics, nextUser, remoteSid, phase, history := {}, map[], 1, "XXX", TcpConnected, [];
      new;
      StartHolds(cfg, State());
    }

    method Push(line: Line)
      modifies this`history
      ensures State() == Say(old(State()), line)
    {
      history := history + [Out(line)];
    }

    // ---- nicks ----

    method NickExists(nick: string) returns (r: bool)
      ensures r <==> nick in Used(cfg, State())
    {
      var todo := users.Keys;
      while todo != {}
        invariant todo <= users.Keys
        invariant forall u :: u in users && u !in todo ==> users[u].nick != nick
        decreases todo
      {
        var u :| u in todo;
        if users[u].nick == nick {
          assert users[u].nick in NicksOf(State());
          return true;
        }
        todo := todo - {u};
      }
      assert nick !in NicksOf(State());
      return nick == cfg.adminNick;
    }

    method CheckNickForCollisions(nick: string) returns (r: Option<string>)
      ensures r == Nicks.Check(Used(cfg, State()), nick)
    {
      var exists0 := NickExists(nick);
      if !exists0 { return None; }
      var idx: nat := 0;
      ghost var used := Used(cfg, State());
      var taken := NickExists(Nicks.Alternative(nick, idx));
      while taken
        invariant taken <==> Nicks.Alternative(nick, idx) in used
        invariant Nicks.FirstFree(used, nick, idx) == Nicks.FirstFree(used, nick, 0)
        decreases used - Nicks.Tried(nick, idx)
      {
        Nicks.TriedGrows(used, nick, idx);
        idx := idx + 1;
        taken := NickExists(Nicks.Alternative(nick, idx));
      }
      r := Some(Nicks.Alternative(nick, idx));
    }

    /** `admin_uuid`: some user with the admin's nick. */
    method AdminUuid() returns (r: Option<Uid>)
      ensures r.Some? ==> r.value in users && users[r.value].nick == cfg.adminNick
      ensures r.Some? <==> AdminHere(cfg, State())
    {
      var todo := users.Keys;
      while todo != {}
        invariant todo <= users.Keys
        invariant forall u :: u in users && u !in todo ==> users[u].nick != cfg.adminNick
        decreases todo
      {
        var u :| u in todo;
        if users[u].nick == cfg.adminNick {
          assert users[u].nick in NicksOf(State());
          return Some(u);
        }
        todo := todo - {u};
      }
      assert cfg.adminNick !in NicksOf(State());
      return None;
    }

    method ResolveNick(nick: string) returns (r: Option<Addr>)
      ensures Answer(State(), nick, r)
    {
      var todo := users.Keys;
      while todo != {}
        invariant todo <= users.Keys
        invariant forall u :: u !in todo ==> !Resolves(State(), nick, u)
        decreases todo
      {
        var u :| u in todo;
        if users[u].nick == nick && u in owners {
          assert Resolves(State(), nick, u);
          return Some(owners[u]);
        }
        todo := todo - {u};
      }
      return None;
    }

    // ---- contacts ----

    method UpdateRecipientNick(a: Addr, nick: string, source: int)
      modifies this`recipients
      ensures State() == StoreNick(old(State()), a, nick, source)
    {
      if a in recipients {
        recipients := recipients[a := recipients[a].(nick := nick, nickSource := source)];
      }
    }

    method GetUuid() returns (r: Result<Uid, Failure>)
      modifies this`nextUser
      ensures old(nextUser) > MAX_USER_ID ==> r == Err(UuidsExhausted) && nextUser == old(nextUser)
      ensures old(nextUser) <= MAX_USER_ID ==> r == Ok(Uuid(cfg, old(nextUser))) && nextUser == old(nextUser) + 1
    {
      if nextUser > MAX_USER_ID { return Err(UuidsExhausted); }
      r := Ok(Uuid(cfg, nextUser));
      nextUser := nextUser + 1;
    }

    method NewUser(user: User) returns (r: Result<Uid, Failure>)
      modifies this`nextUser, this`users, this`history
      ensures old(nextUser) > MAX_USER_ID ==> r == Err(UuidsExhausted) && State() == old(State())
      ensures old(nextUser) <= MAX_USER_ID ==>
                var u := Uuid(cfg, old(nextUser));
                && r == Ok(u) && nextUser == old(nextUser) + 1 && users == old(users)[u := user]
                && history == old(history) + [Out(UidLine(u, user.nick, user.host))]
    {
      r := GetUuid();
      if r.Ok? {
        users := users[r.value := user];
        Push(UidLine(r.value, user.nick, user.host));
      }
    }

    /** The JOIN lines for groups, in the order the rows come. */
    method JoinGroups(u: Uid, ids: seq<int>) returns (chans: seq<string>)
      modifies this`channels, this`history
      ensures chans == ChannelNames(groups, ids)
      ensures channels == old(channels) + Elements(chans) && history == old(history) + Joins(u, chans)
    {
      hide Joins, ChannelNames;
      chans := [];
      NamesNone(groups, u);
      assert ids[0..] == ids;
      for i := 0 to |ids|
        invariant chans + ChannelNames(groups, ids[i..]) == ChannelNames(groups, ids)
        invariant channels == old(channels) + Elements(chans) && history == old(history) + Joins(u, chans)
      {
        NamesStep(groups, ids, i);
        if ids[i] in groups {
          var ch := groups[ids[i]].channel;
          JoinsStep(u, chans, ch);
          Push(Join(u, ch));
          chans := chans + [ch];
          channels := channels + {ch};
        }
      }
      assert ids[|ids|..] == [];
    }

    /** The same with the log channel. */
    method JoinWanted(u: Uid, ids: seq<int>) returns (chans: seq<string>)
      modifies this`channels, this`history
      ensures chans == WithLog(cfg, ChannelNames(groups, ids))
      ensures channels == old(channels) + Elements(ChannelNames(groups, ids))
      ensures history == old(history) + Joins(u, chans)
    {
      hide Joins, ChannelNames;
      chans := JoinGroups(u, ids);
      if cfg.logChan !in chans {
        JoinsStep(u, chans, cfg.logChan);
        Push(Join(u, cfg.logChan));
        chans := chans + [cfg.logChan];
      }
    }

    /** The PART lines for channels no longer wanted. */
    method PartChannels(u: Uid, had: seq<string>, wanted: seq<string>)
      modifies this`history
      ensures history == old(history) + Parts(u, Dropped(had, wanted))
    {
      hide Parts, Dropped;
      PartsNone(u, wanted);
      for i := 0 to |had|
        invariant history + Parts(u, Dropped(had[i..], wanted)) == old(history) + Parts(u, Dropped(had, wanted))
      {
        DroppedStep(u, had, wanted, i);
        if had[i] !in wanted {
          Push(Part(u, had[i]));
        }
      }
      assert had[|had|..] == [];
    }

    method ProcessGroupsForRecipient(w: World, a: Addr) returns (r: Status)
      requires a in contacts
      modifies this
      ensures Did(r, State(), ProcessGroupsFor(cfg, w, old(State()), a))
    {
      hide Joins, Parts, Dropped, ChannelNames, WithLog;
      if a !in recipients { return Err(RecipientMissing); }
      var ct := contacts[a];
      var chans := JoinWanted(ct.uuid, w.groupOrder(GroupsWith(groups, recipients[a].id)));
      contacts := contacts[a := ct.(channels := chans)];
      PartChannels(ct.uuid, ct.channels, chans);
      assert history == old(history) + (Joins(ct.uuid, chans) + Parts(ct.uuid, Dropped(ct.channels, chans)));
      return Ok(());
    }

    method SetupContactFor(w: World, recip: Recipient, a: Addr) returns (r: Status)
      modifies this
      ensures Did(r, State(), LinkModel.SetupContactFor(cfg, w, old(State()), recip, a))
    {
      hide HostFor, Uuid, Used, LinkModel.ProcessGroupsFor;
      var host := HostFor(cfg, recip.whatsapp);
      var nick := recip.nick;
      var other := CheckNickForCollisions(recip.nick);
      if other.Some? {
        UpdateRecipientNick(a, other.value, NICKSRC_COLLISION);
        nick := other.value;
      }
      var uuid := NewUser(User(nick, host));
      if uuid.Err? { return Err(uuid.error); }
      contacts := contacts[a := Contact(uuid.value, [], recip.whatsapp)];
      owners := owners[uuid.value := a];
      assert State() == Introduced1(cfg, old(State()), recip, a);
      if phase == Linked {
        r := ProcessGroupsForRecipient(w, a);
      } else {
        r := Ok(());
      }
    }

    /** `setup_recipient`, for the row stored under `key`. */
    method SetupRecipient(w: World, recip: Recipient, key: Addr) returns (r: Status)
      modifies this
      ensures Did(r, State(), LinkModel.SetupRecipient(cfg, w, old(State()), recip, key))
    {
      hide LinkModel.SetupContactFor;
      var addr := GetAddr(cfg.accepts, key);
      if addr.None? { return Err(BadAddress); }
      if addr.value in contacts { return Ok(()); }
      r := SetupContactFor(w, recip, addr.value);
    }

    method SetupContact(w: World, a: Addr) returns (r: Status)
      modifies this
      ensures Did(r, State(), LinkModel.SetupContact(cfg, w, old(State()), a))
    {
      if a in recipients {
        r := SetupRecipient(w, recipients[a], a);
      } else {
        r := Ok(());
      }
    }

    /** Returns also whether the contact exists now. */
    method RequestContact(w: World, a: Addr, source: int) returns (r: Status, made: bool)
      modifies this
      ensures Did(r, State(), LinkModel.RequestContact(cfg, w, old(State()), a, source))
      ensures made <==> a in old(recipients)
    {
      made := a in recipients;
      if made {
        r := SetupRecipient(w, recipients[a], a);
      } else {
        history := history + [Asked(a, source)];
        r := Ok(());
      }
    }

    method RemoveUser(w: World, u: Uid, recreate: bool) returns (r: Status)
      modifies this
      ensures recreate ==> Did(r, State(), RemoveAndRecreate(cfg, w, old(State()), u))
      ensures !recreate ==> r == Ok(()) && State() == Forget(old(State()), u)
    {
      var addr := None;
      if u in owners {
        addr := Some(owners[u]);
        contacts := contacts - {owners[u]};
      }
      owners := owners - {u};
      users := users - {u};
      assert State() == Forget(old(State()), u);
      r := Ok(());
      if addr.Some? && recreate {
        r := SetupContact(w, addr.value);
      }
    }

    method RemoveContactFor(w: World, a: Addr)
      modifies this
      ensures State() == LinkModel.RemoveContactFor(old(State()), a)
    {
      if a in contacts {
        var u := contacts[a].uuid;
        Push(Quit(u));
        var _ := RemoveUser(w, u, false);
      }
      contacts := contacts - {a};
      owners := map u | u in owners && owners[u] != a :: owners[u];
    }

    method DropContact(w: World, a: Addr) returns (r: Status)
      modifies this
      ensures Did(r, State(), LinkModel.DropContact(old(State()), a))
    {
      if a !in recipients { return Err(NoSuchRecipient); }
      recipients := recipients - {a};
      RemoveContactFor(w, a);
      r := Ok(());
    }

    // ---- modes and commands ----

    method SetWaState(a: Addr, wa: bool)
      requires a in contacts
      modifies this
      ensures Ok(State()) == LinkModel.SetWaState(cfg, old(State()), a, wa)
    {
      contacts := contacts[a := contacts[a].(waMode := wa)];
      if a in recipients {
        recipients := recipients[a := recipients[a].(whatsapp := wa)];
      }
      var u := contacts[a].uuid;
      var host := HostFor(cfg, wa);
      Push(FHost(u, host));
      if u in users {
        users := users[u := users[u].(host := host)];
      }
    }

    method ForwardCmd(a: Addr, cmd: Command)
      requires a in contacts ==> contacts[a].uuid in users
      modifies this
      ensures Ok(State()) == LinkModel.ForwardCmd(cfg, old(State()), a, cmd)
      ensures a in old(contacts) && cmd.SetWhatsapp? ==>
                contacts == old(contacts)[a := old(contacts)[a].(waMode := cmd.on)]
      ensures a in old(contacts) && cmd.UpdateAway? ==>
                history == old(history) + [Out(Away(old(contacts)[a].uuid, cmd.reason))]
    {
      if a !in contacts { return; }
      var u := contacts[a].uuid;
      match cmd
      case UpdateAway(reason) => Push(Away(u, reason));
      case ChangeNick(st, osrc) =>
        if users[u].nick == st { return; }
        var other := CheckNickForCollisions(st);
        var nick, src := st, osrc;
        if other.Some? { nick, src := other.value, NICKSRC_COLLISION; }
        users := users[u := users[u].(nick := nick)];
        Push(NickLine(u, nick));
        UpdateRecipientNick(a, nick, src);
      case SetWhatsapp(wam) =>
        contacts := contacts[a := contacts[a].(waMode := wam)];
        SetWaState(a, wam);
        assert contacts == old(contacts)[a := old(contacts)[a].(waMode := wam)];
    }

    method ForwardCmdByNick(nick: string, cmd: Command) returns (ghost found: Option<Addr>)
      requires Inv(cfg, State())
      modifies this
      ensures Answer(old(State()), nick, found) && Inv(cfg, State())
      ensures found.Some? ==> Ok(State()) == LinkModel.ForwardCmd(cfg, old(State()), found.value, cmd)
      ensures found.None? ==> State() == old(State())
    {
      var a := ResolveNick(nick);
      found := a;
      if a.Some? {
        if a.value in contacts { ContactFacts(cfg, State(), a.value); }
        ForwardKeeps(cfg, State(), a.value, cmd);
        ForwardCmd(a.value, cmd);
      }
    }

    // ---- groups ----

    method ProcessGroups(w: World) returns (r: Status)
      requires Inv(cfg, State()) && Honest(w)
      modifies this
      ensures Did(r, State(), LinkModel.ProcessGroups(cfg, w, old(State())))
      ensures Inv(cfg, State())
    {
      hide Inv, Honest, ProcessGroupsFor, LinkModel.TellGroups, Did;
      ProcessGroupsKeep(cfg, w, State());
      ListsContacts(w, State());
      var order := w.contactOrder(contacts.Keys);
      SilentKeepsStored(cfg, State(), State().(channels := {}));
      channels := {};
      ghost var s := State();
      var i := 0;
      assert order[0..] == order;
      while i < |order|
        invariant i <= |order| && Inv(cfg, State())
        invariant contacts.Keys == old(contacts).Keys
        invariant ProcessGroupsEach(cfg, w, State(), order[i..]) == ProcessGroupsEach(cfg, w, s, order)
      {
        assert order[i] in contacts;
        GroupsKeep(cfg, w, State(), order[i]);
        GroupsOnlyChannels(cfg, w, State(), order[i]);
        assert order[i..][1..] == order[i + 1..];
        ghost var before := State();
        r := ProcessGroupsForRecipient(w, order[i]);
        DidOk(r, State(), ProcessGroupsFor(cfg, w, before, order[i]));
        i := i + 1;
      }
      ghost var s1 := State();
      r := TellGroups(w, w.groupOrder(groups.Keys));
      EachDone(r, State(), old(State()), s1, cfg, w);
    }

    static lemma {:induction false} EachDone(r: Status, now: LinkModel.State, s: LinkModel.State, s1: LinkModel.State,
                                             cfg: Config, w: World)
      requires ProcessGroupsEach(cfg, w, s.(channels := {}), w.contactOrder(s.contacts.Keys)) == Ok(s1)
      requires Did(r, now, LinkModel.TellGroups(cfg, w, s1, w.groupOrder(s1.groups.Keys)))
      ensures Did(r, now, LinkModel.ProcessGroups(cfg, w, s)) && now == Left(LinkModel.ProcessGroups(cfg, w, s))
    {
      hide ProcessGroupsEach, LinkModel.TellGroups;
    }

    /** The second loop of `process_groups`: modes and topic of each group. */
    method TellGroups(w: World, ids: seq<int>) returns (r: Status)
      modifies `history, `topics
      ensures Did(r, State(), LinkModel.TellGroups(cfg, w, old(State()), ids))
    {
      hide LinkModel.TellModes, LinkModel.TellTopic;
      assert ids[0..] == ids;
      for i := 0 to |ids|
        invariant LinkModel.TellGroups(cfg, w, State(), ids[i..]) == LinkModel.TellGroups(cfg, w, old(State()), ids)
      {
        assert ids[i..][0] == ids[i] && ids[i..][1..] == ids[i + 1..];
        if ids[i] in groups {
          var grp := groups[ids[i]];
          r := TellModes(w, grp);
          if r.Err? { return; }
          TellTopic(grp);
        }
      }
      assert ids[|ids|..] == [];
      return Ok(());
    }

    /** The MODE lines of one group. */
    method TellModes(w: World, grp: Group) returns (r: Status)
      modifies `history
      ensures Did(r, State(), LinkModel.TellModes(cfg, w, old(State()), grp, grp.participants))
    {
      hide FindById, Reads;
      var parts := grp.participants;
      ghost var all := LinkModel.TellModes(cfg, w, State(), grp, parts);
      assert parts[0..] == parts;
      for i := 0 to |parts|
        invariant LinkModel.TellModes(cfg, w, State(), grp, parts[i..]) == all
      {
        assert parts[i..][0] == parts[i] && parts[i..][1..] == parts[i + 1..];
        var found := FindById(recipients, w.recipientOrder(recipients.Keys), parts[i]);
        if found.Some? {
          var num := GetAddr(cfg.accepts, found.value);
          if num.None? { return Err(BadAddress); }
          if num.value in contacts {
            Push(Mode(grp.channel, parts[i] in grp.admins, contacts[num.value].uuid));
          }
        }
      }
      assert parts[|parts|..] == [];
      return Ok(());
    }

    /** The TOPIC line of one group. */
    method TellTopic(grp: Group)
      modifies `history, `topics
      ensures State() == LinkModel.TellTopic(cfg, old(State()), grp)
    {
      if cfg.setTopics {
        var known := if grp.channel in topics then topics[grp.channel] else "";
        if known == "" || (cfg.clobberTopics && known != grp.topic) {
          Push(Topic(grp.channel, grp.topic));
          topics := topics[grp.channel := grp.topic];
        }
      }
    }

    // ---- messages ----

    /** `contact_message`. */
    method ContactMessage(u: Uid, line: Line) returns (r: Status)
      modifies this`history
      ensures Did(r, State(), ContactMessages(cfg, old(State()), u, [Out(line)]))
    {
      if u !in users { return Err(UnknownUid); }
      if !(cfg.sid <= u) { return Err(ForeignUid); }
      Push(line);
      return Ok(());
    }

    /** The fragments of one line, each as a PRIVMSG. */
    method SendLine(u: Uid, to: Target, line: string) returns (r: Status)
      modifies this`history
      ensures Did(r, State(), ContactMessages(cfg, old(State()), u, Privmsgs(u, to, Fragments.Sent(line, true))))
    {
      hide Fragments.Sent, Privmsgs, ContactMessages;
      var chunks := Fragments.SplitLine(line);
      assert chunks[0..] == chunks;
      for i := 0 to |chunks|
        invariant ContactMessages(cfg, State(), u, Privmsgs(u, to, chunks[i..])) ==
                  ContactMessages(cfg, old(State()), u, Privmsgs(u, to, chunks))
      {
        SayStep(cfg, State(), u, to, chunks, i);
        r := ContactMessage(u, Privmsg(u, to, chunks[i]));
        if r.Err? { return; }
      }
      SayNothing(cfg, State(), u, to, chunks);
      return Ok(());
    }

    method SendLines(u: Uid, to: Target, lines: seq<string>) returns (r: Status)
      modifies this`history
      ensures Did(r, State(), ContactMessages(cfg, old(State()), u, Privmsgs(u, to, Fragments.Chunks(lines))))
    {
      hide Fragments.Chunks, Fragments.Sent, Privmsgs;
      ChunksNone(u, to);
      assert lines[..0] == [];
      for i := 0 to |lines|
        invariant history == old(history) + Privmsgs(u, to, Fragments.Chunks(lines[..i]))
        invariant Privmsgs(u, to, Fragments.Chunks(lines[..i])) != [] ==> u in users && Ours(cfg, u)
      {
        LinesStep(u, to, lines, i);
        r := SendLine(u, to, lines[i]);
        if r.Err? { return; }
      }
      assert lines[..|lines|] == lines;
      return Ok(());
    }

    method SendRawMessage(u: Uid, text: string, group: Option<int>) returns (r: Status)
      modifies this`history
      ensures Did(r, State(), SendRaw(cfg, old(State()), u, text, group))
    {
      hide Fragments.Chunks, Fragments.Lines, Privmsgs;
      var to := ToAdmin;
      if group.Some? {
        if group.value !in groups { return Err(NoSuchGroup); }
        to := ToChannel(groups[group.value].channel);
        if cfg.ensureJoined {
          var admin := AdminUuid();
          if admin.Some? { Push(SvsJoin(groups[group.value].channel)); }
        }
      }
      r := SendLines(u, to, Fragments.Lines(text));
    }

    /** `delete_message`, with its error when no row is affected. */
    method DeleteMessage(id: int) returns (r: Status)
      modifies this`messages, this`history
      ensures id in old(messages) ==>
                r == Ok(()) && messages == old(messages) - {id} && history == old(history) + [Removed(id)]
      ensures id !in old(messages) ==> r == Err(NoSuchRow) && messages == old(messages) && history == old(history)
    {
      if id !in messages { return Err(NoSuchRow); }
      messages := messages - {id};
      history := history + [Removed(id)];
      return Ok(());
    }

    method DeleteMessages(ids: seq<int>) returns (r: Status)
      modifies this`messages, this`history
      ensures Did(r, State(), RemoveRows(old(State()), ids))
    {
      assert ids[0..] == ids;
      for k := 0 to |ids|
        invariant RemoveRows(State(), ids[k..]) == RemoveRows(old(State()), ids)
      {
        assert ids[k..][0] == ids[k] && ids[k..][1..] == ids[k + 1..];
        r := DeleteMessage(ids[k]);
        if r.Err? { return; }
      }
      assert ids[|ids|..] == [];
      return Ok(());
    }

    /** Send a text for a row, then delete the rows it came from. */
    method SendThenDelete(u: Uid, send: Delivery.Send) returns (r: Status)
      modifies this`history, this`messages
      ensures Did(r, State(), SendThenRemove(cfg, old(State()), u, send))
    {
      hide SendRaw, RemoveRows;
      r := SendRawMessage(u, send.text, send.row.group);
      if r.Err? { return; }
      r := DeleteMessages(send.ids);
    }

    method ProcessMsgPlain(w: World, u: Uid, row: Delivery.Row) returns (r: Status)
      requires row.body.Plain?
      modifies this`history, this`messages
      ensures Did(r, State(), Deliver(cfg, w, old(State()), u, row))
      ensures exists text ::
                && DeliveredTexts.StampedRight(w.oracle.stamp(row.ts), row.body.text, text)
                && Did(r, State(), SendThenRemove(cfg, old(State()), u, Delivery.Send(row, [row.id], text)))
    {
      hide SendThenRemove, Delivery.Stamped, DeliveredTexts.StampedRight;
      var output := PutStamp(w.oracle.stamp(row.ts), row.body.text);
      r := SendThenDelete(u, Delivery.Send(row, [row.id], output));
    }

    /** A late message with its time stamp, which an action has after its prefix. */
    static method PutStamp(stamp: string, original: string) returns (output: string)
      ensures output == Delivery.Stamped(stamp, original)
      ensures DeliveredTexts.StampedRight(stamp, original, output)
    {
      DeliveredTexts.StampPlaced(stamp, original);
      hide DeliveredTexts.StampedRight;
      output := "";
      var text := original;
      if Delivery.ACTION <= text {
        output := output + Delivery.ACTION;
        text := text[|Delivery.ACTION|..];
      }
      output := output + stamp;
      output := output + text;
    }

    /** The parts of a concatenated message, decoded; that they decode is what the table promises. */
    method DecodeParts(ids: seq<int>) returns (pdus: seq<Reassembly.Piece>)
      requires Delivery.WellKept(messages)
      requires forall k :: 0 <= k < |ids| ==> ids[k] in messages && messages[ids[k]].csms.Some?
      ensures Delivery.Pieces(messages, ids) == Ok(pdus)
    {
      pdus := [];
      DeliveryProofs.PiecesFound(messages, ids);
      assert ids[0..] == ids;
      for k := 0 to |ids|
        invariant Delivery.Pieces(messages, ids[k..]).Ok?
        invariant pdus + Delivery.Pieces(messages, ids[k..]).value == Delivery.Pieces(messages, ids).value
      {
        assert ids[k..][0] == ids[k] && ids[k..][1..] == ids[k + 1..];
        var row := messages[ids[k]];
        assert Delivery.StoredByModem(row);
        pdus := pdus + [Reassembly.Piece(row.body.pdu.text, row.body.pdu.concat.value.sequence)];
      }
      assert ids[|ids|..] == [] && pdus + [] == pdus;
    }

    method ProcessMsgPdu(w: World, u: Uid, row: Delivery.Row) returns (r: Status)
      requires row.body.Sms? && row.body.pdu != Delivery.Malformed
      requires Delivery.WellKept(messages) && Delivery.Honest(w.oracle)
      modifies this`history, this`messages
      ensures Did(r, State(), Deliver(cfg, w, old(State()), u, row))
    {
      hide SendThenRemove, ContactMessages;
      match row.body.pdu
      case Undecodable =>
        r := ContactMessage(u, ErrorNotice(u));
      case Decoded(text, None) =>
        r := SendThenDelete(u, Delivery.Send(row, [row.id], text));
      case Decoded(_, Some(cd)) =>
        var ids := w.oracle.concatOrder(Delivery.Group(messages, row.addr, cd.reference));
        assert Lists(ids, Delivery.Group(messages, row.addr, cd.reference));
        if |ids| != cd.parts { return Ok(()); }
        forall k | 0 <= k < |ids| ensures ids[k] in messages && messages[ids[k]].csms.Some? {
          assert ids[k] in ids;
        }
        var pdus := DecodeParts(ids);
        var concatenated := Append(Reassembly.Texts(Reassembly.Sort(pdus)));
        r := SendThenDelete(u, Delivery.Send(row, ids, concatenated));
    }

    /** One turn of the loop of `process_messages`. */
    method ProcessRow(w: World, row: Delivery.Row) returns (r: Status)
      requires Inv(cfg, State()) && Honest(w)
      modifies this
      ensures Did(r, State(), LinkModel.ProcessRow(cfg, w, old(State()), row))
    {
      hide Registry, Numbered, Counted, Named, Cached, Agreed, Stored, Onward, LinkModel.HandleRow,
           LinkModel.RequestContact, SetupCause;
      var addr := GetAddr(cfg.accepts, row.addr);
      if addr.None? { return Err(BadAddress); }
      CounterBound(cfg, State());
      if row.addr !in contacts {
        RequestKeeps(cfg, w, State(), row.addr, row.source);
        var made;
        r, made := RequestContact(w, row.addr, row.source);
        if r.Err? || !made { return; }
      }
      r := this.HandleRow(w, row);
    }

    method HandleRow(w: World, row: Delivery.Row) returns (r: Status)
      requires Inv(cfg, State()) && Honest(w) && row.addr in contacts
      modifies this
      ensures Did(r, State(), LinkModel.HandleRow(cfg, w, old(State()), row))
    {
      hide Registry, Numbered, Counted, Named, Cached, Agreed, Stored, Onward, Deliver, LinkModel.SetWaState,
           ContactMessages;
      if row.body == Delivery.Sms(Delivery.Malformed) { return Err(BadPdu); }
      var ct := contacts[row.addr];
      ghost var wa := row.body.Plain?;
      SwitchKeeps(cfg, State(), row.addr, wa);
      WellKeptNow(cfg, State());
      if row.body.Sms? {
        if ct.waMode {
          SetWaState(row.addr, false);
          r := ContactMessage(ct.uuid, ModeNotice(ct.uuid, false));
        }
        assert Ok(State()) == SwitchMode(cfg, old(State()), row.addr, wa);
        r := ProcessMsgPdu(w, ct.uuid, row);
      } else {
        if !ct.waMode {
          SetWaState(row.addr, true);
          r := ContactMessage(ct.uuid, ModeNotice(ct.uuid, true));
        }
        assert Ok(State()) == SwitchMode(cfg, old(State()), row.addr, wa);
        r := ProcessMsgPlain(w, ct.uuid, row);
      }
    }

    method ProcessMessages(w: World) returns (r: Status)
      requires Inv(cfg, State()) && Honest(w)
      modifies this
      ensures Did(r, State(), LinkModel.ProcessMessages(cfg, w, old(State())))
      ensures Inv(cfg, State())
    {
      hide Inv, Honest, LinkModel.ProcessRow, Underway, RowCause, GhostsAfter, PassCause, Poisoned, TooManySenders,
           Onward, MessagesCause;
      var admin := AdminUuid();
      if admin.None? { return Ok(()); }
      PassFails(cfg, w, State());
      Begin(cfg, w, State());
      ghost var table := messages;
      var rows := w.messageOrder(messages);
      var i := 0;
      assert rows[..0] == [] && rows[0..] == rows;
      while i < |rows|
        invariant i <= |rows| && Underway(cfg, w, State(), table, rows[..i], rows[i..]) && Inv(cfg, State())
        invariant ProcessRows(cfg, w, State(), rows[i..]) == ProcessRows(cfg, w, old(State()), rows)
      {
        NextRow(cfg, w, State(), table, rows[..i], rows[i..]);
        UnderwayNow(cfg, w, State(), table, rows[..i], rows[i..]);
        assert rows[i..][0] == rows[i] && rows[i..][1..] == rows[i + 1..] && rows[..i] + [rows[i]] == rows[..i + 1];
        r := ProcessRow(w, rows[i]);
        if r.Err? { return; }
        i := i + 1;
      }
      return Ok(());
    }

    // ---- linking ----

    method DoBurst()
      modifies this
      ensures State() == LinkModel.DoBurst(cfg, old(State()))
    {
      Push(Burst);
      var u := ControlUuid(cfg);
      users := users[u := User(cfg.controlNick, cfg.serverName)];
      Push(UidLine(u, cfg.controlNick, cfg.serverName));
      Push(EndBurst);
    }

    method DoQuasiburst(w: World) returns (r: Status)
      requires Inv(cfg, State()) && Honest(w)
      modifies this
      ensures Did(r, State(), QuasiBurst(cfg, w, old(State())))
    {
      hide Inv, LinkModel.SetupRecipient;
      var snap := recipients;
      var order := w.recipientOrder(recipients.Keys);
      assert Lists(order, recipients.Keys);
      assert order[0..] == order;
      for i := 0 to |order|
        invariant SetupEach(cfg, w, State(), snap, order[i..]) == SetupEach(cfg, w, old(State()), snap, order)
      {
        assert order[i..][0] == order[i] && order[i..][1..] == order[i + 1..];
        assert order[i] in order;
        r := SetupRecipient(w, snap[order[i]], order[i]);
        if r.Err? { return; }
      }
      assert order[|order|..] == [];
      return Ok(());
    }

    method OnLinked(w: World) returns (r: Status)
      requires Inv(cfg, State()) && Honest(w)
      modifies this
      ensures Did(r, State(), LinkModel.OnLinked(cfg, w, old(State())))
    {
      hide Inv, Honest, LinkModel.ProcessGroups, LinkModel.ProcessMessages;
      ControlKeeps(cfg, State(), Out(Join(ControlUuid(cfg), cfg.logChan)));
      Push(Join(ControlUuid(cfg), cfg.logChan));
      r := ProcessGroups(w);
      if r.Err? { return; }
      r := ProcessMessages(w);
    }

    /** ENDBURST of the server we are linked to. */
    method Finish(w: World) returns (r: Status)
      requires Inv(cfg, State()) && Honest(w)
      modifies this
      ensures Did(r, State(), Step(cfg, w, old(State()), EndBurstEvent(old(remoteSid)), None))
    {
      hide Inv, Honest, QuasiBurst, LinkModel.OnLinked, Onward, BadRecipient, TooMany, BurstCause, RemoveAndRecreate,
           WithoutGroup, ParseUid, LinkModel.RequestContact, LinkModel.DropContact, LinkModel.ForwardCmd;
      QuasiBurstKeeps(cfg, w, State());
      r := DoQuasiburst(w);
      if r.Err? { return; }
      SilentKeepsStored(cfg, State(), State().(phase := Linked));
      phase := Linked;
      r := OnLinked(w);
    }

    /** What the first poll of a new connection does before anything else. */
    method Connect()
      modifies this
      ensures State() == LinkModel.Connect(old(State()))
    {
      if phase == TcpConnected {
        Push(Hello);
        phase := ServerSent;
      }
    }

    /** A UID line: a user, who may be the admin. */
    method MeetUser(w: World, args: seq<string>, suffix: Option<string>) returns (r: Status)
      requires Inv(cfg, State()) && Honest(w) && Allowed(cfg, State(), UidEvent(args, suffix), None)
      modifies this
      ensures Did(r, State(), Step(cfg, w, old(State()), UidEvent(args, suffix), None))
      ensures Inv(cfg, State())
    {
      hide Inv, Honest, LinkModel.ProcessMessages, ParseUid;
      var parsed := ParseUid(args, suffix);
      if parsed.None? { return Err(BadUidLine); }
      var (u, user) := parsed.value;
      UsersKeep(cfg, State(), users[u := user]);
      users := users[u := user];
      r := Ok(());
      if user.nick == cfg.adminNick { r := ProcessMessages(w); }
    }

    /** `handle_remote_message`, for the messages that change state or end the task. */
    method HandleRemoteMessage(w: World, e: Event) returns (r: Status)
      requires Inv(cfg, State()) && Honest(w) && Allowed(cfg, State(), e, None)
      requires e.ErrorEvent? || e.ServerEvent? || e.UidEvent? || e.KillEvent? || e.QuitEvent? || e.SquitEvent?
               || e.NickEvent? || e.HostEvent? || e.TopicEvent? || e.EndBurstEvent?
      modifies this
      ensures Did(r, State(), Step(cfg, w, old(State()), e, None))
      ensures Inv(cfg, State())
    {
      hide Inv, Honest, LinkModel.ProcessMessages, RemoveAndRecreate, LinkModel.DoBurst, QuasiBurst, LinkModel.OnLinked,
           ParseUid, Failing;
      StepKeeps(cfg, w, State(), e, None);
      r := Ok(());
      if e.SquitEvent? || e.NickEvent? || e.HostEvent? || e.TopicEvent? {
        TakeNotice(w, e);
        return;
      }
      match e
      case ErrorEvent => return Err(RemoteError);
      case ServerEvent(args) =>
        if |args| != 4 || args[1] != cfg.recvPass || args[2] != "0" { return Err(BadServer); }
        remoteSid := args[3];
        DoBurst();
        phase := BurstSent;
      case UidEvent(args, suffix) => r := MeetUser(w, args, suffix);
      case KillEvent(u) =>
        history := history + [Gone(u)];
        r := RemoveUser(w, u, true);
      case QuitEvent(u) =>
        history := history + [Gone(u)];
        r := RemoveUser(w, u, true);
      case EndBurstEvent(prefix) => if prefix == remoteSid { r := Finish(w); }
    }

    /** What the peer says of users and channels. */
    method TakeNotice(ghost w: World, e: Event)
      requires e.SquitEvent? || e.NickEvent? || e.HostEvent? || e.TopicEvent?
      modifies this
      ensures Ok(State()) == Step(cfg, w, old(State()), e, None)
    {
      match e
      case SquitEvent(server) => users := map u | u in users && !(server <= u) :: users[u];
      case NickEvent(u, nick) => if u in users { users := users[u := users[u].(nick := nick)]; }
      case HostEvent(u, host) => if u in users { users := users[u := users[u].(host := host)]; }
      case TopicEvent(channel, topic) => topics := topics[channel := topic];
    }

    /** `handle_cf_command`. */
    method HandleCommand(w: World, e: Event) returns (r: Status, ghost found: Option<Addr>)
      requires Inv(cfg, State()) && Honest(w) && phase == Linked
      requires e.DoMessages? || e.DoGroups? || e.DoSetup? || e.DoQuery? || e.DoDrop? || e.DoForward? || e.DropByNick?
               || e.ForwardByNick?
      modifies this
      ensures Allowed(cfg, old(State()), e, found)
      ensures Did(r, State(), Step(cfg, w, old(State()), e, found))
      ensures Inv(cfg, State())
    {
      hide Inv, Honest, LinkModel.ProcessMessages, LinkModel.ProcessGroups, LinkModel.SetupContact,
           LinkModel.RequestContact, LinkModel.DropContact, LinkModel.ForwardCmd, Failing, Allowed;
      if e.DropByNick? || e.ForwardByNick? {
        r, found := HandleByNick(w, e);
        return;
      }
      AllowedLinked(cfg, State(), e);
      found := None;
      r := Ok(());
      match e
      case DoMessages => r := ProcessMessages(w);
      case DoGroups => r := ProcessGroups(w);
      case DoSetup(a) =>
        StepKeeps(cfg, w, State(), e, None);
        r := SetupContact(w, a);
      case DoQuery(a, source) =>
        StepKeeps(cfg, w, State(), e, None);
        var made;
        r, made := RequestContact(w, a, source);
      case DoDrop(a) =>
        StepKeeps(cfg, w, State(), e, None);
        r := DropContact(w, a);
      case DoForward(a, cmd) =>
        ForwardKeeps(cfg, State(), a, cmd);
        if a in contacts { ContactFacts(cfg, State(), a); }
        ForwardCmd(a, cmd);
    }

    /** The two commands that name a contact by its nick. */
    method HandleByNick(w: World, e: Event) returns (r: Status, ghost found: Option<Addr>)
      requires Inv(cfg, State()) && Honest(w) && phase == Linked && (e.DropByNick? || e.ForwardByNick?)
      modifies this
      ensures Allowed(cfg, old(State()), e, found)
      ensures Did(r, State(), Step(cfg, w, old(State()), e, found))
      ensures Inv(cfg, State())
    {
      hide Inv, Honest, LinkModel.DropContact, LinkModel.ForwardCmd, Failing;
      found := None;
      r := Ok(());
      match e
      case DropByNick(who) =>
        var a := ResolveNick(who);
        found := a;
        StepKeeps(cfg, w, State(), e, found);
        if a.Some? { r := DropContact(w, a.value); }
      case ForwardByNick(who, cmd) =>
        found := ForwardCmdByNick(who, cmd);
    }
  }

  /** Commands that name no contact by nick need nothing but the link. */
  lemma AllowedLinked(cfg: Config, s: LinkModel.State, e: Event)
    requires s.phase == Linked
    requires e.DoMessages? || e.DoGroups? || e.DoSetup? || e.DoQuery? || e.DoDrop? || e.DoForward?
    ensures Allowed(cfg, s, e, None)
  {
  }

  lemma DidOk(r: Status, s: State, spec: Outcome)
    requires Did(r, s, spec) && spec.Ok?
    ensures r == Ok(()) && s == spec.value
  {
  }

  // ---- small facts about lines ----

  lemma {:induction false} JoinsStep(u: Uid, channels: seq<string>, c: string)
    ensures Joins(u, channels + [c]) == Joins(u, channels) + [Out(Join(u, c))]
    ensures Elements(channels + [c]) == Elements(channels) + {c}
  {
  }

  lemma {:induction false} PartsNone(u: Uid, wanted: seq<string>)
    ensures Parts(u, Dropped([], wanted)) == []
  {
  }

  lemma {:induction false} DroppedStep(u: Uid, had: seq<string>, wanted: seq<string>, i: nat)
    requires i < |had|
    ensures Parts(u, Dropped(had[i..], wanted)) ==
            (if had[i] in wanted then [] else [Out(Part(u, had[i]))]) + Parts(u, Dropped(had[i + 1..], wanted))
    ensures had[0..] == had
  {
    assert had[i..][1..] == had[i + 1..];
  }

  lemma {:induction false} NamesNone(groups: map<int, Group>, u: Uid)
    ensures ChannelNames(groups, []) == [] && Joins(u, []) == []
  {
  }

  lemma {:induction false} NamesStep(groups: map<int, Group>, ids: seq<int>, i: nat)
    requires i < |ids|
    ensures ChannelNames(groups, ids[i..]) ==
            (if ids[i] in groups then [groups[ids[i]].channel] else []) + ChannelNames(groups, ids[i + 1..])
  {
    assert ids[i..][1..] == ids[i + 1..];
  }

  lemma {:induction false} ChunksNone(u: Uid, to: Target)
    ensures Privmsgs(u, to, Fragments.Chunks([])) == []
  {
  }

  lemma {:induction false} PrivmsgsAppend(u: Uid, to: Target, xs: seq<string>, ys: seq<string>)
    ensures Privmsgs(u, to, xs + ys) == Privmsgs(u, to, xs) + Privmsgs(u, to, ys)
  {
  }

  /** One line, then the rest. */
  lemma {:induction false} SayStep(cfg: Config, s: LinkModel.State, u: Uid, to: Target, chunks: seq<string>, i: nat)
    requires i < |chunks|
    ensures var r := ContactMessages(cfg, s, u, [Out(Privmsg(u, to, chunks[i]))]);
            ContactMessages(cfg, s, u, Privmsgs(u, to, chunks[i..])) ==
              if r.Err? then r else ContactMessages(cfg, r.value, u, Privmsgs(u, to, chunks[i + 1..]))
  {
    assert chunks[i..][0] == chunks[i] && chunks[i..][1..] == chunks[i + 1..];
    var rest := Privmsgs(u, to, chunks[i + 1..]);
    assert Privmsgs(u, to, chunks[i..]) == [Out(Privmsg(u, to, chunks[i]))] + rest;
    hide Privmsgs;
    Regroup(s.log, [Out(Privmsg(u, to, chunks[i]))], rest);
    assert rest == [] ==> (s.log + [Out(Privmsg(u, to, chunks[i]))]) + rest == s.log + [Out(Privmsg(u, to, chunks[i]))];
  }

  lemma SayNothing(cfg: Config, s: LinkModel.State, u: Uid, to: Target, chunks: seq<string>)
    ensures ContactMessages(cfg, s, u, Privmsgs(u, to, chunks[|chunks|..])) == Ok(s)
  {
  }

  lemma {:induction false} ChunksAppend(xs: seq<string>, ys: seq<string>)
    ensures Fragments.Chunks(xs + ys) == Fragments.Chunks(xs) + Fragments.Chunks(ys)
  {
    if xs == [] {
      assert xs + ys == ys;
    } else {
      assert (xs + ys)[1..] == xs[1..] + ys;
      ChunksAppend(xs[1..], ys);
    }
  }

  lemma {:induction false} ChunksStep(lines: seq<string>, i: nat)
    requires i < |lines|
    ensures Fragments.Chunks(lines[..i + 1]) == Fragments.Chunks(lines[..i]) + Fragments.Sent(lines[i], true)
  {
    ChunksAppend(lines[..i], [lines[i]]);
    assert lines[..i] + [lines[i]] == lines[..i + 1];
    assert [lines[i]][1..] == [];
    assert Fragments.Chunks([lines[i]]) == Fragments.Sent(lines[i], true) + Fragments.Chunks([]);
  }

  lemma {:induction false} LinesStep(u: Uid, to: Target, lines: seq<string>, i: nat)
    requires i < |lines|
    ensures var line := Privmsgs(u, to, Fragments.Sent(lines[i], true));
            && Privmsgs(u, to, Fragments.Chunks(lines[..i + 1])) == Privmsgs(u, to, Fragments.Chunks(lines[..i])) + line
            && (line != [] ==> Privmsgs(u, to, Fragments.Chunks(lines)) != [])
  {
    hide Fragments.Chunks, Fragments.Sent;
    ChunksStep(lines, i);
    PrivmsgsAppend(u, to, Fragments.Chunks(lines[..i]), Fragments.Sent(lines[i], true));
    if Fragments.Sent(lines[i], true) != [] { ChunksPrefix(lines, i + 1); }
  }

  lemma {:induction false} ChunksPrefix(lines: seq<string>, i: nat)
    requires i <= |lines| && Fragments.Chunks(lines[..i]) != []
    ensures Fragments.Chunks(lines) != []
  {
    ChunksAppend(lines[..i], lines[i..]);
    assert lines[..i] + lines[i..] == lines;
  }

  /** `push_str` of the parts' texts in turn. */
  method Append(texts: seq<string>) returns (whole: string)
    ensures whole == Fragments.Concat(texts)
  {
    whole := "";
    assert texts[0..] == texts;
    for k := 0 to |texts|
      invariant whole + Fragments.Concat(texts[k..]) == Fragments.Concat(texts)
    {
      assert texts[k..][0] == texts[k] && texts[k..][1..] == texts[k + 1..];
      whole := whole + texts[k];
    }
    assert texts[|texts|..] == [];
  }
}
