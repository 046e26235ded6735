/** Every step of the link keeps the invariant, and fails only for the reasons named. */
module LinkSteps {
  import opened Outcomes
  import opened Failures
  import opened Address
  import opened Peer
  import opened LinkModel
  import opened LinkInvariant
  import Delivery
  import DeliveryProofs
  import Fragments
  import Nicks

  /** The users who are no ghosts. */
  ghost function Strangers(s: State): map<Uid, User> {
    map u | u in s.users && u !in s.owners :: s.users[u]
  }

  /** What setting up contacts and handling messages leave alone. */
  ghost predicate Onward(s: State, s': State) {
    && Strangers(s') == Strangers(s)
    && s'.recipients.Keys == s.recipients.Keys && s'.groups == s.groups
    && s'.phase == s.phase && s'.remoteSid == s.remoteSid
    && s.contacts.Keys <= s'.contacts.Keys
    && (forall a :: a in s.contacts ==> s'.contacts[a].uuid == s.contacts[a].uuid)
    && s.owners.Keys <= s'.owners.Keys
    && s.nextUser <= s'.nextUser
  }

  /** What the invariant says of one contact. */
  lemma {:induction false} ContactFacts(cfg: Config, s: State, a: Addr)
    requires Inv(cfg, s) && a in s.contacts
    ensures var u := s.contacts[a].uuid;
            && u in s.owners && s.owners[u] == a && u in s.users && a in s.recipients && Reads(cfg.accepts, a)
            && Ours(cfg, u) && u != ControlUuid(cfg)
            && s.users[u].nick == s.recipients[a].nick && s.contacts[a].waMode == s.recipients[a].whatsapp
  {
    IssuedShape(cfg, s.contacts[a].uuid, s.nextUser);
    assert Shows(cfg, s, a);
  }

  lemma {:induction false} OwnerFacts(cfg: Config, s: State, u: Uid)
    requires Inv(cfg, s) && u in s.owners
    ensures s.owners[u] in s.contacts && s.contacts[s.owners[u]].uuid == u && u in s.users && Ours(cfg, u)
  {
    ContactFacts(cfg, s, s.owners[u]);
  }

  lemma {:induction false} CounterBound(cfg: Config, s: State)
    requires Inv(cfg, s)
    ensures 1 <= s.nextUser <= MAX_USER_ID + 1 && s.contacts.Keys <= s.recipients.Keys
    ensures s.nextUser <= MAX_USER_ID ==> Uuid(cfg, s.nextUser) !in s.owners && Uuid(cfg, s.nextUser) !in s.users
  {
    if s.nextUser <= MAX_USER_ID { NextIsNew(cfg, s); }
  }

  // ---- setting up contacts ----

  lemma {:induction false} StoreNickKeeps(cfg: Config, s: State, a: Addr, nick: string, source: int)
    requires Inv(cfg, s) && a !in s.contacts
    ensures Inv(cfg, StoreNick(s, a, nick, source))
  {
    hide Registry, Numbered, Counted, Named, Cached, Agreed, Stored;
    SilentKeeps(cfg, s, StoreNick(s, a, nick, source));
  }

  /** The state in which the new ghost has been introduced and not yet joined anything. */
  function Introduced1(cfg: Config, s: State, recip: Recipient, a: Addr): State {
    var nick := Nicks.Settle(Used(cfg, s), recip.nick);
    var s1 := if nick != recip.nick then StoreNick(s, a, nick, NICKSRC_COLLISION) else s;
    Introduce(cfg, s1, a, nick, recip.whatsapp)
  }

  lemma {:induction false} IntroducedKeeps(cfg: Config, s: State, a: Addr)
    requires Inv(cfg, s) && a in s.recipients && a !in s.contacts && s.nextUser <= MAX_USER_ID && Reads(cfg.accepts, a)
    ensures Inv(cfg, Introduced1(cfg, s, s.recipients[a], a))
  {
    hide Registry, Numbered, Counted, Named, Cached, Agreed, Stored, Reads;
    var recip := s.recipients[a];
    var nick := Nicks.Settle(Used(cfg, s), recip.nick);
    if nick != recip.nick {
      StoreNickKeeps(cfg, s, a, nick, NICKSRC_COLLISION);
      IntroduceKeeps(cfg, StoreNick(s, a, nick, NICKSRC_COLLISION), a, nick, recip.whatsapp);
    } else {
      IntroduceKeeps(cfg, s, a, nick, recip.whatsapp);
    }
  }

  lemma {:induction false} IntroducedOnward(cfg: Config, s: State, a: Addr)
    requires Registry(s) && Numbered(cfg, s) && a in s.recipients && a !in s.contacts && s.nextUser <= MAX_USER_ID
    ensures var s' := Introduced1(cfg, s, s.recipients[a], a);
            && Onward(s, s') && s'.messages == s.messages && s'.contacts.Keys == s.contacts.Keys + {a}
            && s'.contacts[a].uuid == Uuid(cfg, s.nextUser) && s'.nextUser == s.nextUser + 1
            && s'.contacts[a].waMode == s.recipients[a].whatsapp
            && (forall b :: b in s.contacts ==> s'.contacts[b] == s.contacts[b])
  {
    hide Registry, Numbered, Counted, Named, Cached, Agreed, Stored, Introduced1, Uuid, Strangers;
    NextIsNew(cfg, s);
    IntroducedIs(cfg, s, s.recipients[a], a);
    var s', u := Introduced1(cfg, s, s.recipients[a], a), Uuid(cfg, s.nextUser);
    StrangersSame(s, s', u, s'.users[u]);
  }

  /** What the introduction of a ghost writes. */
  lemma IntroducedIs(cfg: Config, s: State, recip: Recipient, a: Addr)
    ensures var s', u := Introduced1(cfg, s, recip, a), Uuid(cfg, s.nextUser);
            && u in s'.users && s'.recipients.Keys == s.recipients.Keys && s.log <= s'.log
            && s' == s.(users := s.users[u := s'.users[u]], contacts := s.contacts[a := Contact(u, [], recip.whatsapp)],
                        owners := s.owners[u := a], recipients := s'.recipients, nextUser := s.nextUser + 1,
                        log := s'.log)
  {
    hide Nicks.Settle, Used, Uuid, HostFor, StoreNick, Introduce;
    var nick := Nicks.Settle(Used(cfg, s), recip.nick);
    NickStored(s, a, nick, NICKSRC_COLLISION);
    var s1 := if nick != recip.nick then StoreNick(s, a, nick, NICKSRC_COLLISION) else s;
    IntroduceIs(cfg, s1, a, nick, recip.whatsapp);
  }

  /** A setup leaves the other rows alone, and the mode and the id of its own. */
  lemma {:induction false} SetupRows(cfg: Config, w: World, s: State, recip: Recipient, a: Addr)
    requires SetupContactFor(cfg, w, s, recip, a).Ok?
    ensures var rows := SetupContactFor(cfg, w, s, recip, a).value.recipients;
            && rows.Keys == s.recipients.Keys
            && (forall b :: b in s.recipients && b != a ==> rows[b] == s.recipients[b])
            && (forall b :: b in s.recipients ==>
                  rows[b].whatsapp == s.recipients[b].whatsapp && rows[b].id == s.recipients[b].id)
  {
    hide Nicks.Settle, Used, Uuid, HostFor, StoreNick, Introduce, ProcessGroupsFor;
    var nick := Nicks.Settle(Used(cfg, s), recip.nick);
    var s1 := if nick != recip.nick then StoreNick(s, a, nick, NICKSRC_COLLISION) else s;
    RowStored(s, a, nick, NICKSRC_COLLISION);
    IntroduceIs(cfg, s1, a, nick, recip.whatsapp);
    var s2 := Introduce(cfg, s1, a, nick, recip.whatsapp);
    if s2.phase == Linked { GroupsOnlyChannels(cfg, w, s2, a); }
  }

  lemma RowStored(s: State, a: Addr, nick: string, source: int)
    ensures var rows := StoreNick(s, a, nick, source).recipients;
            && rows.Keys == s.recipients.Keys
            && (forall b :: b in s.recipients && b != a ==> rows[b] == s.recipients[b])
            && (forall b :: b in s.recipients ==>
                  rows[b].whatsapp == s.recipients[b].whatsapp && rows[b].id == s.recipients[b].id)
  {
    var rows := StoreNick(s, a, nick, source).recipients;
    if a in s.recipients {
      hide StoreNick;
      RowIs(s, a, nick, source);
      assert rows.Keys == s.recipients.Keys;
    }
  }

  lemma RowIs(s: State, a: Addr, nick: string, source: int)
    requires a in s.recipients
    ensures StoreNick(s, a, nick, source).recipients
            == s.recipients[a := s.recipients[a].(nick := nick, nickSource := source)]
  {
  }

  lemma NickStored(s: State, a: Addr, nick: string, source: int)
    ensures var s' := StoreNick(s, a, nick, source);
            s' == s.(recipients := s'.recipients) && s'.recipients.Keys == s.recipients.Keys
  {
  }

  lemma IntroduceIs(cfg: Config, s: State, a: Addr, nick: string, wa: bool)
    ensures var s', u := Introduce(cfg, s, a, nick, wa), Uuid(cfg, s.nextUser);
            && u in s'.users && s.log <= s'.log
            && s' == s.(users := s.users[u := s'.users[u]], contacts := s.contacts[a := Contact(u, [], wa)],
                        owners := s.owners[u := a], nextUser := s.nextUser + 1, log := s'.log)
  {
    hide Uuid, HostFor;
  }

  lemma {:induction false} StrangersSame(s: State, s': State, u: Uid, user: User)
    requires u !in s.users && s'.users == s.users[u := user] && s'.owners.Keys == s.owners.Keys + {u}
    ensures Strangers(s') == Strangers(s)
  {
  }

  lemma GroupsOwn(cfg: Config, w: World, s: State, a: Addr)
    requires ProcessGroupsFor(cfg, w, s, a).Ok?
    ensures a in s.contacts
    ensures var s' := ProcessGroupsFor(cfg, w, s, a).value;
            && a in s'.contacts
            && s' == s.(contacts := s.contacts[a := s.contacts[a].(channels := s'.contacts[a].channels)],
                        channels := s'.channels, log := s'.log)
  {
  }

  lemma {:induction false} SetupExhausted(cfg: Config, w: World, s: State, a: Addr)
    requires Inv(cfg, s) && a in s.recipients && a !in s.contacts && s.nextUser > MAX_USER_ID
    ensures var r := SetupContactFor(cfg, w, s, s.recipients[a], a);
            && r.Err? && r.error.why == UuidsExhausted && r.error.at.contacts == s.contacts
            && Inv(cfg, Left(r)) && Onward(s, Left(r)) && Left(r).messages == s.messages
  {
    hide Registry, Numbered, Counted, Named, Cached, Agreed, Stored;
    StoreNickKeeps(cfg, s, a, Nicks.Settle(Used(cfg, s), s.recipients[a].nick), NICKSRC_COLLISION);
  }

  lemma SetupIs(cfg: Config, w: World, s: State, recip: Recipient, a: Addr)
    requires s.nextUser <= MAX_USER_ID
    ensures var s2 := Introduced1(cfg, s, recip, a);
            SetupContactFor(cfg, w, s, recip, a)
            == (if s2.phase == Linked then ProcessGroupsFor(cfg, w, s2, a) else Ok(s2))
  {
  }

  /** `setup_contact_for`, given the recipient's own row: only the UUIDs can run out, after the row got
      its new nick; whatever happens, the state left keeps the invariant. */
  lemma {:induction false} SetupKeeps(cfg: Config, w: World, s: State, a: Addr)
    requires Inv(cfg, s) && a in s.recipients && a !in s.contacts && Reads(cfg.accepts, a)
    ensures var r := SetupContactFor(cfg, w, s, s.recipients[a], a);
            && (r.Err? <==> s.nextUser > MAX_USER_ID)
            && (r.Err? ==> r.error.why == UuidsExhausted && r.error.at.contacts == s.contacts)
            && Inv(cfg, Left(r)) && Onward(s, Left(r)) && Left(r).messages == s.messages
            && (forall b :: b in s.contacts ==> Left(r).contacts[b] == s.contacts[b])
            && (r.Ok? ==>
                  && r.value.contacts.Keys == s.contacts.Keys + {a} && r.value.nextUser == s.nextUser + 1
                  && r.value.contacts[a].uuid == Uuid(cfg, s.nextUser)
                  && r.value.contacts[a].waMode == s.recipients[a].whatsapp)
  {
    hide Registry, Numbered, Counted, Named, Cached, Agreed, Stored, Reads, Introduced1, SetupContactFor,
         ProcessGroupsFor;
    if s.nextUser <= MAX_USER_ID {
      IntroducedKeeps(cfg, s, a);
      IntroducedOnward(cfg, s, a);
      IntroducedIs(cfg, s, s.recipients[a], a);
      SetupIs(cfg, w, s, s.recipients[a], a);
      var s2 := Introduced1(cfg, s, s.recipients[a], a);
      if s2.phase == Linked {
        GroupsKeep(cfg, w, s2, a);
        GroupsOwn(cfg, w, s2, a);
      }
    } else {
      SetupExhausted(cfg, w, s, a);
    }
  }

  /** The addresses with a contact and the counter of the UUIDs: all that decides when these run out. */
  datatype Ghosts = Ghosts(contacts: set<Addr>, next: nat)

  function GhostsOf(s: State): Ghosts {
    Ghosts(s.contacts.Keys, s.nextUser)
  }

  /** With a contact for an address. */
  function Met(g: Ghosts, a: Addr): Ghosts {
    if a in g.contacts then g else Ghosts(g.contacts + {a}, g.next + 1)
  }

  /** Why setting up the recipient of a row fails, if it does: the row does not read back, or needs a
      UUID when there is none left. */
  function SetupCause(cfg: Config, g: Ghosts, a: Addr): Option<Failure> {
    if !Reads(cfg.accepts, a) then Some(BadAddress)
    else if a !in g.contacts && g.next > MAX_USER_ID then Some(UuidsExhausted)
    else None
  }

  /** `setup_recipient` fails exactly when the row does not read back, or needs a UUID when there is
      none left. */
  lemma {:induction false} SetupRecipientKeeps(cfg: Config, w: World, s: State, a: Addr)
    requires Inv(cfg, s) && a in s.recipients
    ensures var r := SetupRecipient(cfg, w, s, s.recipients[a], a);
            && Why(r) == SetupCause(cfg, GhostsOf(s), a)
            && (r.Err? ==> r.error.at.contacts == s.contacts)
            && Inv(cfg, Left(r)) && Onward(s, Left(r)) && Left(r).messages == s.messages
            && (forall b :: b in s.contacts ==> Left(r).contacts[b] == s.contacts[b])
            && (r.Ok? ==>
                  && GhostsOf(r.value) == Met(GhostsOf(s), a)
                  && (a !in s.contacts ==> r.value.contacts[a].waMode == s.recipients[a].whatsapp))
  {
    hide Registry, Numbered, Counted, Named, Cached, Agreed, Stored, Reads;
    if a in s.contacts {
      ContactFacts(cfg, s, a);
    } else if Reads(cfg.accepts, a) {
      SetupKeeps(cfg, w, s, a);
    }
  }

  lemma {:induction false} RequestKeeps(cfg: Config, w: World, s: State, a: Addr, source: int)
    requires Inv(cfg, s)
    ensures var r := RequestContact(cfg, w, s, a, source);
            && Why(r) == (if a in s.recipients then SetupCause(cfg, GhostsOf(s), a) else None)
            && (r.Err? ==> r.error.at.contacts == s.contacts)
            && Inv(cfg, Left(r)) && Onward(s, Left(r)) && Left(r).messages == s.messages
            && (forall b :: b in s.contacts ==> Left(r).contacts[b] == s.contacts[b])
            && (a !in s.recipients ==> Left(r).contacts == s.contacts)
            && (r.Ok? ==>
                  && GhostsOf(r.value) == (if a in s.recipients then Met(GhostsOf(s), a) else GhostsOf(s))
                  && (a in r.value.contacts <==> a in s.recipients)
                  && (a in s.recipients && a !in s.contacts ==>
                        r.value.contacts[a].waMode == s.recipients[a].whatsapp))
  {
    hide Registry, Numbered, Counted, Named, Cached, Agreed, Stored, SetupCause;
    CounterBound(cfg, s);
    if a in s.recipients {
      SetupRecipientKeeps(cfg, w, s, a);
      hide SetupRecipient;
    } else {
      TalkKeeps(cfg, s, [Asked(a, source)]);
    }
  }

  /** A KILL or a QUIT: a ghost comes back under a UUID that was never issued before; the set of
      contacts stays the same. Only when the UUIDs have run out it does not come back. */
  lemma {:induction false} GoneKeeps(cfg: Config, w: World, s: State, u: Uid)
    requires Inv(cfg, s)
    ensures var r := RemoveAndRecreate(cfg, w, s.(log := s.log + [Gone(u)]), u);
            && (r.Err? <==> u in s.owners && s.nextUser > MAX_USER_ID)
            && (r.Err? ==> r.error.why == UuidsExhausted && r.error.at.contacts == s.contacts - {s.owners[u]})
            && Inv(cfg, Left(r)) && Left(r).messages == s.messages && Left(r).groups == s.groups
            && (r.Ok? ==>
                  && r.value.contacts.Keys == s.contacts.Keys
                  && (u in s.owners ==>
                        && r.value.contacts[s.owners[u]].uuid == Uuid(cfg, s.nextUser)
                        && !Issued(cfg, Uuid(cfg, s.nextUser), s.nextUser)
                        && u !in r.value.owners))
  {
    hide Registry, Numbered, Counted, Named, Cached, Agreed, Stored, Reads;
    CounterBound(cfg, s);
    ForgetKeeps(cfg, s, u, Gone(u));
    var s1 := Forget(s.(log := s.log + [Gone(u)]), u);
    if u in s.owners {
      OwnerFacts(cfg, s, u);
      ContactFacts(cfg, s, s.owners[u]);
      var a := s.owners[u];
      SetupKeeps(cfg, w, s1, a);
      if s.nextUser <= MAX_USER_ID {
        NextIsNew(cfg, s);
        var s2 := SetupContactFor(cfg, w, s1, s1.recipients[a], a).value;
        assert s2.contacts.Keys == s.contacts.Keys;
        GoneForGood(s, s1, s2, u, a);
      }
    }
  }

  lemma {:induction false} GoneForGood(s: State, s1: State, s2: State, u: Uid, a: Addr)
    requires Registry(s) && Registry(s2) && u in s.owners && s.owners[u] == a && a in s2.contacts
    requires s1.contacts == s.contacts - {a} && s2.contacts[a].uuid !in s.owners
    requires s2.contacts.Keys == s.contacts.Keys && forall b :: b in s1.contacts ==> s2.contacts[b] == s1.contacts[b]
    ensures u !in s2.owners
  {
  }

  /** `drop_contact` fails exactly when there is no row; otherwise row and contact go together. */
  lemma {:induction false} DropKeeps(cfg: Config, s: State, a: Addr)
    requires Inv(cfg, s)
    ensures DropContact(s, a).Err? <==> a !in s.recipients
    ensures DropContact(s, a).Err? ==> DropContact(s, a).error == Stop(NoSuchRecipient, s)
    ensures DropContact(s, a).Ok? ==>
              var s' := DropContact(s, a).value;
              Inv(cfg, s') && s'.recipients == s.recipients - {a} && s'.contacts == s.contacts - {a}
  {
    hide Registry, Numbered, Counted, Named, Cached, Agreed, Stored;
    if a in s.recipients {
      var s1 := s;
      if a in s.contacts {
        ContactFacts(cfg, s, a);
        var u := s.contacts[a].uuid;
        ForgetKeeps(cfg, s, u, Out(Quit(u)));
        s1 := Forget(Say(s, Quit(u)), u);
      }
      SilentKeeps(cfg, s1, s1.(recipients := s.recipients - {a}));
      DropIsForget(cfg, s, s1, a);
    }
  }

  lemma {:induction false} DropIsForget(cfg: Config, s: State, s1: State, a: Addr)
    requires Inv(cfg, s) && Inv(cfg, s1) && a !in s1.contacts && a in s.recipients
    requires s1 == if a in s.contacts then Forget(Say(s, Quit(s.contacts[a].uuid)), s.contacts[a].uuid) else s
    ensures DropContact(s, a) == Ok(s1.(recipients := s.recipients - {a}))
    ensures s1.contacts == s.contacts - {a}
  {
    hide Numbered, Counted, Named, Cached, Agreed, Stored;
    if a in s.contacts {
      assert s.owners[s.contacts[a].uuid] == a;
    }
    assert (map u | u in s1.owners && s1.owners[u] != a :: s1.owners[u]) == s1.owners;
    assert s1.contacts - {a} == s1.contacts;
  }

  // ---- commands ----

  lemma {:induction false} ForwardKeeps(cfg: Config, s: State, a: Addr, cmd: Command)
    requires Inv(cfg, s)
    ensures ForwardCmd(cfg, s, a, cmd).Ok?
    ensures Inv(cfg, ForwardCmd(cfg, s, a, cmd).value)
  {
    hide Registry, Numbered, Counted, Named, Cached, Agreed, Stored;
    if a in s.contacts {
      ContactFacts(cfg, s, a);
      match cmd
      case UpdateAway(reason) =>
        TalkKeeps(cfg, s, [Out(Away(s.contacts[a].uuid, reason))]);
      case ChangeNick(nick, source) =>
        var settled := Nicks.Settle(Used(cfg, s), nick);
        RenameKeeps(cfg, s, a, settled, if settled == nick then source else NICKSRC_COLLISION);
      case SetWhatsapp(on) =>
        ModeKeeps(cfg, s, a, on);
    }
  }

  // ---- groups ----

  /** What processing groups leaves alone. */
  ghost predicate OnlyChannels(s: State, s': State) {
    && s' == s.(contacts := s'.contacts, channels := s'.channels, topics := s'.topics, log := s'.log)
    && s'.contacts.Keys == s.contacts.Keys
    && (forall a :: a in s.contacts ==> s'.contacts[a] == s.contacts[a].(channels := s'.contacts[a].channels))
  }

  lemma {:induction false} SettledSame(s: State)
    ensures OnlyChannels(s, s)
  {
  }

  lemma {:induction false} SettledTrans(s: State, s1: State, s2: State)
    requires OnlyChannels(s, s1) && OnlyChannels(s1, s2)
    ensures OnlyChannels(s, s2)
  {
  }

  lemma {:induction false} GroupsOnlyChannels(cfg: Config, w: World, s: State, a: Addr)
    requires ProcessGroupsFor(cfg, w, s, a).Ok?
    ensures OnlyChannels(s, ProcessGroupsFor(cfg, w, s, a).value)
  {
  }

  lemma {:induction false} GroupsEachKeep(cfg: Config, w: World, s: State, order: seq<Addr>)
    requires Inv(cfg, s) && forall i :: 0 <= i < |order| ==> order[i] in s.contacts
    ensures var r := ProcessGroupsEach(cfg, w, s, order);
            r.Ok? && Inv(cfg, r.value) && OnlyChannels(s, r.value)
    decreases order
  {
    hide Registry, Numbered, Counted, Named, Cached, Agreed, Stored;
    if order != [] {
      GroupsKeep(cfg, w, s, order[0]);
      var s1 := ProcessGroupsFor(cfg, w, s, order[0]).value;
      GroupsOnlyChannels(cfg, w, s, order[0]);
      GroupsEachKeep(cfg, w, s1, order[1..]);
      SettledTrans(s, s1, ProcessGroupsEach(cfg, w, s1, order[1..]).value);
    } else {
      SettledSame(s);
    }
  }

  /** What MODE and TOPIC lines leave alone. */
  ghost predicate OnlyTells(s: State, s': State) {
    && s' == s.(topics := s'.topics, log := s'.log)
    && s.log <= s'.log && forall i :: |s.log| <= i < |s'.log| ==> Quiet(s'.log[i])
  }

  lemma {:induction false} OnlyTellsTrans(s: State, s1: State, s2: State)
    requires OnlyTells(s, s1) && OnlyTells(s1, s2)
    ensures OnlyTells(s, s2)
  {
  }

  /** The row of one of the participants does not read back. */
  predicate BadIn(cfg: Config, w: World, s: State, parts: seq<int>) {
    exists k :: 0 <= k < |parts| && BadId(cfg, w, s, parts[k])
  }

  predicate BadId(cfg: Config, w: World, s: State, id: int) {
    Found(w, s, id).Some? && !Reads(cfg.accepts, Found(w, s, id).value)
  }

  /** A group has a member whose row does not read back. */
  predicate BadMember(cfg: Config, w: World, s: State) {
    exists g :: g in s.groups && BadIn(cfg, w, s, s.groups[g].participants)
  }

  lemma {:induction false} TellModesKeep(cfg: Config, w: World, s: State, g: Group, parts: seq<int>)
    ensures var r := TellModes(cfg, w, s, g, parts);
            && OnlyTells(s, Left(r)) && (r.Err? <==> BadIn(cfg, w, s, parts)) && (r.Err? ==> r.error.why == BadAddress)
    decreases parts
  {
    hide Reads, FindById;
    if parts != [] {
      var later := parts[1..];
      forall k | 0 <= k < |later| ensures later[k] == parts[k + 1] {}
      if BadId(cfg, w, s, parts[0]) {
        assert BadIn(cfg, w, s, parts);
      } else {
        var s1 := ModeSaid(w, s, g, parts[0]);
        TellModesKeep(cfg, w, s1, g, later);
        forall id ensures BadId(cfg, w, s1, id) <==> BadId(cfg, w, s, id) {}
        assert BadIn(cfg, w, s, parts) <==> BadIn(cfg, w, s1, later);
        OnlyTellsTrans(s, s1, Left(TellModes(cfg, w, s1, g, later)));
      }
    }
  }

  /** The state after the MODE line of one participant, if it has one. */
  function ModeSaid(w: World, s: State, g: Group, id: int): State {
    match Found(w, s, id)
    case Some(a) => if a in s.contacts then Say(s, Mode(g.channel, id in g.admins, s.contacts[a].uuid)) else s
    case None => s
  }

  lemma {:induction false} TellGroupsKeep(cfg: Config, w: World, s: State, order: seq<int>)
    ensures var r := TellGroups(cfg, w, s, order);
            && OnlyTells(s, Left(r)) && (r.Err? ==> r.error.why == BadAddress)
            && (r.Err? <==> exists i :: 0 <= i < |order| && order[i] in s.groups
                                        && BadIn(cfg, w, s, s.groups[order[i]].participants))
    decreases order
  {
    hide TellModes, BadIn;
    if order != [] {
      var later := order[1..];
      forall k | 0 <= k < |later| ensures later[k] == order[k + 1] {}
      if order[0] in s.groups {
        var g := s.groups[order[0]];
        TellModesKeep(cfg, w, s, g, g.participants);
        var r := TellModes(cfg, w, s, g, g.participants);
        if r.Ok? {
          var s1 := TellTopic(cfg, r.value, g);
          OnlyTellsTrans(s, r.value, s1);
          TellGroupsKeep(cfg, w, s1, later);
          SameBad(cfg, w, s, s1);
          OnlyTellsTrans(s, s1, Left(TellGroups(cfg, w, s1, later)));
        } else {
          assert order[0] in s.groups;
        }
      } else {
        TellGroupsKeep(cfg, w, s, later);
      }
    }
  }

  lemma SameBad(cfg: Config, w: World, s: State, s': State)
    requires s'.recipients == s.recipients
    ensures forall parts :: BadIn(cfg, w, s', parts) <==> BadIn(cfg, w, s, parts)
  {
    hide Reads, FindById;
    forall parts ensures BadIn(cfg, w, s', parts) <==> BadIn(cfg, w, s, parts) {
      assert forall id :: BadId(cfg, w, s', id) <==> BadId(cfg, w, s, id);
    }
  }

  lemma {:induction false} TellsKeep(cfg: Config, s: State, s': State)
    requires Inv(cfg, s) && OnlyTells(s, s')
    ensures Inv(cfg, s')
  {
    hide Registry, Numbered, Counted, Named, Cached, Agreed, Stored;
    var lines := s'.log[|s.log|..];
    assert s'.log == s.log + lines;
    QuietKeeps(cfg, s, s', lines);
  }

  /** `process_groups` fails exactly when a group has a member whose row does not read back; the
      contacts are done by then. */
  lemma {:induction false} ProcessGroupsKeep(cfg: Config, w: World, s: State)
    requires Inv(cfg, s) && Honest(w)
    ensures var r := ProcessGroups(cfg, w, s);
            && (r.Err? <==> BadMember(cfg, w, s)) && (r.Err? ==> r.error.why == BadAddress)
            && Inv(cfg, Left(r)) && OnlyChannels(s, Left(r))
  {
    hide Registry, Numbered, Counted, Named, Cached, Agreed, Stored, BadIn, TellGroups, ProcessGroupsEach;
    var s1 := s.(channels := {});
    SilentKeeps(cfg, s, s1);
    ContactsListed(w, s);
    GroupsEachKeep(cfg, w, s1, w.contactOrder(s.contacts.Keys));
    var s2 := ProcessGroupsEach(cfg, w, s1, w.contactOrder(s.contacts.Keys)).value;
    var ids := w.groupOrder(s2.groups.Keys);
    GroupsListed(w, s2);
    TellGroupsKeep(cfg, w, s2, ids);
    TellsKeep(cfg, s2, Left(TellGroups(cfg, w, s2, ids)));
    SameBad(cfg, w, s, s2);
    BadListed(cfg, w, s2, ids);
  }

  lemma ContactsListed(w: World, s: State)
    requires Honest(w)
    ensures forall i :: 0 <= i < |w.contactOrder(s.contacts.Keys)| ==> w.contactOrder(s.contacts.Keys)[i] in s.contacts
  {
    var order := w.contactOrder(s.contacts.Keys);
    assert Lists(order, s.contacts.Keys);
    forall i | 0 <= i < |order| ensures order[i] in s.contacts { assert order[i] in order; }
  }

  lemma GroupsListed(w: World, s: State)
    requires Honest(w)
    ensures Lists(w.groupOrder(s.groups.Keys), s.groups.Keys)
  {
  }

  lemma {:induction false} BadListed(cfg: Config, w: World, s: State, ids: seq<int>)
    requires Lists(ids, s.groups.Keys)
    ensures BadMember(cfg, w, s) <==> exists i :: 0 <= i < |ids| && ids[i] in s.groups
                                                  && BadIn(cfg, w, s, s.groups[ids[i]].participants)
  {
    hide BadIn;
    if g :| g in s.groups && BadIn(cfg, w, s, s.groups[g].participants) {
      assert g in ids;
      var i :| 0 <= i < |ids| && ids[i] == g;
    }
    if i :| 0 <= i < |ids| && ids[i] in s.groups && BadIn(cfg, w, s, s.groups[ids[i]].participants) {
      var g := ids[i];
    }
  }

  // ---- messages ----

  /** `contact_message` for a ghost takes neither of its error returns. */
  lemma {:induction false} ContactMessagesKeep(cfg: Config, s: State, u: Uid, lines: seq<Wire>)
    requires Inv(cfg, s) && u in s.owners && forall i :: 0 <= i < |lines| ==> Quiet(lines[i])
    ensures ContactMessages(cfg, s, u, lines) == Ok(s.(log := s.log + lines))
    ensures Inv(cfg, s.(log := s.log + lines))
  {
    hide Registry, Numbered, Counted, Named, Cached, Agreed, Stored;
    OwnerFacts(cfg, s, u);
    TalkKeeps(cfg, s, lines);
    assert lines == [] ==> s.log + lines == s.log;
  }

  lemma {:induction false} ModeFrame(cfg: Config, s: State, a: Addr, wa: bool)
    requires a in s.contacts && a in s.recipients && s.contacts[a].uuid in s.owners
    ensures SetWaState(cfg, s, a, wa).Ok?
    ensures var s' := SetWaState(cfg, s, a, wa).value;
            && Onward(s, s') && s'.messages == s.messages && s'.nextUser == s.nextUser
            && s'.contacts == s.contacts[a := s.contacts[a].(waMode := wa)]
            && s'.owners == s.owners && s'.log == s.log + [Out(FHost(s.contacts[a].uuid, HostFor(cfg, wa)))]
  {
    hide HostFor;
    var s' := SetWaState(cfg, s, a, wa).value;
    assert s'.recipients.Keys == s.recipients.Keys;
    assert forall u :: u in s.users && u !in s.owners ==> u in s'.users && s'.users[u] == s.users[u];
    assert Strangers(s') == Strangers(s);
  }

  lemma {:induction false} SwitchKeeps(cfg: Config, s: State, a: Addr, wa: bool)
    requires Inv(cfg, s) && a in s.contacts
    ensures var r := SwitchMode(cfg, s, a, wa);
            && r.Ok? && Inv(cfg, r.value) && Onward(s, r.value) && r.value.messages == s.messages
            && r.value.contacts == s.contacts[a := s.contacts[a].(waMode := wa)]
            && r.value.nextUser == s.nextUser
            && r.value.log == s.log + SwitchLines(cfg, s.contacts[a], wa)
  {
    hide Registry, Numbered, Counted, Named, Cached, Agreed, Stored, SetWaState, HostFor;
    ContactFacts(cfg, s, a);
    if s.contacts[a].waMode != wa {
      ModeKeeps(cfg, s, a, wa);
      ModeFrame(cfg, s, a, wa);
      var s1 := SetWaState(cfg, s, a, wa).value;
      var u := s.contacts[a].uuid;
      ContactMessagesKeep(cfg, s1, u, [Out(ModeNotice(u, wa))]);
      assert s.log + [Out(FHost(u, HostFor(cfg, wa)))] + [Out(ModeNotice(u, wa))] ==
             s.log + SwitchLines(cfg, s.contacts[a], wa);
    } else {
      assert s.contacts[a := s.contacts[a].(waMode := wa)] == s.contacts;
      assert s.log + [] == s.log;
    }
  }

  /** The lines of an automatic mode switch. */
  function SwitchLines(cfg: Config, ct: Contact, wa: bool): seq<Wire> {
    if ct.waMode == wa then [] else [Out(FHost(ct.uuid, HostFor(cfg, wa))), Out(ModeNotice(ct.uuid, wa))]
  }

  /** Only the log, and only quietly. */
  ghost predicate OnlyTalk(s: State, s': State) {
    s' == s.(log := s'.log)
  }

  lemma {:induction false} SendRawKeeps(cfg: Config, s: State, u: Uid, text: string, group: Option<int>)
    requires Inv(cfg, s) && u in s.owners && (group.Some? ==> group.value in s.groups)
    ensures var r := SendRaw(cfg, s, u, text, group); r.Ok? && Inv(cfg, r.value) && OnlyTalk(s, r.value)
  {
    hide Registry, Numbered, Counted, Named, Cached, Agreed, Stored;
    var chunks := Fragments.Chunks(Fragments.Lines(text));
    match group
    case None =>
      ContactMessagesKeep(cfg, s, u, Privmsgs(u, ToAdmin, chunks));
    case Some(g) =>
      var ch := s.groups[g].channel;
      var s1 := if cfg.ensureJoined && AdminHere(cfg, s) then Say(s, SvsJoin(ch)) else s;
      TalkKeeps(cfg, s, [Out(SvsJoin(ch))]);
      ContactMessagesKeep(cfg, s1, u, Privmsgs(u, ToChannel(ch), chunks));
  }

  /** The deletions of some rows, in the history. */
  function Erasures(ids: seq<int>): (ws: seq<Wire>)
    ensures |ws| == |ids| && forall i :: 0 <= i < |ids| ==> ws[i] == Removed(ids[i])
  {
    if ids == [] then [] else [Removed(ids[0])] + Erasures(ids[1..])
  }

  /** Deleting rows in turn is what the pass over the table makes of it. */
  lemma {:induction false} RemoveRowsIs(s: State, ids: seq<int>)
    ensures var r, p := RemoveRows(s, ids), Delivery.Remove(s.messages, ids);
            && Left(r).messages == p.table && (r.Ok? <==> p.failure.None?)
            && (r.Err? ==> p.failure == Some(r.error.why))
            && (r.Ok? ==> r.value == s.(messages := p.table, log := s.log + Erasures(ids)))
    decreases ids
  {
    if ids == [] {
      assert s.log + [] == s.log;
    } else if ids[0] in s.messages {
      var id := ids[0];
      var s1 := s.(messages := s.messages - {id}, log := s.log + [Removed(id)]);
      RemoveRowsIs(s1, ids[1..]);
      Regroup(s.log, [Removed(id)], Erasures(ids[1..]));
    }
  }

  lemma {:induction false} FewerMessages(cfg: Config, s: State, left: Delivery.Table, ids: seq<int>)
    requires Inv(cfg, s) && left.Keys <= s.messages.Keys && forall i :: i in left ==> left[i] == s.messages[i]
    ensures Inv(cfg, s.(messages := left, log := s.log + Erasures(ids)))
  {
    QuietKeeps(cfg, s, s.(messages := left, log := s.log + Erasures(ids)), Erasures(ids));
  }

  /** Delivery of one row of the snapshot, after the rows of `done`. */
  lemma {:induction false} DeliverKeeps(cfg: Config, w: World, s: State, table: Delivery.Table, known: set<Addr>,
                                        done: seq<Delivery.Row>, row: Delivery.Row)
    requires Inv(cfg, s) && Honest(w) && Delivery.WellKept(table)
    requires DeliveryProofs.FromTable(table, done + [row])
    requires s.messages == table - Delivery.AllTaken(table, known, done)
    requires row.addr in known && row.addr in s.contacts && row.body != Delivery.Sms(Delivery.Malformed)
    requires row.group.Some? ==> row.group.value in s.groups
    ensures var r := Deliver(cfg, w, s, s.contacts[row.addr].uuid, row);
            && r.Ok? && Inv(cfg, r.value)
            && r.value == s.(log := r.value.log, messages := r.value.messages)
            && r.value.messages == table - Delivery.AllTaken(table, known, done + [row])
  {
    hide Registry, Numbered, Counted, Named, Cached, Agreed, Stored;
    var u := s.contacts[row.addr].uuid;
    ContactFacts(cfg, s, row.addr);
    var h := DeliveryProofs.HandleNext(w.oracle, table, known, done, row);
    match h
    case Kept =>
    case Unreadable => ContactMessagesKeep(cfg, s, u, [Out(ErrorNotice(u))]);
    case Delivered(send) =>
      SendRawKeeps(cfg, s, u, send.text, row.group);
      var s1 := SendRaw(cfg, s, u, send.text, row.group).value;
      RemoveRowsIs(s1, send.ids);
      FewerMessages(cfg, s1, table - Delivery.AllTaken(table, known, done + [row]), send.ids);
  }
}
