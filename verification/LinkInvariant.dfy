/** The invariant of the link, and the primitive changes that keep it. */
module LinkInvariant {
  import opened Outcomes
  import opened Address
  import opened Peer
  import opened LinkModel
  import Decimal
  import Delivery

  /** The UUIDs issued before number `n`. */
  ghost predicate Issued(cfg: Config, u: Uid, n: nat) {
    exists k: nat :: 1 <= k < n && u == Uuid(cfg, k)
  }

  function Uuids(cfg: Config, n: nat): seq<Uid> {
    if n <= 1 then [] else Uuids(cfg, n - 1) + [Uuid(cfg, n - 1)]
  }

  /** `contacts` and `contacts_uuid_pdua` are mutual inverses; every ghost is a known user and has a
      recipient row. */
  ghost predicate Registry(s: State) {
    && (forall a :: a in s.contacts ==> s.contacts[a].uuid in s.owners && s.owners[s.contacts[a].uuid] == a)
    && (forall u :: u in s.owners ==> s.owners[u] in s.contacts && s.contacts[s.owners[u]].uuid == u)
    && s.owners.Keys <= s.users.Keys
    && s.contacts.Keys <= s.recipients.Keys
  }

  /** Ghosts carry UUIDs that were issued, and no other user has one of our UUIDs. */
  ghost predicate Numbered(cfg: Config, s: State) {
    && 1 <= s.nextUser <= MAX_USER_ID + 1
    && (forall u :: u in s.owners ==> Issued(cfg, u, s.nextUser))
    && (forall u :: u in s.users && Ours(cfg, u) ==> u == ControlUuid(cfg) || u in s.owners)
  }

  /** Every UUID ever introduced to the peer, apart from the control user's: 1, 2, 3, ... */
  ghost predicate Counted(cfg: Config, s: State) {
    Introduced(s.log, ControlUuid(cfg)) == Uuids(cfg, s.nextUser)
  }

  /** Ghost nicks are pairwise distinct and never the admin's. */
  ghost predicate Named(cfg: Config, s: State) {
    && (forall u :: u in s.owners && u in s.users ==> s.users[u].nick != cfg.adminNick)
    && (forall u, v :: u in s.owners && v in s.owners && u in s.users && v in s.users && u != v ==>
          s.users[u].nick != s.users[v].nick)
  }

  /** The ghost of a contact shows what the database says, and its row reads back. */
  ghost predicate Shows(cfg: Config, s: State, a: Addr)
    requires a in s.contacts
  {
    var ct := s.contacts[a];
    && a in s.recipients && Reads(cfg.accepts, a) && ct.uuid in s.users
    && s.users[ct.uuid] == User(s.recipients[a].nick, HostFor(cfg, ct.waMode))
    && ct.waMode == s.recipients[a].whatsapp
  }

  ghost predicate Cached(cfg: Config, s: State) {
    forall a :: a in s.contacts ==> Shows(cfg, s, a)
  }

  /** The peer has been told of a ghost what we hold of it. */
  ghost predicate Told(s: State, v: View, u: Uid)
    requires u in s.owners
  {
    && u in v && u in s.users && s.owners[u] in s.contacts
    && v[u] == Seen(s.users[u].nick, s.users[u].host, Elements(s.contacts[s.owners[u]].channels))
  }

  /** The peer's view of our users, apart from the control user, is exactly our ghosts. */
  ghost predicate Agreed(cfg: Config, s: State) {
    var v := Replay(map[], s.log);
    && (forall u :: u in s.owners ==> Told(s, v, u))
    && (forall u :: u in v ==> u == ControlUuid(cfg) || u in s.owners)
  }

  /** The message table is as its writers and its constraints keep it. */
  ghost predicate Stored(messages: Delivery.Table, groups: map<int, Group>) {
    && Delivery.WellKept(messages)
    && (forall i :: i in messages && messages[i].group.Some? ==> messages[i].group.value in groups)
  }

  ghost predicate Inv(cfg: Config, s: State) {
    && Registry(s) && Numbered(cfg, s) && Counted(cfg, s)
    && Named(cfg, s) && Cached(cfg, s) && Agreed(cfg, s) && Stored(s.messages, s.groups)
  }

  // ---- UUIDs ----

  lemma {:induction false} UuidDistinct(cfg: Config, j: nat, k: nat)
    requires j <= MAX_USER_ID && k <= MAX_USER_ID && Uuid(cfg, j) == Uuid(cfg, k)
    ensures j == k
  {
    assert Uuid(cfg, j)[|cfg.sid| + 1..] == Decimal.Pad(j, 5);
    assert Uuid(cfg, k)[|cfg.sid| + 1..] == Decimal.Pad(k, 5);
    assert Decimal.Limit(5) == 10 * (10 * (10 * (10 * (10 * Decimal.Limit(0)))));
    Decimal.PadInjective(j, k, 5);
  }

  lemma {:induction false} UuidShape(cfg: Config, k: nat)
    ensures |Uuid(cfg, k)| == |cfg.sid| + 6
    ensures Ours(cfg, Uuid(cfg, k))
    ensures Uuid(cfg, k) != ControlUuid(cfg)
  {
    assert Uuid(cfg, k)[|cfg.sid|] == 'Z' && ControlUuid(cfg)[|cfg.sid|] == 'A';
  }

  lemma {:induction false} IssuedShape(cfg: Config, u: Uid, n: nat)
    requires Issued(cfg, u, n)
    ensures Ours(cfg, u) && u != ControlUuid(cfg)
  {
    var k: nat :| 1 <= k < n && u == Uuid(cfg, k);
    UuidShape(cfg, k);
  }

  lemma {:induction false} IssuedGrows(cfg: Config, u: Uid, n: nat)
    requires Issued(cfg, u, n)
    ensures Issued(cfg, u, n + 1)
  {
    var k: nat :| 1 <= k < n && u == Uuid(cfg, k);
    assert 1 <= k < n + 1;
  }

  /** The next UUID was never issued, so it is neither a ghost's nor any known user's. */
  lemma {:induction false} NextIsNew(cfg: Config, s: State)
    requires Registry(s) && Numbered(cfg, s) && s.nextUser <= MAX_USER_ID
    ensures !Issued(cfg, Uuid(cfg, s.nextUser), s.nextUser)
    ensures Uuid(cfg, s.nextUser) !in s.owners && Uuid(cfg, s.nextUser) !in s.users
  {
    var u := Uuid(cfg, s.nextUser);
    UuidShape(cfg, s.nextUser);
    if Issued(cfg, u, s.nextUser) {
      var k: nat :| 1 <= k < s.nextUser && u == Uuid(cfg, k);
      UuidDistinct(cfg, k, s.nextUser);
      assert false;
    }
  }

  // ---- frames ----

  /** Who is who stays the same. */
  ghost predicate SameShape(s: State, s': State) {
    && s'.contacts.Keys == s.contacts.Keys && s'.owners == s.owners && s'.nextUser == s.nextUser
    && s'.users.Keys == s.users.Keys && s'.recipients.Keys == s.recipients.Keys
    && (forall a :: a in s.contacts ==> s'.contacts[a].uuid == s.contacts[a].uuid)
    && s'.messages == s.messages && s'.groups == s.groups
  }

  lemma {:induction false} ShapeKeeps(cfg: Config, s: State, s': State)
    requires Registry(s) && Numbered(cfg, s) && Stored(s.messages, s.groups) && SameShape(s, s')
    ensures Registry(s') && Numbered(cfg, s') && Stored(s'.messages, s'.groups)
  {
  }

  /** Nicks stay the same. */
  lemma {:induction false} NicksKeep(cfg: Config, s: State, s': State)
    requires Named(cfg, s) && s'.owners.Keys <= s.owners.Keys && s.owners.Keys <= s.users.Keys
    requires forall u :: u in s'.owners && u in s'.users ==> u in s.users && s'.users[u].nick == s.users[u].nick
    ensures Named(cfg, s')
  {
  }

  /** Lines that introduce nobody. */
  lemma {:induction false} CountKeeps(cfg: Config, s: State, s': State, lines: seq<Wire>)
    requires Counted(cfg, s) && s'.nextUser == s.nextUser && s'.log == s.log + lines
    requires forall i :: 0 <= i < |lines| ==> !(lines[i].Out? && lines[i].line.UidLine?)
    ensures Counted(cfg, s')
  {
    IntroducedAppend(s.log, lines, ControlUuid(cfg));
    IntroducedNone(lines, ControlUuid(cfg));
  }

  // ---- a new ghost ----

  /** A contact may be made for `a`, under a free nick, as its row says. */
  ghost predicate Ready(cfg: Config, s: State, a: Addr, nick: string, wa: bool) {
    && s.nextUser <= MAX_USER_ID
    && a !in s.contacts && a in s.recipients && Reads(cfg.accepts, a)
    && s.recipients[a].nick == nick && s.recipients[a].whatsapp == wa
    && nick !in Used(cfg, s)
  }

  lemma {:induction false} IntroduceKeeps(cfg: Config, s: State, a: Addr, nick: string, wa: bool)
    requires Inv(cfg, s) && Ready(cfg, s, a, nick, wa)
    ensures Inv(cfg, Introduce(cfg, s, a, nick, wa))
  {
    NextIsNew(cfg, s);
    IntroduceRegistry(cfg, s, a, nick, wa);
    IntroduceNumbers(cfg, s, a, nick, wa);
    IntroduceNames(cfg, s, a, nick, wa);
    IntroduceShows(cfg, s, a, nick, wa);
    IntroduceTold(cfg, s, a, nick, wa);
  }

  lemma {:induction false} IntroduceRegistry(cfg: Config, s: State, a: Addr, nick: string, wa: bool)
    requires Registry(s) && a !in s.contacts && a in s.recipients && Uuid(cfg, s.nextUser) !in s.owners
    ensures Registry(Introduce(cfg, s, a, nick, wa))
  {
  }

  lemma {:induction false} IntroduceShows(cfg: Config, s: State, a: Addr, nick: string, wa: bool)
    requires Registry(s) && Cached(cfg, s) && Ready(cfg, s, a, nick, wa) && Uuid(cfg, s.nextUser) !in s.owners
    ensures Cached(cfg, Introduce(cfg, s, a, nick, wa))
  {
    var s' := Introduce(cfg, s, a, nick, wa);
    forall b | b in s'.contacts ensures Shows(cfg, s', b) {
      if b != a { assert Shows(cfg, s, b) && s.contacts[b].uuid in s.owners; }
    }
  }

  lemma {:induction false} IntroduceNumbers(cfg: Config, s: State, a: Addr, nick: string, wa: bool)
    requires Numbered(cfg, s) && Counted(cfg, s) && s.nextUser <= MAX_USER_ID
    ensures var s' := Introduce(cfg, s, a, nick, wa); Numbered(cfg, s') && Counted(cfg, s')
  {
    var u := Uuid(cfg, s.nextUser);
    var s' := Introduce(cfg, s, a, nick, wa);
    UuidShape(cfg, s.nextUser);
    forall v | v in s'.owners ensures Issued(cfg, v, s'.nextUser) {
      if v != u { IssuedGrows(cfg, v, s.nextUser); }
    }
    IntroducedOne(s.log, u, nick, HostFor(cfg, wa), ControlUuid(cfg));
  }

  lemma {:induction false} IntroducedOne(log: seq<Wire>, u: Uid, nick: string, host: string, c: Uid)
    ensures Introduced(log + [Out(UidLine(u, nick, host))], c) == Introduced(log, c) + if u == c then [] else [u]
  {
    var w := Out(UidLine(u, nick, host));
    IntroducedAppend(log, [w], c);
    assert [w][1..] == [];
  }

  lemma {:induction false} IntroduceNames(cfg: Config, s: State, a: Addr, nick: string, wa: bool)
    requires Named(cfg, s) && s.owners.Keys <= s.users.Keys && nick !in Used(cfg, s)
    ensures Named(cfg, Introduce(cfg, s, a, nick, wa))
  {
    forall v | v in s.users ensures s.users[v].nick != nick {
      assert s.users[v].nick in NicksOf(s);
    }
  }

  lemma {:induction false} IntroduceTold(cfg: Config, s: State, a: Addr, nick: string, wa: bool)
    requires Registry(s) && Agreed(cfg, s) && a !in s.contacts && Uuid(cfg, s.nextUser) !in s.owners
    ensures Agreed(cfg, Introduce(cfg, s, a, nick, wa))
  {
    var u := Uuid(cfg, s.nextUser);
    var s' := Introduce(cfg, s, a, nick, wa);
    var v, v' := Replay(map[], s.log), Replay(map[], s'.log);
    ReplayOne(map[], s.log, Out(UidLine(u, nick, HostFor(cfg, wa))));
    assert Elements<string>([]) == {};
    forall x | x in s'.owners ensures Told(s', v', x) {
      if x != u { assert Told(s, v, x) && s.owners[x] != a; }
    }
  }

  // ---- a ghost or another user gone ----

  lemma {:induction false} ForgetKeeps(cfg: Config, s: State, u: Uid, w: Wire)
    requires Inv(cfg, s)
    requires w == Gone(u) || w == Out(Quit(u))
    ensures Inv(cfg, Forget(s.(log := s.log + [w]), u))
  {
    var s' := Forget(s.(log := s.log + [w]), u);
    CountKeeps(cfg, s, s', [w]);
    ForgetRegistry(s, u, w);
    NicksKeep(cfg, s, s');
    ForgetShows(cfg, s, u, w);
    ForgetTold(cfg, s, u, w);
  }

  lemma {:induction false} ForgetRegistry(s: State, u: Uid, w: Wire)
    requires Registry(s)
    ensures Registry(Forget(s.(log := s.log + [w]), u))
  {
  }

  lemma {:induction false} ForgetShows(cfg: Config, s: State, u: Uid, w: Wire)
    requires Registry(s) && Cached(cfg, s)
    ensures Cached(cfg, Forget(s.(log := s.log + [w]), u))
  {
    var s' := Forget(s.(log := s.log + [w]), u);
    forall b | b in s'.contacts ensures Shows(cfg, s', b) {
      assert Shows(cfg, s, b);
    }
  }

  lemma {:induction false} ForgetTold(cfg: Config, s: State, u: Uid, w: Wire)
    requires Registry(s) && Agreed(cfg, s) && (w == Gone(u) || w == Out(Quit(u)))
    ensures Agreed(cfg, Forget(s.(log := s.log + [w]), u))
  {
    var s' := Forget(s.(log := s.log + [w]), u);
    var v, v' := Replay(map[], s.log), Replay(map[], s'.log);
    ReplayOne(map[], s.log, w);
    forall x | x in s'.owners ensures Told(s', v', x) {
      assert Told(s, v, x);
    }
  }

  // ---- channels ----

  lemma {:induction false} GroupsKeep(cfg: Config, w: World, s: State, a: Addr)
    requires Inv(cfg, s) && a in s.contacts
    ensures ProcessGroupsFor(cfg, w, s, a).Ok?
    ensures Inv(cfg, ProcessGroupsFor(cfg, w, s, a).value)
  {
    GroupsShape(cfg, w, s, a);
    GroupsNames(cfg, w, s, a);
    GroupsAgree(cfg, w, s, a);
  }

  lemma {:induction false} GroupsShape(cfg: Config, w: World, s: State, a: Addr)
    requires Registry(s) && Numbered(cfg, s) && Stored(s.messages, s.groups) && Counted(cfg, s) && a in s.contacts
    ensures ProcessGroupsFor(cfg, w, s, a).Ok?
    ensures var s' := ProcessGroupsFor(cfg, w, s, a).value;
            Registry(s') && Numbered(cfg, s') && Stored(s'.messages, s'.groups) && Counted(cfg, s')
  {
    var s' := ProcessGroupsFor(cfg, w, s, a).value;
    var ct, ct' := s.contacts[a], s'.contacts[a];
    CountKeeps(cfg, s, s', Joins(ct.uuid, ct'.channels) + Parts(ct.uuid, Dropped(ct.channels, ct'.channels)));
    ShapeKeeps(cfg, s, s');
  }

  lemma {:induction false} GroupsNames(cfg: Config, w: World, s: State, a: Addr)
    requires Registry(s) && Named(cfg, s) && Cached(cfg, s) && a in s.contacts
    ensures ProcessGroupsFor(cfg, w, s, a).Ok?
    ensures var s' := ProcessGroupsFor(cfg, w, s, a).value; Named(cfg, s') && Cached(cfg, s')
  {
    hide Shows;
    var s' := ProcessGroupsFor(cfg, w, s, a).value;
    NicksKeep(cfg, s, s');
    GroupsShow(cfg, s, s');
  }

  lemma {:induction false} GroupsShow(cfg: Config, s: State, s': State)
    requires Cached(cfg, s) && s'.users == s.users && s'.recipients == s.recipients
    requires s'.contacts.Keys == s.contacts.Keys
    requires forall b :: b in s.contacts ==> s'.contacts[b] == s.contacts[b].(channels := s'.contacts[b].channels)
    ensures Cached(cfg, s')
  {
    hide Reads;
    forall b | b in s'.contacts ensures Shows(cfg, s', b) {
      assert Shows(cfg, s, b);
    }
  }

  lemma {:induction false} GroupsAgree(cfg: Config, w: World, s: State, a: Addr)
    requires Registry(s) && Agreed(cfg, s) && a in s.contacts
    ensures ProcessGroupsFor(cfg, w, s, a).Ok? && Agreed(cfg, ProcessGroupsFor(cfg, w, s, a).value)
  {
    GroupsTold(cfg, s, ProcessGroupsFor(cfg, w, s, a).value, a);
  }

  lemma {:induction false} GroupsTold(cfg: Config, s: State, s': State, a: Addr)
    requires Registry(s) && Agreed(cfg, s) && a in s.contacts
    requires s'.users == s.users && s'.owners == s.owners && s'.contacts.Keys == s.contacts.Keys
    requires forall b :: b in s.contacts && b != a ==> s'.contacts[b] == s.contacts[b]
    requires var u, had, wanted := s.contacts[a].uuid, s.contacts[a].channels, s'.contacts[a].channels;
             s'.log == s.log + (Joins(u, wanted) + Parts(u, Dropped(had, wanted)))
    ensures Agreed(cfg, s')
  {
    var u := s.contacts[a].uuid;
    var v, v' := Replay(map[], s.log), Replay(map[], s'.log);
    assert Told(s, v, u);
    ReplayAppend(map[], s.log, s'.log[|s.log|..]);
    ReplaySwitch(v, u, s.contacts[a].channels, s'.contacts[a].channels);
    forall x | x in s'.owners ensures Told(s', v', x) {
      assert Told(s, v, x);
    }
  }

  // ---- nicks and modes ----

  lemma {:induction false} RenameKeeps(cfg: Config, s: State, a: Addr, nick: string, source: int)
    requires Inv(cfg, s) && a in s.contacts && nick !in Used(cfg, s)
    ensures Rename(s, a, nick, source).Ok?
    ensures Inv(cfg, Rename(s, a, nick, source).value)
  {
    RenameShape(cfg, s, a, nick, source);
    RenameNames(cfg, s, a, nick, source);
    RenameShows(cfg, s, a, nick, source);
    RenameTold(cfg, s, a, nick, source);
  }

  lemma {:induction false} RenameShape(cfg: Config, s: State, a: Addr, nick: string, source: int)
    requires Registry(s) && Numbered(cfg, s) && Stored(s.messages, s.groups) && Counted(cfg, s) && a in s.contacts
    ensures Rename(s, a, nick, source).Ok?
    ensures var s' := Rename(s, a, nick, source).value;
            Registry(s') && Numbered(cfg, s') && Stored(s'.messages, s'.groups) && Counted(cfg, s')
  {
    var s' := Rename(s, a, nick, source).value;
    CountKeeps(cfg, s, s', [Out(NickLine(s.contacts[a].uuid, nick))]);
    ShapeKeeps(cfg, s, s');
  }

  lemma {:induction false} RenameTold(cfg: Config, s: State, a: Addr, nick: string, source: int)
    requires Registry(s) && Agreed(cfg, s) && a in s.contacts
    ensures Rename(s, a, nick, source).Ok? && Agreed(cfg, Rename(s, a, nick, source).value)
  {
    var u, s' := s.contacts[a].uuid, Rename(s, a, nick, source).value;
    ReplayOne(map[], s.log, Out(NickLine(u, nick)));
    assert Told(s, Replay(map[], s.log), u);
    ChangeTold(cfg, s, s', u, s.users[u].(nick := nick));
  }

  lemma {:induction false} RenameNames(cfg: Config, s: State, a: Addr, nick: string, source: int)
    requires Registry(s) && Named(cfg, s) && a in s.contacts && nick !in Used(cfg, s)
    ensures Rename(s, a, nick, source).Ok? && Named(cfg, Rename(s, a, nick, source).value)
  {
    forall x | x in s.users ensures s.users[x].nick != nick {
      assert s.users[x].nick in NicksOf(s);
    }
  }

  lemma {:induction false} RenameShows(cfg: Config, s: State, a: Addr, nick: string, source: int)
    requires Registry(s) && Cached(cfg, s) && a in s.contacts
    ensures Rename(s, a, nick, source).Ok? && Cached(cfg, Rename(s, a, nick, source).value)
  {
    var s' := Rename(s, a, nick, source).value;
    forall b | b in s'.contacts ensures Shows(cfg, s', b) {
      assert Shows(cfg, s, b) && Shows(cfg, s, a);
    }
  }

  /** A change of the nick or the host of one ghost, and the line about it. */
  lemma {:induction false} ChangeTold(cfg: Config, s: State, s': State, u: Uid, user: User)
    requires Registry(s) && Agreed(cfg, s) && u in s.owners
    requires s'.owners == s.owners && s'.users == s.users[u := user] && s'.contacts.Keys == s.contacts.Keys
    requires forall b :: b in s.contacts ==> s'.contacts[b].channels == s.contacts[b].channels
    requires var v := Replay(map[], s.log);
             u in v && Replay(map[], s'.log) == v[u := v[u].(nick := user.nick, host := user.host)]
    ensures Agreed(cfg, s')
  {
    var v, v' := Replay(map[], s.log), Replay(map[], s'.log);
    assert Told(s, v, u);
    forall x | x in s'.owners ensures Told(s', v', x) {
      assert Told(s, v, x);
    }
  }

  lemma {:induction false} ModeKeeps(cfg: Config, s: State, a: Addr, wa: bool)
    requires Inv(cfg, s) && a in s.contacts
    ensures SetWaState(cfg, s, a, wa).Ok?
    ensures Inv(cfg, SetWaState(cfg, s, a, wa).value)
  {
    hide Registry, Numbered, Counted, Named, Cached, Agreed, Stored, SetWaState;
    ModeShape(cfg, s, a, wa);
    ModeNamed(cfg, s, a, wa);
    ModeShows(cfg, s, a, wa);
    ModeTold(cfg, s, a, wa);
  }

  lemma {:induction false} ModeNamed(cfg: Config, s: State, a: Addr, wa: bool)
    requires Registry(s) && Named(cfg, s) && a in s.contacts
    ensures SetWaState(cfg, s, a, wa).Ok? && Named(cfg, SetWaState(cfg, s, a, wa).value)
  {
    NicksKeep(cfg, s, SetWaState(cfg, s, a, wa).value);
  }

  lemma {:induction false} ModeShape(cfg: Config, s: State, a: Addr, wa: bool)
    requires Registry(s) && Numbered(cfg, s) && Stored(s.messages, s.groups) && Counted(cfg, s) && a in s.contacts
    ensures SetWaState(cfg, s, a, wa).Ok?
    ensures var s' := SetWaState(cfg, s, a, wa).value;
            Registry(s') && Numbered(cfg, s') && Stored(s'.messages, s'.groups) && Counted(cfg, s')
  {
    var s' := SetWaState(cfg, s, a, wa).value;
    CountKeeps(cfg, s, s', [Out(FHost(s.contacts[a].uuid, HostFor(cfg, wa)))]);
    ShapeKeeps(cfg, s, s');
  }

  lemma {:induction false} ModeTold(cfg: Config, s: State, a: Addr, wa: bool)
    requires Registry(s) && Agreed(cfg, s) && a in s.contacts
    ensures SetWaState(cfg, s, a, wa).Ok? && Agreed(cfg, SetWaState(cfg, s, a, wa).value)
  {
    var u, s' := s.contacts[a].uuid, SetWaState(cfg, s, a, wa).value;
    ReplayOne(map[], s.log, Out(FHost(u, HostFor(cfg, wa))));
    assert Told(s, Replay(map[], s.log), u);
    ChangeTold(cfg, s, s', u, s.users[u].(host := HostFor(cfg, wa)));
  }

  lemma {:induction false} ModeShows(cfg: Config, s: State, a: Addr, wa: bool)
    requires Registry(s) && Cached(cfg, s) && a in s.contacts
    ensures SetWaState(cfg, s, a, wa).Ok? && Cached(cfg, SetWaState(cfg, s, a, wa).value)
  {
    hide Reads;
    var s' := SetWaState(cfg, s, a, wa).value;
    forall b | b in s'.contacts ensures Shows(cfg, s', b) {
      assert Shows(cfg, s, b) && Shows(cfg, s, a);
    }
  }

  // ---- changes that touch no ghost ----

  /** Users other than our ghosts may come, go and change; the database may grow; quiet lines may be
      sent. */
  ghost predicate SameGhosts(cfg: Config, s: State, s': State) {
    && s'.contacts == s.contacts && s'.owners == s.owners && s'.nextUser == s.nextUser
    && (forall u :: u in s.owners && u in s.users ==> u in s'.users && s'.users[u] == s.users[u])
    && (forall u :: u in s'.users && u !in s.users ==> !Ours(cfg, u) || u == ControlUuid(cfg))
    && (forall a :: a in s.recipients && a in s.contacts ==> a in s'.recipients && s'.recipients[a] == s.recipients[a])
  }

  lemma {:induction false} QuietKeeps(cfg: Config, s: State, s': State, lines: seq<Wire>)
    requires Inv(cfg, s) && SameGhosts(cfg, s, s') && Stored(s'.messages, s'.groups)
    requires s'.log == s.log + lines && forall i :: 0 <= i < |lines| ==> Quiet(lines[i])
    ensures Inv(cfg, s')
  {
    ReplayAppend(map[], s.log, lines);
    ReplayQuiet(Replay(map[], s.log), lines);
    IntroducedAppend(s.log, lines, ControlUuid(cfg));
    IntroducedNone(lines, ControlUuid(cfg));
    SameGhostsKeep(cfg, s, s');
  }

  /** The same without any line. */
  lemma {:induction false} SilentKeeps(cfg: Config, s: State, s': State)
    requires Inv(cfg, s) && SameGhosts(cfg, s, s') && Stored(s'.messages, s'.groups) && s'.log == s.log
    ensures Inv(cfg, s')
  {
    assert s'.log == s.log + [];
    QuietKeeps(cfg, s, s', []);
  }

  /** The same with nothing but lines. */
  lemma {:induction false} TalkKeeps(cfg: Config, s: State, lines: seq<Wire>)
    requires Inv(cfg, s) && forall i :: 0 <= i < |lines| ==> Quiet(lines[i])
    ensures Inv(cfg, s.(log := s.log + lines))
  {
    QuietKeeps(cfg, s, s.(log := s.log + lines), lines);
  }

  lemma {:induction false} SameGhostsKeep(cfg: Config, s: State, s': State)
    requires Inv(cfg, s) && SameGhosts(cfg, s, s') && Stored(s'.messages, s'.groups)
    requires Replay(map[], s'.log) == Replay(map[], s.log)
    requires Introduced(s'.log, ControlUuid(cfg)) == Introduced(s.log, ControlUuid(cfg))
    ensures Inv(cfg, s')
  {
    var v := Replay(map[], s.log);
    forall x | x in s'.owners ensures Told(s', v, x) {
      assert Told(s, v, x);
    }
    forall b | b in s'.contacts ensures Shows(cfg, s', b) {
      assert Shows(cfg, s, b);
    }
  }

  /** Lines about the control user. */
  lemma {:induction false} BurstKeeps(cfg: Config, s: State)
    requires Inv(cfg, s)
    ensures Inv(cfg, DoBurst(cfg, s))
  {
    hide Registry, Counted, Named, Cached, Agreed, Stored;
    var c := ControlUuid(cfg);
    var s1 := Say(s.(users := s.users[c := User(cfg.controlNick, cfg.serverName)]), Burst);
    assert c !in s.owners by {
      if c in s.owners { IssuedShape(cfg, c, s.nextUser); }
    }
    QuietKeeps(cfg, s, s1, [Out(Burst)]);
    var w := Out(UidLine(c, cfg.controlNick, cfg.serverName));
    ControlKeeps(cfg, s1, w);
    var s2 := s1.(log := s1.log + [w]);
    QuietKeeps(cfg, s2, Say(s2, EndBurst), [Out(EndBurst)]);
  }

  lemma {:induction false} ControlKeeps(cfg: Config, s: State, w: Wire)
    requires Inv(cfg, s)
    requires w.Out? && (w.line.UidLine? || w.line.Join?) && w.line.uid == ControlUuid(cfg)
    ensures Inv(cfg, s.(log := s.log + [w]))
  {
    var s' := s.(log := s.log + [w]);
    if w.line.UidLine? {
      IntroducedOne(s.log, w.line.uid, w.line.nick, w.line.host, ControlUuid(cfg));
    } else {
      CountKeeps(cfg, s, s', [w]);
    }
    ShapeKeeps(cfg, s, s');
    NicksKeep(cfg, s, s');
    ControlTold(cfg, s, w);
    forall b | b in s'.contacts ensures Shows(cfg, s', b) {
      assert Shows(cfg, s, b);
    }
  }

  lemma {:induction false} ControlTold(cfg: Config, s: State, w: Wire)
    requires Numbered(cfg, s) && Agreed(cfg, s)
    requires w.Out? && (w.line.UidLine? || w.line.Join?) && w.line.uid == ControlUuid(cfg)
    ensures Agreed(cfg, s.(log := s.log + [w]))
  {
    var s' := s.(log := s.log + [w]);
    var v, v' := Replay(map[], s.log), Replay(map[], s'.log);
    ReplayOne(map[], s.log, w);
    forall x | x in s'.owners ensures Told(s', v', x) {
      IssuedShape(cfg, x, s.nextUser);
      assert Told(s, v, x);
    }
  }
}
