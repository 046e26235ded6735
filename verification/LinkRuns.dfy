/** Whole runs of the link: safety in every reachable state, and what follows from it. */
module LinkRuns {
  import opened Outcomes
  import opened Failures
  import opened Address
  import opened Peer
  import opened LinkModel
  import opened LinkInvariant
  import opened LinkSteps
  import opened LinkPass
  import Delivery
  import Nicks

  // ---- events of the peer ----

  lemma {:induction false} GhostsAreOurs(cfg: Config, s: State)
    requires Inv(cfg, s)
    ensures forall u :: u in s.owners ==> Ours(cfg, u) && u != ControlUuid(cfg)
    ensures Stored(s.messages, s.groups)
  {
    hide Registry, Counted, Named, Cached, Agreed, Stored;
    forall u | u in s.owners ensures Ours(cfg, u) && u != ControlUuid(cfg) { IssuedShape(cfg, u, s.nextUser); }
  }

  lemma {:induction false} UsersKeep(cfg: Config, s: State, users: map<Uid, User>)
    requires Inv(cfg, s)
    requires forall u :: u in s.users && Ours(cfg, u) ==> u in users && users[u] == s.users[u]
    requires forall u :: u in users && u !in s.users ==> !Ours(cfg, u)
    ensures Inv(cfg, s.(users := users))
  {
    hide Registry, Numbered, Counted, Named, Cached, Agreed, Stored;
    GhostsAreOurs(cfg, s);
    SilentKeeps(cfg, s, s.(users := users));
  }

  lemma {:induction false} SquitKeeps(cfg: Config, s: State, server: string)
    requires Inv(cfg, s) && |server| == |cfg.sid| && server != cfg.sid
    ensures Inv(cfg, Squit(s, server))
  {
    hide Inv;
    forall u: Uid | u in s.users && Ours(cfg, u) ensures u in Squit(s, server).users {
      assert cfg.sid == u[..|cfg.sid|];
    }
    UsersKeep(cfg, s, Squit(s, server).users);
  }

  /** A split is harmless exactly when the id given is a prefix of no ghost's UUID. */
  lemma {:induction false} SquitExact(cfg: Config, s: State, server: string)
    requires Inv(cfg, s)
    ensures Registry(Squit(s, server)) <==> forall u :: u in s.owners ==> !(server <= u)
  {
    hide Numbered, Counted, Named, Cached, Agreed, Stored;
    var s' := Squit(s, server);
    assert s'.owners == s.owners && s'.contacts == s.contacts && s'.recipients == s.recipients;
    assert forall u :: u in s'.users <==> u in s.users && !(server <= u);
  }

  /** So a split of our own SID breaks the registry as soon as there is a ghost. */
  lemma {:induction false} SquitOfOurselves(cfg: Config, s: State)
    requires Inv(cfg, s) && s.owners != map[]
    ensures !Registry(Squit(s, cfg.sid))
  {
    hide Inv;
    GhostsAreOurs(cfg, s);
    SquitExact(cfg, s, cfg.sid);
    var u :| u in s.owners;
  }

  // ---- the burst ----

  lemma {:induction false} OtherRows(cfg: Config, w: World, s: State, recip: Recipient, a: Addr)
    requires SetupRecipient(cfg, w, s, recip, a).Ok?
    ensures var s' := SetupRecipient(cfg, w, s, recip, a).value;
            forall b :: b in s.recipients && b != a ==> b in s'.recipients && s'.recipients[b] == s.recipients[b]
  {
    hide SetupContactFor;
    if a !in s.contacts { SetupRows(cfg, w, s, recip, a); }
  }

  /** Why setting up listed recipients stops, if it does, as the state before tells. */
  function BurstCause(cfg: Config, g: Ghosts, order: seq<Addr>): Option<Failure>
    decreases order
  {
    if order == [] then None
    else match SetupCause(cfg, g, order[0])
      case Some(why) => Some(why)
      case None => BurstCause(cfg, Met(g, order[0]), order[1..])
  }

  /** The listed addresses without a contact. */
  function Unmet(contacts: set<Addr>, order: seq<Addr>): set<Addr> {
    Elements(order) - contacts
  }

  lemma {:induction false} UnmetStep(g: Ghosts, order: seq<Addr>)
    requires order != []
    ensures var rest := Unmet(Met(g, order[0]).contacts, order[1..]);
            && order[0] !in rest
            && Unmet(g.contacts, order) == if order[0] in g.contacts then rest else {order[0]} + rest
  {
    assert order == [order[0]] + order[1..];
  }

  /** A listed row does not read back. */
  predicate Garbled(cfg: Config, order: seq<Addr>) {
    exists i :: 0 <= i < |order| && !Reads(cfg.accepts, order[i])
  }

  lemma {:induction false} GarbledStep(cfg: Config, order: seq<Addr>)
    ensures Garbled(cfg, order) <==> order != [] && (!Reads(cfg.accepts, order[0]) || Garbled(cfg, order[1..]))
  {
    hide Reads;
    if order != [] {
      var later := order[1..];
      forall i | 0 <= i < |later| ensures later[i] == order[i + 1] {}
      if !Reads(cfg.accepts, order[0]) { assert Garbled(cfg, order); }
    }
  }

  /** It does in whatever order exactly if a row does not read back, or the UUIDs left do not suffice. */
  lemma {:induction false} BurstExactly(cfg: Config, g: Ghosts, order: seq<Addr>)
    requires g.next <= MAX_USER_ID + 1
    ensures BurstCause(cfg, g, order).Some? <==>
              Garbled(cfg, order) || g.next + |Unmet(g.contacts, order)| > MAX_USER_ID + 1
    decreases order
  {
    hide Reads, Garbled;
    GarbledStep(cfg, order);
    if order != [] {
      var a, later := order[0], order[1..];
      var rest := Unmet(Met(g, a).contacts, later);
      UnmetStep(g, order);
      hide Unmet;
      if SetupCause(cfg, g, a).None? {
        BurstExactly(cfg, Met(g, a), later);
      } else if Reads(cfg.accepts, a) {
        assert |Unmet(g.contacts, order)| == 1 + |rest|;
      }
    }
  }

  /** `do_quasiburst` works on a snapshot of the recipients while it renames some of them; each row
      it uses is still the current one. Afterwards every recipient listed has a contact, and no other
      has a new one; it stops exactly where and why the state before tells. */
  lemma {:induction false} SetupEachKeeps(cfg: Config, w: World, s: State, snap: map<Addr, Recipient>, order: seq<Addr>)
    requires Inv(cfg, s)
    requires forall i :: 0 <= i < |order| ==>
               order[i] in snap && order[i] in s.recipients && s.recipients[order[i]] == snap[order[i]]
    requires forall i, j :: 0 <= i < j < |order| ==> order[i] != order[j]
    ensures var r := SetupEach(cfg, w, s, snap, order);
            && Inv(cfg, Left(r)) && Onward(s, Left(r)) && Left(r).messages == s.messages
            && Why(r) == BurstCause(cfg, GhostsOf(s), order)
            && (r.Ok? ==> r.value.contacts.Keys == s.contacts.Keys + Elements(order))
    decreases order
  {
    hide Inv, Onward, SetupCause, Reads, SetupRecipient;
    if order == [] {
      OnwardSame(s);
      assert s.contacts.Keys + Elements(order) == s.contacts.Keys;
    } else {
      var a := order[0];
      SetupRecipientKeeps(cfg, w, s, a);
      var r := SetupRecipient(cfg, w, s, snap[a], a);
      if r.Ok? {
        OtherRows(cfg, w, s, snap[a], a);
        OnwardFacts(s, r.value);
        forall i | 0 <= i < |order[1..]| ensures order[1..][i] == order[i + 1] {}
        SetupEachKeeps(cfg, w, r.value, snap, order[1..]);
        OnwardTrans(s, r.value, Left(SetupEach(cfg, w, r.value, snap, order[1..])));
        AllMet(s, r.value, order);
      }
    }
  }

  lemma AllMet(s: State, s1: State, order: seq<Addr>)
    requires order != [] && GhostsOf(s1) == Met(GhostsOf(s), order[0])
    ensures s.contacts.Keys + Elements(order) == s1.contacts.Keys + Elements(order[1..])
  {
    assert order == [order[0]] + order[1..];
  }

  /** A recipient row does not read back. */
  ghost predicate BadRecipient(cfg: Config, s: State) {
    exists a :: a in s.recipients && !Reads(cfg.accepts, a)
  }

  /** The recipients without a contact are more than the UUIDs left. */
  ghost predicate TooMany(s: State) {
    s.nextUser + |s.recipients.Keys - s.contacts.Keys| > MAX_USER_ID + 1
  }

  /** A burst ends with a contact for each recipient. It fails exactly if a row does not read back, or
      there are more recipients without a contact than UUIDs left. */
  lemma {:induction false} QuasiBurstKeeps(cfg: Config, w: World, s: State)
    requires Inv(cfg, s) && Honest(w)
    ensures var r := QuasiBurst(cfg, w, s);
            && Inv(cfg, Left(r)) && Onward(s, Left(r)) && Left(r).messages == s.messages
            && Why(r) == BurstCause(cfg, GhostsOf(s), w.recipientOrder(s.recipients.Keys))
            && (r.Err? <==> BadRecipient(cfg, s) || TooMany(s))
            && (r.Ok? ==> r.value.contacts.Keys == s.recipients.Keys)
  {
    hide Inv, Honest, Onward, Reads, BurstCause, SetupEach, BadRecipient, Lists, Elements, Unmet;
    RecipientsListed(w, s);
    BurstOver(cfg, w, s, w.recipientOrder(s.recipients.Keys));
  }

  lemma {:induction false} BurstOver(cfg: Config, w: World, s: State, order: seq<Addr>)
    requires Inv(cfg, s) && Lists(order, s.recipients.Keys)
    ensures var r := SetupEach(cfg, w, s, s.recipients, order);
            && Inv(cfg, Left(r)) && Onward(s, Left(r)) && Left(r).messages == s.messages
            && Why(r) == BurstCause(cfg, GhostsOf(s), order)
            && (r.Err? <==> BadRecipient(cfg, s) || TooMany(s))
            && (r.Ok? ==> r.value.contacts.Keys == s.recipients.Keys)
  {
    hide Inv, Onward, Reads, BurstCause, SetupEach, BadRecipient, Lists, Elements, Unmet;
    ListedAll(cfg, s, order);
    SetupEachKeeps(cfg, w, s, s.recipients, order);
    CounterBound(cfg, s);
    assert s.contacts.Keys + s.recipients.Keys == s.recipients.Keys;
    BurstExactly(cfg, GhostsOf(s), order);
  }

  lemma RecipientsListed(w: World, s: State)
    requires Honest(w)
    ensures Lists(w.recipientOrder(s.recipients.Keys), s.recipients.Keys)
  {
  }

  lemma {:induction false} ListedAll(cfg: Config, s: State, order: seq<Addr>)
    requires Lists(order, s.recipients.Keys)
    ensures Elements(order) == s.recipients.Keys
    ensures Unmet(s.contacts.Keys, order) == s.recipients.Keys - s.contacts.Keys
    ensures forall i :: 0 <= i < |order| ==> order[i] in s.recipients
    ensures forall i, j :: 0 <= i < j < |order| ==> order[i] != order[j]
    ensures BadRecipient(cfg, s) <==> exists i :: 0 <= i < |order| && !Reads(cfg.accepts, order[i])
  {
    hide Reads;
    forall i | 0 <= i < |order| ensures order[i] in s.recipients { assert order[i] in order; }
    if a :| a in s.recipients && !Reads(cfg.accepts, a) {
      assert a in order;
      var i :| 0 <= i < |order| && order[i] == a;
    }
  }

  /** A message row stops any pass: its number does not read back, or it is of a recipient and its PDU
      does not parse. */
  ghost predicate Poisoned(cfg: Config, s: State) {
    exists i :: i in s.messages && Delivery.Stops(cfg.accepts, s.recipients.Keys, s.messages[i])
  }

  /** The recipients that have messages and no contact. */
  function Newcomers(known: set<Addr>, contacts: set<Addr>, rows: seq<Delivery.Row>): set<Addr> {
    set r | r in rows && r.addr in known && r.addr !in contacts :: r.addr
  }

  /** They are more than the UUIDs left. */
  ghost predicate TooManySenders(s: State, rows: seq<Delivery.Row>) {
    s.nextUser + |Newcomers(s.recipients.Keys, s.contacts.Keys, rows)| > MAX_USER_ID + 1
  }

  /** A pass is stopped in whatever order exactly if some row stops any pass, or the UUIDs left do not
      suffice for the recipients that have messages and no contact. */
  lemma {:induction false} PassExactly(cfg: Config, known: set<Addr>, g: Ghosts, rows: seq<Delivery.Row>)
    requires g.next <= MAX_USER_ID + 1
    ensures PassCause(cfg, known, g, rows).Some? <==>
              || (exists i :: 0 <= i < |rows| && Delivery.Stops(cfg.accepts, known, rows[i]))
              || g.next + |Newcomers(known, g.contacts, rows)| > MAX_USER_ID + 1
    decreases rows
  {
    hide Reads;
    if rows != [] {
      var row, later := rows[0], rows[1..];
      forall i | 0 <= i < |later| ensures later[i] == rows[i + 1] {}
      var g1 := GhostsAfter(known, g, row);
      var added, rest := Newcomers(known, g.contacts, rows), Newcomers(known, g1.contacts, later);
      NewcomersStep(known, g, rows);
      hide Newcomers;
      if RowCause(cfg, known, g, row).None? {
        PassExactly(cfg, known, g1, later);
      } else if !Delivery.Stops(cfg.accepts, known, row) {
        assert |added| == 1 + |rest|;
      } else {
        assert rows[0] == row;
      }
    }
  }

  lemma {:induction false} NewcomersStep(known: set<Addr>, g: Ghosts, rows: seq<Delivery.Row>)
    requires rows != []
    ensures var a := rows[0].addr;
            var rest := Newcomers(known, GhostsAfter(known, g, rows[0]).contacts, rows[1..]);
            Newcomers(known, g.contacts, rows) == if a in known && a !in g.contacts then {a} + rest else rest
    ensures rows[0].addr !in Newcomers(known, GhostsAfter(known, g, rows[0]).contacts, rows[1..])
            || rows[0].addr !in known || rows[0].addr in g.contacts
  {
    assert rows == [rows[0]] + rows[1..];
  }

  /** Why a pass over the messages of a state stops. */
  function MessagesCause(cfg: Config, w: World, s: State): Option<Failure> {
    PassCause(cfg, s.recipients.Keys, GhostsOf(s), w.messageOrder(s.messages))
  }

  /** A pass of `process_messages` fails exactly, with the admin there, on a row that stops any pass, or
      when more recipients have messages and no contact than there are UUIDs left. */
  lemma {:induction false} PassFails(cfg: Config, w: World, s: State)
    requires Inv(cfg, s) && Honest(w)
    ensures var r, rows := ProcessMessages(cfg, w, s), w.messageOrder(s.messages);
            && Inv(cfg, Left(r)) && Onward(s, Left(r))
            && Why(r) == (if AdminHere(cfg, s) then MessagesCause(cfg, w, s) else None)
            && (r.Err? <==> AdminHere(cfg, s) && (Poisoned(cfg, s) || TooManySenders(s, rows)))
  {
    hide Inv, Onward, Reads, Newcomers, PassCause, Delivery.Stops;
    MessagesKeep(cfg, w, s);
    Begin(cfg, w, s);
    hide ProcessMessages;
    CounterBound(cfg, s);
    var rows := w.messageOrder(s.messages);
    PassExactly(cfg, s.recipients.Keys, GhostsOf(s), rows);
    RowsAreMessages(cfg, s, rows);
  }

  lemma {:induction false} RowsAreMessages(cfg: Config, s: State, rows: seq<Delivery.Row>)
    requires Delivery.IsSnapshot(s.messages, rows)
    ensures Poisoned(cfg, s) <==>
              exists i :: 0 <= i < |rows| && Delivery.Stops(cfg.accepts, s.recipients.Keys, rows[i])
  {
    hide Delivery.Stops;
    if i :| 0 <= i < |rows| && Delivery.Stops(cfg.accepts, s.recipients.Keys, rows[i]) {
      assert rows[i] in rows;
      assert s.messages[rows[i].id] == rows[i];
    }
    if i :| i in s.messages && Delivery.Stops(cfg.accepts, s.recipients.Keys, s.messages[i]) {
      assert s.messages[i] in rows;
      var k :| 0 <= k < |rows| && rows[k] == s.messages[i];
    }
  }

  /** Whether the admin is there is a matter of other users than ghosts. */
  lemma {:induction false} AdminAmongStrangers(cfg: Config, s: State)
    requires Inv(cfg, s)
    ensures AdminHere(cfg, s) <==> exists u :: u in Strangers(s) && Strangers(s)[u].nick == cfg.adminNick
  {
    hide Inv;
    if u :| u in s.users && s.users[u].nick == cfg.adminNick {
      AdminIsNoGhost(cfg, s, u);
      assert u in Strangers(s) && Strangers(s)[u].nick == cfg.adminNick;
    }
  }

  lemma {:induction false} AdminStays(cfg: Config, s: State, s': State)
    requires Inv(cfg, s) && Inv(cfg, s') && Strangers(s') == Strangers(s)
    ensures AdminHere(cfg, s') <==> AdminHere(cfg, s)
  {
    hide Inv, Strangers, AdminHere;
    AdminAmongStrangers(cfg, s);
    AdminAmongStrangers(cfg, s');
  }

  /** Why the end of the peer's burst fails. When all recipients have contacts, a pass needs no UUID. */
  function EndBurstCause(cfg: Config, w: World, s: State): Option<Failure> {
    match BurstCause(cfg, GhostsOf(s), w.recipientOrder(s.recipients.Keys))
    case Some(why) => Some(why)
    case None =>
      if AdminHere(cfg, s)
      then PassCause(cfg, s.recipients.Keys, Ghosts(s.recipients.Keys, 1), w.messageOrder(s.messages))
      else None
  }

  /** ENDBURST of the remote server: afterwards every recipient has a ghost. It fails exactly if a
      recipient row does not read back, or the UUIDs left do not suffice, or the admin is there and some
      message row stops any pass. */
  lemma {:induction false} EndBurstKeeps(cfg: Config, w: World, s: State)
    requires Inv(cfg, s) && Honest(w)
    ensures var r := Step(cfg, w, s, EndBurstEvent(s.remoteSid), None);
            && Inv(cfg, Left(r)) && Why(r) == EndBurstCause(cfg, w, s)
            && (r.Err? <==> BadRecipient(cfg, s) || TooMany(s) || (AdminHere(cfg, s) && Poisoned(cfg, s)))
            && (r.Ok? ==> r.value.contacts.Keys == s.recipients.Keys)
  {
    hide Inv, Onward, QuasiBurst, ProcessGroups, ProcessMessages, BadRecipient, TooMany, Poisoned, BadMember,
         BurstCause, PassCause, AdminHere;
    QuasiBurstKeeps(cfg, w, s);
    var q := QuasiBurst(cfg, w, s);
    if q.Ok? {
      OnwardFacts(s, q.value);
      var s1 := q.value.(phase := Linked);
      SilentKeepsStored(cfg, q.value, s1);
      var join := Join(ControlUuid(cfg), cfg.logChan);
      ControlKeeps(cfg, s1, Out(join));
      SameStrangers(s, q.value, Say(s1, join));
      LinkedKeeps(cfg, w, s, Say(s1, join));
    }
  }

  lemma SameStrangers(s: State, s1: State, s2: State)
    requires Onward(s, s1) && s2.users == s1.users && s2.owners == s1.owners
    ensures Strangers(s2) == Strangers(s)
  {
  }

  /** Groups, then messages, of a link on which all recipients have contacts. */
  lemma {:induction false} LinkedKeeps(cfg: Config, w: World, s: State, s2: State)
    requires Inv(cfg, s) && Inv(cfg, s2) && Honest(w) && s2.messages == s.messages && Strangers(s2) == Strangers(s)
    requires s2.recipients.Keys == s.recipients.Keys == s2.contacts.Keys && !BadRecipient(cfg, s)
    ensures var g := ProcessGroups(cfg, w, s2);
            && g.Ok? && Inv(cfg, g.value)
            && var r := ProcessMessages(cfg, w, g.value);
            && Inv(cfg, Left(r))
            && Why(r) == (if !AdminHere(cfg, s) then None
                          else PassCause(cfg, s.recipients.Keys, Ghosts(s.recipients.Keys, 1),
                                         w.messageOrder(s.messages)))
            && (r.Err? <==> AdminHere(cfg, s) && Poisoned(cfg, s))
            && (r.Ok? ==> r.value.contacts.Keys == s.recipients.Keys)
  {
    hide Inv, Honest, Onward, ProcessGroups, ProcessMessages, Reads, Strangers, AdminHere, Newcomers, PassCause,
         Poisoned,
         BadMember;
    ProcessGroupsKeep(cfg, w, s2);
    NoBadMember(cfg, w, s2);
    var s3 := ProcessGroups(cfg, w, s2).value;
    GroupsStrangers(s2, s3);
    AdminStays(cfg, s, s3);
    PassFails(cfg, w, s3);
    PoisonedSame(cfg, s, s3);
    var known, rows := s.recipients.Keys, w.messageOrder(s.messages);
    NoNewcomers(known, rows);
    CounterBound(cfg, s3);
    CounterIrrelevant(cfg, known, s3.nextUser, rows);
    var r := ProcessMessages(cfg, w, s3);
    OnwardFacts(s3, Left(r));
    CounterBound(cfg, Left(r));
  }

  lemma NoBadMember(cfg: Config, w: World, s: State)
    requires forall a :: a in s.recipients ==> Reads(cfg.accepts, a)
    ensures !BadMember(cfg, w, s)
  {
    hide Reads, FindById;
  }

  lemma GroupsStrangers(s: State, s': State)
    requires OnlyChannels(s, s')
    ensures Strangers(s') == Strangers(s)
  {
  }

  lemma PoisonedSame(cfg: Config, s: State, s': State)
    requires s'.messages == s.messages && s'.recipients.Keys == s.recipients.Keys
    ensures Poisoned(cfg, s') <==> Poisoned(cfg, s)
  {
    hide Delivery.Stops;
  }

  lemma NoNewcomers(known: set<Addr>, rows: seq<Delivery.Row>)
    ensures Newcomers(known, known, rows) == {}
  {
  }

  /** Where all recipients have contacts, the counter does not matter. */
  lemma {:induction false} CounterIrrelevant(cfg: Config, known: set<Addr>, n: nat, rows: seq<Delivery.Row>)
    ensures PassCause(cfg, known, Ghosts(known, n), rows) == PassCause(cfg, known, Ghosts(known, 1), rows)
    decreases rows
  {
    hide Reads;
    if rows != [] { CounterIrrelevant(cfg, known, n, rows[1..]); }
  }

  lemma {:induction false} SilentKeepsStored(cfg: Config, s: State, s': State)
    requires Inv(cfg, s)
    requires s' == s.(phase := s'.phase, remoteSid := s'.remoteSid, channels := s'.channels, topics := s'.topics)
    ensures Inv(cfg, s')
  {
    hide Registry, Numbered, Counted, Named, Cached, Agreed, Stored;
    SilentKeeps(cfg, s, s');
  }

  // ---- other tasks ----

  lemma {:induction false} DatabaseKeeps(cfg: Config, w: World, s: State, e: Event, found: Option<Addr>)
    requires Inv(cfg, s) && Allowed(cfg, s, e, found)
    requires e.DbRecipient? || e.DbMessage? || e.DbGroup? || e.DbGroupGone?
    ensures Sound(cfg, w, s, e, Step(cfg, w, s, e, found))
  {
    hide Inv;
    CounterBound(cfg, s);
    StoredNow(cfg, w, s, e, found);
    hide Stored;
    SilentKeeps(cfg, s, Step(cfg, w, s, e, found).value);
  }

  lemma {:induction false} StoredNow(cfg: Config, w: World, s: State, e: Event, found: Option<Addr>)
    requires Inv(cfg, s) && Allowed(cfg, s, e, found)
    requires e.DbRecipient? || e.DbMessage? || e.DbGroup? || e.DbGroupGone?
    ensures var s' := Step(cfg, w, s, e, found).value; Stored(s'.messages, s'.groups)
  {
    hide Registry, Numbered, Counted, Named, Cached, Agreed;
  }

  // ---- one step ----

  /** Why a step ends the task, if it does, as the state before it tells. */
  function Failing(cfg: Config, w: World, s: State, e: Event): Option<Failure> {
    match e
    case ErrorEvent => Some(RemoteError)
    case ServerEvent(args) => if Accepted(cfg, args) then None else Some(BadServer)
    case UidEvent(args, suffix) =>
      (match ParseUid(args, suffix)
       case None => Some(BadUidLine)
       case Some((_, user)) => if user.nick == cfg.adminNick then MessagesCause(cfg, w, s) else None)
    case KillEvent(u) => if u in s.owners && s.nextUser > MAX_USER_ID then Some(UuidsExhausted) else None
    case QuitEvent(u) => if u in s.owners && s.nextUser > MAX_USER_ID then Some(UuidsExhausted) else None
    case EndBurstEvent(prefix) => if prefix == s.remoteSid then EndBurstCause(cfg, w, s) else None
    case DoMessages => if AdminHere(cfg, s) then MessagesCause(cfg, w, s) else None
    case DoGroups => if BadMember(cfg, w, s) then Some(BadAddress) else None
    case DoSetup(a) => if a in s.recipients then SetupCause(cfg, GhostsOf(s), a) else None
    case DoQuery(a, _) => if a in s.recipients then SetupCause(cfg, GhostsOf(s), a) else None
    case DoDrop(a) => if a in s.recipients then None else Some(NoSuchRecipient)
    case _ => None
  }

  /** The invariant is kept, and the step fails exactly as told. */
  ghost predicate Sound(cfg: Config, w: World, s: State, e: Event, r: Outcome) {
    Inv(cfg, Left(r)) && Why(r) == Failing(cfg, w, s, e)
  }

  lemma {:induction false} PeerStep(cfg: Config, w: World, s: State, e: Event)
    requires Inv(cfg, s) && Honest(w) && Allowed(cfg, s, e, None)
    requires e.ConnectEvent? || e.ErrorEvent? || e.ServerEvent? || e.UidEvent? || e.KillEvent? || e.QuitEvent?
             || e.SquitEvent? || e.NickEvent? || e.HostEvent? || e.TopicEvent?
    ensures Sound(cfg, w, s, e, Step(cfg, w, s, e, None))
  {
    hide Inv, Onward, ProcessMessages, RemoveAndRecreate, DoBurst, MessagesCause, ParseUid, Squit, Accepted;
    match e
    case ConnectEvent => HelloKeeps(cfg, s);
    case ErrorEvent =>
    case ServerEvent(args) =>
      if Accepted(cfg, args) { BurstSentKeeps(cfg, s, args); }
    case UidEvent(args, suffix) =>
      if ParseUid(args, suffix).Some? { AdminStep(cfg, w, s, args, suffix); }
    case KillEvent(u) => GoneKeeps(cfg, w, s, u);
    case QuitEvent(u) => GoneKeeps(cfg, w, s, u);
    case SquitEvent(server) => SquitKeeps(cfg, s, server);
    case TopicEvent(channel, topic) => SilentKeepsStored(cfg, s, s.(topics := s.topics[channel := topic]));
    case NickEvent(u, nick) =>
      if u in s.users { UsersKeep(cfg, s, s.users[u := s.users[u].(nick := nick)]); }
    case HostEvent(u, host) =>
      if u in s.users { UsersKeep(cfg, s, s.users[u := s.users[u].(host := host)]); }
  }

  lemma {:induction false} HelloKeeps(cfg: Config, s: State)
    requires Inv(cfg, s)
    ensures Inv(cfg, Say(s, Hello).(phase := ServerSent))
  {
    hide Inv;
    TalkKeeps(cfg, s, [Out(Hello)]);
    SilentKeepsStored(cfg, Say(s, Hello), Say(s, Hello).(phase := ServerSent));
  }

  lemma {:induction false} BurstSentKeeps(cfg: Config, s: State, args: seq<string>)
    requires Inv(cfg, s) && Accepted(cfg, args)
    ensures Inv(cfg, DoBurst(cfg, s.(remoteSid := args[3])).(phase := BurstSent))
  {
    hide Inv, DoBurst;
    var s1 := s.(remoteSid := args[3]);
    SilentKeepsStored(cfg, s, s1);
    BurstKeeps(cfg, s1);
    SilentKeepsStored(cfg, DoBurst(cfg, s1), DoBurst(cfg, s1).(phase := BurstSent));
  }

  lemma {:induction false} AdminStep(cfg: Config, w: World, s: State, args: seq<string>, suffix: Option<string>)
    requires Inv(cfg, s) && Honest(w) && ParseUid(args, suffix).Some? && !Ours(cfg, ParseUid(args, suffix).value.0)
    ensures Sound(cfg, w, s, UidEvent(args, suffix), Step(cfg, w, s, UidEvent(args, suffix), None))
  {
    hide Inv, Onward, ProcessMessages, Reads, ParseUid, PassCause, Newcomers, Poisoned;
    var (u, user) := ParseUid(args, suffix).value;
    var s1 := s.(users := s.users[u := user]);
    UsersKeep(cfg, s, s1.users);
    PassFails(cfg, w, s1);
    if user.nick == cfg.adminNick {
      assert u in s1.users && s1.users[u].nick == cfg.adminNick;
    }
  }

  lemma {:induction false} CommandStep(cfg: Config, w: World, s: State, e: Event, found: Option<Addr>)
    requires Inv(cfg, s) && Honest(w) && Allowed(cfg, s, e, found)
    requires e.DoMessages? || e.DoGroups? || e.DoSetup? || e.DoQuery? || e.DoDrop? || e.DoForward? || e.DropByNick?
             || e.ForwardByNick?
    ensures Sound(cfg, w, s, e, Step(cfg, w, s, e, found))
  {
    hide Inv, Onward, ProcessMessages, ProcessGroups, SetupRecipient, RequestContact, DropContact, ForwardCmd,
         MessagesCause, AdminHere, Poisoned, Newcomers, BadMember, SetupCause;
    match e
    case DoMessages => PassFails(cfg, w, s);
    case DoGroups => ProcessGroupsKeep(cfg, w, s);
    case DoSetup(a) => if a in s.recipients { SetupRecipientKeeps(cfg, w, s, a); }
    case DoQuery(a, source) => RequestKeeps(cfg, w, s, a, source);
    case DoDrop(a) => DropKeeps(cfg, s, a);
    case DoForward(a, cmd) => ForwardKeeps(cfg, s, a, cmd);
    case DropByNick(who) =>
      if found.Some? {
        AnswerIsContact(cfg, s, who, found.value);
        DropKeeps(cfg, s, found.value);
      }
    case ForwardByNick(_, cmd) => if found.Some? { ForwardKeeps(cfg, s, found.value, cmd); }
  }

  lemma {:induction false} AnswerIsContact(cfg: Config, s: State, who: string, a: Addr)
    requires Inv(cfg, s) && Answer(s, who, Some(a))
    ensures a in s.contacts && a in s.recipients
  {
    hide Registry, Numbered, Counted, Named, Cached, Agreed, Stored;
    var u :| Resolves(s, who, u) && s.owners[u] == a;
    OwnerFacts(cfg, s, u);
    ContactFacts(cfg, s, a);
  }

  /** Every step, failed or not, leaves a state with the invariant, and fails exactly when and why the
      state before it tells: on an ERROR line or a rejected SERVER or UID line, when the UUIDs do not
      suffice, on a stored PDU that does not parse, on a row that does not read back, or when it is told
      to drop an address without a recipient. No `unwrap` fails, no row is deleted twice,
      `contact_message` takes neither error return. */
  lemma {:induction false} StepKeeps(cfg: Config, w: World, s: State, e: Event, found: Option<Addr>)
    requires Inv(cfg, s) && Honest(w) && Allowed(cfg, s, e, found)
    ensures var r := Step(cfg, w, s, e, found);
            Inv(cfg, Left(r)) && Why(r) == Failing(cfg, w, s, e)
  {
    hide Inv, Honest, Failing;
    match e
    case EndBurstEvent(prefix) => BurstStep(cfg, w, s, prefix);
    case DbRecipient(_, _) => DatabaseKeeps(cfg, w, s, e, found);
    case DbMessage(_) => DatabaseKeeps(cfg, w, s, e, found);
    case DbGroup(_, _) => DatabaseKeeps(cfg, w, s, e, found);
    case DbGroupGone(_) => DatabaseKeeps(cfg, w, s, e, found);
    case DoMessages => CommandStep(cfg, w, s, e, found);
    case DoGroups => CommandStep(cfg, w, s, e, found);
    case DoSetup(_) => CommandStep(cfg, w, s, e, found);
    case DoQuery(_, _) => CommandStep(cfg, w, s, e, found);
    case DoDrop(_) => CommandStep(cfg, w, s, e, found);
    case DoForward(_, _) => CommandStep(cfg, w, s, e, found);
    case DropByNick(_) => CommandStep(cfg, w, s, e, found);
    case ForwardByNick(_, _) => CommandStep(cfg, w, s, e, found);
    case _ => PeerStep(cfg, w, s, e);
  }

  lemma {:induction false} BurstStep(cfg: Config, w: World, s: State, prefix: string)
    requires Inv(cfg, s) && Honest(w)
    ensures Sound(cfg, w, s, EndBurstEvent(prefix), Step(cfg, w, s, EndBurstEvent(prefix), None))
  {
    hide Inv, Honest, QuasiBurst, OnLinked, BadRecipient, Poisoned, TooMany, AdminHere, EndBurstCause;
    EndBurstKeeps(cfg, w, s);
  }

  // ---- runs ----

  datatype Move = Move(w: World, e: Event, found: Option<Addr>)

  /** A run from a new link on a well-kept database. */
  ghost predicate Run(cfg: Config, states: seq<State>, moves: seq<Move>) {
    && |states| == |moves| + 1
    && (var s := states[0];
        s == Start(s.recipients, s.groups, s.messages) && Stored(s.messages, s.groups))
    && (forall i :: 0 <= i < |moves| ==> Moves(cfg, states[i], moves[i], states[i + 1]))
  }

  /** A step, or a failed step and a new link on the database it left. */
  ghost predicate Moves(cfg: Config, s: State, m: Move, s': State) {
    && Honest(m.w) && Allowed(cfg, s, m.e, m.found)
    && match Step(cfg, m.w, s, m.e, m.found)
       case Ok(next) => s' == next
       case Err(stop) => s' == Start(stop.at.recipients, stop.at.groups, stop.at.messages)
  }

  lemma {:induction false} RestartHolds(cfg: Config, s: State)
    requires Inv(cfg, s)
    ensures Inv(cfg, Start(s.recipients, s.groups, s.messages))
  {
    StartHolds(cfg, Start(s.recipients, s.groups, s.messages));
  }

  /** The invariant holds in every state of every run, whatever failures and restarts it goes through. */
  lemma {:induction false} RunKeeps(cfg: Config, states: seq<State>, moves: seq<Move>, i: nat)
    requires Run(cfg, states, moves) && i < |states|
    ensures Inv(cfg, states[i])
  {
    hide Inv, Start, Step, Allowed, Honest, Failing, Stored;
    if i == 0 {
      StartHolds(cfg, states[0]);
    } else {
      RunKeeps(cfg, states, moves, i - 1);
      var s, m := states[i - 1], moves[i - 1];
      assert Moves(cfg, s, m, states[i]);
      StepKeeps(cfg, m.w, s, m.e, m.found);
      RestartHolds(cfg, Left(Step(cfg, m.w, s, m.e, m.found)));
    }
  }

  lemma {:induction false} StartHolds(cfg: Config, s: State)
    requires s == Start(s.recipients, s.groups, s.messages) && Stored(s.messages, s.groups)
    ensures Inv(cfg, s)
  {
  }

  // ---- what the invariant means ----

  lemma {:induction false} UuidsListed(cfg: Config, n: nat)
    requires n <= MAX_USER_ID + 1
    ensures |Uuids(cfg, n)| == if n <= 1 then 0 else n - 1
    ensures forall i :: 0 <= i < |Uuids(cfg, n)| ==> Uuids(cfg, n)[i] == Uuid(cfg, i + 1)
  {
    if n > 1 { UuidsListed(cfg, n - 1); }
  }

  /** The UUIDs introduced over a run are pairwise distinct, of one length, and not the control
      user's; there are at most 99999 of them. */
  lemma {:induction false} UuidsNeverReused(cfg: Config, s: State)
    requires Inv(cfg, s)
    ensures var us := Introduced(s.log, ControlUuid(cfg));
            && |us| == s.nextUser - 1 <= MAX_USER_ID
            && (forall i :: 0 <= i < |us| ==> |us[i]| == |cfg.sid| + 6 && Ours(cfg, us[i]) && us[i] != ControlUuid(cfg))
            && (forall i, j :: 0 <= i < j < |us| ==> us[i] != us[j])
  {
    hide Registry, Named, Cached, Agreed, Stored;
    var us := Introduced(s.log, ControlUuid(cfg));
    UuidsListed(cfg, s.nextUser);
    forall i | 0 <= i < |us| ensures |us[i]| == |cfg.sid| + 6 && Ours(cfg, us[i]) && us[i] != ControlUuid(cfg) {
      UuidShape(cfg, i + 1);
    }
    forall i, j | 0 <= i < j < |us| ensures us[i] != us[j] {
      if us[i] == us[j] { UuidDistinct(cfg, i + 1, j + 1); }
    }
  }

  /** `resolve_nick` of a ghost's nick gives that ghost's address, in whatever order it meets the
      users, even when a remote user bears the same nick; and it has only one answer. */
  lemma {:induction false} ResolveExact(cfg: Config, s: State, nick: string, found: Option<Addr>)
    requires Inv(cfg, s) && Answer(s, nick, found)
    ensures forall a :: a in s.contacts && s.recipients[a].nick == nick ==> found == Some(a)
    ensures found.Some? ==> found.value in s.contacts && s.recipients[found.value].nick == nick
  {
    hide Numbered, Counted, Agreed, Stored;
    forall a | a in s.contacts && s.recipients[a].nick == nick ensures found == Some(a) {
      ContactFacts(cfg, s, a);
      assert Resolves(s, nick, s.contacts[a].uuid);
    }
    if found.Some? {
      var u :| Resolves(s, nick, u) && s.owners[u] == found.value;
      ContactFacts(cfg, s, found.value);
    }
  }

  /** `admin_uuid` never selects a ghost. */
  lemma {:induction false} AdminIsNoGhost(cfg: Config, s: State, u: Uid)
    requires Inv(cfg, s) && u in s.users && s.users[u].nick == cfg.adminNick
    ensures u !in s.owners
  {
    hide Numbered, Counted, Cached, Agreed, Stored;
  }

  /** The suffix the collision search settles on is at most the number of known users. */
  lemma {:induction false} CollisionBound(cfg: Config, s: State, nick: string) returns (k: nat)
    requires nick in Used(cfg, s)
    ensures Nicks.Check(Used(cfg, s), nick) == Some(Nicks.Alternative(nick, k))
    ensures forall j: nat :: j < k ==> Nicks.Alternative(nick, j) in Used(cfg, s)
    ensures k <= |s.users|
  {
    k := Nicks.SuffixBound(Used(cfg, s), nick);
    var table := map u | u in s.users :: s.users[u].nick;
    assert table.Keys == s.users.Keys;
    Nicks.ImageSize(table);
    assert NicksOf(s) == table.Values by {
      forall n | n in table.Values ensures n in NicksOf(s) {
        var u :| u in table && table[u] == n;
      }
      forall n | n in NicksOf(s) ensures n in table.Values {
        var u :| u in s.users && s.users[u].nick == n;
        assert table[u] == n;
      }
    }
    assert |table| == |table.Keys| == |s.users.Keys| == |s.users|;
    assert |Used(cfg, s)| <= |NicksOf(s)| + 1;
  }

  // ---- channels ----

  /** The channels of the groups with a participant. */
  function ChannelsWith(groups: map<int, Group>, id: int): set<string> {
    set g | g in GroupsWith(groups, id) :: groups[g].channel
  }

  /** The channels of the groups a recipient is in. */
  function GroupChannels(s: State, a: Addr): set<string>
    requires a in s.recipients
  {
    ChannelsWith(s.groups, s.recipients[a].id)
  }

  lemma {:induction false} NamesListed(groups: map<int, Group>, ids: seq<int>)
    requires forall i :: 0 <= i < |ids| ==> ids[i] in groups
    ensures Elements(ChannelNames(groups, ids)) == set i | 0 <= i < |ids| :: groups[ids[i]].channel
  {
    if ids != [] {
      NamesListed(groups, ids[1..]);
      var all := set i | 0 <= i < |ids| :: groups[ids[i]].channel;
      var later := set i | 0 <= i < |ids[1..]| :: groups[ids[1..][i]].channel;
      forall c | c in all ensures c in {groups[ids[0]].channel} + later {
        var i :| 0 <= i < |ids| && groups[ids[i]].channel == c;
        if i > 0 { assert ids[1..][i - 1] == ids[i]; }
      }
      forall c | c in {groups[ids[0]].channel} + later ensures c in all {
        if c in later {
          var i :| 0 <= i < |ids[1..]| && groups[ids[1..][i]].channel == c;
          assert ids[i + 1] == ids[1..][i];
        } else {
          assert groups[ids[0]].channel == c;
        }
      }
      assert all == {groups[ids[0]].channel} + later;
      assert Elements(ChannelNames(groups, ids)) == {groups[ids[0]].channel} + Elements(ChannelNames(groups, ids[1..]));
    }
  }

  /** The names listed for a participant are the channels of exactly its groups. */
  lemma {:induction false} ChannelsListed(w: World, groups: map<int, Group>, id: int)
    requires Honest(w)
    ensures Elements(ChannelNames(groups, w.groupOrder(GroupsWith(groups, id)))) == ChannelsWith(groups, id)
  {
    var mine := GroupsWith(groups, id);
    var ids := w.groupOrder(mine);
    assert Lists(ids, mine);
    forall i | 0 <= i < |ids| ensures ids[i] in mine { assert ids[i] in ids; }
    NamesListed(groups, ids);
    var names := set i | 0 <= i < |ids| :: groups[ids[i]].channel;
    forall c | c in ChannelsWith(groups, id) ensures c in names {
      var g :| g in mine && groups[g].channel == c;
      assert g in ids;
      var i :| 0 <= i < |ids| && ids[i] == g;
    }
    forall c | c in names ensures c in ChannelsWith(groups, id) {
      var i :| 0 <= i < |ids| && groups[ids[i]].channel == c;
      var g := ids[i];
      assert g in mine && groups[g].channel == c;
    }
    assert names == ChannelsWith(groups, id);
  }

  /** `process_groups_for_recipient` puts the ghost in the log channel and its groups' channels. */
  lemma {:induction false} GroupsForExact(cfg: Config, w: World, s: State, a: Addr)
    requires Honest(w) && a in s.contacts && a in s.recipients
    ensures var s' := ProcessGroupsFor(cfg, w, s, a).value;
            && Elements(s'.contacts[a].channels) == {cfg.logChan} + GroupChannels(s, a)
            && s'.channels == s.channels + GroupChannels(s, a)
  {
    ChannelsListed(w, s.groups, s.recipients[a].id);
    var joined := ChannelNames(s.groups, w.groupOrder(GroupsOf(s, a)));
    assert Elements(WithLog(cfg, joined)) == {cfg.logChan} + Elements(joined);
  }

  /** Contacts already handled have their channels, and the bridged channels are known. */
  ghost predicate Placed(cfg: Config, s: State, s': State, order: seq<Addr>) {
    && (forall i :: 0 <= i < |order| ==>
          order[i] in s'.contacts && order[i] in s.recipients
          && Elements(s'.contacts[order[i]].channels) == {cfg.logChan} + GroupChannels(s, order[i]))
    && (forall c :: c in s'.channels <==>
          || c in s.channels
          || exists i :: 0 <= i < |order| && order[i] in s.recipients && c in GroupChannels(s, order[i]))
    && (forall a :: a in s.contacts && a !in order ==> a in s'.contacts && s'.contacts[a] == s.contacts[a])
  }

  lemma {:induction false} GroupsEachExact(cfg: Config, w: World, s: State, order: seq<Addr>)
    requires Inv(cfg, s) && Honest(w) && forall i :: 0 <= i < |order| ==> order[i] in s.contacts
    requires forall i, j :: 0 <= i < j < |order| ==> order[i] != order[j]
    ensures ProcessGroupsEach(cfg, w, s, order).Ok? && Placed(cfg, s, ProcessGroupsEach(cfg, w, s, order).value, order)
    decreases order
  {
    hide Inv, Honest, ProcessGroupsFor;
    if order != [] {
      var a := order[0];
      GroupsKeep(cfg, w, s, a);
      ContactFactsOnly(cfg, s, a);
      GroupsForExact(cfg, w, s, a);
      GroupsOnlyChannels(cfg, w, s, a);
      GroupsForOthers(cfg, w, s, a);
      var s1 := ProcessGroupsFor(cfg, w, s, a).value;
      GroupsEachExact(cfg, w, s1, order[1..]);
      PlacedStep(cfg, s, s1, ProcessGroupsEach(cfg, w, s1, order[1..]).value, order);
    }
  }

  lemma {:induction false} ContactFactsOnly(cfg: Config, s: State, a: Addr)
    requires Inv(cfg, s) && a in s.contacts
    ensures a in s.recipients
  {
    ContactFacts(cfg, s, a);
  }

  lemma {:induction false} GroupsForOthers(cfg: Config, w: World, s: State, a: Addr)
    requires ProcessGroupsFor(cfg, w, s, a).Ok?
    ensures forall b :: b in s.contacts && b != a ==> ProcessGroupsFor(cfg, w, s, a).value.contacts[b] == s.contacts[b]
  {
  }

  lemma {:induction false} PlacedStep(cfg: Config, s: State, s1: State, s2: State, order: seq<Addr>)
    requires order != [] && order[0] in s.contacts && order[0] in s.recipients && OnlyChannels(s, s1)
    requires forall i, j :: 0 <= i < j < |order| ==> order[i] != order[j]
    requires Elements(s1.contacts[order[0]].channels) == {cfg.logChan} + GroupChannels(s, order[0])
    requires s1.channels == s.channels + GroupChannels(s, order[0])
    requires forall b :: b in s.contacts && b != order[0] ==> s1.contacts[b] == s.contacts[b]
    requires Placed(cfg, s1, s2, order[1..])
    ensures Placed(cfg, s, s2, order)
  {
    var a, later := order[0], order[1..];
    assert forall b :: b in s.recipients ==> GroupChannels(s1, b) == GroupChannels(s, b);
    assert a !in later;
    forall i | 0 <= i < |order|
      ensures order[i] in s2.contacts && order[i] in s.recipients
              && Elements(s2.contacts[order[i]].channels) == {cfg.logChan} + GroupChannels(s, order[i])
    {
      if i > 0 { assert later[i - 1] == order[i]; }
    }
    forall c ensures c in s2.channels <==>
          c in s.channels || exists i :: 0 <= i < |order| && order[i] in s.recipients && c in GroupChannels(s, order[i])
    {
      if j :| 0 <= j < |later| && later[j] in s1.recipients && c in GroupChannels(s1, later[j]) {
        assert order[j + 1] == later[j];
      }
      if i :| 0 <= i < |order| && order[i] in s.recipients && c in GroupChannels(s, order[i]) {
        if i > 0 { assert later[i - 1] == order[i]; }
      }
    }
  }

  lemma {:induction false} GroupsPlaced(cfg: Config, w: World, s: State)
    requires Inv(cfg, s) && Honest(w)
    ensures var s' := Left(ProcessGroups(cfg, w, s));
            && Inv(cfg, s') && OnlyChannels(s, s')
            && Placed(cfg, s.(channels := {}), s', w.contactOrder(s.contacts.Keys))
  {
    hide Inv, Honest, ProcessGroupsEach, TellGroups, Placed, BadMember;
    ProcessGroupsKeep(cfg, w, s);
    var s0, order := s.(channels := {}), w.contactOrder(s.contacts.Keys);
    SilentKeepsStored(cfg, s, s0);
    ListsContacts(w, s);
    GroupsEachExact(cfg, w, s0, order);
    var s1 := ProcessGroupsEach(cfg, w, s0, order).value;
    TellGroupsKeep(cfg, w, s1, w.groupOrder(s1.groups.Keys));
    StillPlaced(cfg, s0, s1, Left(TellGroups(cfg, w, s1, w.groupOrder(s1.groups.Keys))), order);
  }

  lemma StillPlaced(cfg: Config, s: State, s1: State, s2: State, order: seq<Addr>)
    requires Placed(cfg, s, s1, order) && OnlyTells(s1, s2)
    ensures Placed(cfg, s, s2, order)
  {
  }

  /** Each ghost is in the log channel and in the channels of exactly the groups that contain its
      recipient, here and at the peer. */
  ghost predicate InPlace(cfg: Config, s: State, s': State, a: Addr)
    requires a in s.recipients
  {
    var v := Replay(map[], s'.log);
    && a in s'.contacts
    && Elements(s'.contacts[a].channels) == {cfg.logChan} + GroupChannels(s, a)
    && s'.contacts[a].uuid in v && v[s'.contacts[a].uuid].channels == {cfg.logChan} + GroupChannels(s, a)
  }

  /** After `process_groups`, even one that fails on a member it can not read, every ghost is in place,
      and `channels` is the union of the group channels over all contacts. */
  lemma {:induction false} GroupsExact(cfg: Config, w: World, s: State)
    requires Inv(cfg, s) && Honest(w)
    ensures var r := ProcessGroups(cfg, w, s);
            && (r.Err? <==> BadMember(cfg, w, s))
            && Left(r).contacts.Keys == s.contacts.Keys && s.contacts.Keys <= s.recipients.Keys
            && (forall a :: a in s.contacts ==> InPlace(cfg, s, Left(r), a))
            && (forall c :: c in Left(r).channels <==> exists a :: a in s.contacts && c in GroupChannels(s, a))
  {
    hide Inv, Honest, ProcessGroups, BadMember, ChannelsWith;
    ProcessGroupsKeep(cfg, w, s);
    GroupsPlaced(cfg, w, s);
    CounterBound(cfg, s);
    ListsContacts(w, s);
    var s' := Left(ProcessGroups(cfg, w, s));
    var order := w.contactOrder(s.contacts.Keys);
    forall a | a in s.contacts ensures InPlace(cfg, s, s', a) {
      var i :| 0 <= i < |order| && order[i] == a;
      PeerSees(cfg, s', a);
    }
    UnionOf(cfg, s, s', order);
  }

  lemma {:induction false} UnionOf(cfg: Config, s: State, s': State, order: seq<Addr>)
    requires Lists(order, s.contacts.Keys) && s.contacts.Keys <= s.recipients.Keys
    requires Placed(cfg, s.(channels := {}), s', order)
    ensures forall c :: c in s'.channels <==> exists a :: a in s.contacts && c in GroupChannels(s, a)
  {
    assert forall a :: a in s.recipients ==> GroupChannels(s.(channels := {}), a) == GroupChannels(s, a);
    forall c ensures c in s'.channels <==> exists a :: a in s.contacts && c in GroupChannels(s, a) {
      if a :| a in s.contacts && c in GroupChannels(s, a) {
        var i :| 0 <= i < |order| && order[i] == a;
        assert order[i] in s.recipients && c in GroupChannels(s.(channels := {}), order[i]);
      }
      if i :| 0 <= i < |order| && order[i] in s.recipients && c in GroupChannels(s.(channels := {}), order[i]) {
        assert order[i] in order;
        assert order[i] in s.contacts && c in GroupChannels(s, order[i]);
      }
    }
  }

  lemma {:induction false} ListsContacts(w: World, s: State)
    requires Honest(w)
    ensures Lists(w.contactOrder(s.contacts.Keys), s.contacts.Keys)
  {
  }

  /** The peer knows each ghost under its current UUID with its nick, host and channels. */
  lemma {:induction false} PeerSees(cfg: Config, s: State, a: Addr)
    requires Inv(cfg, s) && a in s.contacts
    ensures var v, ct := Replay(map[], s.log), s.contacts[a];
            && ct.uuid in v && a in s.recipients
            && v[ct.uuid] == Seen(s.recipients[a].nick,
                                  (if s.recipients[a].whatsapp then "wa." else "s.") + cfg.serverName,
                                  Elements(ct.channels))
  {
    hide Numbered, Counted, Named, Stored;
    assert Shows(cfg, s, a);
    assert Told(s, Replay(map[], s.log), s.contacts[a].uuid);
  }

  // ---- messages from the admin ----

  datatype Routed = ControlCommand | ToGroup(channel: string) | ToWhatsApp(addr: Addr) | ToModem(addr: Addr) | Nowhere

  /** Where a PRIVMSG of the admin goes. */
  function Route(cfg: Config, s: State, target: string): Routed {
    if target == ControlUuid(cfg) then ControlCommand
    else if target in s.channels then ToGroup(target)
    else if target in s.owners && s.owners[target] in s.contacts then
      if s.contacts[s.owners[target]].waMode then ToWhatsApp(s.owners[target]) else ToModem(s.owners[target])
    else Nowhere
  }

  /** A message to a ghost goes to its address, by the transport the database has for it, unless a
      channel has the name of its UUID. */
  lemma {:induction false} RouteToGhost(cfg: Config, s: State, a: Addr)
    requires Inv(cfg, s) && a in s.contacts
    ensures a in s.recipients
    ensures var u := s.contacts[a].uuid;
            Route(cfg, s, u) == if u in s.channels then ToGroup(u)
                                else if s.recipients[a].whatsapp then ToWhatsApp(a) else ToModem(a)
  {
    ContactFacts(cfg, s, a);
  }
}
