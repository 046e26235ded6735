/**
 The InspIRCd link: its state and its steps, as functions.

 A step gives the new state, or the failure that ends the task with the state it leaves. What the outside world decides
 (database and hash table orders, the clock) comes in as a `World`.
 */
module LinkModel {
  import opened Outcomes
  import opened Failures
  import opened Address
  import opened Peer
  import Decimal
  import Delivery
  import Fragments
  import Nicks

  type Uid = string

  datatype Config = Config(
    sid: string, adminNick: string, controlNick: string, logChan: string, serverName: string, ensureJoined: bool,
    setTopics: bool, clobberTopics: bool, recvPass: string, accepts: Byte -> bool)

  datatype World = World(
    oracle: Delivery.Oracle,
    messageOrder: Delivery.Table -> seq<Delivery.Row>,
    recipientOrder: set<Addr> -> seq<Addr>,
    contactOrder: set<Addr> -> seq<Addr>,
    groupOrder: set<int> -> seq<int>)

  ghost predicate Honest(w: World) {
    && Delivery.Honest(w.oracle)
    && (forall t: Delivery.Table :: Delivery.WellKept(t) ==> Delivery.IsSnapshot(t, w.messageOrder(t)))
    && (forall s: set<Addr> :: Lists(w.recipientOrder(s), s))
    && (forall s: set<Addr> :: Lists(w.contactOrder(s), s))
    && (forall s: set<int> :: Lists(w.groupOrder(s), s))
  }

  datatype User = User(nick: string, host: string)

  datatype Contact = Contact(uuid: Uid, channels: seq<string>, waMode: bool)

  datatype Recipient = Recipient(id: int, nick: string, whatsapp: bool, nickSource: int)

  const NICKSRC_COLLISION: int := 4

  datatype Group = Group(channel: string, participants: seq<int>, admins: seq<int>, topic: string)

  datatype Phase = TcpConnected | ServerSent | BurstSent | Linked

  /** `owners` is `contacts_uuid_pdua`, `topics` is `channel_topics`; `recipients`, `groups` and `messages` are the
      database. */
  datatype State = State(
    users: map<Uid, User>,
    contacts: map<Addr, Contact>,
    owners: map<Uid, Addr>,
    recipients: map<Addr, Recipient>,
    groups: map<int, Group>,
    messages: Delivery.Table,
    channels: set<string>,
    topics: map<string, string>,
    nextUser: nat,
    remoteSid: string,
    phase: Phase,
    log: seq<Wire>)

  /** What a step gives: the new state, or the failure that ends the task and the state it leaves. */
  type Outcome = Result<State, Stop<State, Failure>>

  /** `InspLink::new`, on whatever database there is. */
  function Start(recipients: map<Addr, Recipient>, groups: map<int, Group>, messages: Delivery.Table): State {
    State(map[], map[], map[], recipients, groups, messages, {}, map[], 1, "XXX", TcpConnected, [])
  }

  function ControlUuid(cfg: Config): Uid {
    cfg.sid + "A00000"
  }

  /** `format!("{}Z{:05}", sid, n)`. */
  function Uuid(cfg: Config, n: nat): Uid {
    cfg.sid + "Z" + Decimal.Pad(n, 5)
  }

  const MAX_USER_ID: nat := 99999

  predicate Ours(cfg: Config, u: Uid) {
    cfg.sid <= u
  }

  function HostFor(cfg: Config, wa: bool): string {
    (if wa then "wa." else "s.") + cfg.serverName
  }

  /** The nicks of known users. */
  function NicksOf(s: State): set<string> {
    set u | u in s.users :: s.users[u].nick
  }

  /** The nicks `nick_exists` rejects. */
  function Used(cfg: Config, s: State): set<string> {
    NicksOf(s) + {cfg.adminNick}
  }

  /** Whether `admin_uuid` finds anyone. */
  predicate AdminHere(cfg: Config, s: State) {
    cfg.adminNick in NicksOf(s)
  }

  function Say(s: State, line: Line): State {
    s.(log := s.log + [Out(line)])
  }

  // ---- contacts ----

  function StoreNick(s: State, a: Addr, nick: string, source: int): State {
    if a in s.recipients
    then s.(recipients := s.recipients[a := s.recipients[a].(nick := nick, nickSource := source)])
    else s
  }

  /** `new_user` for a ghost, and the entries for its contact. */
  function Introduce(cfg: Config, s: State, a: Addr, nick: string, wa: bool): State {
    var u := Uuid(cfg, s.nextUser);
    Say(s.(users := s.users[u := User(nick, HostFor(cfg, wa))],
           contacts := s.contacts[a := Contact(u, [], wa)],
           owners := s.owners[u := a],
           nextUser := s.nextUser + 1),
        UidLine(u, nick, HostFor(cfg, wa)))
  }

  /** The groups with a participant. */
  function GroupsWith(groups: map<int, Group>, id: int): set<int> {
    set g | g in groups && id in groups[g].participants
  }

  /** The recipient's groups: `get_groups_for_recipient`. */
  function GroupsOf(s: State, a: Addr): set<int>
    requires a in s.recipients
  {
    GroupsWith(s.groups, s.recipients[a].id)
  }

  function ChannelNames(groups: map<int, Group>, ids: seq<int>): seq<string> {
    if ids == [] then []
    else (if ids[0] in groups then [groups[ids[0]].channel] else []) + ChannelNames(groups, ids[1..])
  }

  function WithLog(cfg: Config, joined: seq<string>): seq<string> {
    if cfg.logChan in joined then joined else joined + [cfg.logChan]
  }

  /** `process_groups_for_recipient`. */
  function ProcessGroupsFor(cfg: Config, w: World, s: State, a: Addr): Outcome {
    if a !in s.contacts then Err(Stop(Unwrap, s))
    else if a !in s.recipients then Err(Stop(RecipientMissing, s))
    else
      var ct := s.contacts[a];
      var joined := ChannelNames(s.groups, w.groupOrder(GroupsOf(s, a)));
      var wanted := WithLog(cfg, joined);
      Ok(s.(contacts := s.contacts[a := ct.(channels := wanted)],
            channels := s.channels + Elements(joined),
            log := s.log + (Joins(ct.uuid, wanted) + Parts(ct.uuid, Dropped(ct.channels, wanted)))))
  }

  /** `setup_contact_for`. */
  function SetupContactFor(cfg: Config, w: World, s: State, recip: Recipient, a: Addr): Outcome {
    var nick := Nicks.Settle(Used(cfg, s), recip.nick);
    var s1 := if nick != recip.nick then StoreNick(s, a, nick, NICKSRC_COLLISION) else s;
    if s1.nextUser > MAX_USER_ID then Err(Stop(UuidsExhausted, s1))
    else
      var s2 := Introduce(cfg, s1, a, nick, recip.whatsapp);
      if s2.phase == Linked then ProcessGroupsFor(cfg, w, s2, a) else Ok(s2)
  }

  /** `setup_recipient`, for the row stored under `key`; its number must read back. */
  function SetupRecipient(cfg: Config, w: World, s: State, recip: Recipient, key: Addr): Outcome {
    match GetAddr(cfg.accepts, key)
    case None => Err(Stop(BadAddress, s))
    case Some(a) => if a in s.contacts then Ok(s) else SetupContactFor(cfg, w, s, recip, a)
  }

  /** `setup_contact`. */
  function SetupContact(cfg: Config, w: World, s: State, a: Addr): Outcome {
    if a in s.recipients then SetupRecipient(cfg, w, s, s.recipients[a], a) else Ok(s)
  }

  /** `request_contact`; the contact exists afterwards exactly when the recipient did. */
  function RequestContact(cfg: Config, w: World, s: State, a: Addr, source: int): Outcome {
    if a in s.recipients then SetupRecipient(cfg, w, s, s.recipients[a], a)
    else Ok(s.(log := s.log + [Asked(a, source)]))
  }

  /** The three removals of `remove_user`. */
  function Forget(s: State, u: Uid): State {
    s.(contacts := if u in s.owners then s.contacts - {s.owners[u]} else s.contacts,
       owners := s.owners - {u},
       users := s.users - {u})
  }

  /** `remove_user` with `recreate`. */
  function RemoveAndRecreate(cfg: Config, w: World, s: State, u: Uid): Outcome {
    if u in s.owners then SetupContact(cfg, w, Forget(s, u), s.owners[u]) else Ok(Forget(s, u))
  }

  /** `remove_contact_for`. */
  function RemoveContactFor(s: State, a: Addr): State {
    var s1 := if a in s.contacts then Forget(Say(s, Quit(s.contacts[a].uuid)), s.contacts[a].uuid) else s;
    s1.(contacts := s1.contacts - {a},
        owners := map u | u in s1.owners && s1.owners[u] != a :: s1.owners[u])
  }

  /** `drop_contact`. */
  function DropContact(s: State, a: Addr): Outcome {
    if a !in s.recipients then Err(Stop(NoSuchRecipient, s))
    else Ok(RemoveContactFor(s.(recipients := s.recipients - {a}), a))
  }

  // ---- modes and nicks ----

  /** `set_wa_state`. */
  function SetWaState(cfg: Config, s: State, a: Addr, wa: bool): Outcome {
    if a !in s.contacts then Err(Stop(Unwrap, s))
    else
      var u := s.contacts[a].uuid;
      Ok(Say(s.(contacts := s.contacts[a := s.contacts[a].(waMode := wa)],
                recipients := (if a in s.recipients then s.recipients[a := s.recipients[a].(whatsapp := wa)]
                               else s.recipients),
                users := if u in s.users then s.users[u := s.users[u].(host := HostFor(cfg, wa))] else s.users),
             FHost(u, HostFor(cfg, wa))))
  }

  /** The renaming part of `forward_cmd`. */
  function Rename(s: State, a: Addr, nick: string, source: int): Outcome {
    if a !in s.contacts || s.contacts[a].uuid !in s.users then Err(Stop(Unwrap, s))
    else
      var u := s.contacts[a].uuid;
      Ok(StoreNick(Say(s.(users := s.users[u := s.users[u].(nick := nick)]), NickLine(u, nick)), a, nick, source))
  }

  datatype Command = UpdateAway(reason: Option<string>) | ChangeNick(nick: string, source: int) | SetWhatsapp(on: bool)

  /** `forward_cmd`. */
  function ForwardCmd(cfg: Config, s: State, a: Addr, cmd: Command): Outcome {
    if a !in s.contacts then Ok(s)
    else
      var u := s.contacts[a].uuid;
      match cmd
      case UpdateAway(reason) => Ok(Say(s, Away(u, reason)))
      case ChangeNick(nick, source) =>
        if u !in s.users then Err(Stop(Unwrap, s))
        else if s.users[u].nick == nick then Ok(s)
        else
          var settled := Nicks.Settle(Used(cfg, s), nick);
          Rename(s, a, settled, if settled == nick then source else NICKSRC_COLLISION)
      case SetWhatsapp(on) => SetWaState(cfg, s, a, on)
  }

  /** A ghost with the given nick, as `resolve_nick` looks for one. */
  ghost predicate Resolves(s: State, nick: string, u: Uid) {
    u in s.users && s.users[u].nick == nick && u in s.owners
  }

  // ---- groups ----

  function ProcessGroupsEach(cfg: Config, w: World, s: State, order: seq<Addr>): Outcome
    decreases order
  {
    if order == [] then Ok(s)
    else
      var s1 :- ProcessGroupsFor(cfg, w, s, order[0]);
      ProcessGroupsEach(cfg, w, s1, order[1..])
  }

  /** `get_recipient_by_id_opt`: the first row the query meets. */
  function FindById(recipients: map<Addr, Recipient>, order: seq<Addr>, id: int): (r: Option<Addr>)
    ensures r.Some? ==> r.value in recipients && recipients[r.value].id == id
  {
    if order == [] then None
    else if order[0] in recipients && recipients[order[0]].id == id then Some(order[0])
    else FindById(recipients, order[1..], id)
  }

  function Found(w: World, s: State, id: int): Option<Addr> {
    FindById(s.recipients, w.recipientOrder(s.recipients.Keys), id)
  }

  /** The MODE lines of a group: its participants with a contact are operators exactly if they are
      among its admins. Every participant's address must read back. */
  function TellModes(cfg: Config, w: World, s: State, g: Group, parts: seq<int>): Outcome
    decreases parts
  {
    if parts == [] then Ok(s)
    else match Found(w, s, parts[0])
      case None => TellModes(cfg, w, s, g, parts[1..])
      case Some(key) =>
        match GetAddr(cfg.accepts, key)
        case None => Err(Stop(BadAddress, s))
        case Some(a) =>
          var s1 := if a in s.contacts then Say(s, Mode(g.channel, parts[0] in g.admins, s.contacts[a].uuid)) else s;
          TellModes(cfg, w, s1, g, parts[1..])
  }

  /** The TOPIC line of a group, where topics are set, and this one is not known yet or overrides another. */
  function TellTopic(cfg: Config, s: State, g: Group): State {
    var known := if g.channel in s.topics then s.topics[g.channel] else "";
    if cfg.setTopics && (known == "" || (cfg.clobberTopics && known != g.topic))
    then Say(s.(topics := s.topics[g.channel := g.topic]), Topic(g.channel, g.topic))
    else s
  }

  function TellGroups(cfg: Config, w: World, s: State, order: seq<int>): Outcome
    decreases order
  {
    if order == [] then Ok(s)
    else if order[0] !in s.groups then TellGroups(cfg, w, s, order[1..])
    else
      var g := s.groups[order[0]];
      var s1 :- TellModes(cfg, w, s, g, g.participants);
      TellGroups(cfg, w, TellTopic(cfg, s1, g), order[1..])
  }

  /** `process_groups`. */
  function ProcessGroups(cfg: Config, w: World, s: State): Outcome {
    var s1 :- ProcessGroupsEach(cfg, w, s.(channels := {}), w.contactOrder(s.contacts.Keys));
    TellGroups(cfg, w, s1, w.groupOrder(s1.groups.Keys))
  }

  // ---- messages ----

  /** `contact_message`, for a run of lines. */
  function ContactMessages(cfg: Config, s: State, u: Uid, lines: seq<Wire>): Outcome {
    if lines == [] then Ok(s)
    else if u !in s.users then Err(Stop(UnknownUid, s))
    else if !Ours(cfg, u) then Err(Stop(ForeignUid, s))
    else Ok(s.(log := s.log + lines))
  }

  function Privmsgs(u: Uid, to: Target, chunks: seq<string>): (ws: seq<Wire>)
    ensures |ws| == |chunks|
    ensures forall i :: 0 <= i < |ws| ==> ws[i] == Out(Privmsg(u, to, chunks[i]))
  {
    if chunks == [] then [] else [Out(Privmsg(u, to, chunks[0]))] + Privmsgs(u, to, chunks[1..])
  }

  /** `send_raw_message`. */
  function SendRaw(cfg: Config, s: State, u: Uid, text: string, group: Option<int>): Outcome {
    var chunks := Fragments.Chunks(Fragments.Lines(text));
    match group
    case None => ContactMessages(cfg, s, u, Privmsgs(u, ToAdmin, chunks))
    case Some(g) =>
      if g !in s.groups then Err(Stop(NoSuchGroup, s))
      else
        var ch := s.groups[g].channel;
        var s1 := if cfg.ensureJoined && AdminHere(cfg, s) then Say(s, SvsJoin(ch)) else s;
        ContactMessages(cfg, s1, u, Privmsgs(u, ToChannel(ch), chunks))
  }

  /** `delete_message` for each row in turn. */
  function RemoveRows(s: State, ids: seq<int>): Outcome
    decreases ids
  {
    if ids == [] then Ok(s)
    else if ids[0] !in s.messages then Err(Stop(NoSuchRow, s))
    else RemoveRows(s.(messages := s.messages - {ids[0]}, log := s.log + [Removed(ids[0])]), ids[1..])
  }

  /** A text goes through `send_raw_message`, then its rows are deleted. */
  function SendThenRemove(cfg: Config, s: State, u: Uid, send: Delivery.Send): Outcome {
    var s1 :- SendRaw(cfg, s, u, send.text, send.row.group);
    RemoveRows(s1, send.ids)
  }

  /** `process_msg_plain` and `process_msg_pdu`. */
  function Deliver(cfg: Config, w: World, s: State, u: Uid, row: Delivery.Row): Outcome {
    match Delivery.Handle(w.oracle, s.messages, row)
    case Err(e) => Err(Stop(e, s))
    case Ok(Kept) => Ok(s)
    case Ok(Unreadable) => ContactMessages(cfg, s, u, [Out(ErrorNotice(u))])
    case Ok(Delivered(send)) => SendThenRemove(cfg, s, u, send)
  }

  /** The automatic mode switch before a message. */
  function SwitchMode(cfg: Config, s: State, a: Addr, wa: bool): Outcome {
    if a !in s.contacts then Err(Stop(Unwrap, s))
    else if s.contacts[a].waMode == wa then Ok(s)
    else
      var s1 :- SetWaState(cfg, s, a, wa);
      ContactMessages(cfg, s1, s.contacts[a].uuid, [Out(ModeNotice(s.contacts[a].uuid, wa))])
  }

  /** A message of a contact. */
  function HandleRow(cfg: Config, w: World, s: State, row: Delivery.Row): Outcome {
    if row.addr !in s.contacts then Err(Stop(Unwrap, s))
    else if row.body == Delivery.Sms(Delivery.Malformed) then Err(Stop(BadPdu, s))
    else
      var s1 :- SwitchMode(cfg, s, row.addr, row.body.Plain?);
      Deliver(cfg, w, s1, s.contacts[row.addr].uuid, row)
  }

  /** One turn of the loop of `process_messages`, for a row whose address reads back. */
  function ProcessAddr(cfg: Config, w: World, s: State, row: Delivery.Row): Outcome {
    if row.addr in s.contacts then HandleRow(cfg, w, s, row)
    else
      var s1 :- RequestContact(cfg, w, s, row.addr, row.source);
      if row.addr in s.recipients then HandleRow(cfg, w, s1, row) else Ok(s1)
  }

  /** One turn of the loop of `process_messages`. */
  function ProcessRow(cfg: Config, w: World, s: State, row: Delivery.Row): Outcome {
    if GetAddr(cfg.accepts, row.addr).None? then Err(Stop(BadAddress, s)) else ProcessAddr(cfg, w, s, row)
  }

  function ProcessRows(cfg: Config, w: World, s: State, rows: seq<Delivery.Row>): Outcome
    decreases rows
  {
    if rows == [] then Ok(s)
    else
      var s1 :- ProcessRow(cfg, w, s, rows[0]);
      ProcessRows(cfg, w, s1, rows[1..])
  }

  /** `process_messages`. */
  function ProcessMessages(cfg: Config, w: World, s: State): Outcome {
    if AdminHere(cfg, s) then ProcessRows(cfg, w, s, w.messageOrder(s.messages)) else Ok(s)
  }

  // ---- linking ----

  function SetupEach(cfg: Config, w: World, s: State, snap: map<Addr, Recipient>, order: seq<Addr>): Outcome
    decreases order
  {
    if order == [] then Ok(s)
    else if order[0] !in snap then SetupEach(cfg, w, s, snap, order[1..])
    else
      var s1 :- SetupRecipient(cfg, w, s, snap[order[0]], order[0]);
      SetupEach(cfg, w, s1, snap, order[1..])
  }

  /** `do_quasiburst`, over a snapshot of the recipients. */
  function QuasiBurst(cfg: Config, w: World, s: State): Outcome {
    SetupEach(cfg, w, s, s.recipients, w.recipientOrder(s.recipients.Keys))
  }

  /** `on_linked`. */
  function OnLinked(cfg: Config, w: World, s: State): Outcome {
    var s1 :- ProcessGroups(cfg, w, Say(s, Join(ControlUuid(cfg), cfg.logChan)));
    ProcessMessages(cfg, w, s1)
  }

  /** What a poll does first on a new connection. */
  function Connect(s: State): State {
    if s.phase == TcpConnected then Say(s, Hello).(phase := ServerSent) else s
  }

  /** `do_burst`, with the control user. */
  function DoBurst(cfg: Config, s: State): State {
    var u := ControlUuid(cfg);
    var user := User(cfg.controlNick, cfg.serverName);
    Say(Say(Say(s.(users := s.users[u := user]), Burst), UidLine(u, user.nick, user.host)), EndBurst)
  }

  // ---- events ----

  datatype Event =
    // from the peer
    | ConnectEvent   // the first poll of a new connection
    | ErrorEvent
    | ServerEvent(args: seq<string>)
    | UidEvent(args: seq<string>, suffix: Option<string>)
    | KillEvent(uid: Uid)
    | QuitEvent(uid: Uid)
    | SquitEvent(server: string)
    | NickEvent(uid: Uid, nick: string)
    | HostEvent(uid: Uid, host: string)
    | TopicEvent(channel: string, topic: string)
    | EndBurstEvent(prefix: string)
    // from our own tasks, once linked
    | DoMessages
    | DoGroups
    | DoSetup(addr: Addr)
    | DoQuery(addr: Addr, source: int)
    | DoDrop(addr: Addr)
    | DoForward(addr: Addr, cmd: Command)
    | DropByNick(who: string)
    | ForwardByNick(who: string, cmd: Command)
    // other tasks writing to the database
    | DbRecipient(addr: Addr, recipient: Recipient)
    | DbMessage(row: Delivery.Row)
    | DbGroup(gid: int, group: Group)
    | DbGroupGone(gid: int)

  function Squit(s: State, server: string): State {
    s.(users := map u | u in s.users && !(server <= u) :: s.users[u])
  }

  /** `on delete cascade` of a group's messages. */
  function WithoutGroup(s: State, gid: int): State {
    s.(groups := s.groups - {gid},
       messages := map i | i in s.messages && s.messages[i].group != Some(gid) :: s.messages[i])
  }

  /** The checks of a SERVER line. */
  predicate Accepted(cfg: Config, args: seq<string>) {
    |args| == 4 && args[1] == cfg.recvPass && args[2] == "0"
  }

  /** `InspUser::new_from_uid_line`: the UUID, and of the user its nick and displayed hostname. */
  function ParseUid(args: seq<string>, suffix: Option<string>): Option<(Uid, User)> {
    if |args| < 9 || suffix.None? || !Decimal.ParsesI64(args[1]) || !Decimal.ParsesI64(args[7]) then None
    else Some((args[0], User(args[2], args[4])))
  }

  /** One event. `found` is the address `resolve_nick` found, for the commands by nick. */
  function Step(cfg: Config, w: World, s: State, e: Event, found: Option<Addr>): Outcome {
    match e
    case ConnectEvent => Ok(Connect(s))
    case ErrorEvent => Err(Stop(RemoteError, s))
    case ServerEvent(args) =>
      if !Accepted(cfg, args) then Err(Stop(BadServer, s))
      else Ok(DoBurst(cfg, s.(remoteSid := args[3])).(phase := BurstSent))
    case UidEvent(args, suffix) =>
      (match ParseUid(args, suffix)
       case None => Err(Stop(BadUidLine, s))
       case Some((u, user)) =>
         var s1 := s.(users := s.users[u := user]);
         if user.nick == cfg.adminNick then ProcessMessages(cfg, w, s1) else Ok(s1))
    case KillEvent(u) => RemoveAndRecreate(cfg, w, s.(log := s.log + [Gone(u)]), u)
    case QuitEvent(u) => RemoveAndRecreate(cfg, w, s.(log := s.log + [Gone(u)]), u)
    case SquitEvent(server) => Ok(Squit(s, server))
    case NickEvent(u, nick) => Ok(if u in s.users then s.(users := s.users[u := s.users[u].(nick := nick)]) else s)
    case HostEvent(u, host) => Ok(if u in s.users then s.(users := s.users[u := s.users[u].(host := host)]) else s)
    case TopicEvent(channel, topic) => Ok(s.(topics := s.topics[channel := topic]))
    case EndBurstEvent(prefix) =>
      if prefix != s.remoteSid then Ok(s)
      else
        var s1 :- QuasiBurst(cfg, w, s);
        OnLinked(cfg, w, s1.(phase := Linked))
    case DoMessages => ProcessMessages(cfg, w, s)
    case DoGroups => ProcessGroups(cfg, w, s)
    case DoSetup(a) => SetupContact(cfg, w, s, a)
    case DoQuery(a, source) => RequestContact(cfg, w, s, a, source)
    case DoDrop(a) => DropContact(s, a)
    case DoForward(a, cmd) => ForwardCmd(cfg, s, a, cmd)
    case DropByNick(_) => if found.Some? then DropContact(s, found.value) else Ok(s)
    case ForwardByNick(_, cmd) => if found.Some? then ForwardCmd(cfg, s, found.value, cmd) else Ok(s)
    case DbRecipient(a, r) => Ok(s.(recipients := s.recipients[a := r]))
    case DbMessage(row) => Ok(s.(messages := s.messages[row.id := row]))
    case DbGroup(gid, g) => Ok(s.(groups := s.groups[gid := g]))
    case DbGroupGone(gid) => Ok(WithoutGroup(s, gid))
  }

  /** What is assumed of an event: the peer leaves our UUIDs alone and splits off only other servers
      by their SID; internal commands are read only once linked; rows satisfy the constraints of the
      tables; `found` is an answer `resolve_nick` may give. */
  ghost predicate Allowed(cfg: Config, s: State, e: Event, found: Option<Addr>) {
    match e
    case UidEvent(args, suffix) =>
      var uid := ParseUid(args, suffix);
      uid.Some? ==> !Ours(cfg, uid.value.0)
    case NickEvent(u, _) => !Ours(cfg, u)
    case HostEvent(u, _) => !Ours(cfg, u)
    case SquitEvent(server) => |server| == |cfg.sid| && server != cfg.sid
    case DbRecipient(a, _) => a !in s.recipients
    case DbMessage(row) =>
      row.id !in s.messages && Delivery.StoredByModem(row) && (row.group.Some? ==> row.group.value in s.groups)
    case DropByNick(who) => s.phase == Linked && Answer(s, who, found)
    case ForwardByNick(who, _) => s.phase == Linked && Answer(s, who, found)
    case DoMessages => s.phase == Linked
    case DoGroups => s.phase == Linked
    case DoSetup(_) => s.phase == Linked
    case DoQuery(_, _) => s.phase == Linked
    case DoDrop(_) => s.phase == Linked
    case DoForward(_, _) => s.phase == Linked
    case _ => true
  }

  /** `resolve_nick` meets the users in any order and answers with the first that fits. */
  ghost predicate Answer(s: State, nick: string, found: Option<Addr>) {
    match found
    case Some(a) => exists u :: Resolves(s, nick, u) && s.owners[u] == a
    case None => forall u :: !Resolves(s, nick, u)
  }
}
