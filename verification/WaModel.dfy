/**
 The WhatsApp manager: what it holds and what its handlers do, as functions on states.

 Covered are the offline queue, the acknowledgement tracker and its warnings, incoming messages and
 their de-duplication, and the bridging of groups to channels. Besides what the manager and the
 database hold, a state carries the history the claims are about: every message accepted for sending
 has a serial number; `owner` says which one a tracked id carries, `holder` is its inverse, `retired`
 are the ones no longer tracked; `used` are the ids seen or generated so far, `transmitted` the ones
 the manager sent under, `jobs` the ones with a media download; `batches` are the rows stored, by the
 message they came from.
 */
module WaModel {
  import opened Outcomes
  import opened Failures
  import opened Address

  type Mid = string

  datatype Jid = Jid(id: string, isGroup: bool)

  datatype Item = Item(to: Jid, content: string)

  /** Acknowledgement levels: an error, `PendingSend`, or one of those beyond it. */
  datatype Level = LevelError | PendingSend | Beyond(n: nat)

  datatype Status = Status(
    ack: Option<Level>, sentTs: int, item: Item, unsent: bool, alerted: bool, alertedPending: bool)

  datatype Request =
    | SendMessage(mid: Mid, item: Item)
    | SubscribePresence(jid: Jid)
    | GetGroupMetadata(jid: Jid)
    | MessageRead(mid: Mid)

  datatype Report = UnackedWarning(mid: Mid) | PendingWarning(mid: Mid) | OtherReport

  /** What the contact factory is told. */
  datatype Order = ProcessMessages | ProcessGroups | SetupContact(addr: Addr)

  datatype Group = Group(jid: Jid, channel: string, participants: seq<int>, admins: seq<int>, topic: string)

  datatype Row = Row(from: Addr, text: string, group: Option<int>, ts: int)

  datatype Batch = Batch(mid: Mid, media: bool, rows: seq<Row>)

  /** `address` is `jid_to_address`, `channelFor` is `string_to_irc_chan`. */
  datatype Config = Config(
    ackWarn: nat, ackWarnPending: nat, ackExpiry: nat, trackPresence: bool,
    markRead: bool, backlogStart: Option<int>, autocreate: Option<string>,
    address: Jid -> Option<Addr>, channelFor: string -> string)

  /** The sending half of the manager: connection, tracker, queues, `wa_msgids`, and its history. */
  datatype Sends = Sends(
    outgoing: map<Mid, Status>,
    connected: bool,
    ourJid: Option<Jid>,
    prevJid: Option<Jid>,
    presence: map<Jid, int>,
    outbox: seq<Request>,
    reports: seq<Report>,
    msgids: set<Mid>,
    accepted: seq<Item>,
    owner: map<Mid, nat>,
    holder: map<nat, Mid>,
    retired: set<nat>,
    used: set<Mid>,
    transmitted: set<Mid>)

  /** The group and recipient tables (with the next serial of each), and what the factory is told. */
  datatype Bridge = Bridge(
    groups: map<int, Group>, nextGroup: int, recipients: map<Addr, int>, nextRecipient: int, orders: seq<Order>)

  datatype State = State(
    sends: Sends, bridge: Bridge, chats: map<Jid, Option<string>>, jobs: set<Mid>, batches: seq<Batch>)

  /** What a handler gives: the new state, or the failure that ends the task and the state it leaves. */
  type Outcome = Result<State, Stop<State, Failure>>

  /** A fresh manager on whatever the database holds. */
  function Start(msgids: set<Mid>, bridge: Bridge): State {
    State(Sends(map[], false, None, None, map[], [], [], msgids, [], map[], map[], {}, msgids, {}),
          bridge, map[], {}, [])
  }

  /** A new manager on the database another one left. What was tracked is forgotten; the ids stored, and the
      history of ids and rows, go on. */
  function Anew(s: State): State {
    State(Sends(map[], false, None, None, map[], [], [], s.sends.msgids, [], map[], map[], {}, s.sends.used,
                s.sends.transmitted),
          s.bridge.(orders := []), map[], s.jobs, s.batches)
  }

  /** `i64 as u64`. */
  function AsU64(n: int): int {
    if n < 0 then n + 0x1_0000_0000_0000_0000 else n
  }

  const RESUBSCRIBE_MS: int := 300000

  /** The state of the connection wrapper. */
  datatype Link = Running | Waiting | Disabled

  // ---- sending ----

  /** `register_send`. */
  function Register(s: Sends, item: Item, mid: Mid, unsent: bool, now: int): Sends {
    s.(outgoing := s.outgoing[mid := Status(None, now, item, unsent, false, false)], used := s.used + {mid})
  }

  /** Whether a direct message renews the presence subscription, about every five minutes. */
  predicate Subscribes(cfg: Config, s: Sends, j: Jid, now: int) {
    !j.isGroup && cfg.trackPresence && (j in s.presence ==> now - s.presence[j] >= RESUBSCRIBE_MS)
  }

  /** `send_message`. */
  function Transmit(cfg: Config, s: Sends, item: Item, mid: Mid, now: int): Sends {
    var subscribes := Subscribes(cfg, s, item.to, now);
    s.(msgids := s.msgids + {mid},
       outgoing := s.outgoing[mid := Status(None, now, item, false, false, false)],
       used := s.used + {mid},
       transmitted := s.transmitted + {mid},
       presence := if subscribes then s.presence[item.to := now] else s.presence,
       outbox := s.outbox + [SendMessage(mid, item)] + if subscribes then [SubscribePresence(item.to)] else [])
  }

  /** The id takes over a serial number. */
  function Own(s: Sends, mid: Mid, serial: nat): Sends {
    s.(owner := s.owner[mid := serial], holder := s.holder[serial := mid])
  }

  /** `ControlBotCommand::ReportFailure` about something else than an acknowledgement. */
  function Complain(s: Sends, needed: bool): Sends {
    if needed then s.(reports := s.reports + [OtherReport]) else s
  }

  /** `send_direct_message` and `send_group_message`: queue while disconnected, else send. */
  function Send(cfg: Config, s: Sends, item: Item, mid: Mid, link: Link, now: int): Sends {
    var s1 := Own(s.(accepted := s.accepted + [item]), mid, |s.accepted|);
    if !s.connected || !link.Running?
    then Complain(Register(s1, item, mid, true, now), link.Disabled?)
    else Transmit(cfg, s1, item, mid, now)
  }

  /** `send_direct_message`, with the JID its number gives, if any. */
  function SendDirect(cfg: Config, s: Sends, to: Option<Jid>, content: string, mid: Mid, link: Link, now: int): Sends {
    match to
    case None => Complain(s, true)
    case Some(jid) => Send(cfg, s, Item(jid, content), mid, link, now)
  }

  // ---- reconnecting ----

  function UnsentIds(outgoing: map<Mid, Status>): set<Mid> {
    set m | m in outgoing && outgoing[m].unsent
  }

  function Unsent(s: Sends): set<Mid> {
    UnsentIds(s.outgoing)
  }

  /** The serial numbers of some ids. */
  function Serials(s: Sends, ids: set<Mid>): set<nat> {
    set i | i in s.holder && s.holder[i] in ids
  }

  function HeldWithout(holder: map<nat, Mid>, gone: set<Mid>): map<nat, Mid> {
    map i | i in holder && holder[i] !in gone :: holder[i]
  }

  /** Entries under other ids than `gone`. */
  function Without(s: Sends, gone: set<Mid>): Sends {
    s.(outgoing := s.outgoing - gone, owner := s.owner - gone, holder := HeldWithout(s.holder, gone))
  }

  /** The extracted messages go out again, each under a new id. */
  function ResendAll(cfg: Config, s: Sends, was: Sends, order: seq<Mid>, ids: seq<Mid>, now: int): Sends
    decreases order
  {
    if order == [] || ids == [] || order[0] !in was.outgoing || order[0] !in was.owner then s
    else
      var s1 := Own(Transmit(cfg, s, was.outgoing[order[0]].item, ids[0], now), ids[0], was.owner[order[0]]);
      ResendAll(cfg, s1, was, order[1..], ids[1..], now)
  }

  /** The state after `extract_unsent`, before anything is sent again. */
  function Dequeued(s: Sends, jid: Jid): Sends {
    Without(Complain(s.(ourJid := Some(jid)), s.prevJid.Some? && s.prevJid.value != jid), Unsent(s))
  }

  /** `on_established`; `order` is the order in which `extract_unsent` met the queued messages. */
  function Established(cfg: Config, s: Sends, jid: Jid, order: seq<Mid>, ids: seq<Mid>, now: int): Sends {
    LoggedOn(ResendAll(cfg, Dequeued(s, jid), s, order, ids, now), jid)
  }

  function LoggedOn(s: Sends, jid: Jid): Sends {
    s.(prevJid := Some(jid), connected := true)
  }

  /** `on_wa_error`. */
  function LoggedOff(s: Sends, reported: bool): Sends {
    Complain(s, reported).(ourJid := None, connected := false)
  }

  /** Requests leave the front of the outbox. */
  function Drained(s: Sends, n: nat): Sends {
    s.(outbox := if n <= |s.outbox| then s.outbox[n..] else [])
  }

  // ---- acknowledgements ----

  /** `on_message_ack`. */
  function Ack(s: Sends, mid: Mid, level: Level): Sends {
    if mid in s.outgoing
    then s.(outgoing := s.outgoing[mid := s.outgoing[mid].(ack := Some(level))],
            reports := if level == LevelError then s.reports + [OtherReport] else s.reports)
    else s
  }

  predicate WarnsUnacked(cfg: Config, st: Status, now: int) {
    st.ack.None? && AsU64(now - st.sentTs) >= cfg.ackWarn && !st.alerted
  }

  predicate WarnsPending(cfg: Config, st: Status, now: int) {
    st.ack == Some(PendingSend) && AsU64(now - st.sentTs) >= cfg.ackWarnPending && !st.alertedPending
  }

  /** What `check_acks` does to one entry. */
  function Warned(cfg: Config, st: Status, now: int): Status {
    st.(alerted := st.alerted || WarnsUnacked(cfg, st, now),
        alertedPending := st.alertedPending || WarnsPending(cfg, st, now))
  }

  function Warnings(cfg: Config, mid: Mid, st: Status, now: int): seq<Report> {
    (if WarnsUnacked(cfg, st, now) then [UnackedWarning(mid)] else []) +
    (if WarnsPending(cfg, st, now) then [PendingWarning(mid)] else [])
  }

  function AllWarnings(cfg: Config, outgoing: map<Mid, Status>, order: seq<Mid>, now: int): seq<Report> {
    if order == [] then []
    else (if order[0] in outgoing then Warnings(cfg, order[0], outgoing[order[0]], now) else []) +
         AllWarnings(cfg, outgoing, order[1..], now)
  }

  /** Acknowledged beyond `PendingSend` (or with an error) and old enough: dropped by `retain`. */
  predicate Expired(cfg: Config, st: Status, now: int) {
    st.ack.Some? && st.ack.value != PendingSend && AsU64(now - st.sentTs) >= cfg.ackExpiry
  }

  function ExpiredIds(cfg: Config, outgoing: map<Mid, Status>, now: int): set<Mid> {
    set m | m in outgoing && Expired(cfg, outgoing[m], now)
  }

  function WarnedAll(cfg: Config, outgoing: map<Mid, Status>, now: int): map<Mid, Status> {
    map m | m in outgoing :: Warned(cfg, outgoing[m], now)
  }

  /** `check_acks`; `order` is the order in which it meets the entries. */
  function Tick(cfg: Config, s: Sends, order: seq<Mid>, now: int): Sends {
    var gone := ExpiredIds(cfg, s.outgoing, now);
    var s1 := s.(outgoing := WarnedAll(cfg, s.outgoing, now),
                 reports := s.reports + AllWarnings(cfg, s.outgoing, order, now),
                 retired := s.retired + Serials(s, gone));
    Without(s1, gone)
  }

  // ---- groups ----

  predicate Bridged(b: Bridge, jid: Jid) {
    exists g :: g in b.groups && b.groups[g].jid == jid
  }

  predicate ChannelUsed(b: Bridge, channel: string) {
    exists g :: g in b.groups && b.groups[g].channel == channel
  }

  /** `get_group_by_jid_opt`. */
  ghost function GroupFor(b: Bridge, jid: Jid): (g: int)
    requires Bridged(b, jid)
    ensures g in b.groups && b.groups[g].jid == jid
  {
    var g :| g in b.groups && b.groups[g].jid == jid;
    g
  }

  /** The four checks of `group_associate`; `up` is `connected && conn.is_connected()`. */
  predicate Associates(b: Bridge, jid: Jid, channel: string, up: bool) {
    !Bridged(b, jid) && !ChannelUsed(b, channel) && up && jid.isGroup
  }

  const SETUP_TOPIC: string := "*** Group setup in progress, please wait... ***"

  /** `group_associate`: the new tables, and the group's id unless it bails out. */
  function Associate(b: Bridge, jid: Jid, channel: string, up: bool): (Bridge, Option<int>) {
    if !Associates(b, jid, channel, up) then (b, None)
    else (b.(groups := b.groups[b.nextGroup := Group(jid, channel, [], [], SETUP_TOPIC)],
             nextGroup := b.nextGroup + 1, orders := b.orders + [ProcessGroups]),
          Some(b.nextGroup))
  }

  /** `get_wa_recipient`, where the JID has an address. */
  function Meet(b: Bridge, a: Addr): Bridge {
    if a in b.recipients then b
    else b.(recipients := b.recipients[a := b.nextRecipient], nextRecipient := b.nextRecipient + 1,
            orders := b.orders + [SetupContact(a)])
  }

  datatype Member = Member(jid: Jid, admin: bool)

  datatype Metadata = Metadata(jid: Jid, subject: string, members: seq<Member>)

  /** The recipients of the participants, made as needed, up to the first without an address. */
  function MeetAll(cfg: Config, b: Bridge, members: seq<Member>): Bridge
    decreases members
  {
    if members == [] then b
    else match cfg.address(members[0].jid)
      case None => b
      case Some(a) => MeetAll(cfg, Meet(b, a), members[1..])
  }

  predicate AllKnown(cfg: Config, members: seq<Member>) {
    forall i :: 0 <= i < |members| ==> cfg.address(members[i].jid).Some?
  }

  /** The row ids of the participants, or only of the admins among them. */
  function RowIds(cfg: Config, recipients: map<Addr, int>, members: seq<Member>, adminsOnly: bool): seq<int> {
    if members == [] then []
    else
      var a := cfg.address(members[0].jid);
      (if a.Some? && a.value in recipients && (adminsOnly ==> members[0].admin) then [recipients[a.value]] else []) +
      RowIds(cfg, recipients, members[1..], adminsOnly)
  }

  /** The second half of `on_got_group_metadata`: the participants, then `update_group`. */
  ghost function Update(cfg: Config, b: Bridge, m: Metadata): (Bridge, bool) {
    var b1 := MeetAll(cfg, b, m.members);
    if !AllKnown(cfg, m.members) || !Bridged(b1, m.jid) then (b1, false)
    else
      var g := GroupFor(b1, m.jid);
      var row := b1.groups[g].(participants := RowIds(cfg, b1.recipients, m.members, false),
                               admins := RowIds(cfg, b1.recipients, m.members, true), topic := m.subject);
      (b1.(groups := b1.groups[g := row], orders := b1.orders + [ProcessGroups]), true)
  }

  function ChannelName(cfg: Config, prefix: string, name: string): string {
    prefix + "-" + cfg.channelFor(name)
  }

  /** `on_got_group_metadata`: the new tables, and whether it returns without an error. */
  ghost function OnMetadata(cfg: Config, b: Bridge, m: Metadata, up: bool): (Bridge, bool)
    decreases if Bridged(b, m.jid) then 0 else 1, 1
  {
    if !Bridged(b, m.jid) && cfg.autocreate.Some?
    then Update(cfg, Autocreate(cfg, cfg.autocreate.value, b, m, up).0, m)
    else Update(cfg, b, m)
  }

  /** `group_autocreate`, which goes back to `on_got_group_metadata` with the group now bridged. */
  ghost function Autocreate(cfg: Config, prefix: string, b: Bridge, m: Metadata, up: bool): (Bridge, bool)
    decreases if Bridged(b, m.jid) then 0 else 1, 0
  {
    var (b1, id) := Associate(b, m.jid, ChannelName(cfg, prefix, m.subject), up);
    if id.None? then (b1, false)
    else
      assert b1.groups[b.nextGroup].jid == m.jid;
      OnMetadata(cfg, b1, m, up)
  }

  /** `group_remove`; `chosen` is the row `get_group_by_chan_opt` finds. */
  function Remove(b: Bridge, channel: string, chosen: int): Bridge {
    if chosen in b.groups && b.groups[chosen].channel == channel
    then b.(groups := b.groups - {chosen}, orders := b.orders + [ProcessGroups])
    else b
  }

  predicate Up(s: State, link: Link) {
    s.sends.connected && link.Running?
  }

  function Ask(s: State, request: Request): State {
    s.(sends := s.sends.(outbox := s.sends.outbox + [request]))
  }

  /** `group_associate` with the metadata requested. */
  function AssociateAsking(s: State, jid: Jid, channel: string, link: Link): (State, Option<int>) {
    var (b, id) := Associate(s.bridge, jid, channel, Up(s, link));
    (if id.Some? then Ask(s.(bridge := b), GetGroupMetadata(jid)) else s, id)
  }

  // ---- incoming messages ----

  datatype Direction = Sending(to: Jid) | FromPerson(who: Jid) | FromGroup(group: Jid, participant: Jid)

  /** An incoming message; `texts` and `media` are what `process_wa_incoming` makes of it. */
  datatype Incoming = Incoming(mid: Mid, direction: Direction, time: int, texts: seq<string>, media: bool)

  /** The two checks before anything else: already stored, and before the backlog start. */
  predicate Admits(cfg: Config, s: State, m: Incoming, isNew: bool) {
    && ((!cfg.markRead || !isNew) ==> m.mid !in s.sends.msgids)
    && (!isNew && cfg.backlogStart.Some? ==> cfg.backlogStart.value <= m.time)
  }

  function Rows(from: Addr, texts: seq<string>, group: Option<int>, ts: int): seq<Row> {
    if texts == [] then [] else [Row(from, texts[0], group, ts)] + Rows(from, texts[1..], group, ts)
  }

  function Repeat(n: nat): seq<Order> {
    if n == 0 then [] else [ProcessMessages] + Repeat(n - 1)
  }

  /** `store_message` for each text. */
  function StoreBatch(cfg: Config, s: State, mid: Mid, media: bool, from: Jid, texts: seq<string>, group: Option<int>,
                      ts: int): State {
    match cfg.address(from)
    case None => s
    case Some(a) =>
      if texts == [] then s
      else
        var b := Meet(s.bridge, a);
        s.(bridge := b.(orders := b.orders + Repeat(|texts|)),
           batches := s.batches + [Batch(mid, media, Rows(a, texts, group, ts))])
  }

  /** The foreign key of a row: its group is there. */
  predicate Placeable(b: Bridge, group: Option<int>) {
    group.Some? ==> group.value in b.groups
  }

  /** `store_message` for each text, where the group may be gone: the recipient is made before the row is
      refused. */
  function Store(cfg: Config, s: State, mid: Mid, media: bool, from: Jid, texts: seq<string>, group: Option<int>,
                 ts: int): Outcome {
    var a := cfg.address(from);
    if a.Some? && texts != [] && !Placeable(s.bridge, group)
    then Err(Stop(GroupGone, s.(bridge := Meet(s.bridge, a.value))))
    else Ok(StoreBatch(cfg, s, mid, media, from, texts, group, ts))
  }

  function Know(s: State, mid: Mid): State {
    s.(sends := s.sends.(msgids := s.sends.msgids + {mid}))
  }

  function MarkRead(cfg: Config, s: State, mid: Mid, wanted: bool): State {
    if wanted && cfg.markRead then Ask(s, MessageRead(mid)) else s
  }

  /** The end of `on_message`: store the texts, then the id, unless there is nothing or only media. */
  function Accept(cfg: Config, s: State, m: Incoming, from: Jid, group: Option<int>): State {
    var s1 := if m.media then s.(jobs := s.jobs + {m.mid}) else s;
    var s2 := StoreBatch(cfg, s1, m.mid, m.media, from, m.texts, group, m.time);
    var s3 := if m.texts == [] || m.media then s2 else Know(s2, m.mid);
    MarkRead(cfg, s3, m.mid, !m.media && !m.direction.Sending?)
  }

  /** `group_autocreate_from_unbridged`. */
  function FromUnbridged(cfg: Config, prefix: string, s: State, jid: Jid, link: Link): (State, Option<int>) {
    if jid in s.chats && s.chats[jid].Some?
    then AssociateAsking(s, jid, ChannelName(cfg, prefix, s.chats[jid].value), link)
    else (s, None)
  }

  /** The part of `on_message` that deals with a group. */
  ghost function AcceptGroup(cfg: Config, s: State, m: Incoming, from: Jid, jid: Jid, link: Link): State {
    if jid.id == "status" then s
    else if Bridged(s.bridge, jid) then Accept(cfg, s, m, from, Some(GroupFor(s.bridge, jid)))
    else if cfg.autocreate.None? then s
    else
      var (s1, id) := FromUnbridged(cfg, cfg.autocreate.value, s, jid, link);
      if id.Some? then Accept(cfg, s1, m, from, id) else Ask(s1, GetGroupMetadata(jid))
  }

  /** What `on_message` does with a message it admits. */
  ghost function Dispatch(cfg: Config, s: State, m: Incoming, link: Link): Outcome {
    match m.direction
    case Sending(jid) =>
      if s.sends.ourJid.None? then Err(Stop(NotLoggedOn, s))
      else if !jid.isGroup then Ok(Know(s, m.mid))
      else Ok(AcceptGroup(cfg, s, m, s.sends.ourJid.value, jid, link))
    case FromPerson(who) => Ok(Accept(cfg, s, m, who, None))
    case FromGroup(jid, participant) => Ok(AcceptGroup(cfg, s, m, participant, jid, link))
  }

  /** The id is seen, whatever becomes of the message. */
  function Seen(s: State, mid: Mid): State {
    s.(sends := s.sends.(used := s.sends.used + {mid}))
  }

  /** `on_message`. */
  ghost function OnMessage(cfg: Config, s: State, m: Incoming, isNew: bool, link: Link): Outcome {
    if Admits(cfg, s, m, isNew) then Dispatch(cfg, Seen(s, m.mid), m, link) else Ok(Seen(s, m.mid))
  }

  /** `media_finished`. */
  function MediaDone(cfg: Config, s: State, mid: Mid, from: Jid, text: string, group: Option<int>, ts: int,
                     hasPeer: bool): Outcome {
    var s1 :- Store(cfg, s, mid, true, from, [text], group, ts);
    Ok(MarkRead(cfg, Know(s1, mid), mid, hasPeer))
  }

  // ---- events ----

  datatype Event =
    | SendEvent(to: Option<Jid>, content: string, mid: Mid, link: Link, now: int)
    | EstablishedEvent(jid: Jid, order: seq<Mid>, ids: seq<Mid>, now: int)
    | ErrorEvent(reported: bool)                  // on_wa_error
    | AckEvent(mid: Mid, level: Level)
    | TickEvent(order: seq<Mid>, now: int)
    | DrainEvent(n: nat)                          // requests leave the outbox, sent or discarded
    | MessageEvent(message: Incoming, isNew: bool, link: Link)
    | MediaEvent(mid: Mid, from: Jid, text: string, group: Option<int>, ts: int, hasPeer: bool)
    | ChatEvent(chats: map<Jid, Option<string>>)  // the chat list changes
    | MetadataEvent(meta: Metadata, link: Link)
    | IntroduceEvent(meta: Metadata, isNew: bool, link: Link)
    | AssociateEvent(jid: Jid, channel: string, link: Link)
    | RemoveEvent(channel: string, chosen: int)
    | RestartEvent                                // the program is started again

  /** The events that concern only the sending half. */
  function SendsStep(cfg: Config, s: Sends, e: Event): Sends {
    match e
    case SendEvent(to, content, mid, link, now) => SendDirect(cfg, s, to, content, mid, link, now)
    case EstablishedEvent(jid, order, ids, now) => Established(cfg, s, jid, order, ids, now)
    case ErrorEvent(reported) => LoggedOff(s, reported)
    case AckEvent(mid, level) => Ack(s, mid, level)
    case TickEvent(order, now) => Tick(cfg, s, order, now)
    case DrainEvent(n) => Drained(s, n)
    case _ => s
  }

  /** One handler; an error it returns ends the task. */
  ghost function Step(cfg: Config, s: State, e: Event): Outcome {
    match e
    case MessageEvent(m, isNew, link) => OnMessage(cfg, s, m, isNew, link)
    case MediaEvent(mid, from, text, group, ts, hasPeer) => MediaDone(cfg, s, mid, from, text, group, ts, hasPeer)
    case ChatEvent(chats) => Ok(s.(chats := chats))
    case MetadataEvent(m, link) =>
      var (b, ok) := OnMetadata(cfg, s.bridge, m, Up(s, link));
      if ok then Ok(s.(bridge := b)) else Err(Stop(MetadataRejected, s.(bridge := b)))
    case IntroduceEvent(m, isNew, link) =>
      Ok(if isNew && cfg.autocreate.Some?
         then s.(bridge := Autocreate(cfg, cfg.autocreate.value, s.bridge, m, Up(s, link)).0)
         else s)
    case AssociateEvent(jid, channel, link) => Ok(AssociateAsking(s, jid, channel, link).0)
    case RestartEvent => Ok(Anew(s))
    case RemoveEvent(channel, chosen) => Ok(s.(bridge := Remove(s.bridge, channel, chosen)))
    case _ => Ok(s.(sends := SendsStep(cfg, s.sends, e)))
  }

  /** New ids are new, the server acknowledges only what was transmitted, only media downloads that
      were started finish, and a query finds a row that is there. */
  ghost predicate Allowed(s: State, e: Event) {
    match e
    case SendEvent(_, _, mid, _, _) => mid !in s.sends.used
    case EstablishedEvent(_, order, ids, _) =>
      Lists(order, Unsent(s.sends)) && FreshIds(s.sends.used, ids) && |ids| == |order|
    case AckEvent(mid, _) => mid in s.sends.transmitted
    case TickEvent(order, _) => Lists(order, s.sends.outgoing.Keys)
    case MediaEvent(mid, _, _, _, _, _) => mid in s.jobs
    case RemoveEvent(channel, chosen) =>
      ChannelUsed(s.bridge, channel) ==> chosen in s.bridge.groups && s.bridge.groups[chosen].channel == channel
    case _ => true
  }

  ghost predicate FreshIds(used: set<Mid>, ids: seq<Mid>) {
    && (forall i :: 0 <= i < |ids| ==> ids[i] !in used)
    && (forall i, j :: 0 <= i < j < |ids| ==> ids[i] != ids[j])
  }
}
