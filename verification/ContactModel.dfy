/**
 A contact with its own IRC connection (`ContactManager`): channels, messages, mode and presence, as
 functions on states.

 Its lines are those of the link, all from one user `ME`. `home` is the channel the client joins by
 itself when it connects.
 */
module ContactModel {
  import opened Outcomes
  import opened Failures
  import opened Address
  import opened Peer
  import Delivery
  import Fragments
  import LinkModel

  const ME: string := ""

  datatype Config = Config(addr: Addr, home: string, accepts: Byte -> bool)

  /** `recipient` is the row of the contact's address, if it is there; it, `groups` and `messages` are
      the database. */
  datatype State = State(
    connected: bool,
    adminOnline: bool,
    waMode: bool,
    presence: Option<string>,
    channels: seq<string>,
    recipient: Option<LinkModel.Recipient>,
    groups: map<int, LinkModel.Group>,
    messages: Delivery.Table,
    sent: seq<Wire>)

  /** What a step gives: the new state, or the failure that ends the contact and the state it leaves. */
  type Outcome = Result<State, Stop<State, Failure>>

  function Start(recip: LinkModel.Recipient, groups: map<int, LinkModel.Group>, messages: Delivery.Table): State {
    State(false, true, recip.whatsapp, None, [], Some(recip), groups, messages, [])
  }

  /** `ContactManager::new`, for a recipient row whose number must read back. */
  function New(cfg: Config, recip: LinkModel.Recipient, groups: map<int, LinkModel.Group>, messages: Delivery.Table)
    : Result<State, Failure>
  {
    if GetAddr(cfg.accepts, cfg.addr).None? then Err(BadAddress) else Ok(Start(recip, groups, messages))
  }

  function Say(s: State, lines: seq<Wire>): State {
    s.(sent := s.sent + lines)
  }

  // ---- groups ----

  /** `get_groups_for_recipient`, in the order of the query. */
  function Wanted(w: LinkModel.World, groups: map<int, LinkModel.Group>, recip: LinkModel.Recipient): seq<string> {
    LinkModel.ChannelNames(groups, w.groupOrder(LinkModel.GroupsWith(groups, recip.id)))
  }

  /** JOIN all wanted channels, PART those no longer wanted. */
  function Switch(s: State, wanted: seq<string>): State {
    Say(s.(channels := wanted), Joins(ME, wanted) + Parts(ME, Dropped(s.channels, wanted)))
  }

  /** `process_groups`. */
  function ProcessGroups(w: LinkModel.World, s: State): Outcome {
    if !s.connected then Ok(s)
    else match s.recipient
      case None => Err(Stop(RecipientMissing, s))
      case Some(recip) => Ok(Switch(s, Wanted(w, s.groups, recip)))
  }

  // ---- messages ----

  /** `update_recipient_wa`, which does nothing without a row. */
  function SetMode(s: State, wa: bool): State {
    s.(waMode := wa, recipient := if s.recipient.Some? then Some(s.recipient.value.(whatsapp := wa)) else None)
  }

  /** The automatic mode switch before a message. */
  function SwitchMode(s: State, wa: bool): State {
    if s.waMode == wa then s else Say(SetMode(s, wa), [Out(ModeNotice(ME, wa))])
  }

  /** `send_raw_message`. */
  function SendRaw(s: State, text: string, group: Option<int>): Outcome {
    var chunks := Fragments.Chunks(Fragments.Lines(text));
    match group
    case None => Ok(Say(s, LinkModel.Privmsgs(ME, ToAdmin, chunks)))
    case Some(g) =>
      if g !in s.groups then Err(Stop(NoSuchGroup, s))
      else Ok(Say(s, LinkModel.Privmsgs(ME, ToChannel(s.groups[g].channel), chunks)))
  }

  /** `delete_message` for each row in turn. */
  function RemoveRows(s: State, ids: seq<int>): Outcome
    decreases ids
  {
    if ids == [] then Ok(s)
    else if ids[0] !in s.messages then Err(Stop(NoSuchRow, s))
    else RemoveRows(Say(s, [Removed(ids[0])]).(messages := s.messages - {ids[0]}), ids[1..])
  }

  /** A text goes through `send_raw_message`, then its rows are deleted. */
  function SendThenRemove(s: State, send: Delivery.Send): Outcome {
    var s1 :- SendRaw(s, send.text, send.row.group);
    RemoveRows(s1, send.ids)
  }

  /** `process_msg_plain` and `process_msg_pdu`. */
  function Deliver(o: Delivery.Oracle, s: State, row: Delivery.Row): Outcome {
    match Delivery.Handle(o, s.messages, row)
    case Err(e) => Err(Stop(e, s))
    case Ok(Kept) => Ok(s)
    case Ok(Unreadable) => Ok(Say(s, [Out(ErrorNotice(ME))]))
    case Ok(Delivered(send)) => SendThenRemove(s, send)
  }

  /** One turn of the loop of `process_messages`. */
  function HandleRow(o: Delivery.Oracle, s: State, row: Delivery.Row): Outcome {
    if row.body == Delivery.Sms(Delivery.Malformed) then Err(Stop(BadPdu, s))
    else Deliver(o, SwitchMode(s, row.body.Plain?), row)
  }

  function HandleRows(o: Delivery.Oracle, s: State, rows: seq<Delivery.Row>): Outcome
    decreases rows
  {
    if rows == [] then Ok(s)
    else
      var s1 :- HandleRow(o, s, rows[0]);
      HandleRows(o, s1, rows[1..])
  }

  /** The rows of one address. */
  function Own(table: Delivery.Table, a: Addr): Delivery.Table {
    map i | i in table && table[i].addr == a :: table[i]
  }

  /** `get_messages_for_recipient`, in the order of the query. */
  function Inbox(cfg: Config, w: LinkModel.World, s: State): seq<Delivery.Row> {
    w.messageOrder(Own(s.messages, cfg.addr))
  }

  /** `process_messages`. */
  function ProcessMessages(cfg: Config, w: LinkModel.World, s: State): Outcome {
    if s.connected && s.adminOnline then HandleRows(w.oracle, s, Inbox(cfg, w, s)) else Ok(s)
  }

  // ---- the rest ----

  function TellPresence(s: State): State {
    if s.connected then Say(s, [Out(Away(ME, s.presence))]) else s
  }

  /** `change_nick`. */
  function ChangeNick(s: State, nick: string, source: int): State {
    var row := s.recipient;
    Say(s.(recipient := if row.Some? then Some(row.value.(nick := nick, nickSource := source)) else None),
        [Out(NickLine(ME, nick))])
  }

  datatype Event =
    | Welcome              // the end of the MOTD
    | AdminIs(online: bool)
    // commands
    | DoMessages
    | DoGroups
    | DoAway(reason: Option<string>)
    | DoNick(nick: string, source: int)
    | DoWhatsapp(on: bool)
    // other tasks writing to the database
    | DbTables(groups: map<int, LinkModel.Group>, messages: Delivery.Table)
    | DbRecipientGone

  function Step(cfg: Config, w: LinkModel.World, s: State, e: Event): Outcome {
    match e
    case Welcome =>
      var s1 :- ProcessMessages(cfg, w, s.(connected := true));
      ProcessGroups(w, TellPresence(Say(s1, [Out(Watch)])))
    case AdminIs(online) =>
      if online && !s.adminOnline then ProcessMessages(cfg, w, s.(adminOnline := true))
      else Ok(s.(adminOnline := online))
    case DoMessages => ProcessMessages(cfg, w, s)
    case DoGroups => ProcessGroups(w, s)
    case DoAway(reason) => Ok(TellPresence(s.(presence := reason)))
    case DoNick(nick, source) => Ok(ChangeNick(s, nick, source))
    case DoWhatsapp(on) => Ok(SetMode(s, on))
    case DbTables(groups, messages) => Ok(s.(groups := groups, messages := messages))
    case DbRecipientGone => Ok(s.(recipient := None))
  }
}
