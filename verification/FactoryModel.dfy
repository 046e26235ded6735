/**
 The contact factory: contacts starting, live and failed, and the presence recorded for addresses,
 as functions on states.

 `recipients` is the recipient table, by address. A live contact carries its nick and the commands
 queued to it since it went live.
 */
module FactoryModel {
  import opened Outcomes
  import opened Failures
  import opened Address

  datatype Command =
    | ProcessMessagesCmd
    | ProcessGroupsCmd
    | UpdateAway(reason: Option<string>)
    | OtherCmd(text: string)

  datatype Live = Live(nick: string, queue: seq<Command>)

  /** What the factory asks other tasks to do. */
  datatype Ask = MakeSms(addr: Addr) | MakeWhatsapp(addr: Addr) | Subscribe(addr: Addr) | Reply(known: bool)

  /** A row of the message table, as far as the factory looks at it. */
  datatype Mail = Mail(id: int, addr: Addr, source: int)

  const SOURCE_SMS: int := 0
  const SOURCE_WA: int := 1

  datatype State = State(
    starting: map<Addr, string>,
    contacts: map<Addr, Live>,
    presence: map<Addr, Option<string>>,
    failed: set<Addr>,
    processed: set<int>,
    recipients: map<Addr, string>,
    asks: seq<Ask>)

  /** What a step gives: the new state, or the failure that ends the factory and the state it leaves. */
  type Outcome = Result<State, Stop<State, Failure>>

  predicate HasContact(s: State, a: Addr) {
    a in s.starting || a in s.contacts
  }

  /** The addresses the factory looks after. */
  function Union(s: State): set<Addr> {
    s.starting.Keys + s.contacts.Keys + s.failed
  }

  /** `setup_recipient`, for a row that is there; its number must read back. */
  function SetupRecipient(accepts: Byte -> bool, s: State, key: Addr): Outcome
    requires key in s.recipients
  {
    match GetAddr(accepts, key)
    case None => Err(Stop(BadAddress, s))
    case Some(a) => Ok(if HasContact(s, a) then s else s.(starting := s.starting[a := s.recipients[key]]))
  }

  /** `setup_contact`. */
  function SetupContact(accepts: Byte -> bool, s: State, a: Addr): Outcome {
    if a in s.recipients then SetupRecipient(accepts, s, a) else Ok(s)
  }

  /** `request_contact`. */
  function RequestContact(accepts: Byte -> bool, s: State, a: Addr, source: int): Outcome {
    if a in s.recipients then SetupRecipient(accepts, s, a)
    else if source == SOURCE_SMS then Ok(s.(asks := s.asks + [MakeSms(a)]))
    else if source == SOURCE_WA then Ok(s.(asks := s.asks + [MakeWhatsapp(a)]))
    else Ok(s)
  }

  /** `query_contact`. */
  function QueryContact(accepts: Byte -> bool, s: State, a: Addr, source: int): Outcome {
    RequestContact(accepts, s.(asks := s.asks + [Reply(a in s.recipients)]), a, source)
  }

  function Queue(s: State, a: Addr, c: Command): State {
    if a in s.contacts
    then s.(contacts := s.contacts[a := s.contacts[a].(queue := s.contacts[a].queue + [c])])
    else s
  }

  /** `forward_cmd`, with `update_away`. */
  function Forward(s: State, a: Addr, c: Command): State {
    var s1 := Queue(s, a, c);
    if c.UpdateAway? then s1.(presence := s1.presence[a := c.reason]) else s1
  }

  /** `drop_contact`. */
  function Drop(s: State, a: Addr): Outcome {
    if a !in s.recipients then Err(Stop(NoSuchRecipient, s))
    else Ok(s.(recipients := s.recipients - {a}, contacts := s.contacts - {a}))
  }

  /** One row of `process_messages`. */
  function ProcessMail(accepts: Byte -> bool, s: State, m: Mail): Outcome {
    if m.id in s.processed then Ok(s)
    else
      var s1 := s.(processed := s.processed + {m.id});
      match GetAddr(accepts, m.addr)
      case None => Err(Stop(BadAddress, s1))
      case Some(a) =>
        if a in s.starting then Ok(s1)
        else if a in s.contacts then Ok(Queue(s1, a, ProcessMessagesCmd))
        else RequestContact(accepts, s1, a, m.source)
  }

  function ProcessMessages(accepts: Byte -> bool, s: State, rows: seq<Mail>): Outcome
    decreases rows
  {
    if rows == [] then Ok(s)
    else
      var s1 :- ProcessMail(accepts, s, rows[0]);
      ProcessMessages(accepts, s1, rows[1..])
  }

  function SetupEach(accepts: Byte -> bool, s: State, order: seq<Addr>): Outcome
    decreases order
  {
    if order == [] then Ok(s)
    else
      var s1 :- SetupContact(accepts, s, order[0]);
      SetupEach(accepts, s1, order[1..])
  }

  function QueueAll(contacts: map<Addr, Live>, c: Command): map<Addr, Live> {
    map a | a in contacts :: contacts[a].(queue := contacts[a].queue + [c])
  }

  // ---- the rest of `poll` ----

  /** What polling a starting contact gives: still starting, connected under a nick, or an error. */
  datatype Progress = NotReady | Ready(nick: string) | Failed

  /** A contact that has just become live: the recorded presence is replayed to it. */
  function Newborn(presence: map<Addr, Option<string>>, a: Addr, nick: string): Live {
    Live(nick, if a in presence then [UpdateAway(presence[a])] else [])
  }

  function ProgressOf(progress: map<Addr, Progress>, a: Addr): Progress {
    if a in progress then progress[a] else NotReady
  }

  /** The contacts among some that become live. */
  function Born(presence: map<Addr, Option<string>>, progress: map<Addr, Progress>, among: set<Addr>): map<Addr, Live> {
    map a | a in among && ProgressOf(progress, a).Ready? :: Newborn(presence, a, ProgressOf(progress, a).nick)
  }

  /** The contacts among some that fail to. */
  function Stillborn(progress: map<Addr, Progress>, among: set<Addr>): set<Addr> {
    set a | a in among && ProgressOf(progress, a).Failed?
  }

  /** The first loop of `poll`, and its removals. */
  function PollStarting(s: State, progress: map<Addr, Progress>): State {
    var born := Born(s.presence, progress, s.starting.Keys);
    var stillborn := Stillborn(progress, s.starting.Keys);
    s.(starting := s.starting - born.Keys - stillborn, contacts := s.contacts + born, failed := s.failed + stillborn)
  }

  /** The second loop: live contacts that failed. */
  function PollContacts(s: State, broken: set<Addr>): State {
    s.(contacts := s.contacts - broken, failed := s.failed + (s.contacts.Keys * broken))
  }

  /** `process_failures`; `order` is how the hash set lists the failed addresses. */
  function Retry(accepts: Byte -> bool, s: State, order: seq<Addr>): Outcome {
    SetupEach(accepts, s.(failed := {}), order)
  }

  // ---- events ----

  datatype Event =
    | MessagesEvent(rows: seq<Mail>)
    | GroupsEvent
    | LoadEvent(order: seq<Addr>)
    | SetupEvent(addr: Addr)
    | QueryEvent(addr: Addr, source: int)
    | DropEvent(addr: Addr)
    | DropByNickEvent(nick: string, found: Option<Addr>)
    | ForwardEvent(addr: Addr, cmd: Command)
    | ForwardByNickEvent(nick: string, found: Option<Addr>, cmd: Command)
    | SubscribeByNickEvent(nick: string, found: Option<Addr>)
    | StartingEvent(progress: map<Addr, Progress>)
    | BrokenEvent(broken: set<Addr>)
    | RetryEvent(order: seq<Addr>)
    | NickEvent(addr: Addr, nick: string)          // a contact changes its nick
    | TableEvent(recipients: map<Addr, string>)    // other tasks change the recipient table

  function Step(accepts: Byte -> bool, s: State, e: Event): Outcome {
    match e
    case MessagesEvent(rows) => ProcessMessages(accepts, s, rows)
    case GroupsEvent => Ok(s.(contacts := QueueAll(s.contacts, ProcessGroupsCmd)))
    case LoadEvent(order) => SetupEach(accepts, s, order)
    case SetupEvent(a) => SetupContact(accepts, s, a)
    case QueryEvent(a, source) => QueryContact(accepts, s, a, source)
    case DropEvent(a) => Drop(s, a)
    case DropByNickEvent(_, found) => if found.Some? then Drop(s, found.value) else Ok(s)
    case ForwardEvent(a, c) => Ok(Forward(s, a, c))
    case ForwardByNickEvent(_, found, c) => Ok(if found.Some? then Forward(s, found.value, c) else s)
    case SubscribeByNickEvent(_, found) => Ok(if found.Some? then s.(asks := s.asks + [Subscribe(found.value)]) else s)
    case StartingEvent(progress) => Ok(PollStarting(s, progress))
    case BrokenEvent(broken) => Ok(PollContacts(s, broken))
    case RetryEvent(order) => Retry(accepts, s, order)
    case NickEvent(a, nick) =>
      Ok(if a in s.contacts then s.(contacts := s.contacts[a := s.contacts[a].(nick := nick)]) else s)
    case TableEvent(recipients) => Ok(s.(recipients := recipients))
  }

  /** `resolve_nick` finds some live contact of that nick, if there is one. */
  ghost predicate Resolves(s: State, nick: string, found: Option<Addr>) {
    && (found.Some? ==> found.value in s.contacts && s.contacts[found.value].nick == nick)
    && (found.None? ==> forall a :: a in s.contacts ==> s.contacts[a].nick != nick)
  }

  ghost predicate Allowed(s: State, e: Event) {
    match e
    case MessagesEvent(rows) => forall i, j :: 0 <= i < j < |rows| ==> rows[i].id != rows[j].id
    case LoadEvent(order) => Lists(order, s.recipients.Keys)
    case RetryEvent(order) => Lists(order, s.failed)
    case DropByNickEvent(nick, found) => Resolves(s, nick, found)
    case ForwardByNickEvent(nick, found, _) => Resolves(s, nick, found)
    case SubscribeByNickEvent(nick, found) => Resolves(s, nick, found)
    case _ => true
  }

  function Start(recipients: map<Addr, string>): State {
    State(map[], map[], map[], {}, {}, recipients, [])
  }
}
