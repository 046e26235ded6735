/** Supervision: nothing the contact factory looks after is lost, doubled or left with a stale presence. */
module FactoryProofs {
  import opened Outcomes
  import opened Failures
  import opened Address
  import opened FactoryModel

  /** The last away state a contact was told. */
  function LastAway(queue: seq<Command>): Option<Option<string>> {
    if queue == [] then None
    else
      var last := queue[|queue| - 1];
      if last.UpdateAway? then Some(last.reason) else LastAway(queue[..|queue| - 1])
  }

  ghost predicate Disjoint(s: State) {
    s.starting.Keys !! s.contacts.Keys
  }

  /** Every live contact was last told the recorded presence, and nothing when none is recorded. */
  ghost predicate Told(s: State) {
    forall a :: a in s.contacts ==>
      LastAway(s.contacts[a].queue) == if a in s.presence then Some(s.presence[a]) else None
  }

  ghost predicate Inv(s: State) {
    Disjoint(s) && Told(s)
  }

  lemma LastAwayAppend(queue: seq<Command>, c: Command)
    ensures LastAway(queue + [c]) == if c.UpdateAway? then Some(c.reason) else LastAway(queue)
  {
    assert (queue + [c])[..|queue|] == queue;
  }

  lemma {:induction false} QueueKeeps(s: State, a: Addr, c: Command)
    requires Inv(s) && !c.UpdateAway?
    ensures var s' := Queue(s, a, c);
            Inv(s') && s'.contacts.Keys == s.contacts.Keys && s' == s.(contacts := s'.contacts)
  {
    hide LastAway;
    if a in s.contacts {
      LastAwayAppend(s.contacts[a].queue, c);
      var s' := Queue(s, a, c);
      assert s'.contacts.Keys == s.contacts.Keys;
      forall b | b in s'.contacts
        ensures LastAway(s'.contacts[b].queue) == if b in s'.presence then Some(s'.presence[b]) else None
      {
        assert b in s.contacts;
      }
    }
  }

  lemma ProcessedKeeps(s: State, id: int)
    requires Inv(s)
    ensures Inv(s.(processed := s.processed + {id}))
  {
  }

  lemma {:induction false} ForwardKeeps(s: State, a: Addr, c: Command)
    requires Inv(s)
    ensures Inv(Forward(s, a, c))
  {
    hide LastAway;
    if a in s.contacts { LastAwayAppend(s.contacts[a].queue, c); }
    var s' := Forward(s, a, c);
    forall b | b in s'.contacts
      ensures LastAway(s'.contacts[b].queue) == if b in s'.presence then Some(s'.presence[b]) else None
    {
      assert b in s.contacts;
    }
  }

  lemma {:induction false} QueueAllKeeps(s: State, c: Command)
    requires Inv(s) && !c.UpdateAway?
    ensures Inv(s.(contacts := QueueAll(s.contacts, c)))
  {
    hide LastAway;
    forall a | a in s.contacts ensures LastAway(s.contacts[a].queue + [c]) == LastAway(s.contacts[a].queue) {
      LastAwayAppend(s.contacts[a].queue, c);
    }
  }

  /** What setting up or asking for contacts leaves alone. */
  ghost predicate OnlyStarts(s: State, s': State) {
    && s'.contacts == s.contacts && s'.failed == s.failed && s'.recipients == s.recipients && s'.presence == s.presence
    && s'.processed == s.processed && s.starting.Keys <= s'.starting.Keys && s'.starting.Keys !! s'.contacts.Keys
    && (forall a :: a in s.starting ==> s'.starting[a] == s.starting[a])
  }

  lemma {:induction false} StartsKeep(s: State, s': State)
    requires Inv(s) && OnlyStarts(s, s')
    ensures Inv(s')
  {
  }

  /** A recipient row that does not read back. */
  predicate Unreadable(accepts: Byte -> bool, s: State, a: Addr) {
    a in s.recipients && !Reads(accepts, a)
  }

  lemma {:induction false} SetupStarts(accepts: Byte -> bool, s: State, a: Addr)
    requires Disjoint(s)
    ensures var r := SetupContact(accepts, s, a);
            && OnlyStarts(s, Left(r)) && (r.Err? <==> Unreadable(accepts, s, a)) && (r.Err? ==>
                 r.error == Stop(BadAddress, s))
            && (r.Ok? ==> forall b :: b in r.value.starting <==>
                  b in s.starting || (b == a && a in s.recipients && a !in s.contacts))
  {
    hide Reads;
  }

  lemma {:induction false} RequestStarts(accepts: Byte -> bool, s: State, a: Addr, source: int)
    requires Disjoint(s)
    ensures var r := RequestContact(accepts, s, a, source);
            OnlyStarts(s, Left(r)) && (r.Err? <==> Unreadable(accepts, s, a)) && (r.Err? ==> r.error.why == BadAddress)
  {
    hide Reads, SetupRecipient;
    SetupStarts(accepts, s, a);
  }

  lemma {:induction false} QueryStarts(accepts: Byte -> bool, s: State, a: Addr, source: int)
    requires Disjoint(s)
    ensures var r := QueryContact(accepts, s, a, source);
            OnlyStarts(s, Left(r)) && (r.Err? <==> Unreadable(accepts, s, a)) && (r.Err? ==> r.error.why == BadAddress)
  {
    hide RequestContact, Reads;
    RequestStarts(accepts, s.(asks := s.asks + [Reply(a in s.recipients)]), a, source);
  }

  /** Setting up several contacts stops exactly at a row that does not read back, and starts the contacts
      before it. */
  lemma {:induction false} SetupEachKeeps(accepts: Byte -> bool, s: State, order: seq<Addr>)
    requires Disjoint(s)
    ensures var r, n := SetupEach(accepts, s, order), Readable(accepts, s, order);
            && OnlyStarts(s, Left(r)) && (r.Err? ==> r.error.why == BadAddress)
            && (r.Err? <==> exists i :: 0 <= i < |order| && Unreadable(accepts, s, order[i]))
            && (forall a :: a in Left(r).starting <==> a in s.starting || StartedBy(s, order[..n], a))
  {
    hide Reads, SetupEach, Unreadable, OnlyStarts, StartedBy;
    SetupEachStops(accepts, s, order);
  }

  lemma {:induction false} SetupEachStops(accepts: Byte -> bool, s: State, order: seq<Addr>)
    requires Disjoint(s)
    ensures var r, n := SetupEach(accepts, s, order), Readable(accepts, s, order);
            && OnlyStarts(s, Left(r)) && (r.Err? ==> r.error.why == BadAddress) && (r.Err? <==> n < |order|)
            && (forall a :: a in Left(r).starting <==> a in s.starting || StartedBy(s, order[..n], a))
    decreases order
  {
    hide Reads, SetupContact, Unreadable;
    if order == [] {
      assert order[..0] == [];
    } else {
      SetupStarts(accepts, s, order[0]);
      var r := SetupContact(accepts, s, order[0]);
      if r.Ok? {
        var later := order[1..];
        SetupEachStops(accepts, r.value, later);
        SameRows(accepts, s, r.value, order);
        SameRows(accepts, s, r.value, later);
        var n := Readable(accepts, s, later);
        assert order[..n + 1] == [order[0]] + later[..n];
      } else {
        assert order[..0] == [];
      }
    }
  }

  /** The first listed recipient whose row does not read back. */
  function Readable(accepts: Byte -> bool, s: State, order: seq<Addr>): (n: nat)
    ensures n <= |order| && (n < |order| ==> Unreadable(accepts, s, order[n]))
    ensures forall i :: 0 <= i < n ==> !Unreadable(accepts, s, order[i])
  {
    if order == [] || Unreadable(accepts, s, order[0]) then 0 else 1 + Readable(accepts, s, order[1..])
  }

  /** Listed, with a row and no live contact. */
  predicate StartedBy(s: State, order: seq<Addr>, a: Addr) {
    a in order && a in s.recipients && a !in s.contacts
  }

  lemma {:induction false} SameRows(accepts: Byte -> bool, s: State, s': State, order: seq<Addr>)
    requires s'.recipients == s.recipients
    ensures Readable(accepts, s', order) == Readable(accepts, s, order)
    ensures forall a :: Unreadable(accepts, s', a) <==> Unreadable(accepts, s, a)
  {
    if order != [] { SameRows(accepts, s, s', order[1..]); }
  }

  // ---- messages ----

  /** What the rows of a pass leave alone. */
  ghost predicate OnlyActs(s: State, s': State) {
    && s'.contacts.Keys == s.contacts.Keys && s'.failed == s.failed
    && s'.recipients == s.recipients && s'.presence == s.presence
    && s.starting.Keys <= s'.starting.Keys
  }

  lemma {:induction false} OneMailKeeps(accepts: Byte -> bool, s: State, m: Mail)
    requires Inv(s)
    ensures var r := ProcessMail(accepts, s, m);
            && Inv(Left(r)) && OnlyActs(s, Left(r)) && Left(r).processed == s.processed + {m.id}
            && (r.Err? <==> m.id !in s.processed && !Reads(accepts, m.addr)) && (r.Err? ==> r.error.why == BadAddress)
  {
    hide Told, RequestContact, Queue, Reads;
    if m.id !in s.processed {
      var s1, a := s.(processed := s.processed + {m.id}), m.addr;
      ProcessedKeeps(s, m.id);
      QueueKeeps(s1, a, ProcessMessagesCmd);
      RequestStarts(accepts, s1, a, m.source);
      if a !in s.starting && a !in s.contacts { StartsKeep(s1, Left(RequestContact(accepts, s1, a, m.source))); }
    } else {
      assert s.processed + {m.id} == s.processed;
    }
  }

  /** A pass over the messages stops exactly at an unseen row whose address does not read back. */
  lemma {:induction false} MailKeeps(accepts: Byte -> bool, s: State, rows: seq<Mail>)
    requires Inv(s) && forall i, j :: 0 <= i < j < |rows| ==> rows[i].id != rows[j].id
    ensures var r := ProcessMessages(accepts, s, rows);
            && Inv(Left(r)) && OnlyActs(s, Left(r)) && s.processed <= Left(r).processed
            && (r.Err? <==> exists i :: 0 <= i < |rows| && rows[i].id !in s.processed && !Reads(accepts, rows[i].addr))
            && (r.Err? ==> r.error.why == BadAddress)
            && (r.Ok? ==> forall i :: 0 <= i < |rows| ==> rows[i].id in r.value.processed)
    decreases rows
  {
    hide Inv, Reads, ProcessMail;
    if rows != [] {
      OneMailKeeps(accepts, s, rows[0]);
      var r := ProcessMail(accepts, s, rows[0]);
      if r.Ok? {
        var later := rows[1..];
        assert forall i :: 0 <= i < |later| ==> later[i] == rows[i + 1];
        MailKeeps(accepts, r.value, later);
        assert forall i :: 0 < i < |rows| ==> rows[i] == later[i - 1];
      }
    }
  }

  /** A message row is acted on once: a second pass over rows already seen changes nothing. */
  lemma {:induction false} MailActedOnOnce(accepts: Byte -> bool, s: State, rows: seq<Mail>)
    requires forall i :: 0 <= i < |rows| ==> rows[i].id in s.processed
    ensures ProcessMessages(accepts, s, rows) == Ok(s)
    decreases rows
  {
    if rows != [] {
      forall i | 0 <= i < |rows[1..]| ensures rows[1..][i].id in s.processed {
        assert rows[1..][i] == rows[i + 1];
      }
      MailActedOnOnce(accepts, s, rows[1..]);
    }
  }

  lemma {:induction false} StartingKeeps(s: State, progress: map<Addr, Progress>)
    requires Inv(s)
    ensures Inv(PollStarting(s, progress))
  {
    var s' := PollStarting(s, progress);
    forall a | a in s'.contacts
      ensures LastAway(s'.contacts[a].queue) == if a in s.presence then Some(s.presence[a]) else None
    {
      if a in s.starting && ProgressOf(progress, a).Ready? {
        LastAwayAppend([], UpdateAway(if a in s.presence then s.presence[a] else None));
      }
    }
  }

  lemma {:induction false} OthersKeep(accepts: Byte -> bool, s: State, e: Event)
    requires Inv(s)
    requires e.DropEvent? || e.DropByNickEvent? || e.SubscribeByNickEvent? || e.BrokenEvent? || e.NickEvent?
             || e.TableEvent?
    ensures var r := Step(accepts, s, e);
            Inv(Left(r)) && (r.Err? <==> Fails(accepts, s, e)) && (r.Err? ==> r.error == Stop(NoSuchRecipient, s))
  {
    hide LastAway;
  }

  /** Which events end the factory: a row that has to be read back and does not, or the drop of an
      address without a row. */
  ghost predicate Fails(accepts: Byte -> bool, s: State, e: Event) {
    match e
    case MessagesEvent(rows) =>
      exists i :: 0 <= i < |rows| && rows[i].id !in s.processed && !Reads(accepts, rows[i].addr)
    case LoadEvent(order) => exists a :: a in s.recipients && Unreadable(accepts, s, a)
    case SetupEvent(a) => Unreadable(accepts, s, a)
    case QueryEvent(a, _) => Unreadable(accepts, s, a)
    case RetryEvent(order) => exists a :: a in s.failed && Unreadable(accepts, s, a)
    case DropEvent(a) => a !in s.recipients
    case DropByNickEvent(_, found) => found.Some? && found.value !in s.recipients
    case _ => false
  }

  /** Every event, whether it ends the factory or not, keeps starting and live contacts disjoint and the
      presence told; and exactly which events end it. */
  lemma {:induction false} StepKeeps(accepts: Byte -> bool, s: State, e: Event)
    requires Inv(s) && Allowed(s, e)
    ensures var r := Step(accepts, s, e);
            Inv(Left(r)) && (r.Err? <==> Fails(accepts, s, e)) && (r.Err? ==>
              r.error.why in {BadAddress, NoSuchRecipient})
  {
    hide Told, QueryContact, SetupContact, SetupEach, Drop, Unreadable, Reads, ProcessMessages;
    match e
    case MessagesEvent(rows) => MailKeeps(accepts, s, rows);
    case GroupsEvent => QueueAllKeeps(s, ProcessGroupsCmd);
    case LoadEvent(order) =>
      SetupEachKeeps(accepts, s, order);
      StartsKeep(s, Left(SetupEach(accepts, s, order)));
      AnyListed(accepts, s, order, s.recipients.Keys);
    case SetupEvent(a) =>
      SetupStarts(accepts, s, a);
      StartsKeep(s, Left(SetupContact(accepts, s, a)));
    case QueryEvent(a, source) =>
      QueryStarts(accepts, s, a, source);
      StartsKeep(s, Left(QueryContact(accepts, s, a, source)));
    case ForwardEvent(a, c) => ForwardKeeps(s, a, c);
    case ForwardByNickEvent(_, found, c) => if found.Some? { ForwardKeeps(s, found.value, c); }
    case StartingEvent(progress) => StartingKeeps(s, progress);
    case RetryEvent(order) => RetryKeeps(accepts, s, order);
    case _ => OthersKeep(accepts, s, e);
  }

  lemma {:induction false} AnyListed(accepts: Byte -> bool, s: State, order: seq<Addr>, all: set<Addr>)
    requires Lists(order, all)
    ensures (exists i :: 0 <= i < |order| && Unreadable(accepts, s, order[i])) <==>
            (exists a :: a in all && Unreadable(accepts, s, a))
  {
    hide Unreadable;
    if a :| a in all && Unreadable(accepts, s, a) {
      assert a in order;
      var i :| 0 <= i < |order| && order[i] == a;
    }
    if i :| 0 <= i < |order| && Unreadable(accepts, s, order[i]) {
      assert order[i] in order;
    }
  }

  lemma {:induction false} RetryKeeps(accepts: Byte -> bool, s: State, order: seq<Addr>)
    requires Inv(s) && Lists(order, s.failed)
    ensures var r := Retry(accepts, s, order);
            && Inv(Left(r)) && (r.Err? ==> r.error.why == BadAddress)
            && (r.Err? <==> exists a :: a in s.failed && Unreadable(accepts, s, a))
  {
    hide Told, SetupEach, Reads;
    var s0 := s.(failed := {});
    assert Inv(s0) by { FailedKeeps(s); }
    SetupEachKeeps(accepts, s0, order);
    StartsKeep(s0, Left(SetupEach(accepts, s0, order)));
    AnyListed(accepts, s0, order, s.failed);
  }

  lemma FailedKeeps(s: State)
    requires Inv(s)
    ensures Inv(s.(failed := {}))
  {
  }

  ghost predicate Run(accepts: Byte -> bool, states: seq<State>, events: seq<Event>) {
    && |states| == |events| + 1 && states[0] == Start(states[0].recipients)
    && forall i :: 0 <= i < |events| ==> Moves(accepts, states[i], events[i], states[i + 1])
  }

  /** A step, or a failed step and a new factory on the recipients it left. */
  ghost predicate Moves(accepts: Byte -> bool, s: State, e: Event, s': State) {
    && Allowed(s, e)
    && match Step(accepts, s, e)
       case Ok(next) => s' == next
       case Err(stop) => s' == Start(stop.at.recipients)
  }

  /** Over any run, starting and live contacts are disjoint, and the last away state queued to a live
      contact is the one recorded. */
  lemma {:induction false} RunKeeps(accepts: Byte -> bool, states: seq<State>, events: seq<Event>, i: nat)
    requires Run(accepts, states, events) && i < |states|
    ensures Disjoint(states[i]) && Told(states[i])
  {
    hide Allowed, Step, Fails;
    if i > 0 {
      RunKeeps(accepts, states, events, i - 1);
      assert Moves(accepts, states[i - 1], events[i - 1], states[i]);
      StepKeeps(accepts, states[i - 1], events[i - 1]);
    }
  }

  // ---- who leaves ----

  /** The address an event drops, if it drops one. */
  function Dropped(e: Event): Option<Addr> {
    match e
    case DropEvent(a) => Some(a)
    case DropByNickEvent(_, found) => found
    case _ => None
  }

  /** In any step, failed or not, an address stops being looked after exactly when it is dropped while live
      (and not also waiting for a retry), or when it fails to be retried without a contact: it has no row,
      or the retry stops before its turn is over. Note that dropping a contact that is still starting does
      not stop it. */
  lemma {:induction false} LeavesExactly(accepts: Byte -> bool, s: State, e: Event, a: Addr)
    requires Inv(s) && Allowed(s, e)
    ensures a in Union(s) && a !in Union(Left(Step(accepts, s, e))) <==>
              || (Dropped(e) == Some(a) && a in s.recipients && a in s.contacts && a !in s.failed)
              || (e.RetryEvent? && NotRetried(accepts, s, e.order, a))
  {
    hide Told, ProcessMessages, SetupEach, SetupContact, QueryContact, Unreadable, Reads;
    match e
    case MessagesEvent(rows) => MailKeeps(accepts, s, rows);
    case LoadEvent(order) => SetupEachKeeps(accepts, s, order);
    case SetupEvent(b) => SetupStarts(accepts, s, b);
    case QueryEvent(b, source) => QueryStarts(accepts, s, b, source);
    case RetryEvent(order) => RetryLeaves(accepts, s, order, a);
    case StartingEvent(progress) => if a in Union(s) { StartingStay(s, progress, a); }
    case DropEvent(b) => DropLeaves(s, b, a);
    case DropByNickEvent(_, found) => if found.Some? { DropLeaves(s, found.value, a); }
    case _ => OthersStay(accepts, s, e);
  }

  lemma {:induction false} OthersStay(accepts: Byte -> bool, s: State, e: Event)
    requires e.GroupsEvent? || e.ForwardEvent? || e.ForwardByNickEvent? || e.SubscribeByNickEvent? || e.BrokenEvent?
             || e.NickEvent? || e.TableEvent?
    ensures Step(accepts, s, e).Ok? && Union(Step(accepts, s, e).value) == Union(s)
  {
    hide Forward;
    match e
    case ForwardEvent(b, c) => ForwardStays(s, b, c);
    case ForwardByNickEvent(_, found, c) => if found.Some? { ForwardStays(s, found.value, c); }
    case _ =>
  }

  lemma ForwardStays(s: State, b: Addr, c: Command)
    ensures Union(Forward(s, b, c)) == Union(s)
  {
  }

  lemma {:induction false} DropLeaves(s: State, b: Addr, a: Addr)
    requires Disjoint(s)
    ensures a in Union(s) && a !in Union(Left(Drop(s, b))) <==>
              b == a && a in s.recipients && a in s.contacts && a !in s.failed
  {
  }

  /** A failed address without a contact that a retry does not bring back: it has no row, or comes at or
      after a row that does not read back. */
  predicate NotRetried(accepts: Byte -> bool, s: State, order: seq<Addr>, a: Addr) {
    a in s.failed && !HasContact(s, a) && (a !in s.recipients || a !in order[..Readable(accepts, s, order)])
  }

  lemma {:induction false} RetryLeaves(accepts: Byte -> bool, s: State, order: seq<Addr>, a: Addr)
    requires Inv(s) && Lists(order, s.failed)
    ensures a in Union(s) && a !in Union(Left(Retry(accepts, s, order))) <==> NotRetried(accepts, s, order, a)
  {
    hide Told, SetupEach, Unreadable, Readable;
    var s0 := s.(failed := {});
    SetupEachKeeps(accepts, s0, order);
    SameRows(accepts, s, s0, order);
    assert a in order <==> a in s.failed;
  }

  lemma {:induction false} StartingStay(s: State, progress: map<Addr, Progress>, a: Addr)
    requires a in Union(s)
    ensures a in Union(PollStarting(s, progress))
  {
    var s' := PollStarting(s, progress);
    if a in s.starting {
      assert a in s'.starting || a in s'.contacts || a in s'.failed;
    }
  }

  /** Setting up never replaces a contact that is starting or live, even when it fails. */
  lemma {:induction false} SetupNeverReplaces(accepts: Byte -> bool, s: State, e: Event, a: Addr)
    requires Inv(s) && (e.SetupEvent? || e.QueryEvent? || e.LoadEvent? || e.RetryEvent?) && HasContact(s, a)
    ensures var s' := Left(Step(accepts, s, e));
            && (a in s.starting ==> a in s'.starting && s'.starting[a] == s.starting[a])
            && (a in s.contacts ==> a in s'.contacts && s'.contacts[a] == s.contacts[a])
  {
    hide SetupContact, QueryContact, SetupEach, Told, Unreadable;
    match e
    case SetupEvent(b) => SetupStarts(accepts, s, b);
    case QueryEvent(b, source) => QueryStarts(accepts, s, b, source);
    case LoadEvent(order) => SetupEachKeeps(accepts, s, order);
    case RetryEvent(order) => SetupEachKeeps(accepts, s.(failed := {}), order);
  }

  /** After a retry, failed or not, nobody is left in the failed set, and those started are exactly the ones
      with a row and no contact that come before the first row that does not read back. */
  lemma {:induction false} RetryExact(accepts: Byte -> bool, s: State, order: seq<Addr>)
    requires Inv(s) && Lists(order, s.failed)
    ensures var r, n := Retry(accepts, s, order), Readable(accepts, s, order);
            && Left(r).failed == {} && Left(r).contacts == s.contacts
            && (forall a :: a in Left(r).starting <==> a in s.starting || StartedBy(s, order[..n], a))
            && (r.Err? <==> n < |order|)
            && (r.Err? <==> exists a :: a in s.failed && Unreadable(accepts, s, a))
            && (r.Ok? ==> forall a :: a in s.failed && a in s.recipients ==> HasContact(r.value, a))
  {
    hide Told, SetupEach, Unreadable;
    var s0 := s.(failed := {});
    SetupEachKeeps(accepts, s0, order);
    SameRows(accepts, s, s0, order);
    RetryKeeps(accepts, s, order);
    assert order[..|order|] == order;
    forall a | a in s.failed ensures a in order {}
  }
}
