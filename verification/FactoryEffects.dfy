/** What the contact factory does with message rows, requests and commands. */
module FactoryEffects {
  import opened Outcomes
  import opened Failures
  import opened Address
  import opened FactoryModel

  // ---- requests ----

  /** Who is asked to make a recipient: the modem for source 0, WhatsApp for source 1. */
  function AskOf(source: int, a: Addr): seq<Ask> {
    if source == 0 then [MakeSms(a)] else if source == 1 then [MakeWhatsapp(a)] else []
  }

  /** With a recipient row a contact is started, under the nick of the row, unless there is one; without one the task
      of the source is asked to make the recipient. */
  ghost predicate Requested(s: State, s': State, a: Addr, source: int) {
    && s' == s.(starting := s'.starting, asks := s'.asks)
    && s'.starting == (if a in s.recipients && a !in s.starting && a !in s.contacts
                       then s.starting[a := s.recipients[a]] else s.starting)
    && s'.asks == s.asks + (if a in s.recipients then [] else AskOf(source, a))
  }

  /** A request fails exactly on a recipient row that does not read back. A query is answered first. */
  lemma {:induction false} RequestExact(accepts: Byte -> bool, s: State, a: Addr, source: int)
    ensures var r := RequestContact(accepts, s, a, source);
            && (r.Err? <==> a in s.recipients && !Reads(accepts, a))
            && (r.Err? ==> r.error == Stop(BadAddress, s)) && (r.Ok? ==> Requested(s, r.value, a, source))
    ensures QueryContact(accepts, s, a, source)
            == RequestContact(accepts, s.(asks := s.asks + [Reply(a in s.recipients)]), a, source)
  {
    hide Reads;
    assert s.asks + [] == s.asks;
  }

  // ---- message rows ----

  /** A row not seen before, whose address reads back. A live contact is told once; one that is starting is not; for
      anybody else it is as a request. */
  ghost predicate Posted(s: State, s': State, m: Mail) {
    var s1 := s.(processed := s.processed + {m.id});
    if m.addr in s.starting then s' == s1
    else if m.addr in s.contacts then
      var ct := s.contacts[m.addr];
      s' == s1.(contacts := s.contacts[m.addr := ct.(queue := ct.queue + [ProcessMessagesCmd])])
    else Requested(s1, s', m.addr, m.source)
  }

  lemma {:induction false} MailExact(accepts: Byte -> bool, s: State, m: Mail)
    ensures var r := ProcessMail(accepts, s, m);
            && (m.id in s.processed ==> r == Ok(s))
            && (m.id !in s.processed && !Reads(accepts, m.addr) ==>
                  r == Err(Stop(BadAddress, s.(processed := s.processed + {m.id}))))
            && (m.id !in s.processed && Reads(accepts, m.addr) ==> r.Ok? && Posted(s, r.value, m))
  {
    hide Reads, RequestContact;
    var s1 := s.(processed := s.processed + {m.id});
    RequestExact(accepts, s1, m.addr, m.source);
  }

  /** The rows a pass gets through: those before the first one not seen whose address does not read back. */
  function Through(accepts: Byte -> bool, seen: set<int>, rows: seq<Mail>): (n: nat)
    ensures n <= |rows|
    ensures n < |rows| ==> rows[n].id !in seen && !Reads(accepts, rows[n].addr)
    ensures forall i :: 0 <= i < n ==> rows[i].id in seen || Reads(accepts, rows[i].addr)
  {
    if rows == [] || (rows[0].id !in seen && !Reads(accepts, rows[0].addr)) then 0
    else 1 + Through(accepts, seen, rows[1..])
  }

  /** The rows of an address not seen before. */
  function Unseen(seen: set<int>, rows: seq<Mail>, a: Addr): nat {
    if rows == [] then 0
    else (if rows[0].addr == a && rows[0].id !in seen then 1 else 0) + Unseen(seen, rows[1..], a)
  }

  /** The command to look for messages, some number of times. */
  function Calls(n: nat): seq<Command> {
    if n == 0 then [] else [ProcessMessagesCmd] + Calls(n - 1)
  }

  ghost predicate Distinct(rows: seq<Mail>) {
    forall i, j :: 0 <= i < j < |rows| ==> rows[i].id != rows[j].id
  }

  /** Having seen a row that is not among them changes nothing. */
  lemma {:induction false} SeenElsewhere(accepts: Byte -> bool, seen: set<int>, id: int, rows: seq<Mail>, a: Addr)
    requires forall i :: 0 <= i < |rows| ==> rows[i].id != id
    ensures Through(accepts, seen + {id}, rows) == Through(accepts, seen, rows)
    ensures forall n :: 0 <= n <= |rows| ==> Unseen(seen + {id}, rows[..n], a) == Unseen(seen, rows[..n], a)
  {
    hide Reads;
    if rows != [] {
      var later := rows[1..];
      forall i | 0 <= i < |later| ensures later[i] == rows[i + 1] {}
      SeenElsewhere(accepts, seen, id, later, a);
      forall n | 0 < n <= |rows| ensures Unseen(seen + {id}, rows[..n], a) == Unseen(seen, rows[..n], a) {
        assert rows[..n][1..] == later[..n - 1];
      }
    }
  }

  /** A pass over the message rows tells a live contact of each row of its own not seen before, once, and stops exactly
      at the first row not seen whose address does not read back. */
  lemma {:induction false} PassCalls(accepts: Byte -> bool, s: State, rows: seq<Mail>, a: Addr)
    requires Distinct(rows) && a in s.contacts && a !in s.starting
    ensures var r, n := ProcessMessages(accepts, s, rows), Through(accepts, s.processed, rows);
            && (r.Err? <==> n < |rows|)
            && a in Left(r).contacts && a !in Left(r).starting
            && Left(r).contacts[a].queue == s.contacts[a].queue + Calls(Unseen(s.processed, rows[..n], a))
    decreases rows
  {
    hide Reads, ProcessMail, RequestContact, Posted, Requested;
    if rows == [] {
      assert s.contacts[a].queue + [] == s.contacts[a].queue;
    } else {
      var m, later := rows[0], rows[1..];
      MailExact(accepts, s, m);
      forall i | 0 <= i < |later| ensures later[i] == rows[i + 1] {}
      var r := ProcessMail(accepts, s, m);
      if r.Ok? {
        var s1 := r.value;
        CalledStep(s, s1, m, a, 0);
        PassCalls(accepts, s1, later, a);
        if m.id !in s.processed { SeenElsewhere(accepts, s.processed, m.id, later, a); }
        var n := Through(accepts, s.processed, later);
        assert rows[..n + 1][0] == m && rows[..n + 1][1..] == later[..n];
        CalledStep(s, s1, m, a, Unseen(s.processed, later[..n], a));
      } else {
        assert rows[..0] == [] && s.contacts[a].queue + [] == s.contacts[a].queue;
      }
    }
  }

  lemma CalledStep(s: State, s1: State, m: Mail, a: Addr, k: nat)
    requires a in s.contacts && a !in s.starting
    requires if m.id in s.processed then s1 == s else Posted(s, s1, m)
    ensures a in s1.contacts && a !in s1.starting
    ensures s1.processed == s.processed + {m.id}
    ensures s1.contacts[a].queue + Calls(k)
            == s.contacts[a].queue + Calls((if m.addr == a && m.id !in s.processed then 1 else 0) + k)
  {
    if m.addr == a && m.id !in s.processed {
      Regroup(s.contacts[a].queue, [ProcessMessagesCmd], Calls(k));
    }
  }

  // ---- the rest ----

  /** A command to a contact by its address. */
  ghost predicate Forwarded(s: State, s': State, a: Addr, c: Command) {
    && s' == s.(contacts := s'.contacts, presence := s'.presence)
    && s'.contacts == (if a in s.contacts then s.contacts[a := s.contacts[a].(queue := s.contacts[a].queue + [c])]
                       else s.contacts)
    && s'.presence == (if c.UpdateAway? then s.presence[a := c.reason] else s.presence)
  }

  /** A command goes to the live contact, and an away state is recorded in any case; what concerns groups goes to all
      live contacts; a subscription is asked of the task that has it; by nick it is as by address. */
  lemma {:induction false} CommandsExact(accepts: Byte -> bool, s: State, a: Addr, c: Command, nick: string)
    ensures var r := Step(accepts, s, ForwardEvent(a, c)); r.Ok? && Forwarded(s, r.value, a, c)
    ensures var r := Step(accepts, s, ForwardByNickEvent(nick, Some(a), c)); r.Ok? && Forwarded(s, r.value, a, c)
    ensures Step(accepts, s, ForwardByNickEvent(nick, None, c)) == Ok(s)
    ensures Step(accepts, s, SubscribeByNickEvent(nick, Some(a))) == Ok(s.(asks := s.asks + [Subscribe(a)]))
    ensures Step(accepts, s, SubscribeByNickEvent(nick, None)) == Ok(s)
    ensures Step(accepts, s, GroupsEvent)
            == Ok(s.(contacts := map b | b in s.contacts ::
                                 s.contacts[b].(queue := s.contacts[b].queue + [ProcessGroupsCmd])))
    ensures Step(accepts, s, NickEvent(a, nick))
            == Ok(s.(contacts := if a in s.contacts then s.contacts[a := Live(nick, s.contacts[a].queue)]
                                 else s.contacts))
  {
    hide ProcessMessages, SetupEach, SetupContact, QueryContact, Retry, PollStarting, PollContacts;
  }

  /** A contact is dropped with its row, by address or by nick; without a row that is an error. */
  lemma {:induction false} DropExact(accepts: Byte -> bool, s: State, a: Addr, nick: string)
    ensures Step(accepts, s, DropEvent(a))
            == (if a in s.recipients then Ok(s.(recipients := s.recipients - {a}, contacts := s.contacts - {a}))
                else Err(Stop(NoSuchRecipient, s)))
    ensures Step(accepts, s, DropByNickEvent(nick, Some(a))) == Step(accepts, s, DropEvent(a))
    ensures Step(accepts, s, DropByNickEvent(nick, None)) == Ok(s)
  {
    hide ProcessMessages, SetupEach, SetupContact, QueryContact, Retry, PollStarting, PollContacts, Forward, QueueAll;
  }

  /** Starting contacts that are ready go live under their nick, told the recorded presence first; those that fail are
      to be tried again; the others go on starting. */
  lemma {:induction false} StartingExact(accepts: Byte -> bool, s: State, progress: map<Addr, Progress>, a: Addr)
    requires a in s.starting && a !in s.contacts
    ensures Step(accepts, s, StartingEvent(progress)).Ok?
    ensures var s' := Step(accepts, s, StartingEvent(progress)).value;
            && (a in s'.starting <==> a !in progress || progress[a].NotReady?)
            && (a in s'.starting ==> s'.starting[a] == s.starting[a])
            && (a in s'.contacts <==> a in progress && progress[a].Ready?)
            && (a in s'.contacts ==>
                  s'.contacts[a] == Live(progress[a].nick, if a in s.presence then [UpdateAway(s.presence[a])] else []))
            && (a in s'.failed <==> a in s.failed || (a in progress && progress[a].Failed?))
  {
    hide ProcessMessages, SetupEach, SetupContact, QueryContact, Retry, Drop, Forward, QueueAll;
  }

  /** Polling changes nothing about anybody else; a live contact that breaks is to be tried again. */
  lemma {:induction false} OthersExact(accepts: Byte -> bool, s: State, progress: map<Addr, Progress>,
                                       broken: set<Addr>, a: Addr)
    requires a !in s.starting
    ensures Step(accepts, s, StartingEvent(progress)).Ok? && Step(accepts, s, BrokenEvent(broken)).Ok?
    ensures var s' := Step(accepts, s, StartingEvent(progress)).value;
            && a !in s'.starting && (a in s'.contacts <==> a in s.contacts) && (a in s'.failed <==> a in s.failed)
            && (a in s.contacts ==> s'.contacts[a] == s.contacts[a])
    ensures var s' := Step(accepts, s, BrokenEvent(broken)).value;
            && s'.starting == s.starting && (a in s'.contacts <==> a in s.contacts && a !in broken)
            && (a in s'.contacts ==> s'.contacts[a] == s.contacts[a])
            && (a in s'.failed <==> a in s.failed || (a in s.contacts && a in broken))
  {
    hide ProcessMessages, SetupEach, SetupContact, QueryContact, Retry, Drop, Forward, QueueAll;
  }
}
