/**
 `ContactFactory` as the class it is: methods that move contacts between its tables, each proved to do
 what the step functions of `FactoryModel` say.
 */
module ContactFactories {
  import opened Outcomes
  import opened Failures
  import opened Address
  import opened FactoryModel

  type Status = Result<(), Failure>

  class ContactFactory {
    const accepts: Byte -> bool
    var starting: map<Addr, string>
    var contacts: map<Addr, Live>
    var presence: map<Addr, Option<string>>
    var failed: set<Addr>
    var processed: set<int>
    var recipients: map<Addr, string>
    var asks: seq<Ask>

    ghost function View(): State
      reads this
    {
      State(starting, contacts, presence, failed, processed, recipients, asks)
    }

    constructor (accepts: Byte -> bool, recipients: map<Addr, string>)
      ensures this.accepts == accepts && View() == Start(recipients)
      ensures starting == map[] && contacts == map[] && presence == map[] && failed == {} && processed == {}
      ensures this.recipients == recipients && asks == []
    {
      this.accepts := accepts;
      starting, contacts, presence, failed, processed, asks := map[], map[], map[], {}, {}, [];
      this.recipients := recipients;
    }

    // ---- setting up ----

    /** `setup_recipient` with `has_contact` and `setup_contact_for`. */
    method SetupRecipient(key: Addr) returns (r: Status)
      requires key in recipients
      modifies `starting
      ensures Did(r, View(), FactoryModel.SetupRecipient(accepts, old(View()), key))
    {
      hide Reads;
      var addr := GetAddr(accepts, key);
      if addr.None? {
        return Err(BadAddress);
      }
      var a := addr.value;
      if a !in starting && a !in contacts {
        starting := starting[a := recipients[key]];
      }
      return Ok(());
    }

    /** `setup_contact`. */
    method SetupContact(a: Addr) returns (r: Status)
      modifies `starting
      ensures Did(r, View(), FactoryModel.SetupContact(accepts, old(View()), a))
    {
      hide FactoryModel.SetupRecipient;
      r := Ok(());
      if a in recipients {
        r := SetupRecipient(a);
      }
    }

    /** `request_contact`; says whether there is a recipient. */
    method RequestContact(a: Addr, source: int) returns (r: Status, known: bool)
      modifies `starting, `asks
      ensures Did(r, View(), FactoryModel.RequestContact(accepts, old(View()), a, source))
      ensures known <==> a in recipients
    {
      hide FactoryModel.SetupRecipient;
      r, known := Ok(()), false;
      if a in recipients {
        r := SetupRecipient(a);
        known := true;
      } else if source == SOURCE_SMS {
        asks := asks + [MakeSms(a)];
      } else if source == SOURCE_WA {
        asks := asks + [MakeWhatsapp(a)];
      }
    }

    /** `query_contact`. */
    method QueryContact(a: Addr, source: int) returns (r: Status)
      modifies `starting, `asks
      ensures Did(r, View(), FactoryModel.QueryContact(accepts, old(View()), a, source))
    {
      hide FactoryModel.SetupRecipient;
      if a in recipients {
        asks := asks + [Reply(true)];
        r := SetupRecipient(a);
      } else {
        asks := asks + [Reply(false)];
        var known;
        r, known := RequestContact(a, source);
      }
    }

    /** `load_recipients`; `order` is how the query lists the rows. */
    method LoadRecipients(order: seq<Addr>) returns (r: Status)
      requires Lists(order, recipients.Keys)
      modifies `starting
      ensures Did(r, View(), SetupEach(accepts, old(View()), order))
    {
      hide SetupEach;
      r := SetupAll(order);
    }

    /** `process_failures`; `order` is how the hash set lists the addresses. */
    method ProcessFailures(order: seq<Addr>) returns (r: Status)
      requires Lists(order, failed)
      modifies `starting, `failed
      ensures Did(r, View(), Retry(accepts, old(View()), order))
    {
      hide SetupEach;
      failed := {};
      r := SetupAll(order);
    }

    method SetupAll(order: seq<Addr>) returns (r: Status)
      modifies `starting
      ensures Did(r, View(), SetupEach(accepts, old(View()), order))
    {
      hide FactoryModel.SetupContact;
      ghost var all := SetupEach(accepts, View(), order);
      assert order[0..] == order;
      var i := 0;
      while i < |order|
        invariant 0 <= i <= |order|
        invariant SetupEach(accepts, View(), order[i..]) == all
      {
        assert order[i..][0] == order[i] && order[i..][1..] == order[i + 1..];
        r := SetupContact(order[i]);
        if r.Err? {
          return;
        }
        i := i + 1;
      }
      return Ok(());
    }

    // ---- dropping, forwarding ----

    /** `drop_contact`. */
    method DropContact(a: Addr) returns (r: Status)
      modifies `recipients, `contacts
      ensures Did(r, View(), Drop(old(View()), a))
    {
      if a !in recipients {
        return Err(NoSuchRecipient);
      }
      recipients := recipients - {a};
      contacts := contacts - {a};
      return Ok(());
    }

    method ResolveNick(nick: string) returns (found: Option<Addr>)
      ensures Resolves(View(), nick, found)
    {
      var todo := contacts.Keys;
      while todo != {}
        invariant todo <= contacts.Keys
        invariant forall a :: a in contacts && a !in todo ==> contacts[a].nick != nick
        decreases todo
      {
        var a :| a in todo;
        if contacts[a].nick == nick {
          return Some(a);
        }
        todo := todo - {a};
      }
      return None;
    }

    /** `drop_contact_by_nick`; the ghost result is the address the nick resolved to. */
    method DropContactByNick(nick: string) returns (r: Status, ghost found: Option<Addr>)
      modifies `recipients, `contacts
      ensures Resolves(old(View()), nick, found)
      ensures Did(r, View(), Step(accepts, old(View()), DropByNickEvent(nick, found)))
    {
      hide Drop;
      var a := ResolveNick(nick);
      found := a;
      if a.Some? {
        r := DropContact(a.value);
      } else {
        r := Ok(());
      }
    }

    method AddCommand(a: Addr, c: Command)
      requires a in contacts
      modifies `contacts
      ensures View() == Queue(old(View()), a, c)
    {
      contacts := contacts[a := contacts[a].(queue := contacts[a].queue + [c])];
    }

    /** `update_away`. */
    method UpdateAwayFor(a: Addr, away: Option<string>)
      modifies `contacts, `presence
      ensures View() == Forward(old(View()), a, UpdateAway(away))
    {
      if a in contacts {
        AddCommand(a, UpdateAway(away));
      }
      presence := presence[a := away];
    }

    /** `forward_cmd`. */
    method ForwardCmd(a: Addr, c: Command)
      modifies `contacts, `presence
      ensures View() == Forward(old(View()), a, c)
    {
      if c.UpdateAway? {
        UpdateAwayFor(a, c.reason);
        return;
      }
      if a in contacts {
        AddCommand(a, c);
      }
    }

    /** `forward_cmd_by_nick`; the ghost result is the address the nick resolved to. */
    method ForwardCmdByNick(nick: string, c: Command) returns (ghost found: Option<Addr>)
      modifies `contacts, `presence
      ensures Resolves(old(View()), nick, found)
      ensures View() == if found.Some? then Forward(old(View()), found.value, c) else old(View())
    {
      hide Forward;
      var a := ResolveNick(nick);
      found := a;
      if a.Some? {
        ForwardCmd(a.value, c);
      }
    }

    /** `process_groups`. */
    method ProcessGroups()
      modifies `contacts
      ensures View() == old(View()).(contacts := QueueAll(old(contacts), ProcessGroupsCmd))
    {
      var todo := contacts.Keys;
      while todo != {}
        invariant todo <= contacts.Keys && contacts.Keys == old(contacts.Keys)
        invariant forall a :: a in todo ==> contacts[a] == old(contacts)[a]
        invariant forall a :: a in contacts && a !in todo ==>
                  contacts[a] == QueueAll(old(contacts), ProcessGroupsCmd)[a]
        decreases todo
      {
        var a :| a in todo;
        AddCommand(a, ProcessGroupsCmd);
        todo := todo - {a};
      }
      assert contacts == QueueAll(old(contacts), ProcessGroupsCmd);
    }

    // ---- messages ----

    /** One row of `process_messages`. */
    method HandleMail(m: Mail) returns (r: Status)
      modifies `starting, `contacts, `processed, `asks
      ensures Did(r, View(), ProcessMail(accepts, old(View()), m))
    {
      hide Queue, FactoryModel.RequestContact, Reads;
      r := Ok(());
      if m.id !in processed {
        processed := processed + {m.id};
        var addr := GetAddr(accepts, m.addr);
        if addr.None? {
          return Err(BadAddress);
        }
        var a := addr.value;
        if a in starting {
          return;
        }
        if a in contacts {
          AddCommand(a, ProcessMessagesCmd);
          return;
        }
        var known;
        r, known := RequestContact(a, m.source);
      }
    }

    /** `process_messages`, over the rows in the order of the query. */
    method ProcessMessages(rows: seq<Mail>) returns (r: Status)
      modifies `starting, `contacts, `processed, `asks
      ensures Did(r, View(), FactoryModel.ProcessMessages(accepts, old(View()), rows))
    {
      hide ProcessMail;
      ghost var all := FactoryModel.ProcessMessages(accepts, View(), rows);
      assert rows[0..] == rows;
      var i := 0;
      while i < |rows|
        invariant 0 <= i <= |rows|
        invariant FactoryModel.ProcessMessages(accepts, View(), rows[i..]) == all
      {
        assert rows[i..][0] == rows[i] && rows[i..][1..] == rows[i + 1..];
        r := HandleMail(rows[i]);
        if r.Err? {
          return;
        }
        i := i + 1;
      }
      return Ok(());
    }

    // ---- polling ----

    /** The first loop of `poll`; `order` is how the hash table lists the starting contacts. */
    method PollStarting(order: seq<Addr>, progress: map<Addr, Progress>)
      requires Lists(order, starting.Keys)
      modifies `starting, `contacts, `failed
      ensures View() == FactoryModel.PollStarting(old(View()), progress)
    {
      var toRemove := Promote(order, progress);
      RemoveStarting(toRemove);
      assert Elements(toRemove) ==
             Born(presence, progress, old(starting).Keys).Keys + Stillborn(progress, old(starting).Keys);
    }

    /** Goes through the starting contacts: the live ones get the recorded presence first of all. */
    method Promote(order: seq<Addr>, progress: map<Addr, Progress>) returns (toRemove: seq<Addr>)
      requires Lists(order, starting.Keys)
      modifies `contacts, `failed
      ensures contacts == old(contacts) + Born(presence, progress, starting.Keys)
      ensures failed == old(failed) + Stillborn(progress, starting.Keys)
      ensures forall a :: a in toRemove <==> a in starting && ProgressOf(progress, a) != NotReady
    {
      hide Born, Stillborn;
      toRemove := [];
      ghost var done: set<Addr> := {};
      BornNone(contacts, failed, presence, progress);
      forall k | 0 <= k < |order| ensures order[k] in starting {
        assert order[k] in order;
      }
      var i := 0;
      while i < |order|
        invariant 0 <= i <= |order| && done <= starting.Keys
        invariant forall k :: 0 <= k < |order| ==> (order[k] in done <==> k < i)
        invariant contacts == old(contacts) + Born(presence, progress, done)
        invariant failed == old(failed) + Stillborn(progress, done)
        invariant forall a :: a in toRemove <==> a in done && ProgressOf(progress, a) != NotReady
      {
        var addr := order[i];
        BornStep(old(contacts), old(failed), presence, progress, done, addr);
        var gone := PromoteOne(addr, progress);
        if gone {
          toRemove := toRemove + [addr];
        }
        done := done + {addr};
        i := i + 1;
      }
      forall a | a in starting ensures a in done {
        assert a in order;
      }
      assert done == starting.Keys;
    }

    /** One starting contact; says whether it is done starting. */
    method PromoteOne(addr: Addr, progress: map<Addr, Progress>) returns (gone: bool)
      modifies `contacts, `failed
      ensures contacts == old(contacts) + Born(presence, progress, {addr})
      ensures failed == old(failed) + Stillborn(progress, {addr})
      ensures gone <==> ProgressOf(progress, addr) != NotReady
    {
      match ProgressOf(progress, addr) {
        case Ready(nick) =>
          var c := Live(nick, []);
          if addr in presence {
            c := c.(queue := c.queue + [UpdateAway(presence[addr])]);
          }
          assert c == Newborn(presence, addr, nick);
          contacts := contacts[addr := c];
          return true;
        case NotReady =>
          return false;
        case Failed =>
          failed := failed + {addr};
          return true;
      }
    }

    method RemoveStarting(addrs: seq<Addr>)
      modifies `starting
      ensures starting == old(starting) - Elements(addrs)
    {
      for i := 0 to |addrs|
        invariant starting == old(starting) - Elements(addrs[..i])
      {
        assert Elements(addrs[..i + 1]) == Elements(addrs[..i]) + {addrs[i]};
        starting := starting - {addrs[i]};
      }
      assert addrs[..|addrs|] == addrs;
    }

    /** The second loop of `poll`: live contacts that failed wait for a retry. */
    method PollContacts(broken: set<Addr>)
      modifies `contacts, `failed
      ensures View() == FactoryModel.PollContacts(old(View()), broken)
    {
      var toRemove: seq<Addr> := [];
      var todo := contacts.Keys;
      while todo != {}
        invariant todo <= contacts.Keys && contacts == old(contacts)
        invariant failed == old(failed) + ((contacts.Keys - todo) * broken)
        invariant Elements(toRemove) == (contacts.Keys - todo) * broken
        decreases todo
      {
        var a :| a in todo;
        if a in broken {
          failed := failed + {a};
          assert Elements(toRemove + [a]) == Elements(toRemove) + {a};
          toRemove := toRemove + [a];
        }
        todo := todo - {a};
      }
      RemoveContacts(toRemove);
      assert contacts == old(contacts) - broken;
      assert failed == old(failed) + (old(contacts).Keys * broken);
    }

    method RemoveContacts(addrs: seq<Addr>)
      modifies `contacts
      ensures contacts == old(contacts) - Elements(addrs)
    {
      for i := 0 to |addrs|
        invariant contacts == old(contacts) - Elements(addrs[..i])
      {
        assert Elements(addrs[..i + 1]) == Elements(addrs[..i]) + {addrs[i]};
        contacts := contacts - {addrs[i]};
      }
      assert addrs[..|addrs|] == addrs;
    }
  }

  lemma BornNone(contacts: map<Addr, Live>, failed: set<Addr>, presence: map<Addr, Option<string>>,
                 progress: map<Addr, Progress>)
    ensures contacts + Born(presence, progress, {}) == contacts && failed + Stillborn(progress, {}) == failed
  {
  }

  lemma BornStep(contacts: map<Addr, Live>, failed: set<Addr>, presence: map<Addr, Option<string>>,
                 progress: map<Addr, Progress>, done: set<Addr>, a: Addr)
    ensures contacts + Born(presence, progress, done + {a}) ==
            contacts + Born(presence, progress, done) + Born(presence, progress, {a})
    ensures failed + Stillborn(progress, done + {a}) == failed + Stillborn(progress, done) + Stillborn(progress, {a})
  {
  }
}
