/** Which texts a poll of the link loses: it returns on a failure before it flushes its outbox. */
module LinkPolls {
  import opened Outcomes
  import opened Failures
  import opened Address
  import opened Peer
  import opened LinkModel
  import opened LinkInvariant
  import opened LinkSteps
  import opened LinkPass
  import opened LinkRuns
  import Delivery
  import DeliveryProofs
  import Nicks

  /** What a poll hands to `sink_outbox!`, given the state before and what its steps come to. */
  function Handed(s: State, r: Outcome): seq<Wire> {
    match r
    case Ok(s') => Since(s, s')
    case Err(_) => []
  }

  /** Message rows that are gone although neither their deletion nor the text before it was handed over. */
  ghost function Lost(s: State, r: Outcome): set<int> {
    set i | i in s.messages && i !in Left(r).messages && Peer.Wire.Removed(i) !in Handed(s, r)
  }

  lemma {:induction false} RemovalsShow(c: map<Addr, Contact>, groups: map<int, Group>, deeds: seq<Delivery.Deed>,
                                        id: int)
    requires id in Delivery.Removals(deeds)
    ensures Peer.Wire.Removed(id) in AllActs(c, groups, deeds)
  {
    hide Lines;
    if deeds[0] == Delivery.Removed(id) {
      assert ActsOf(c, groups, deeds[0])[0] == Peer.Wire.Removed(id);
    } else {
      RemovalsShow(c, groups, deeds[1..], id);
    }
  }

  lemma {:induction false} ActsWithin(ws: seq<Wire>, w: Wire)
    requires w in Acts(ws)
    ensures w in ws
  {
    if !(IsAct(ws[0]) && ws[0] == w) { ActsWithin(ws[1..], w); }
  }

  /** A row that is delivered is among the rows it takes. */
  lemma {:induction false} TakesSomething(table: Delivery.Table, known: set<Addr>, rows: seq<Delivery.Row>)
    requires Delivery.WellKept(table) && forall r <- rows :: r.id in table && table[r.id] == r
    ensures Delivery.AllTaken(table, known, rows) != {} <==>
              exists i :: 0 <= i < |rows| && Delivery.Fires(table, known, rows[i])
  {
    var taken := Delivery.AllTaken(table, known, rows);
    if i :| 0 <= i < |rows| && Delivery.Fires(table, known, rows[i]) {
      var row := rows[i];
      assert row in rows && Delivery.StoredByModem(table[row.id]);
      assert row.id in Delivery.Takes(table, row);
      assert row.id in taken;
    }
    if x :| x in taken {
      var t :| t in rows && Delivery.Fires(table, known, t) && x in Delivery.Takes(table, t);
      var i :| 0 <= i < |rows| && rows[i] == t;
    }
  }

  /** Rows gone whose deletion is in the history. */
  ghost predicate Shown(s: State, s': State) {
    && Continues(s, s') && s'.messages.Keys <= s.messages.Keys
    && forall i :: i in s.messages && i !in s'.messages ==> Peer.Wire.Removed(i) in Since(s, s')
  }

  lemma {:induction false} DeedsShown(s: State, s': State, deeds: seq<Delivery.Deed>)
    requires Continues(s, s') && Acts(Since(s, s')) == AllActs(s'.contacts, s'.groups, deeds)
    requires Lists(Delivery.Removals(deeds), s.messages.Keys - s'.messages.Keys) && s'.messages.Keys <= s.messages.Keys
    ensures Shown(s, s')
  {
    hide Acts, AllActs, Delivery.Removals;
    forall i | i in s.messages && i !in s'.messages ensures Peer.Wire.Removed(i) in Since(s, s') {
      RemovalsShow(s'.contacts, s'.groups, deeds, i);
      ActsWithin(Since(s, s'), Peer.Wire.Removed(i));
    }
  }

  lemma {:induction false} ShownTrans(s: State, s1: State, s2: State)
    requires Shown(s, s1) && Shown(s1, s2)
    ensures Shown(s, s2)
  {
    SinceSplit(s, s1, s2);
  }

  lemma ShownSame(s: State, s': State)
    requires Continues(s, s') && s'.messages == s.messages
    ensures Shown(s, s')
  {
  }

  // ---- one pass ----

  lemma {:induction false} PassShown(cfg: Config, w: World, s: State)
    requires Inv(cfg, s) && Honest(w)
    ensures Shown(s, Left(ProcessMessages(cfg, w, s)))
  {
    hide Inv, Honest, Followed, StopIndex, PassCause, AllActs, Acts, Delivery.RightSend, Delivery.SaidFirst,
         Delivery.Removals, Delivery.Sends, Delivery.Flat, Delivery.AllTaken, Delivery.Stops, DeliveryProofs.Stays,
         AdminHere, Shown, ProcessRows;
    if AdminHere(cfg, s) {
      var n, deeds := MessagesExact(cfg, w, s);
      DeedsShown(s, Left(ProcessMessages(cfg, w, s)), deeds);
    } else {
      ShownSame(s, s);
    }
  }

  lemma TakenThere(table: Delivery.Table, known: set<Addr>, rows: seq<Delivery.Row>)
    ensures Delivery.AllTaken(table, known, rows) <= table.Keys
  {
  }

  /** A pass made in a poll of its own loses a text if and only if it is stopped, at the row the state
      before tells, and some row before that one completes a message of a recipient; it loses exactly the
      messages those rows complete. */
  lemma {:induction false} LostExactly(cfg: Config, w: World, s: State)
    requires Inv(cfg, s) && Honest(w) && AdminHere(cfg, s)
    ensures var r, rows, known := ProcessMessages(cfg, w, s), w.messageOrder(s.messages), s.recipients.Keys;
            var n := StopIndex(cfg, known, GhostsOf(s), rows);
            && Lost(s, r) == (if n == |rows| then {} else Delivery.AllTaken(s.messages, known, rows[..n]))
            && (Lost(s, r) != {} <==>
                  n < |rows| && exists i :: 0 <= i < n && Delivery.Fires(s.messages, known, rows[i]))
  {
    hide Inv, Honest, Followed, ProcessMessages, AllActs, Acts, Delivery.RightSend, Delivery.SaidFirst, StopIndex,
         PassCause, Delivery.Removals, Delivery.Sends, Delivery.Flat, Delivery.AllTaken, Delivery.Fires, Delivery.Stops,
         DeliveryProofs.Stays, Underway, Lost;
    var rows, known := w.messageOrder(s.messages), s.recipients.Keys;
    var n, deeds := MessagesExact(cfg, w, s);
    WellKeptNow(cfg, s);
    Begin(cfg, w, s);
    forall r | r in rows[..n] ensures r.id in s.messages && s.messages[r.id] == r {
      assert r in rows;
    }
    TakesSomething(s.messages, known, rows[..n]);
    TakenThere(s.messages, known, rows[..n]);
    PassShown(cfg, w, s);
    LostOf(s, ProcessMessages(cfg, w, s));
    var taken := Delivery.AllTaken(s.messages, known, rows[..n]);
    assert s.messages.Keys - (s.messages - taken).Keys == taken;
  }

  /** A failure loses all rows gone; otherwise nothing is lost. */
  lemma {:induction false} LostOf(s: State, r: Outcome)
    requires Shown(s, Left(r))
    ensures Lost(s, r) == if r.Err? then s.messages.Keys - Left(r).messages.Keys else {}
  {
    var left := Left(r).messages;
    if r.Err? {
      assert Handed(s, r) == [];
      assert forall i :: i in Lost(s, r) <==> i in s.messages && i !in left;
    }
  }

  /** Two rows, of which the first is of a contact and the second stops any pass: the text of the first
      is lost. */
  lemma {:induction false} TextLost(cfg: Config, w: World, s: State, row: Delivery.Row, bad: Delivery.Row)
    requires Inv(cfg, s) && Honest(w) && AdminHere(cfg, s)
    requires row.id != bad.id && s.messages == map[row.id := row, bad.id := bad] && row.ts < bad.ts
    requires row.addr in s.contacts && row.body.Plain? && Delivery.Stops(cfg.accepts, s.recipients.Keys, bad)
    ensures Lost(s, ProcessMessages(cfg, w, s)) == {row.id}
  {
    hide Inv, Honest, ProcessMessages, Underway, Lost, Reads;
    Begin(cfg, w, s);
    var rows, known := w.messageOrder(s.messages), s.recipients.Keys;
    TwoRows(s.messages, rows, row, bad);
    LostExactly(cfg, w, s);
    ContactFacts(cfg, s, row.addr);
    assert rows[1..] == [bad];
    assert StopIndex(cfg, known, GhostsAfter(known, GhostsOf(s), row), rows[1..]) == 0;
    FirstOnly(s.messages, known, row);
    assert rows[..1] == [row];
  }

  lemma {:induction false} TwoRows(table: Delivery.Table, rows: seq<Delivery.Row>, row: Delivery.Row, bad: Delivery.Row)
    requires row.id != bad.id && table == map[row.id := row, bad.id := bad] && row.ts < bad.ts
    requires Delivery.IsSnapshot(table, rows)
    ensures rows == [row, bad]
  {
    assert table[row.id] in rows && table[bad.id] in rows;
    forall i | 0 <= i < |rows| ensures rows[i] == row || rows[i] == bad {
      assert rows[i] in rows;
    }
    forall i, j | 0 <= i < j < |rows| ensures rows[i] != rows[j] {
      assert Delivery.Before(rows[i], rows[j]);
    }
    ListsSize(rows, {row, bad});
    assert Delivery.Before(rows[0], rows[1]);
  }

  lemma {:induction false} FirstOnly(table: Delivery.Table, known: set<Addr>, row: Delivery.Row)
    requires row.id in table && table[row.id] == row && row.body.Plain? && row.addr in known
    ensures Delivery.AllTaken(table, known, [row]) == {row.id}
  {
    assert Delivery.Fires(table, known, row);
    forall i | i in table ensures Delivery.Taken(table, known, [row], i) <==> i == row.id {
      assert row in [row];
    }
  }

  // ---- any step ----

  /** What other tasks write happens between polls. */
  predicate OfOthers(e: Event) {
    e.DbRecipient? || e.DbMessage? || e.DbGroup? || e.DbGroupGone?
  }

  /** Lines may be added; the messages stay. */
  ghost predicate Adds(s: State, s': State) {
    s.log <= s'.log && s'.messages == s.messages
  }

  lemma AddsTrans(s: State, s1: State, s2: State)
    requires Adds(s, s1) && Adds(s1, s2)
    ensures Adds(s, s2)
  {
  }

  lemma AddsShown(s: State, s': State)
    requires Adds(s, s')
    ensures Shown(s, s')
  {
  }

  lemma {:induction false} ForAdds(cfg: Config, w: World, s: State, a: Addr)
    ensures Adds(s, Left(ProcessGroupsFor(cfg, w, s, a)))
  {
    hide Joins, Parts, Dropped, ChannelNames;
  }

  lemma {:induction false} EachAdds(cfg: Config, w: World, s: State, order: seq<Addr>)
    ensures Adds(s, Left(ProcessGroupsEach(cfg, w, s, order)))
    decreases order
  {
    hide ProcessGroupsFor;
    if order != [] {
      ForAdds(cfg, w, s, order[0]);
      var r := ProcessGroupsFor(cfg, w, s, order[0]);
      if r.Ok? {
        EachAdds(cfg, w, r.value, order[1..]);
        AddsTrans(s, r.value, Left(ProcessGroupsEach(cfg, w, r.value, order[1..])));
      }
    }
  }

  lemma {:induction false} GroupsAdd(cfg: Config, w: World, s: State)
    ensures Adds(s, Left(ProcessGroups(cfg, w, s)))
  {
    hide ProcessGroupsEach, TellGroups;
    var s1 := s.(channels := {});
    EachAdds(cfg, w, s1, w.contactOrder(s.contacts.Keys));
    var r := ProcessGroupsEach(cfg, w, s1, w.contactOrder(s.contacts.Keys));
    if r.Ok? { TellGroupsKeep(cfg, w, r.value, w.groupOrder(r.value.groups.Keys)); }
  }

  lemma {:induction false} SetupAdds(cfg: Config, w: World, s: State, recip: Recipient, a: Addr)
    ensures Adds(s, Left(SetupContactFor(cfg, w, s, recip, a)))
  {
    hide Nicks.Settle, Used, Introduce, ProcessGroupsFor;
    IntroducedIs(cfg, s, recip, a);
    var s2 := Introduced1(cfg, s, recip, a);
    ForAdds(cfg, w, s2, a);
  }

  lemma {:induction false} SetupRecipientAdds(cfg: Config, w: World, s: State, recip: Recipient, a: Addr)
    ensures Adds(s, Left(SetupRecipient(cfg, w, s, recip, a)))
  {
    hide SetupContactFor, Reads;
    SetupAdds(cfg, w, s, recip, a);
  }

  lemma {:induction false} BurstAdds(cfg: Config, w: World, s: State, snap: map<Addr, Recipient>, order: seq<Addr>)
    ensures Adds(s, Left(SetupEach(cfg, w, s, snap, order)))
    decreases order
  {
    hide SetupRecipient;
    if order != [] {
      if order[0] in snap {
        SetupRecipientAdds(cfg, w, s, snap[order[0]], order[0]);
        var r := SetupRecipient(cfg, w, s, snap[order[0]], order[0]);
        if r.Ok? {
          BurstAdds(cfg, w, r.value, snap, order[1..]);
          AddsTrans(s, r.value, Left(SetupEach(cfg, w, r.value, snap, order[1..])));
        }
      } else {
        BurstAdds(cfg, w, s, snap, order[1..]);
      }
    }
  }

  lemma {:induction false} RequestAdds(cfg: Config, w: World, s: State, a: Addr, source: int)
    ensures Adds(s, Left(RequestContact(cfg, w, s, a, source)))
  {
    hide SetupRecipient;
    if a in s.recipients { SetupRecipientAdds(cfg, w, s, s.recipients[a], a); }
  }

  lemma {:induction false} GoneAdds(cfg: Config, w: World, s: State, u: Uid)
    ensures Adds(s, Left(RemoveAndRecreate(cfg, w, s.(log := s.log + [Gone(u)]), u)))
  {
    hide SetupRecipient;
    var s1 := Forget(s.(log := s.log + [Gone(u)]), u);
    if u in s.owners && s.owners[u] in s1.recipients {
      SetupRecipientAdds(cfg, w, s1, s1.recipients[s.owners[u]], s.owners[u]);
    }
  }

  lemma {:induction false} CommandAdds(cfg: Config, s: State, a: Addr, cmd: Command)
    ensures Adds(s, Left(ForwardCmd(cfg, s, a, cmd))) && Adds(s, Left(DropContact(s, a)))
  {
    hide Nicks.Settle, Used;
  }

  lemma {:induction false} EndBurstShown(cfg: Config, w: World, s: State)
    requires Inv(cfg, s) && Honest(w)
    ensures Shown(s, Left(Step(cfg, w, s, EndBurstEvent(s.remoteSid), None)))
  {
    hide Inv, Honest, Onward, SetupEach, ProcessGroups, ProcessMessages, BadRecipient, TooMany, BadMember, BurstCause,
         Shown;
    QuasiBurstKeeps(cfg, w, s);
    BurstAdds(cfg, w, s, s.recipients, w.recipientOrder(s.recipients.Keys));
    var q := QuasiBurst(cfg, w, s);
    AddsShown(s, Left(q));
    if q.Ok? {
      var s1 := q.value.(phase := Linked);
      SilentKeepsStored(cfg, q.value, s1);
      var join := Join(ControlUuid(cfg), cfg.logChan);
      ControlKeeps(cfg, s1, Out(join));
      var s2 := Say(s1, join);
      ProcessGroupsKeep(cfg, w, s2);
      GroupsAdd(cfg, w, s2);
      var g := ProcessGroups(cfg, w, s2);
      AddsShown(s, Left(g));
      if g.Ok? {
        PassShown(cfg, w, g.value);
        ShownTrans(s, g.value, Left(ProcessMessages(cfg, w, g.value)));
      }
    }
  }

  lemma AddsNothing(s: State)
    ensures Adds(s, s)
  {
  }

  lemma {:induction false} CommandEventAdds(cfg: Config, w: World, s: State, e: Event, found: Option<Addr>)
    requires e.DoSetup? || e.DoQuery? || e.DoDrop? || e.DoForward? || e.DropByNick? || e.ForwardByNick?
    ensures Adds(s, Left(Step(cfg, w, s, e, found)))
  {
    hide Adds, SetupRecipient, RequestContact, ForwardCmd, DropContact;
    AddsNothing(s);
    match e
    case DoSetup(a) => if a in s.recipients { SetupRecipientAdds(cfg, w, s, s.recipients[a], a); }
    case DoQuery(a, source) => RequestAdds(cfg, w, s, a, source);
    case DoDrop(a) => CommandAdds(cfg, s, a, UpdateAway(None));
    case DoForward(a, cmd) => CommandAdds(cfg, s, a, cmd);
    case DropByNick(_) => if found.Some? { CommandAdds(cfg, s, found.value, UpdateAway(None)); }
    case ForwardByNick(_, cmd) => if found.Some? { CommandAdds(cfg, s, found.value, cmd); }
  }

  lemma NoteAdds(cfg: Config, w: World, s: State, e: Event, found: Option<Addr>)
    requires e.NickEvent? || e.HostEvent? || e.TopicEvent?
    ensures Adds(s, Left(Step(cfg, w, s, e, found)))
  {
    hide ProcessMessages, ProcessGroups, QuasiBurst, OnLinked, RemoveAndRecreate, SetupContact, RequestContact,
         DropContact, ForwardCmd, WithoutGroup, ParseUid, DoBurst, Squit, Connect, Accepted;
  }

  lemma ServerEventAdds(cfg: Config, w: World, s: State, e: Event, found: Option<Addr>)
    requires e.ConnectEvent? || e.ErrorEvent? || e.SquitEvent?
    ensures Adds(s, Left(Step(cfg, w, s, e, found)))
  {
    hide ProcessMessages, ProcessGroups, QuasiBurst, OnLinked, RemoveAndRecreate, SetupContact, RequestContact,
         DropContact, ForwardCmd, WithoutGroup, ParseUid, DoBurst, Accepted;
  }

  lemma ServerAdds(cfg: Config, w: World, s: State, args: seq<string>, found: Option<Addr>)
    ensures Adds(s, Left(Step(cfg, w, s, ServerEvent(args), found)))
  {
    hide DoBurst;
    if Accepted(cfg, args) { BurstLines(cfg, s.(remoteSid := args[3])); }
  }

  /** Every step without a pass adds lines at most. */
  lemma {:induction false} StepAdds(cfg: Config, w: World, s: State, e: Event, found: Option<Addr>)
    requires !OfOthers(e) && !e.UidEvent? && !e.EndBurstEvent? && !e.DoMessages?
    ensures Adds(s, Left(Step(cfg, w, s, e, found)))
  {
    hide Adds, ProcessGroups, RemoveAndRecreate, DoBurst;
    if e.DoSetup? || e.DoQuery? || e.DoDrop? || e.DoForward? || e.DropByNick? || e.ForwardByNick? {
      hide Step;
      CommandEventAdds(cfg, w, s, e, found);
    } else if e.ServerEvent? {
      ServerAdds(cfg, w, s, e.args, found);
    } else if e.KillEvent? || e.QuitEvent? {
      GoneAdds(cfg, w, s, e.uid);
    } else if e.DoGroups? {
      GroupsAdd(cfg, w, s);
    } else if e.ConnectEvent? || e.ErrorEvent? || e.SquitEvent? {
      hide Step;
      ServerEventAdds(cfg, w, s, e, found);
    } else {
      hide Step;
      NoteAdds(cfg, w, s, e, found);
    }
  }

  /** In any step of the link a row goes only with its deletion in the history. */
  lemma {:induction false} StepShown(cfg: Config, w: World, s: State, e: Event, found: Option<Addr>)
    requires Inv(cfg, s) && Honest(w) && Allowed(cfg, s, e, found) && !OfOthers(e)
    ensures Shown(s, Left(Step(cfg, w, s, e, found)))
  {
    hide Inv, Honest, Adds, Shown, ProcessMessages, QuasiBurst, OnLinked, ParseUid;
    if e.UidEvent? {
      UidShown(cfg, w, s, e.args, e.suffix);
    } else if e.EndBurstEvent? {
      EndBurstShown(cfg, w, s);
      ShownSame(s, s);
    } else if e.DoMessages? {
      PassShown(cfg, w, s);
    } else {
      StepAdds(cfg, w, s, e, found);
      AddsShown(s, Left(Step(cfg, w, s, e, found)));
    }
  }

  lemma BurstLines(cfg: Config, s: State)
    ensures Adds(s, DoBurst(cfg, s))
  {
  }

  lemma {:induction false} UidShown(cfg: Config, w: World, s: State, args: seq<string>, suffix: Option<string>)
    requires Inv(cfg, s) && Honest(w) && Allowed(cfg, s, UidEvent(args, suffix), None)
    ensures Shown(s, Left(Step(cfg, w, s, UidEvent(args, suffix), None)))
  {
    hide Inv, Honest, ProcessMessages, ParseUid, Shown;
    AddsShown(s, s);
    if ParseUid(args, suffix).Some? {
      var (u, user) := ParseUid(args, suffix).value;
      var s1 := s.(users := s.users[u := user]);
      UsersKeep(cfg, s, s1.users);
      AddsShown(s, s1);
      PassShown(cfg, w, s1);
      ShownTrans(s, s1, Left(ProcessMessages(cfg, w, s1)));
    }
  }

  // ---- polls ----

  /** The steps of one poll, up to the first that fails. */
  function PollSteps(cfg: Config, s: State, moves: seq<Move>): Outcome
    decreases moves
  {
    if moves == [] then Ok(s)
    else
      var s1 :- Step(cfg, moves[0].w, s, moves[0].e, moves[0].found);
      PollSteps(cfg, s1, moves[1..])
  }

  /** Events a poll may meet one after the other. */
  ghost predicate Meets(cfg: Config, s: State, moves: seq<Move>)
    decreases moves
  {
    moves != [] ==>
      && Honest(moves[0].w) && Allowed(cfg, s, moves[0].e, moves[0].found) && !OfOthers(moves[0].e)
      && var r := Step(cfg, moves[0].w, s, moves[0].e, moves[0].found);
         r.Ok? ==> Meets(cfg, r.value, moves[1..])
  }

  /** Why a poll fails, if it does: the first of its events that fails, as the state before it tells. */
  function PollCause(cfg: Config, s: State, moves: seq<Move>): Option<Failure>
    decreases moves
  {
    if moves == [] then None
    else match Failing(cfg, moves[0].w, s, moves[0].e)
      case Some(why) => Some(why)
      case None => PollCause(cfg, Left(Step(cfg, moves[0].w, s, moves[0].e, moves[0].found)), moves[1..])
  }

  lemma {:induction false} PollKeeps(cfg: Config, s: State, moves: seq<Move>)
    requires Inv(cfg, s) && Meets(cfg, s, moves)
    ensures var r := PollSteps(cfg, s, moves);
            Inv(cfg, Left(r)) && Why(r) == PollCause(cfg, s, moves) && Shown(s, Left(r))
    decreases moves
  {
    hide Inv, Honest, Allowed, OfOthers, Step, Failing, Shown;
    if moves == [] {
      AddsShown(s, s);
    } else {
      var m := moves[0];
      StepKeeps(cfg, m.w, s, m.e, m.found);
      StepShown(cfg, m.w, s, m.e, m.found);
      var r := Step(cfg, m.w, s, m.e, m.found);
      if r.Ok? {
        PollKeeps(cfg, r.value, moves[1..]);
        ShownTrans(s, r.value, Left(PollSteps(cfg, r.value, moves[1..])));
      }
    }
  }

  /** A poll with any number of events hands over the deletion of every row that went in it, if none of
      its events fails; if one does, all rows that went in it are lost with the texts before them. */
  lemma {:induction false} PollExact(cfg: Config, s: State, moves: seq<Move>)
    requires Inv(cfg, s) && Meets(cfg, s, moves)
    ensures var r := PollSteps(cfg, s, moves);
            && Why(r) == PollCause(cfg, s, moves)
            && Lost(s, r) == (if PollCause(cfg, s, moves).Some? then s.messages.Keys - Left(r).messages.Keys else {})
  {
    hide Inv, Meets, PollSteps, PollCause, Lost, Shown;
    PollKeeps(cfg, s, moves);
    LostOf(s, PollSteps(cfg, s, moves));
  }
}
