/** What commands do to a contact with its own connection, and what its server knows of its presence. */
module ContactEffects {
  import opened Outcomes
  import opened Peer
  import opened ContactModel
  import ContactProofs
  import Delivery
  import Fragments
  import LinkModel

  // ---- single events ----

  /** The commands of the factory: an away state is recorded, and said once connected; a nick is stored and asked for;
      a mode is taken and stored. */
  lemma {:induction false} CommandsExact(cfg: Config, w: LinkModel.World, s: State, reason: Option<string>,
                                         nick: string, source: int, on: bool)
    ensures Step(cfg, w, s, DoAway(reason))
            == Ok(s.(presence := reason, sent := s.sent + (if s.connected then [Out(Away(ME, reason))] else [])))
    ensures var r := Step(cfg, w, s, DoNick(nick, source));
            && r.Ok? && r.value == s.(recipient := r.value.recipient, sent := s.sent + [Out(NickLine(ME, nick))])
            && (s.recipient.None? ==> r.value.recipient.None?)
            && (s.recipient.Some? ==>
                  r.value.recipient == Some(s.recipient.value.(nick := nick, nickSource := source)))
    ensures var r := Step(cfg, w, s, DoWhatsapp(on));
            && r.Ok? && r.value == s.(waMode := on, recipient := r.value.recipient)
            && (s.recipient.None? ==> r.value.recipient.None?)
            && (s.recipient.Some? ==> r.value.recipient == Some(s.recipient.value.(whatsapp := on)))
  {
    hide ProcessMessages, ProcessGroups;
    assert s.sent + [] == s.sent;
  }

  /** Messages wait until the contact is connected and the admin is there; they are handled when the admin comes
      back, and not when the admin was there already. */
  lemma {:induction false} AdminExact(cfg: Config, w: LinkModel.World, s: State, online: bool)
    ensures Step(cfg, w, s, AdminIs(online))
            == (if online && !s.adminOnline && s.connected
                then HandleRows(w.oracle, s.(adminOnline := true), Inbox(cfg, w, s)) else Ok(s.(adminOnline := online)))
    ensures Step(cfg, w, s, DoMessages)
            == (if s.connected && s.adminOnline then HandleRows(w.oracle, s, Inbox(cfg, w, s)) else Ok(s))
    ensures !s.connected ==> Step(cfg, w, s, DoGroups) == Ok(s)
  {
    hide HandleRows;
  }

  // ---- presence ----

  /** The away state said last. */
  function LastAway(ws: seq<Wire>): Option<Option<string>> {
    if ws == [] then None
    else
      match ws[|ws| - 1]
      case Out(Away(_, reason)) => Some(reason)
      case _ => LastAway(ws[..|ws| - 1])
  }

  predicate Speaks(x: Wire) {
    x.Out? && x.line.Away?
  }

  lemma {:induction false} LastAwayQuiet(ws: seq<Wire>, more: seq<Wire>)
    requires forall i :: 0 <= i < |more| ==> !Speaks(more[i])
    ensures LastAway(ws + more) == LastAway(ws)
    decreases more
  {
    if more == [] {
      assert ws + more == ws;
    } else {
      assert (ws + more)[..|ws + more| - 1] == ws + more[..|more| - 1];
      LastAwayQuiet(ws, more[..|more| - 1]);
    }
  }

  /** Lines were said, none of them an away state, and the rest of the presence stays. */
  ghost predicate Silent(s: State, s': State) {
    && s'.connected == s.connected && s'.presence == s.presence
    && s.sent <= s'.sent && forall i :: |s.sent| <= i < |s'.sent| ==> !Speaks(s'.sent[i])
  }

  lemma {:induction false} SilentAway(s: State, s': State)
    requires Silent(s, s')
    ensures LastAway(s'.sent) == LastAway(s.sent)
  {
    assert s'.sent == s.sent + s'.sent[|s.sent|..];
    LastAwayQuiet(s.sent, s'.sent[|s.sent|..]);
  }

  lemma {:induction false} RemoveSilent(s: State, ids: seq<int>)
    ensures Silent(s, Left(RemoveRows(s, ids)))
    decreases ids
  {
    if ids != [] && ids[0] in s.messages {
      RemoveSilent(Say(s, [Removed(ids[0])]).(messages := s.messages - {ids[0]}), ids[1..]);
    }
  }

  lemma SilentTrans(s: State, s1: State, s2: State)
    requires Silent(s, s1) && Silent(s1, s2)
    ensures Silent(s, s2)
  {
  }

  lemma SwitchSilent(s: State, wa: bool)
    ensures Silent(s, SwitchMode(s, wa))
  {
  }

  lemma SendSilent(s: State, text: string, group: Option<int>)
    ensures Silent(s, Left(SendRaw(s, text, group)))
  {
    hide Fragments.Chunks, Fragments.Lines, LinkModel.Privmsgs;
  }

  lemma {:induction false} DeliverSilent(o: Delivery.Oracle, s: State, row: Delivery.Row)
    ensures Silent(s, Left(Deliver(o, s, row)))
  {
    hide Delivery.Handle, SendRaw, RemoveRows;
    var h := Delivery.Handle(o, s.messages, row);
    if h.Ok? && h.value.Delivered? {
      var send := h.value.send;
      SendSilent(s, send.text, send.row.group);
      var r := SendRaw(s, send.text, send.row.group);
      if r.Ok? {
        RemoveSilent(r.value, send.ids);
        SilentTrans(s, r.value, Left(RemoveRows(r.value, send.ids)));
      }
    }
  }

  lemma {:induction false} RowSilent(o: Delivery.Oracle, s: State, row: Delivery.Row)
    ensures Silent(s, Left(HandleRow(o, s, row)))
  {
    hide Deliver, SwitchMode;
    if row.body != Delivery.Sms(Delivery.Malformed) {
      var s1 := SwitchMode(s, row.body.Plain?);
      SwitchSilent(s, row.body.Plain?);
      DeliverSilent(o, s1, row);
      SilentTrans(s, s1, Left(Deliver(o, s1, row)));
    }
  }

  lemma {:induction false} RowsSilent(o: Delivery.Oracle, s: State, rows: seq<Delivery.Row>)
    ensures Silent(s, Left(HandleRows(o, s, rows)))
    decreases rows
  {
    hide HandleRow;
    if rows != [] {
      RowSilent(o, s, rows[0]);
      var r := HandleRow(o, s, rows[0]);
      if r.Ok? { RowsSilent(o, r.value, rows[1..]); }
    }
  }

  lemma {:induction false} GroupsSilent(w: LinkModel.World, s: State)
    ensures Silent(s, Left(ProcessGroups(w, s)))
  {
    hide Wanted, Dropped;
  }

  /** Once connected, the server was last told the recorded presence. */
  ghost predicate Told(s: State) {
    s.connected ==> LastAway(s.sent) == Some(s.presence)
  }

  lemma {:induction false} StepTells(cfg: Config, w: LinkModel.World, s: State, e: Event)
    requires Told(s) && Step(cfg, w, s, e).Ok?
    ensures Told(Step(cfg, w, s, e).value)
  {
    hide HandleRows, ProcessGroups;
    var s' := Step(cfg, w, s, e).value;
    match e
    case Welcome => WelcomeTells(cfg, w, s);
    case AdminIs(online) =>
      RowsSilent(w.oracle, s.(adminOnline := true), Inbox(cfg, w, s));
      SilentAwayIf(s, s');
    case DoMessages =>
      RowsSilent(w.oracle, s, Inbox(cfg, w, s));
      SilentAwayIf(s, s');
    case DoGroups =>
      GroupsSilent(w, s);
      SilentAway(s, s');
    case DoNick(nick, _) => LastAwayQuiet(s.sent, [Out(NickLine(ME, nick))]);
    case _ =>
  }

  lemma {:induction false} SilentAwayIf(s: State, s': State)
    requires Silent(s, s') || (s'.sent == s.sent && s'.connected == s.connected && s'.presence == s.presence)
    ensures Told(s) ==> Told(s')
  {
    SilentAway(s, s');
  }

  lemma {:induction false} WelcomeTells(cfg: Config, w: LinkModel.World, s: State)
    requires Step(cfg, w, s, Welcome).Ok?
    ensures Told(Step(cfg, w, s, Welcome).value)
  {
    hide HandleRows, ProcessGroups, LastAway;
    var s0 := s.(connected := true);
    RowsSilent(w.oracle, s0, Inbox(cfg, w, s0));
    var s1 := ProcessMessages(cfg, w, s0).value;
    var s2 := TellPresence(Say(s1, [Out(Watch)]));
    LastSaid(s1.sent + [Out(Watch)], s1.presence);
    GroupsSilent(w, s2);
    SilentAway(s2, ProcessGroups(w, s2).value);
  }

  lemma LastSaid(ws: seq<Wire>, reason: Option<string>)
    ensures LastAway(ws + [Out(Away(ME, reason))]) == Some(reason)
  {
  }

  /** Over any run, restarts included: from connecting on, the away state the server was told last is the recorded
      one. */
  lemma {:induction false} PresenceTold(cfg: Config, states: seq<State>, moves: seq<ContactProofs.Move>, i: nat)
    requires ContactProofs.Run(cfg, states, moves) && i < |states|
    ensures states[i].connected ==> LastAway(states[i].sent) == Some(states[i].presence)
  {
    hide Step, LastAway;
    if i > 0 {
      PresenceTold(cfg, states, moves, i - 1);
      assert ContactProofs.Moves(cfg, states[i - 1], moves[i - 1], states[i]);
      if Step(cfg, moves[i - 1].w, states[i - 1], moves[i - 1].e).Ok? {
        StepTells(cfg, moves[i - 1].w, states[i - 1], moves[i - 1].e);
      }
    }
  }
}
