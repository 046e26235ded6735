/**
 `ContactManager` as the class it is, each method proved to do what the step functions of
 `ContactModel` say. The shared `Sender` methods are proved in the class form of the link; here one
 step of them is a call of the functions they were proved against.
 */
module ContactManagers {
  import opened Outcomes
  import opened Failures
  import opened Peer
  import opened ContactModel
  import Delivery
  import Fragments
  import LinkModel

  type Status = Result<(), Failure>

  class ContactManager {
    const cfg: Config
    var connected: bool
    var adminOnline: bool
    var waMode: bool
    var presence: Option<string>
    var channels: seq<string>
    var recipient: Option<LinkModel.Recipient>
    var groups: map<int, LinkModel.Group>
    var messages: Delivery.Table
    var sent: seq<Wire>

    ghost function View(): State
      reads this
    {
      State(connected, adminOnline, waMode, presence, channels, recipient, groups, messages, sent)
    }

    /** The object `new` makes once the recipient's number has been read back. */
    constructor (cfg: Config, recip: LinkModel.Recipient, groups: map<int, LinkModel.Group>, messages: Delivery.Table)
      ensures this.cfg == cfg && View() == Start(recip, groups, messages)
      ensures !connected && adminOnline && waMode == recip.whatsapp && presence == None && channels == [] && sent == []
      ensures recipient == Some(recip)
    {
      this.cfg := cfg;
      connected, adminOnline, waMode, presence, channels, sent := false, true, recip.whatsapp, None, [], [];
      recipient, this.groups, this.messages := Some(recip), groups, messages;
    }

    method Send(line: Line)
      modifies `sent
      ensures sent == old(sent) + [Out(line)]
    {
      sent := sent + [Out(line)];
    }

    /** `process_groups`: join, remember, part. */
    method ProcessGroups(w: LinkModel.World) returns (r: Status)
      modifies `channels, `sent
      ensures Did(r, View(), ContactModel.ProcessGroups(w, old(View())))
    {
      hide Joins, Parts, Dropped;
      if !connected {
        return Ok(());
      }
      if recipient.None? {
        return Err(RecipientMissing);
      }
      var chans := JoinAll(Wanted(w, groups, recipient.value));
      var had := channels;
      channels := chans;
      PartDropped(had, chans);
      Regroup(old(sent), Joins(ME, chans), Parts(ME, Dropped(had, chans)));
      return Ok(());
    }

    method JoinAll(wanted: seq<string>) returns (chans: seq<string>)
      modifies `sent
      ensures chans == wanted && sent == old(sent) + Joins(ME, wanted)
    {
      chans := [];
      for i := 0 to |wanted|
        invariant chans == wanted[..i] && sent == old(sent) + Joins(ME, wanted[..i])
      {
        Send(Join(ME, wanted[i]));
        chans := chans + [wanted[i]];
        assert Joins(ME, wanted[..i + 1]) == Joins(ME, wanted[..i]) + [Out(Join(ME, wanted[i]))];
      }
    }

    method PartDropped(had: seq<string>, chans: seq<string>)
      modifies `sent
      ensures sent == old(sent) + Parts(ME, Dropped(had, chans))
    {
      for i := 0 to |had|
        invariant sent == old(sent) + Parts(ME, Dropped(had[..i], chans))
      {
        DroppedStep(had, chans, i);
        if had[i] !in chans {
          Send(Part(ME, had[i]));
        }
      }
      assert had[..|had|] == had;
    }

    /** A message: the mode switch, then the text, then the deletion of its rows. */
    method HandleRow(o: Delivery.Oracle, row: Delivery.Row) returns (r: Status)
      modifies `waMode, `recipient, `messages, `sent
      ensures Did(r, View(), ContactModel.HandleRow(o, old(View()), row))
    {
      hide Deliver;
      if row.body == Delivery.Sms(Delivery.Malformed) {
        return Err(BadPdu);
      }
      if row.body.Sms? {
        if waMode {
          SetWhatsapp(false);
          Send(ModeNotice(ME, false));
        }
      } else {
        if !waMode {
          SetWhatsapp(true);
          Send(ModeNotice(ME, true));
        }
      }
      r := ProcessMsg(o, row);
    }

    /** `process_msg_pdu` or `process_msg_plain`. */
    method ProcessMsg(o: Delivery.Oracle, row: Delivery.Row) returns (r: Status)
      modifies `messages, `sent
      ensures Did(r, View(), Deliver(o, old(View()), row))
    {
      hide Delivery.Handle, SendRaw, RemoveRows;
      var h := Delivery.Handle(o, messages, row);
      if h.Err? {
        return Err(h.error);
      }
      match h.value {
        case Kept =>
          r := Ok(());
        case Unreadable =>
          Send(ErrorNotice(ME));
          r := Ok(());
        case Delivered(send) =>
          r := SendRawMessage(send.text, send.row.group);
          if r.Err? {
            return;
          }
          r := DeleteMessages(send.ids);
      }
    }

    method SendRawMessage(text: string, group: Option<int>) returns (r: Status)
      modifies `sent
      ensures Did(r, View(), SendRaw(old(View()), text, group))
    {
      hide Fragments.Chunks, Fragments.Lines, LinkModel.Privmsgs;
      var to := ToAdmin;
      if group.Some? {
        if group.value !in groups {
          return Err(NoSuchGroup);
        }
        to := ToChannel(groups[group.value].channel);
      }
      sent := sent + LinkModel.Privmsgs(ME, to, Fragments.Chunks(Fragments.Lines(text)));
      return Ok(());
    }

    /** `delete_message` for each row of the message just sent. */
    method DeleteMessages(ids: seq<int>) returns (r: Status)
      modifies `messages, `sent
      ensures Did(r, View(), RemoveRows(old(View()), ids))
    {
      assert ids[0..] == ids;
      for k := 0 to |ids|
        invariant RemoveRows(View(), ids[k..]) == RemoveRows(old(View()), ids)
      {
        assert ids[k..][0] == ids[k] && ids[k..][1..] == ids[k + 1..];
        if ids[k] !in messages {
          return Err(NoSuchRow);
        }
        messages := messages - {ids[k]};
        sent := sent + [Removed(ids[k])];
      }
      assert ids[|ids|..] == [];
      return Ok(());
    }

    /** `process_messages`, over the contact's rows in the order of the query. */
    method ProcessMessages(w: LinkModel.World) returns (r: Status)
      modifies `waMode, `recipient, `messages, `sent
      ensures Did(r, View(), ContactModel.ProcessMessages(cfg, w, old(View())))
    {
      if !connected {
        return Ok(());
      }
      if !adminOnline {
        return Ok(());
      }
      var rows := w.messageOrder(Own(messages, cfg.addr));
      ghost var all := HandleRows(w.oracle, View(), rows);
      assert rows[0..] == rows;
      hide ContactModel.HandleRow;
      var i := 0;
      while i < |rows|
        invariant 0 <= i <= |rows|
        invariant HandleRows(w.oracle, View(), rows[i..]) == all
      {
        assert rows[i..][0] == rows[i] && rows[i..][1..] == rows[i + 1..];
        r := this.HandleRow(w.oracle, rows[i]);
        if r.Err? {
          return;
        }
        i := i + 1;
      }
      return Ok(());
    }

    /** The `SetWhatsapp` command, and the database update of a switch. */
    method SetWhatsapp(on: bool)
      modifies `waMode, `recipient
      ensures View() == SetMode(old(View()), on)
    {
      waMode := on;
      if recipient.Some? {
        recipient := Some(recipient.value.(whatsapp := on));
      }
    }

    /** `update_away`. */
    method UpdateAway()
      modifies `sent
      ensures View() == TellPresence(old(View()))
    {
      if connected {
        Send(Away(ME, presence));
      }
    }

    /** `change_nick`. */
    method ChangeNick(nick: string, source: int)
      modifies `recipient, `sent
      ensures View() == ContactModel.ChangeNick(old(View()), nick, source)
    {
      if recipient.Some? {
        recipient := Some(recipient.value.(nick := nick, nickSource := source));
      }
      Send(NickLine(ME, nick));
    }

    /** The end of the MOTD: the contact is connected, and watches the admin. */
    method OnWelcome(w: LinkModel.World) returns (r: Status)
      modifies this
      ensures Did(r, View(), Step(cfg, w, old(View()), Welcome))
    {
      hide ContactModel.ProcessMessages, ContactModel.ProcessGroups, TellPresence;
      connected := true;
      r := ProcessMessages(w);
      if r.Err? {
        return;
      }
      Send(Watch);
      UpdateAway();
      r := ProcessGroups(w);
    }

    /** The admin comes or goes; messages kept meanwhile are handled on return. */
    method OnAdmin(w: LinkModel.World, online: bool) returns (r: Status)
      modifies this
      ensures Did(r, View(), Step(cfg, w, old(View()), AdminIs(online)))
    {
      hide ContactModel.ProcessMessages;
      r := Ok(());
      if online {
        if !adminOnline {
          adminOnline := true;
          r := ProcessMessages(w);
        }
      } else {
        adminOnline := false;
      }
    }

    /** `handle_int_rx`: a command of the contact factory. */
    method HandleCommand(w: LinkModel.World, e: Event) returns (r: Status)
      requires e.DoMessages? || e.DoGroups? || e.DoAway? || e.DoNick? || e.DoWhatsapp?
      modifies this
      ensures Did(r, View(), Step(cfg, w, old(View()), e))
    {
      hide ContactModel.ProcessMessages, ContactModel.ProcessGroups, TellPresence, ContactModel.ChangeNick;
      r := Ok(());
      match e {
        case DoMessages =>
          r := ProcessMessages(w);
        case DoGroups =>
          r := ProcessGroups(w);
        case DoAway(reason) =>
          presence := reason;
          UpdateAway();
        case DoNick(nick, source) =>
          ChangeNick(nick, source);
        case DoWhatsapp(on) =>
          SetWhatsapp(on);
      }
    }
  }

  lemma {:induction false} DroppedStep(had: seq<string>, chans: seq<string>, i: nat)
    requires i < |had|
    ensures Parts(ME, Dropped(had[..i + 1], chans)) ==
            Parts(ME, Dropped(had[..i], chans)) + if had[i] in chans then [] else [Out(Part(ME, had[i]))]
  {
    hide Dropped, Parts;
    assert had[..i + 1] == had[..i] + [had[i]];
    DroppedAppend(had[..i], had[i], chans);
    var before := Dropped(had[..i], chans);
    if had[i] in chans {
      assert before + [] == before && Parts(ME, before) + [] == Parts(ME, before);
    } else {
      PartsAppend(before, had[i]);
    }
  }

  lemma {:induction false} PartsAppend(cs: seq<string>, c: string)
    ensures Parts(ME, cs + [c]) == Parts(ME, cs) + [Out(Part(ME, c))]
  {
    hide Parts;
  }

  lemma {:induction false} DroppedAppend(had: seq<string>, c: string, chans: seq<string>)
    ensures Dropped(had + [c], chans) == Dropped(had, chans) + if c in chans then [] else [c]
  {
    if had == [] {
      assert (had + [c])[1..] == [];
    } else {
      assert (had + [c])[0] == had[0] && (had + [c])[1..] == had[1..] + [c];
      DroppedAppend(had[1..], c, chans);
    }
  }
}
