/** Bridging: groups and channels stay paired one to one, and when metadata is accepted. */
module WaGroups {
  import opened Outcomes
  import opened Address
  import opened WaModel

  /** The two UNIQUE constraints of the table, and serials ahead of the ids in use. */
  ghost predicate OneToOne(groups: map<int, Group>, nextGroup: int) {
    && (forall g :: g in groups ==> g < nextGroup)
    && (forall g, h :: g in groups && h in groups && g != h ==>
          groups[g].jid != groups[h].jid && groups[g].channel != groups[h].channel)
  }

  ghost predicate SameGroups(b: Bridge, b': Bridge) {
    b'.groups == b.groups && b'.nextGroup == b.nextGroup
  }

  /** No group has this JID, and none this channel. */
  predicate Free(b: Bridge, jid: Jid, channel: string) {
    forall g :: g in b.groups ==> b.groups[g].jid != jid && b.groups[g].channel != channel
  }

  // ---- associating and removing ----

  /** The four checks of `group_associate` are enough: the row it inserts clashes with no other, so
      the insertion never fails on a UNIQUE constraint, and the pairing stays one to one. */
  lemma {:induction false} AssociateKeeps(b: Bridge, jid: Jid, channel: string, up: bool)
    requires OneToOne(b.groups, b.nextGroup)
    ensures var (b', id) := Associate(b, jid, channel, up);
            && OneToOne(b'.groups, b'.nextGroup)
            && (id.Some? <==> Free(b, jid, channel) && up && jid.isGroup)
            && (id.None? ==> b' == b)
            && (id.Some? ==> id.value !in b.groups && id.value in b'.groups && b'.groups - {id.value} == b.groups
                             && b'.groups[id.value].jid == jid && b'.groups[id.value].channel == channel
                             && b'.groups[id.value].participants == [] && b'.groups[id.value].admins == []
                             && b'.recipients == b.recipients && b'.orders == b.orders + [ProcessGroups])
  {
  }

  lemma {:induction false} RemoveKeeps(b: Bridge, channel: string, chosen: int)
    requires OneToOne(b.groups, b.nextGroup)
    ensures var b' := Remove(b, channel, chosen); OneToOne(b'.groups, b'.nextGroup)
  {
  }

  /** Removing a channel removes the group that has it, of which the factory is told, and nothing else; without such a
      group nothing happens. */
  lemma {:induction false} RemoveExact(b: Bridge, channel: string, chosen: int)
    requires OneToOne(b.groups, b.nextGroup)
    requires (exists g :: g in b.groups && b.groups[g].channel == channel) ==>
               chosen in b.groups && b.groups[chosen].channel == channel
    ensures var b', had := Remove(b, channel, chosen), exists g :: g in b.groups && b.groups[g].channel == channel;
            && b' == b.(groups := b'.groups, orders := b'.orders)
            && b'.groups == (map g | g in b.groups && b.groups[g].channel != channel :: b.groups[g])
            && b'.orders == b.orders + (if had then [ProcessGroups] else [])
  {
    assert b.orders + [] == b.orders;
    forall g | g in b.groups && b.groups[g].channel == channel ensures g == chosen {}
    assert Remove(b, channel, chosen).groups
           == (map g | g in b.groups && b.groups[g].channel != channel :: b.groups[g]);
  }

  /** Removing a channel undoes associating it, and nothing else answers to that channel. */
  lemma {:induction false} RemoveUndoesAssociate(b: Bridge, jid: Jid, channel: string, up: bool, chosen: int)
    requires OneToOne(b.groups, b.nextGroup) && Associate(b, jid, channel, up).1.Some?
    ensures var b' := Associate(b, jid, channel, up).0;
            && (chosen in b'.groups && b'.groups[chosen].channel == channel ==>
                 Remove(b', channel, chosen).groups == b.groups)
            && (chosen in b'.groups && b'.groups[chosen].channel == channel <==> chosen == b.nextGroup)
  {
    AssociateKeeps(b, jid, channel, up);
    var b' := Associate(b, jid, channel, up).0;
    if chosen in b'.groups && b'.groups[chosen].channel == channel {
      assert b.nextGroup in b'.groups;
      assert b'.groups - {b.nextGroup} == b.groups;
    }
  }

  // ---- metadata ----

  lemma {:induction false} MeetAllFrame(cfg: Config, b: Bridge, members: seq<Member>)
    ensures var b' := MeetAll(cfg, b, members);
            && SameGroups(b, b') && b.nextRecipient <= b'.nextRecipient
            && (forall a :: a in b.recipients ==> a in b'.recipients && b'.recipients[a] == b.recipients[a])
    decreases members
  {
    if members != [] && cfg.address(members[0].jid).Some? {
      MeetAllFrame(cfg, Meet(b, cfg.address(members[0].jid).value), members[1..]);
    }
  }

  /** The addresses of members that have no recipient yet, in the order they are met. */
  function Newcomers(cfg: Config, known: set<Addr>, members: seq<Member>): (rs: seq<Addr>)
    ensures forall a <- rs :: a !in known && exists i :: 0 <= i < |members| && cfg.address(members[i].jid) == Some(a)
    ensures forall i, j :: 0 <= i < j < |rs| ==> rs[i] != rs[j]
    ensures AllKnown(cfg, members) ==>
              forall i :: 0 <= i < |members| ==>
                cfg.address(members[i].jid).value in known || cfg.address(members[i].jid).value in rs
    decreases members
  {
    if members == [] then []
    else
      var a, later := cfg.address(members[0].jid), members[1..];
      assert forall i :: 0 <= i < |later| ==> later[i] == members[i + 1];
      assert forall i :: 0 < i < |members| ==> members[i] == later[i - 1];
      if a.None? then []
      else if a.value in known then Newcomers(cfg, known, later)
      else
        assert members[0] == members[0];
        [a.value] + Newcomers(cfg, known + {a.value}, later)
  }

  function Setups(rs: seq<Addr>): seq<Order> {
    if rs == [] then [] else [SetupContact(rs[0])] + Setups(rs[1..])
  }

  /** Each member met has a recipient afterwards, and nobody else got one; the factory is told of each new one, once,
      in the order of the members. */
  lemma {:induction false} MeetAllExact(cfg: Config, b: Bridge, members: seq<Member>)
    ensures var b', rs := MeetAll(cfg, b, members), Newcomers(cfg, b.recipients.Keys, members);
            b'.recipients.Keys == b.recipients.Keys + Elements(rs) && b'.orders == b.orders + Setups(rs)
    decreases members
  {
    if members != [] && cfg.address(members[0].jid).Some? {
      var a, later := cfg.address(members[0].jid).value, members[1..];
      var b1 := Meet(b, a);
      MeetAllExact(cfg, b1, later);
      if a !in b.recipients {
        var rest := Newcomers(cfg, b1.recipients.Keys, later);
        assert b1.recipients.Keys == b.recipients.Keys + {a};
        assert Newcomers(cfg, b.recipients.Keys, members) == [a] + rest;
        assert Elements([a] + rest) == {a} + Elements(rest);
        assert ([a] + rest)[1..] == rest;
        Regroup(b.orders, [SetupContact(a)], Setups(rest));
      }
    }
  }

  lemma {:induction false} MeetAllKnown(cfg: Config, b: Bridge, members: seq<Member>)
    requires AllKnown(cfg, members)
    ensures forall i :: 0 <= i < |members| ==> cfg.address(members[i].jid).value in MeetAll(cfg, b, members).recipients
    decreases members
  {
    if members != [] {
      var b1 := Meet(b, cfg.address(members[0].jid).value);
      assert AllKnown(cfg, members[1..]);
      MeetAllFrame(cfg, b1, members[1..]);
      MeetAllKnown(cfg, b1, members[1..]);
      forall i | 0 <= i < |members| ensures cfg.address(members[i].jid).value in MeetAll(cfg, b, members).recipients {
        if i > 0 { assert members[1..][i - 1] == members[i]; }
      }
    }
  }

  /** The ids recorded are those of the participants, in order. */
  lemma {:induction false} RowIdsExact(cfg: Config, recipients: map<Addr, int>, members: seq<Member>)
    requires AllKnown(cfg, members)
    requires forall i :: 0 <= i < |members| ==> cfg.address(members[i].jid).value in recipients
    ensures var ids := RowIds(cfg, recipients, members, false);
            && |ids| == |members|
            && forall i :: 0 <= i < |members| ==> ids[i] == recipients[cfg.address(members[i].jid).value]
  {
    if members != [] {
      var later := members[1..];
      forall i | 0 <= i < |later| ensures later[i] == members[i + 1] {}
      RowIdsExact(cfg, recipients, later);
    }
  }

  /** A row id is among the admins exactly when it belongs to a participant who is one. */
  lemma {:induction false} AdminsExact(cfg: Config, recipients: map<Addr, int>, members: seq<Member>, x: int)
    requires AllKnown(cfg, members)
    requires forall i :: 0 <= i < |members| ==> cfg.address(members[i].jid).value in recipients
    ensures x in RowIds(cfg, recipients, members, true) <==>
            exists i :: 0 <= i < |members| && members[i].admin && recipients[cfg.address(members[i].jid).value] == x
  {
    if members != [] {
      var later := members[1..];
      forall i | 0 <= i < |later| ensures later[i] == members[i + 1] {}
      AdminsExact(cfg, recipients, later, x);
      var id := recipients[cfg.address(members[0].jid).value];
      var mine := members[0].admin && id == x;
      assert x in RowIds(cfg, recipients, members, true) <==> mine || x in RowIds(cfg, recipients, later, true);
      if mine { assert members[0].admin; }
      if j :| 0 <= j < |later| && later[j].admin && recipients[cfg.address(later[j].jid).value] == x {
        assert members[j + 1].admin;
      }
      if i :| 0 < i < |members| && members[i].admin && recipients[cfg.address(members[i].jid).value] == x {
        assert later[i - 1].admin;
      }
    }
  }

  /** The row of a group after accepted metadata. */
  ghost predicate Recorded(cfg: Config, b: Bridge, m: Metadata, g: int) {
    && g in b.groups && b.groups[g].jid == m.jid && b.groups[g].topic == m.subject
    && AllKnown(cfg, m.members)
    && (forall i :: 0 <= i < |m.members| ==> cfg.address(m.members[i].jid).value in b.recipients)
    && b.groups[g].participants == RowIds(cfg, b.recipients, m.members, false)
    && b.groups[g].admins == RowIds(cfg, b.recipients, m.members, true)
  }

  /** The row of the group holds the metadata; any other is as before. */
  ghost predicate Updated(cfg: Config, b: Bridge, b': Bridge, m: Metadata, g: int)
    requires g in b'.groups
  {
    if b'.groups[g].jid == m.jid then Recorded(cfg, b', m, g) else g in b.groups && b'.groups[g] == b.groups[g]
  }

  lemma {:induction false} UpdateExact(cfg: Config, b: Bridge, m: Metadata)
    requires OneToOne(b.groups, b.nextGroup)
    ensures var (b', ok) := Update(cfg, b, m);
            && OneToOne(b'.groups, b'.nextGroup) && b'.groups.Keys == b.groups.Keys && b'.nextGroup == b.nextGroup
            && (forall g :: g in b.groups ==>
                 b'.groups[g].jid == b.groups[g].jid && b'.groups[g].channel == b.groups[g].channel)
            && (ok <==> AllKnown(cfg, m.members) && Bridged(b, m.jid))
            && (!ok ==> SameGroups(b, b'))
            && (ok ==> forall g :: g in b'.groups ==> Updated(cfg, b, b', m, g))
            && var rs := Newcomers(cfg, b.recipients.Keys, m.members);
               && b'.recipients.Keys == b.recipients.Keys + Elements(rs)
               && b'.orders == b.orders + Setups(rs) + (if ok then [ProcessGroups] else [])
  {
    hide Newcomers, Setups;
    MeetAllFrame(cfg, b, m.members);
    MeetAllExact(cfg, b, m.members);
    if AllKnown(cfg, m.members) && Bridged(b, m.jid) {
      MeetAllKnown(cfg, b, m.members);
    }
  }

  /** Whether metadata for a group can be recorded: everybody in it has an address, and the group is
      bridged already or can be bridged now. */
  predicate Recordable(cfg: Config, b: Bridge, m: Metadata, up: bool) {
    && AllKnown(cfg, m.members)
    && (Bridged(b, m.jid) ||
        (cfg.autocreate.Some? && Free(b, m.jid, cfg.autocreate.value + "-" + cfg.channelFor(m.subject)) && up
         && m.jid.isGroup))
  }

  /** Metadata keeps the pairing one to one. It is accepted exactly when it is recordable, and then
      the row of the group holds it while every other row is as before. Otherwise the handler returns
      an error, which ends the task: metadata for a group that is not bridged, with autocreation off
      or refused, is such a case. */
  lemma {:induction false} MetadataExact(cfg: Config, b: Bridge, m: Metadata, up: bool)
    requires OneToOne(b.groups, b.nextGroup)
    ensures var (b', ok) := OnMetadata(cfg, b, m, up);
            && OneToOne(b'.groups, b'.nextGroup)
            && (ok <==> Recordable(cfg, b, m, up))
            && (ok ==> Bridged(b', m.jid))
            && (ok ==> forall g :: g in b'.groups ==> Updated(cfg, b, b', m, g))
            && (forall g :: g in b.groups ==> g in b'.groups)
  {
    if !Bridged(b, m.jid) && cfg.autocreate.Some? {
      AutocreateExact(cfg, cfg.autocreate.value, b, m, up);
      UpdateExact(cfg, Autocreate(cfg, cfg.autocreate.value, b, m, up).0, m);
    } else {
      UpdateExact(cfg, b, m);
    }
  }

  /** Autocreation of a group not bridged: the row is made when the checks pass, and it stays even
      when recording the metadata then fails. */
  lemma {:induction false} AutocreateExact(cfg: Config, prefix: string, b: Bridge, m: Metadata, up: bool)
    requires OneToOne(b.groups, b.nextGroup) && !Bridged(b, m.jid)
    ensures var (b', ok) := Autocreate(cfg, prefix, b, m, up);
            var made := Free(b, m.jid, prefix + "-" + cfg.channelFor(m.subject)) && up && m.jid.isGroup;
            && OneToOne(b'.groups, b'.nextGroup)
            && (ok <==> made && AllKnown(cfg, m.members))
            && (Bridged(b', m.jid) <==> made)
            && b'.groups.Keys == b.groups.Keys + (if made then {b.nextGroup} else {})
            && (forall g :: g in b.groups ==> b'.groups[g] == b.groups[g])
  {
    var channel := ChannelName(cfg, prefix, m.subject);
    AssociateKeeps(b, m.jid, channel, up);
    if Associates(b, m.jid, channel, up) {
      var b1 := Associate(b, m.jid, channel, up).0;
      assert b1.groups[b.nextGroup].jid == m.jid;
      UpdateExact(cfg, b1, m);
      var b' := Update(cfg, b1, m).0;
      assert b'.groups[b.nextGroup].jid == m.jid;
    }
  }

  lemma {:induction false} AutocreateKeeps(cfg: Config, prefix: string, b: Bridge, m: Metadata, up: bool)
    requires OneToOne(b.groups, b.nextGroup)
    ensures var b' := Autocreate(cfg, prefix, b, m, up).0; OneToOne(b'.groups, b'.nextGroup)
  {
    if !Bridged(b, m.jid) { AutocreateExact(cfg, prefix, b, m, up); }
  }

  /** Metadata for a group that is not bridged ends the task when autocreation is off. */
  lemma UnbridgedMetadataFails(cfg: Config, b: Bridge, m: Metadata, up: bool)
    requires (forall g :: g in b.groups ==> b.groups[g].jid != m.jid) && cfg.autocreate.None?
    ensures !OnMetadata(cfg, b, m, up).1
  {
    MeetAllFrame(cfg, b, m.members);
  }
}
