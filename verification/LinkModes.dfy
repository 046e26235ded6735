/** MODE and TOPIC lines: operators are exactly the admins among the participants of a group. */
module LinkModes {
  import opened Outcomes
  import opened Address
  import opened Peer
  import opened LinkModel
  import opened LinkInvariant
  import opened LinkSteps
  import opened LinkPass

  // ---- the lines of the groups ----

  /** The MODE line of a participant, if it has a contact. */
  function ModeOf(w: World, s: State, g: Group, id: int): seq<Wire> {
    match Found(w, s, id)
    case Some(a) => if a in s.contacts then [Out(Mode(g.channel, id in g.admins, s.contacts[a].uuid))] else []
    case None => []
  }

  function ModeLines(w: World, s: State, g: Group, parts: seq<int>): seq<Wire> {
    if parts == [] then [] else ModeOf(w, s, g, parts[0]) + ModeLines(w, s, g, parts[1..])
  }

  /** The topic the link knows of a channel, none being the empty one. */
  function Known(topics: map<string, string>, channel: string): string {
    if channel in topics then topics[channel] else ""
  }

  /** Whether the topic of a group is to be set. */
  predicate Due(cfg: Config, topics: map<string, string>, g: Group) {
    var known := Known(topics, g.channel);
    cfg.setTopics && (known == "" || (cfg.clobberTopics && known != g.topic))
  }

  function TopicsAfter(cfg: Config, topics: map<string, string>, g: Group): map<string, string> {
    if Due(cfg, topics, g) then topics[g.channel := g.topic] else topics
  }

  function TopicLine(cfg: Config, topics: map<string, string>, g: Group): seq<Wire> {
    if Due(cfg, topics, g) then [Out(Topic(g.channel, g.topic))] else []
  }

  /** All lines for some groups, and what is known of the topics then. */
  function GroupLines(cfg: Config, w: World, s: State, topics: map<string, string>, order: seq<int>): seq<Wire>
    decreases order
  {
    if order == [] then []
    else if order[0] !in s.groups then GroupLines(cfg, w, s, topics, order[1..])
    else
      var g := s.groups[order[0]];
      ModeLines(w, s, g, g.participants) + TopicLine(cfg, topics, g)
      + GroupLines(cfg, w, s, TopicsAfter(cfg, topics, g), order[1..])
  }

  function AllTopics(cfg: Config, s: State, topics: map<string, string>, order: seq<int>): map<string, string>
    decreases order
  {
    if order == [] then topics
    else if order[0] !in s.groups then AllTopics(cfg, s, topics, order[1..])
    else AllTopics(cfg, s, TopicsAfter(cfg, topics, s.groups[order[0]]), order[1..])
  }

  lemma {:induction false} ModesSaid(cfg: Config, w: World, s: State, g: Group, parts: seq<int>)
    requires TellModes(cfg, w, s, g, parts).Ok?
    ensures TellModes(cfg, w, s, g, parts) == Ok(s.(log := s.log + ModeLines(w, s, g, parts)))
    decreases parts
  {
    hide Found, Reads;
    if parts == [] {
      assert s.log + [] == s.log;
    } else {
      var s1 := ModeSaid(w, s, g, parts[0]);
      assert s1 == s.(log := s.log + ModeOf(w, s, g, parts[0]));
      ModesSaid(cfg, w, s1, g, parts[1..]);
      SameModes(w, s, s1, g, parts[1..]);
      Regroup(s.log, ModeOf(w, s, g, parts[0]), ModeLines(w, s, g, parts[1..]));
    }
  }

  lemma {:induction false} SameModes(w: World, s: State, s': State, g: Group, parts: seq<int>)
    requires s'.recipients == s.recipients && s'.contacts == s.contacts
    ensures ModeLines(w, s', g, parts) == ModeLines(w, s, g, parts)
  {
    hide FindById;
    if parts != [] { SameModes(w, s, s', g, parts[1..]); }
  }

  lemma {:induction false} SameLines(cfg: Config, w: World, s: State, s': State, topics: map<string, string>,
                                     order: seq<int>)
    requires s'.recipients == s.recipients && s'.contacts == s.contacts && s'.groups == s.groups
    ensures GroupLines(cfg, w, s', topics, order) == GroupLines(cfg, w, s, topics, order)
    ensures AllTopics(cfg, s', topics, order) == AllTopics(cfg, s, topics, order)
    decreases order
  {
    hide ModeLines, Due;
    if order != [] {
      if order[0] in s.groups {
        var g := s.groups[order[0]];
        SameModes(w, s, s', g, g.participants);
        SameLines(cfg, w, s, s', TopicsAfter(cfg, topics, g), order[1..]);
      } else {
        SameLines(cfg, w, s, s', topics, order[1..]);
      }
    }
  }

  lemma {:induction false} GroupsSaid(cfg: Config, w: World, s: State, order: seq<int>)
    requires TellGroups(cfg, w, s, order).Ok?
    ensures TellGroups(cfg, w, s, order) ==
            Ok(s.(log := s.log + GroupLines(cfg, w, s, s.topics, order), topics := AllTopics(cfg, s, s.topics, order)))
    decreases order
  {
    hide TellModes, ModeLines;
    if order == [] {
      assert s.log + [] == s.log;
    } else if order[0] in s.groups {
      var g := s.groups[order[0]];
      ModesSaid(cfg, w, s, g, g.participants);
      var modes, topic := ModeLines(w, s, g, g.participants), TopicLine(cfg, s.topics, g);
      var s1 := s.(log := s.log + modes + topic, topics := TopicsAfter(cfg, s.topics, g));
      assert s.log + modes + [] == s.log + modes;
      assert TellTopic(cfg, s.(log := s.log + modes), g) == s1;
      GroupsSaid(cfg, w, s1, order[1..]);
      SameLines(cfg, w, s, s1, s1.topics, order[1..]);
      var rest := GroupLines(cfg, w, s, s1.topics, order[1..]);
      assert s.log + modes + topic + rest == s.log + (modes + topic + rest);
    } else {
      GroupsSaid(cfg, w, s, order[1..]);
    }
  }

  // ---- which lines there are ----

  lemma {:induction false} InModes(w: World, s: State, g: Group, parts: seq<int>, x: Wire)
    ensures x in ModeLines(w, s, g, parts) <==> exists id :: id in parts && x in ModeOf(w, s, g, id)
  {
    hide ModeOf;
    if parts != [] {
      InModes(w, s, g, parts[1..], x);
      assert forall id :: id in parts <==> id == parts[0] || id in parts[1..];
    }
  }

  /** A MODE line of some group. */
  ghost predicate ModeIn(w: World, s: State, g: int, x: Wire) {
    g in s.groups && exists id :: id in s.groups[g].participants && x in ModeOf(w, s, s.groups[g], id)
  }

  lemma {:induction false} InGroups(cfg: Config, w: World, s: State, topics: map<string, string>, order: seq<int>,
                                    x: Wire)
    requires x.Out? && x.line.Mode?
    ensures x in GroupLines(cfg, w, s, topics, order) <==> exists g :: g in order && ModeIn(w, s, g, x)
    decreases order
  {
    hide ModeOf, ModeLines;
    if order != [] {
      var first := order[0];
      assert forall g :: g in order <==> g == first || g in order[1..];
      if first in s.groups {
        var g := s.groups[first];
        var said, topic, rest := ModeLines(w, s, g, g.participants), TopicLine(cfg, topics, g),
            GroupLines(cfg, w, s, TopicsAfter(cfg, topics, g), order[1..]);
        assert GroupLines(cfg, w, s, topics, order) == said + topic + rest;
        assert x !in topic;
        InModes(w, s, g, g.participants, x);
        assert x in said <==> ModeIn(w, s, first, x);
        InGroups(cfg, w, s, TopicsAfter(cfg, topics, g), order[1..], x);
        assert x in said + topic + rest <==> x in said || x in rest;
      } else {
        InGroups(cfg, w, s, topics, order[1..], x);
      }
    }
  }

  /** The topics known of a channel, and so whether one is due, are as before its group's turn. */
  lemma {:induction false} InTopics(cfg: Config, w: World, s: State, topics: map<string, string>, order: seq<int>,
                                    g: int,
                                    x: Wire)
    requires OneChannelEach(s.groups) && g in s.groups
    requires x.Out? && x.line.Topic? && x.line.channel == s.groups[g].channel
    requires forall i, j :: 0 <= i < j < |order| ==> order[i] != order[j]
    ensures x in GroupLines(cfg, w, s, topics, order) <==> g in order && x in TopicLine(cfg, topics, s.groups[g])
    ensures Known(AllTopics(cfg, s, topics, order), s.groups[g].channel)
            == Known(if g in order then TopicsAfter(cfg, topics, s.groups[g]) else topics, s.groups[g].channel)
    decreases order
  {
    hide ModeOf, ModeLines;
    if order != [] {
      var first, later := order[0], order[1..];
      assert g in order <==> g == first || g in later;
      assert first !in later;
      if first in s.groups {
        var h := s.groups[first];
        var said, topic, rest := ModeLines(w, s, h, h.participants), TopicLine(cfg, topics, h),
            GroupLines(cfg, w, s, TopicsAfter(cfg, topics, h), later);
        assert GroupLines(cfg, w, s, topics, order) == said + topic + rest;
        InModes(w, s, h, h.participants, x);
        NoTopics(w, s, h, x);
        InTopics(cfg, w, s, TopicsAfter(cfg, topics, h), later, g, x);
        assert x in said + topic + rest <==> x in topic || x in rest;
        if first != g {
          assert h.channel != s.groups[g].channel;
          assert Known(TopicsAfter(cfg, topics, h), s.groups[g].channel) == Known(topics, s.groups[g].channel);
        }
      } else {
        InTopics(cfg, w, s, topics, later, g, x);
      }
    }
  }

  lemma NoTopics(w: World, s: State, g: Group, x: Wire)
    requires x.Out? && x.line.Topic?
    ensures forall id :: x !in ModeOf(w, s, g, id)
  {
  }

  // ---- what `process_groups` says ----

  /** The `channel` column of the groups table is unique. */
  ghost predicate OneChannelEach(groups: map<int, Group>) {
    forall g, h :: g in groups && h in groups && groups[g].channel == groups[h].channel ==> g == h
  }

  /** The `id` column of the recipients table is its primary key. */
  ghost predicate OneIdEach(recipients: map<Addr, Recipient>) {
    forall a, b :: a in recipients && b in recipients && recipients[a].id == recipients[b].id ==> a == b
  }

  predicate Tells(x: Wire) {
    x.Out? && (x.line.Mode? || x.line.Topic?)
  }

  /** Lines were added, none of them a MODE or TOPIC line. */
  ghost predicate Quiet(s: State, s': State) {
    Continues(s, s') && forall i :: |s.log| <= i < |s'.log| ==> !Tells(s'.log[i])
  }

  lemma {:induction false} EachQuiet(cfg: Config, w: World, s: State, order: seq<Addr>)
    requires ProcessGroupsEach(cfg, w, s, order).Ok?
    ensures var s' := ProcessGroupsEach(cfg, w, s, order).value; Quiet(s, s') && s'.topics == s.topics
    decreases order
  {
    hide ChannelNames, WithLog, Dropped;
    if order != [] {
      var s1 := ProcessGroupsFor(cfg, w, s, order[0]).value;
      assert Quiet(s, s1) && s1.topics == s.topics;
      EachQuiet(cfg, w, s1, order[1..]);
    }
  }

  /** After a successful `process_groups` there are just the lines of the groups beside those that tell nothing. */
  lemma {:induction false} Told(cfg: Config, w: World, s: State, x: Wire) returns (s2: State)
    requires Inv(cfg, s) && Honest(w) && ProcessGroups(cfg, w, s).Ok? && Tells(x)
    ensures OnlyChannels(s, s2) && Inv(cfg, s2) && s2.topics == s.topics
    ensures var s', ids := ProcessGroups(cfg, w, s).value, w.groupOrder(s.groups.Keys);
            && Lists(ids, s.groups.Keys) && Continues(s, s') && OnlyChannels(s, s')
            && s'.topics == AllTopics(cfg, s2, s.topics, ids)
            && (x in Since(s, s') <==> x in GroupLines(cfg, w, s2, s.topics, ids))
  {
    hide Honest, Registry, Numbered, Counted, Named, Cached, Agreed, Stored, Tells, GroupLines, AllTopics,
         ProcessGroupsEach, TellGroups;
    var s1, order := s.(channels := {}), w.contactOrder(s.contacts.Keys);
    SilentKeeps(cfg, s, s1);
    ContactsListed(w, s);
    GroupsEachKeep(cfg, w, s1, order);
    s2 := ProcessGroupsEach(cfg, w, s1, order).value;
    EachQuiet(cfg, w, s1, order);
    var ids := w.groupOrder(s2.groups.Keys);
    GroupsListed(w, s2);
    GroupsSaid(cfg, w, s2, ids);
    var lines := GroupLines(cfg, w, s2, s2.topics, ids);
    assert ProcessGroups(cfg, w, s).value.log == s2.log + lines;
    assert Since(s, ProcessGroups(cfg, w, s).value) == s2.log[|s.log|..] + lines;
    assert x !in s2.log[|s.log|..];
  }

  /** The rows of recipients are met by their ids. */
  lemma {:induction false} MetById(recipients: map<Addr, Recipient>, order: seq<Addr>, a: Addr)
    requires OneIdEach(recipients) && a in recipients && a in order
    ensures FindById(recipients, order, recipients[a].id) == Some(a)
    decreases order
  {
    if order[0] != a { MetById(recipients, order[1..], a); }
  }

  lemma {:induction false} FoundById(w: World, s: State, a: Addr)
    requires Honest(w) && OneIdEach(s.recipients) && a in s.recipients
    ensures Found(w, s, s.recipients[a].id) == Some(a)
  {
    hide FindById;
    assert Lists(w.recipientOrder(s.recipients.Keys), s.recipients.Keys);
    MetById(s.recipients, w.recipientOrder(s.recipients.Keys), a);
  }

  /** A ghost's MODE line for a channel is that of its own id. */
  lemma {:induction false} ModeOfGhost(w: World, s: State, g: int, a: Addr, op: bool)
    requires Honest(w) && Registry(s) && OneIdEach(s.recipients) && OneChannelEach(s.groups)
    requires g in s.groups && a in s.contacts
    ensures var x := Out(Mode(s.groups[g].channel, op, s.contacts[a].uuid));
            && (forall h :: ModeIn(w, s, h, x) ==> h == g)
            && (ModeIn(w, s, g, x) <==> s.recipients[a].id in s.groups[g].participants
                                        && op == (s.recipients[a].id in s.groups[g].admins))
  {
    hide Honest, Found;
    var x, id := Out(Mode(s.groups[g].channel, op, s.contacts[a].uuid)), s.recipients[a].id;
    FoundById(w, s, a);
    forall k | x in ModeOf(w, s, s.groups[g], k) ensures k == id && op == (id in s.groups[g].admins) {
      IdOfFound(w, s, k);
    }
    if id in s.groups[g].participants && op == (id in s.groups[g].admins) {
      ghost var k: int := id;
      assert x in ModeOf(w, s, s.groups[g], k);
    }
    forall h | ModeIn(w, s, h, x) ensures h == g {}
  }

  lemma IdOfFound(w: World, s: State, id: int)
    ensures Found(w, s, id).Some? ==> Found(w, s, id).value in s.recipients
                                      && s.recipients[Found(w, s, id).value].id == id
  {
  }

  /** In a group's channel a ghost is made an operator if it is an admin among the participants, is made none if it is a
      participant that is no admin, and is left alone otherwise. */
  lemma {:induction false} OperatorsExact(cfg: Config, w: World, s: State, g: int, a: Addr)
    requires Inv(cfg, s) && Honest(w) && ProcessGroups(cfg, w, s).Ok?
    requires OneIdEach(s.recipients) && OneChannelEach(s.groups)
    requires g in s.groups && a in s.contacts
    ensures a in s.recipients
    ensures var id, lines, uuid := s.recipients[a].id, Since(s, ProcessGroups(cfg, w, s).value), s.contacts[a].uuid;
            && (Out(Mode(s.groups[g].channel, true, uuid)) in lines
                <==> id in s.groups[g].participants && id in s.groups[g].admins)
            && (Out(Mode(s.groups[g].channel, false, uuid)) in lines
                <==> id in s.groups[g].participants && id !in s.groups[g].admins)
  {
    OperatorExact(cfg, w, s, g, a, true);
    OperatorExact(cfg, w, s, g, a, false);
  }

  lemma {:induction false} OperatorExact(cfg: Config, w: World, s: State, g: int, a: Addr, op: bool)
    requires Inv(cfg, s) && Honest(w) && ProcessGroups(cfg, w, s).Ok?
    requires OneIdEach(s.recipients) && OneChannelEach(s.groups)
    requires g in s.groups && a in s.contacts
    ensures a in s.recipients
    ensures Out(Mode(s.groups[g].channel, op, s.contacts[a].uuid)) in Since(s, ProcessGroups(cfg, w, s).value)
            <==> s.recipients[a].id in s.groups[g].participants && op == (s.recipients[a].id in s.groups[g].admins)
  {
    hide Honest, Numbered, Counted, Named, Cached, Agreed, Stored, ProcessGroups, GroupLines, ModeIn, Since;
    var x := Out(Mode(s.groups[g].channel, op, s.contacts[a].uuid));
    var ids := w.groupOrder(s.groups.Keys);
    var s2 := Told(cfg, w, s, x);
    ModeOfGhost(w, s2, g, a, op);
    InGroups(cfg, w, s2, s.topics, ids, x);
    ghost var k: int := g;
    assert k in ids;
  }

  /** A group's topic is sent to its channel, and known from then on, exactly if it is due; it is due again only if
      it is empty. */
  lemma {:induction false} TopicsExact(cfg: Config, w: World, s: State, g: int, text: string)
    requires Inv(cfg, s) && Honest(w) && ProcessGroups(cfg, w, s).Ok?
    requires OneChannelEach(s.groups) && g in s.groups
    ensures var s', channel := ProcessGroups(cfg, w, s).value, s.groups[g].channel;
            && (Out(Topic(channel, text)) in Since(s, s') <==>
                 Due(cfg, s.topics, s.groups[g]) && text == s.groups[g].topic)
            && Known(s'.topics, channel)
               == (if Due(cfg, s.topics, s.groups[g]) then s.groups[g].topic else Known(s.topics, channel))
            && (Due(cfg, s'.topics, s.groups[g]) <==> Due(cfg, s.topics, s.groups[g]) && s.groups[g].topic == "")
  {
    hide Inv, Honest, ProcessGroups, GroupLines, AllTopics, Since;
    var x, ids := Out(Topic(s.groups[g].channel, text)), w.groupOrder(s.groups.Keys);
    var s2 := Told(cfg, w, s, x);
    InTopics(cfg, w, s2, s.topics, ids, g, x);
    ghost var k: int := g;
    assert k in ids;
  }
}
