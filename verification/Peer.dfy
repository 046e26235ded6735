/** What the IRC peer has been told: the lines of a link and the view they give of our users. */
module Peer {
  import opened Outcomes
  import opened Address

  datatype Target = ToAdmin | ToChannel(name: string)

  /** A line we send. `ToAdmin` stands for the UUID `admin_uuid` finds; the mode notice is the one
      about automatic mode switches. */
  datatype Line =
    | UidLine(uid: string, nick: string, host: string)
    | Quit(uid: string)
    | Join(uid: string, channel: string)
    | Part(uid: string, channel: string)
    | NickLine(uid: string, nick: string)
    | FHost(uid: string, host: string)
    | Away(uid: string, reason: Option<string>)
    | Privmsg(uid: string, to: Target, text: string)
    | ModeNotice(uid: string, whatsapp: bool)
    | ErrorNotice(uid: string)
    | SvsJoin(channel: string)
    | Mode(channel: string, op: bool, uid: string)   // +o or -o
    | Topic(channel: string, text: string)
    | Hello   // the CAPAB lines and the SERVER line
    | Burst
    | EndBurst
    | Watch   // WATCH of the admin, by a contact with its own connection

  /** An entry of the history of a link: a line sent, the peer telling us that a user is gone
      (KILL or QUIT), a request to another task to create a contact, or a message row deleted. */
  datatype Wire = Out(line: Line) | Gone(uid: string) | Asked(addr: Addr, source: int) | Removed(id: int)

  /** A user as the peer sees it. */
  datatype Seen = Seen(nick: string, host: string, channels: set<string>)

  type View = map<string, Seen>

  function Tell(v: View, w: Wire): View {
    match w
    case Out(UidLine(u, nick, host)) => v[u := Seen(nick, host, {})]
    case Out(Quit(u)) => v - {u}
    case Gone(u) => v - {u}
    case Out(Join(u, c)) => if u in v then v[u := v[u].(channels := v[u].channels + {c})] else v
    case Out(Part(u, c)) => if u in v then v[u := v[u].(channels := v[u].channels - {c})] else v
    case Out(NickLine(u, n)) => if u in v then v[u := v[u].(nick := n)] else v
    case Out(FHost(u, h)) => if u in v then v[u := v[u].(host := h)] else v
    case _ => v
  }

  function Replay(v: View, ws: seq<Wire>): View
    decreases ws
  {
    if ws == [] then v else Replay(Tell(v, ws[0]), ws[1..])
  }

  lemma {:induction false} ReplayAppend(v: View, xs: seq<Wire>, ys: seq<Wire>)
    ensures Replay(v, xs + ys) == Replay(Replay(v, xs), ys)
    decreases xs
  {
    if xs == [] {
      assert xs + ys == ys;
    } else {
      assert (xs + ys)[1..] == xs[1..] + ys;
      ReplayAppend(Tell(v, xs[0]), xs[1..], ys);
    }
  }

  lemma {:induction false} ReplayOne(v: View, xs: seq<Wire>, w: Wire)
    ensures Replay(v, xs + [w]) == Tell(Replay(v, xs), w)
  {
    ReplayAppend(v, xs, [w]);
    assert [w][1..] == [];
  }

  /** Lines that change nothing about who our users are. */
  predicate Quiet(w: Wire) {
    match w
    case Out(line) => !(line.UidLine? || line.Quit? || line.Join? || line.Part? || line.NickLine? || line.FHost?)
    case Gone(_) => false
    case Asked(_, _) => true
    case Removed(_) => true
  }

  lemma {:induction false} ReplayQuiet(v: View, ws: seq<Wire>)
    requires forall i :: 0 <= i < |ws| ==> Quiet(ws[i])
    ensures Replay(v, ws) == v
    decreases ws
  {
    if ws != [] { ReplayQuiet(v, ws[1..]); }
  }

  function Joins(u: string, channels: seq<string>): (ws: seq<Wire>)
    ensures |ws| == |channels|
    ensures forall i :: 0 <= i < |ws| ==> ws[i] == Out(Join(u, channels[i]))
  {
    if channels == [] then [] else [Out(Join(u, channels[0]))] + Joins(u, channels[1..])
  }

  function Parts(u: string, channels: seq<string>): (ws: seq<Wire>)
    ensures |ws| == |channels|
    ensures forall i :: 0 <= i < |ws| ==> ws[i] == Out(Part(u, channels[i]))
  {
    if channels == [] then [] else [Out(Part(u, channels[0]))] + Parts(u, channels[1..])
  }

  lemma {:induction false} ReplayJoins(v: View, u: string, channels: seq<string>)
    requires u in v
    ensures Replay(v, Joins(u, channels)) == v[u := v[u].(channels := v[u].channels + Elements(channels))]
    decreases channels
  {
    if channels == [] {
      assert v[u].channels + Elements([]) == v[u].channels;
      assert v[u := v[u]] == v;
    } else {
      var v' := Tell(v, Out(Join(u, channels[0])));
      assert Joins(u, channels)[1..] == Joins(u, channels[1..]);
      ReplayJoins(v', u, channels[1..]);
      assert v'[u].channels + Elements(channels[1..]) == v[u].channels + Elements(channels);
    }
  }

  lemma {:induction false} ReplayParts(v: View, u: string, channels: seq<string>)
    requires u in v
    ensures Replay(v, Parts(u, channels)) == v[u := v[u].(channels := v[u].channels - Elements(channels))]
    decreases channels
  {
    if channels == [] {
      assert v[u].channels - Elements([]) == v[u].channels;
      assert v[u := v[u]] == v;
    } else {
      var v' := Tell(v, Out(Part(u, channels[0])));
      assert Parts(u, channels)[1..] == Parts(u, channels[1..]);
      ReplayParts(v', u, channels[1..]);
      assert v'[u].channels - Elements(channels[1..]) == v[u].channels - Elements(channels);
    }
  }

  /** Old channels no longer wanted, in order. */
  function Dropped(had: seq<string>, wanted: seq<string>): (r: seq<string>)
    ensures forall c :: c in r <==> c in had && c !in wanted
  {
    if had == [] then [] else (if had[0] in wanted then [] else [had[0]]) + Dropped(had[1..], wanted)
  }

  /** Joining the wanted channels and parting the dropped ones leaves exactly the wanted ones. */
  lemma {:induction false} ReplaySwitch(v: View, u: string, had: seq<string>, wanted: seq<string>)
    requires u in v && v[u].channels == Elements(had)
    ensures Replay(v, Joins(u, wanted) + Parts(u, Dropped(had, wanted))) == v[u := v[u].(channels := Elements(wanted))]
  {
    ReplayAppend(v, Joins(u, wanted), Parts(u, Dropped(had, wanted)));
    ReplayJoins(v, u, wanted);
    ReplayParts(Replay(v, Joins(u, wanted)), u, Dropped(had, wanted));
    assert Elements(had) + Elements(wanted) - Elements(Dropped(had, wanted)) == Elements(wanted);
  }

  /** The UUIDs introduced, in order, apart from one. */
  function Introduced(ws: seq<Wire>, except: string): seq<string> {
    if ws == [] then []
    else (match ws[0]
          case Out(UidLine(u, _, _)) => if u == except then [] else [u]
          case _ => []) + Introduced(ws[1..], except)
  }

  lemma {:induction false} IntroducedAppend(xs: seq<Wire>, ys: seq<Wire>, except: string)
    ensures Introduced(xs + ys, except) == Introduced(xs, except) + Introduced(ys, except)
  {
    if xs == [] {
      assert xs + ys == ys;
    } else {
      assert (xs + ys)[1..] == xs[1..] + ys;
      IntroducedAppend(xs[1..], ys, except);
    }
  }

  lemma {:induction false} IntroducedNone(ws: seq<Wire>, except: string)
    requires forall i :: 0 <= i < |ws| ==> !(ws[i].Out? && ws[i].line.UidLine?)
    ensures Introduced(ws, except) == []
  {
    if ws != [] { IntroducedNone(ws[1..], except); }
  }
}
