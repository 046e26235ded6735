/** The text of a concatenated message, as the database holds its parts. */
module DeliveredTexts {
  import opened Outcomes
  import opened Address
  import opened Delivery
  import Fragments
  import Reassembly

  /** The row is a part that decodes. */
  predicate Part(table: Table, i: int) {
    i in table && IsPart(table[i])
  }

  function PieceOf(table: Table, i: int): Reassembly.Piece
    requires Part(table, i)
  {
    Reassembly.Piece(table[i].body.pdu.text, table[i].body.pdu.concat.value.sequence)
  }

  /** The parts have different sequence numbers. */
  ghost predicate DistinctParts(table: Table, ids: set<int>) {
    forall i, j :: i in ids && j in ids && i != j && Part(table, i) && Part(table, j) ==>
      PieceOf(table, i).sequence != PieceOf(table, j).sequence
  }

  lemma {:induction false} GroupParts(table: Table, row: Row)
    requires WellKept(table) && IsPart(row)
    ensures forall i :: i in Takes(table, row) ==> Part(table, i)
  {
    forall i | i in Takes(table, row) ensures Part(table, i) {
      assert StoredByModem(table[i]);
    }
  }

  lemma {:induction false} PiecesAre(table: Table, ids: seq<int>)
    requires forall k :: 0 <= k < |ids| ==> Part(table, ids[k])
    ensures Pieces(table, ids).Ok?
    ensures var ps := Pieces(table, ids).value;
            |ps| == |ids| && forall k :: 0 <= k < |ids| ==> ps[k] == PieceOf(table, ids[k])
  {
    if ids != [] {
      forall k | 0 <= k < |ids[1..]| ensures Part(table, ids[1..][k]) {
        assert ids[1..][k] == ids[k + 1];
      }
      PiecesAre(table, ids[1..]);
    }
  }

  /** A sequence without repetitions is, as a multiset, the set of its elements. */
  lemma {:induction false} NoRepeats<T>(xs: seq<T>)
    requires forall i, j :: 0 <= i < j < |xs| ==> xs[i] != xs[j]
    ensures multiset(xs) == multiset(Elements(xs)) && |Elements(xs)| == |xs|
  {
    if xs != [] {
      var later := xs[1..];
      forall i | 0 <= i < |later| ensures later[i] == xs[i + 1] {}
      NoRepeats(later);
      assert xs == [xs[0]] + later && xs[0] !in later;
      assert Elements(xs) == {xs[0]} + Elements(later);
    }
  }

  /** Pieces of a listing of distinct parts. */
  lemma {:induction false} PiecesDistinct(table: Table, ids: seq<int>, s: set<int>)
    requires Lists(ids, s) && (forall i :: i in s ==> Part(table, i)) && DistinctParts(table, s)
    ensures Pieces(table, ids).Ok?
    ensures var ps := Pieces(table, ids).value;
            && |ps| == |ids| && Reassembly.Distinct(ps)
            && (forall p :: p in Elements(ps) <==> exists i :: i in s && PieceOf(table, i) == p)
  {
    forall k | 0 <= k < |ids| ensures ids[k] in s {
      assert ids[k] in ids;
    }
    PiecesAre(table, ids);
    var ps := Pieces(table, ids).value;
    forall p | p in ps ensures exists i :: i in s && PieceOf(table, i) == p {
      var k :| 0 <= k < |ps| && ps[k] == p;
      assert ids[k] in s;
    }
    forall i | i in s ensures PieceOf(table, i) in ps {
      assert i in ids;
      var k :| 0 <= k < |ids| && ids[k] == i;
      assert ps[k] == PieceOf(table, i);
    }
  }

  /** The text of a message does not depend on the order in which the database returns its parts, nor
      on the clock, when their sequence numbers are distinct. */
  lemma {:induction false} TextIndependent(o: Oracle, o': Oracle, table: Table, row: Row)
    requires Honest(o) && Honest(o') && WellKept(table) && IsPart(row)
    requires DistinctParts(table, Takes(table, row))
    ensures TextOf(o, table, row) == TextOf(o', table, row)
  {
    GroupParts(table, row);
    var s := Takes(table, row);
    assert Lists(o.concatOrder(s), s) && Lists(o'.concatOrder(s), s);
    PiecesDistinct(table, o.concatOrder(s), s);
    PiecesDistinct(table, o'.concatOrder(s), s);
    var a, b := Pieces(table, o.concatOrder(s)).value, Pieces(table, o'.concatOrder(s)).value;
    SameParts(a, b);
    hide Pieces, Takes, DistinctParts, Lists, Reassembly.Reassemble;
  }

  lemma {:induction false} SameParts(a: seq<Reassembly.Piece>, b: seq<Reassembly.Piece>)
    requires Reassembly.Distinct(a) && Reassembly.Distinct(b) && Elements(a) == Elements(b)
    ensures multiset(a) == multiset(b) && Reassembly.Reassemble(a) == Reassembly.Reassemble(b)
  {
    NoRepeats(a);
    NoRepeats(b);
    Reassembly.OrderIrrelevant(a, b);
  }

  /** The rows of a message are the parts 1, 2, ... of a split text, each stored once. */
  ghost predicate NumberedParts(table: Table, ids: set<int>, texts: seq<string>) {
    && DistinctParts(table, ids)
    && (forall i :: i in ids && Part(table, i) ==>
          var p := PieceOf(table, i);
          1 <= p.sequence <= |texts| && p.text == texts[p.sequence - 1])
    && |ids| == |texts|
  }

  /** Such a message is delivered as that text, whatever order its rows come in. */
  lemma {:induction false} TextRestored(o: Oracle, table: Table, row: Row, texts: seq<string>)
    requires Honest(o) && WellKept(table) && IsPart(row)
    requires NumberedParts(table, Takes(table, row), texts)
    ensures TextOf(o, table, row) == Fragments.Concat(texts)
  {
    GroupParts(table, row);
    var s := Takes(table, row);
    var ids := o.concatOrder(s);
    assert Lists(ids, s);
    PiecesDistinct(table, ids, s);
    ListsSize(ids, s);
    hide Pieces, Takes, Lists, Reassembly.Reassemble, Reassembly.Distinct;
    AllPieces(table, s, texts, Pieces(table, ids).value);
  }

  /** As many distinct pieces as there are texts, each a numbered one, are all of them. */
  lemma {:induction false} AllPieces(table: Table, s: set<int>, texts: seq<string>, ps: seq<Reassembly.Piece>)
    requires (forall i :: i in s ==> Part(table, i)) && NumberedParts(table, s, texts)
    requires |ps| == |s| && Reassembly.Distinct(ps)
    requires forall p :: p in Elements(ps) <==> exists i :: i in s && PieceOf(table, i) == p
    ensures Reassembly.Reassemble(ps) == Fragments.Concat(texts)
  {
    hide Reassembly.Reassemble;
    var whole := Reassembly.Numbered(texts);
    assert Reassembly.Distinct(whole);
    NoRepeats(ps);
    NoRepeats(whole);
    forall p | p in Elements(ps) ensures p in Elements(whole) {
      var i :| i in s && PieceOf(table, i) == p;
      assert whole[p.sequence - 1] == p;
    }
    SameSize(Elements(ps), Elements(whole));
    Reassembly.RestoresText(texts, ps);
  }

  lemma {:induction false} SameSize<T>(a: set<T>, b: set<T>)
    requires a <= b && |a| == |b|
    ensures a == b
  {
    if a != b {
      var x :| x in b && x !in a;
      assert |b| == |b - {x}| + 1;
      Smaller(a, b - {x});
    }
  }

  lemma {:induction false} Smaller<T>(a: set<T>, b: set<T>)
    requires a <= b
    ensures |a| <= |b|
  {
    if a != {} {
      var x :| x in a;
      Smaller(a - {x}, b - {x});
    }
  }

  /** What a send of a complete message of numbered parts says is that text. */
  lemma {:induction false} SendRestored(o: Oracle, table: Table, known: set<Addr>, send: Send, texts: seq<string>)
    requires Honest(o) && WellKept(table) && RightSend(o, table, known, send) && send.ids != [] && IsPart(send.row)
    requires NumberedParts(table, Takes(table, send.row), texts)
    ensures send.text == Fragments.Concat(texts) && Lists(send.ids, Takes(table, send.row))
  {
    TextRestored(o, table, send.row, texts);
  }

  // ---- texts that are not SMS in parts ----

  /** What a WhatsApp message is sent as: its time stamp, if it has one, and its text. The stamp goes before the text,
      but after the prefix of an action, so that an action stays one and the message's own text ends the line. */
  ghost predicate StampedRight(stamp: string, text: string, sent: string) {
    && (!("\U{1}ACTION " <= text) ==> sent == stamp + text)
    && (forall rest: string :: text == "\U{1}ACTION " + rest ==> sent == "\U{1}ACTION " + stamp + rest)
  }

  lemma {:induction false} StampPlaced(stamp: string, text: string)
    ensures StampedRight(stamp, text, Stamped(stamp, text))
  {
    forall rest: string | text == "\U{1}ACTION " + rest ensures Stamped(stamp, text) == "\U{1}ACTION " + stamp + rest {
      assert text[|ACTION|..] == rest;
    }
  }

  /** So each send of a pass for a WhatsApp message has that text, for that row alone; and one for an SMS in one part
      has its text as it is. */
  lemma {:induction false} PlainSent(o: Oracle, table: Table, known: set<Addr>, send: Send)
    requires RightSend(o, table, known, send) && send.ids != []
    ensures send.row.body.Plain? ==>
              send.ids == [send.row.id] && StampedRight(o.stamp(send.row.ts), send.row.body.text, send.text)
    ensures send.row.body.Sms? && send.row.body.pdu.Decoded? && send.row.body.pdu.concat.None? ==>
              send.ids == [send.row.id] && send.text == send.row.body.pdu.text
  {
    hide StampedRight, Stamped;
    if send.row.body.Plain? { StampPlaced(o.stamp(send.row.ts), send.row.body.text); }
    if !IsPart(send.row) {
      ListsSize(send.ids, {send.row.id});
      assert send.ids[0] in send.ids;
    }
  }
}
