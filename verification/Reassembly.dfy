/**
 Reassembly of concatenated SMS in `Sender::process_msg_pdu`: the decoded parts are sorted by their
 sequence number and their texts appended.
 */
module Reassembly {
  import Fragments

  /** A decoded part with the sequence number of its user data header
      (section 9.2.3.24.1 of 3GPP TS 23.040). */
  datatype Piece = Piece(text: string, sequence: nat)

  predicate Sorted(ps: seq<Piece>) {
    forall i, j :: 0 <= i < j < |ps| ==> ps[i].sequence <= ps[j].sequence
  }

  predicate Distinct(ps: seq<Piece>) {
    forall i, j :: 0 <= i < j < |ps| ==> ps[i].sequence != ps[j].sequence
  }

  /** The pieces carrying one sequence number, in their order. */
  function Carrying(ps: seq<Piece>, n: nat): seq<Piece> {
    if ps == [] then [] else (if ps[0].sequence == n then [ps[0]] else []) + Carrying(ps[1..], n)
  }

  function Insert(p: Piece, ps: seq<Piece>): (r: seq<Piece>)
    ensures multiset(r) == multiset{p} + multiset(ps)
  {
    if ps == [] || p.sequence <= ps[0].sequence then [p] + ps
    else
      assert ps == [ps[0]] + ps[1..];
      [ps[0]] + Insert(p, ps[1..])
  }

  predicate From(n: nat, ps: seq<Piece>) {
    forall k :: 0 <= k < |ps| ==> n <= ps[k].sequence
  }

  lemma {:induction false} InsertFrom(n: nat, p: Piece, ps: seq<Piece>)
    requires From(n, ps) && n <= p.sequence
    ensures From(n, Insert(p, ps))
  {
    if ps != [] && p.sequence > ps[0].sequence { InsertFrom(n, p, ps[1..]); }
  }

  lemma {:induction false} InsertSorted(p: Piece, ps: seq<Piece>)
    requires Sorted(ps)
    ensures Sorted(Insert(p, ps))
  {
    if ps != [] && p.sequence > ps[0].sequence {
      InsertSorted(p, ps[1..]);
      InsertFrom(ps[0].sequence, p, ps[1..]);
    }
  }

  /** `sort_by_key` on the sequence number: a sorted rearrangement. */
  function Sort(ps: seq<Piece>): (r: seq<Piece>)
    ensures multiset(r) == multiset(ps)
    ensures Sorted(r)
  {
    if ps == [] then []
    else
      assert ps == [ps[0]] + ps[1..];
      InsertSorted(ps[0], Sort(ps[1..]));
      Insert(ps[0], Sort(ps[1..]))
  }

  lemma {:induction false} CarryingFront(p: Piece, ps: seq<Piece>, n: nat)
    ensures Carrying([p] + ps, n) == (if p.sequence == n then [p] else []) + Carrying(ps, n)
  {
    assert ([p] + ps)[1..] == ps;
  }

  lemma {:induction false} InsertKeepsOrder(p: Piece, ps: seq<Piece>, n: nat)
    ensures Carrying(Insert(p, ps), n) == (if p.sequence == n then [p] else []) + Carrying(ps, n)
  {
    if ps == [] || p.sequence <= ps[0].sequence {
      CarryingFront(p, ps, n);
      hide Carrying;
    } else {
      InsertKeepsOrder(p, ps[1..], n);
      CarryingFront(ps[0], Insert(p, ps[1..]), n);
      CarryingFront(ps[0], ps[1..], n);
      assert [ps[0]] + ps[1..] == ps;
      hide Carrying;
      assert p.sequence != n || ps[0].sequence != n;
    }
  }

  /** Parts with the same sequence number keep the order in which the database returned them. */
  lemma {:induction false} SortIsStable(ps: seq<Piece>, n: nat)
    ensures Carrying(Sort(ps), n) == Carrying(ps, n)
  {
    if ps != [] {
      SortIsStable(ps[1..], n);
      InsertKeepsOrder(ps[0], Sort(ps[1..]), n);
    }
  }

  function Texts(ps: seq<Piece>): (r: seq<string>)
    ensures |r| == |ps|
    ensures forall i :: 0 <= i < |ps| ==> r[i] == ps[i].text
  {
    if ps == [] then [] else [ps[0].text] + Texts(ps[1..])
  }

  /** The text of the parts, given in the order the database returned them. */
  function Reassemble(ps: seq<Piece>): string {
    Fragments.Concat(Texts(Sort(ps)))
  }

  lemma {:induction false} Tail(a: seq<Piece>)
    requires a != [] && Sorted(a) && Distinct(a)
    ensures multiset(a[1..]) == multiset(a) - multiset{a[0]}
    ensures Sorted(a[1..]) && Distinct(a[1..])
    ensures a == [a[0]] + a[1..]
  {
    assert a == [a[0]] + a[1..];
  }

  lemma {:induction false} SameHead(a: seq<Piece>, b: seq<Piece>)
    requires Sorted(a) && Sorted(b) && Distinct(b) && multiset(a) == multiset(b)
    requires a != [] && b != []
    ensures a[0] == b[0]
  {
    assert a[0] in multiset(b) && b[0] in multiset(a);
    assert a[0].sequence == b[0].sequence;
  }

  lemma {:induction false} SortedUnique(a: seq<Piece>, b: seq<Piece>)
    requires Sorted(a) && Sorted(b) && multiset(a) == multiset(b)
    requires Distinct(a) && Distinct(b)
    ensures a == b
    decreases |a|
  {
    assert |a| == |multiset(a)| == |multiset(b)| == |b|;
    if a != [] {
      SameHead(a, b);
      Tail(a);
      Tail(b);
      SortedUnique(a[1..], b[1..]);
    }
  }

  /** Distinctness is a property of the multiset of parts. */
  lemma {:induction false} DistinctTransfers(a: seq<Piece>, b: seq<Piece>)
    requires multiset(a) == multiset(b) && Distinct(a)
    ensures Distinct(b)
  {
    forall i, j | 0 <= i < j < |b| ensures b[i].sequence != b[j].sequence {
      if b[i].sequence == b[j].sequence {
        assert b[i] in multiset(a) && b[j] in multiset(a);
        assert b[i] == b[j];
        Twice(b, i, j);
        Once(a, b[i]);
        assert false;
      }
    }
  }

  lemma {:induction false} Twice(b: seq<Piece>, i: nat, j: nat)
    requires i < j < |b| && b[i] == b[j]
    ensures multiset(b)[b[i]] >= 2
  {
    assert b == b[..j] + [b[j]] + b[j + 1..];
    assert b[i] == b[..j][i] && b[i] in multiset(b[..j]);
  }

  lemma {:induction false} Once(a: seq<Piece>, p: Piece)
    requires Distinct(a)
    ensures multiset(a)[p] <= 1
  {
    if a != [] {
      assert a == [a[0]] + a[1..];
      Once(a[1..], p);
      if a[0] == p && p in a[1..] {
        var j :| 1 <= j < |a| && a[j] == p;
        assert false;
      }
    }
  }

  /** With distinct sequence numbers the text does not depend on the order the rows come in. */
  lemma {:induction false} OrderIrrelevant(a: seq<Piece>, b: seq<Piece>)
    requires multiset(a) == multiset(b) && Distinct(a)
    ensures Reassemble(a) == Reassemble(b)
  {
    DistinctTransfers(a, b);
    DistinctTransfers(a, Sort(a));
    DistinctTransfers(b, Sort(b));
    SortedUnique(Sort(a), Sort(b));
  }

  /** A text split into parts numbered from 1. */
  function Numbered(texts: seq<string>): (r: seq<Piece>)
    ensures |r| == |texts|
    ensures forall i :: 0 <= i < |r| ==> r[i] == Piece(texts[i], i + 1)
  {
    seq(|texts|, i requires 0 <= i < |texts| => Piece(texts[i], i + 1))
  }

  /** Parts that are the numbered pieces of a text, in any order, give the text back. */
  lemma {:induction false} RestoresText(texts: seq<string>, ps: seq<Piece>)
    requires multiset(ps) == multiset(Numbered(texts))
    ensures Reassemble(ps) == Fragments.Concat(texts)
  {
    var whole := Numbered(texts);
    OrderIrrelevant(whole, ps);
    DistinctTransfers(whole, Sort(whole));
    SortedUnique(Sort(whole), whole);
    assert Texts(whole) == texts;
  }

  /** Two parts with the same number: the order of the rows shows in the text. */
  lemma {:induction false} DuplicatesDependOnOrder(a: string, b: string, n: nat)
    ensures Reassemble([Piece(a, n), Piece(b, n)]) == a + b
  {
    var p, q := Piece(a, n), Piece(b, n);
    assert [p, q][1..] == [q] && [q][1..] == [];
    assert Sort([q]) == [q];
    assert Sort([p, q]) == Insert(p, [q]) == [p, q];
    assert Texts([p, q]) == [a, b];
    assert [a, b][1..] == [b] && [b][1..] == [];
    assert Fragments.Concat([b]) == b + [] == b;
  }
}
