/** The nickname collision search of `InspLink::check_nick_for_collisions`. */
module Nicks {
  import opened Outcomes
  import Decimal

  /** The `i`-th alternative to a taken nick: the nick with the decimal number appended. */
  function Alternative(nick: string, i: nat): string {
    nick + Decimal.Render(i)
  }

  lemma AlternativeInjective(nick: string, i: nat, j: nat)
    requires Alternative(nick, i) == Alternative(nick, j)
    ensures i == j
  {
    assert Alternative(nick, i)[|nick|..] == Decimal.Render(i);
    assert Alternative(nick, j)[|nick|..] == Decimal.Render(j);
    Decimal.RenderInjective(i, j);
  }

  /** The alternatives below `n`. */
  function Tried(nick: string, n: nat): (s: set<string>)
    ensures forall x :: x in s <==> exists i: nat :: i < n && x == Alternative(nick, i)
  {
    if n == 0 then {} else Tried(nick, n - 1) + {Alternative(nick, n - 1)}
  }

  lemma TriedFresh(nick: string, n: nat)
    ensures Alternative(nick, n) !in Tried(nick, n)
  {
    if Alternative(nick, n) in Tried(nick, n) {
      var i: nat :| i < n && Alternative(nick, n) == Alternative(nick, i);
      AlternativeInjective(nick, n, i);
      assert false;
    }
  }

  lemma {:induction false} TriedSize(nick: string, n: nat)
    ensures |Tried(nick, n)| == n
  {
    if n > 0 {
      TriedSize(nick, n - 1);
      TriedFresh(nick, n - 1);
    }
  }

  lemma TriedGrows(used: set<string>, nick: string, i: nat)
    requires Alternative(nick, i) in used
    ensures used - Tried(nick, i + 1) < used - Tried(nick, i)
  {
    TriedFresh(nick, i);
    assert Tried(nick, i) <= Tried(nick, i + 1);
    assert Alternative(nick, i) in used - Tried(nick, i);
  }

  /** The least index from `i` on whose alternative is not in use; the search ends because each
      step uses up one of the finitely many names in use. */
  function FirstFree(used: set<string>, nick: string, i: nat): (k: nat)
    ensures i <= k && Alternative(nick, k) !in used
    ensures forall j: nat :: i <= j < k ==> Alternative(nick, j) in used
    decreases used - Tried(nick, i)
  {
    if Alternative(nick, i) in used then
      TriedGrows(used, nick, i);
      FirstFree(used, nick, i + 1)
    else i
  }

  /** `check_nick_for_collisions`: nothing to change, or the first free alternative. */
  function Check(used: set<string>, nick: string): (r: Option<string>)
    ensures r.None? <==> nick !in used
    ensures r.Some? ==> r.value !in used
  {
    if nick in used then Some(Alternative(nick, FirstFree(used, nick, 0))) else None
  }

  /** The nick a ghost that asks for `nick` ends up with. */
  function Settle(used: set<string>, nick: string): (r: string)
    ensures r !in used
  {
    match Check(used, nick)
    case Some(other) => other
    case None => nick
  }

  /** Pigeonhole: a taken nick is replaced by its alternative with the least free suffix, and that
      suffix is smaller than the number of names in use. */
  lemma SuffixBound(used: set<string>, nick: string) returns (k: nat)
    requires nick in used
    ensures Check(used, nick) == Some(Alternative(nick, k))
    ensures Alternative(nick, k) !in used
    ensures forall j: nat :: j < k ==> Alternative(nick, j) in used
    ensures k < |used|
  {
    k := FirstFree(used, nick, 0);
    TriedSize(nick, k);
    forall x | x in Tried(nick, k)
      ensures x in used - {nick}
    {
      var i: nat :| i < k && x == Alternative(nick, i);
      assert |x| > |nick|;
    }
    SubsetSize(Tried(nick, k), used - {nick});
  }

  lemma {:induction false} SubsetSize(a: set<string>, b: set<string>)
    requires a <= b
    ensures |a| <= |b|
  {
    if a != {} {
      var x :| x in a;
      SubsetSize(a - {x}, b - {x});
    }
  }

  /** The nicks of a table of users. */
  lemma {:induction false} ImageSize<K>(table: map<K, string>)
    ensures |table.Values| <= |table|
  {
    if table != map[] {
      var k :| k in table;
      var rest := table - {k};
      ImageSize(rest);
      assert table.Values <= rest.Values + {table[k]} by {
        forall v | v in table.Values ensures v in rest.Values + {table[k]} {
          var j :| j in table && table[j] == v;
          if j != k { assert j in rest && rest[j] == v; }
        }
      }
      SubsetSize(table.Values, rest.Values + {table[k]});
    }
  }
}
