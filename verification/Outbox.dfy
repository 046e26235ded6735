/** `sink_outbox!`: draining an outbox into a sink that may not be ready. */
module Outbox {
  /** What `start_send` answers; an error ends the task in the middle of the pass. */
  datatype Answer = Ready | NotReady | Broken

  /** The messages of one pass that got a given answer, in order. */
  function Answered<T>(msgs: seq<T>, answers: seq<Answer>, wanted: Answer): (r: seq<T>)
    requires |msgs| <= |answers|
    ensures forall x :: x in r ==> x in msgs
  {
    if msgs == [] then []
    else (if answers[0] == wanted then [msgs[0]] else []) + Answered(msgs[1..], answers[1..], wanted)
  }

  /** Once the sink is not ready, it stays so for the rest of the pass. */
  ghost predicate Persists(answers: seq<Answer>, n: nat)
    requires n <= |answers|
  {
    forall i, j :: 0 <= i < j < n && answers[i] == NotReady ==> answers[j] == NotReady
  }

  ghost predicate Unbroken(answers: seq<Answer>, n: nat)
    requires n <= |answers|
  {
    forall i :: 0 <= i < n ==> answers[i] != Broken
  }

  ghost predicate Distinct<T>(msgs: seq<T>) {
    forall i, j :: 0 <= i < j < |msgs| ==> msgs[i] != msgs[j]
  }

  lemma {:induction false} AnsweredAppend<T>(msgs: seq<T>, answers: seq<Answer>, i: nat, wanted: Answer)
    requires i < |msgs| <= |answers|
    ensures Answered(msgs[..i + 1], answers, wanted) ==
            Answered(msgs[..i], answers, wanted) + if answers[i] == wanted then [msgs[i]] else []
  {
    if i > 0 {
      AnsweredAppend(msgs[1..], answers[1..], i - 1, wanted);
      assert msgs[1..][..i] == msgs[..i + 1][1..] && msgs[1..][..i - 1] == msgs[..i][1..];
    } else {
      assert msgs[..1][1..] == [];
    }
  }

  lemma MultisetCons<T>(x: T, xs: seq<T>)
    ensures multiset([x] + xs) == multiset{x} + multiset(xs)
  {
  }

  lemma NoneAnswered<T>(answers: seq<Answer>, wanted: Answer)
    ensures Answered<T>([], answers, wanted) == []
  {
  }

  /** No message is lost or doubled: accepted and kept messages are the old outbox, as a multiset. */
  lemma {:induction false} Conserved<T>(msgs: seq<T>, answers: seq<Answer>)
    requires |msgs| <= |answers| && Unbroken(answers, |msgs|)
    ensures multiset(Answered(msgs, answers, Ready)) + multiset(Answered(msgs, answers, NotReady)) == multiset(msgs)
  {
    if msgs != [] {
      var x, later, answers' := msgs[0], msgs[1..], answers[1..];
      forall i | 0 <= i < |later| ensures answers'[i] == answers[i + 1] {}
      Conserved(later, answers');
      var ready, kept := Answered(later, answers', Ready), Answered(later, answers', NotReady);
      MultisetCons(x, ready);
      MultisetCons(x, kept);
      MultisetCons(x, later);
      assert msgs == [x] + later;
      if answers[0] == Ready {
        assert Answered(msgs, answers, Ready) == [x] + ready && Answered(msgs, answers, NotReady) == kept;
      } else {
        assert answers[0] == NotReady;
        assert Answered(msgs, answers, Ready) == ready && Answered(msgs, answers, NotReady) == [x] + kept;
      }
    }
  }

  lemma {:induction false} AllKept<T>(msgs: seq<T>, answers: seq<Answer>)
    requires |msgs| <= |answers| && forall i :: 0 <= i < |msgs| ==> answers[i] == NotReady
    ensures Answered(msgs, answers, NotReady) == msgs && Answered(msgs, answers, Ready) == []
  {
    if msgs != [] {
      forall i | 0 <= i < |msgs[1..]| ensures answers[1..][i] == answers[i + 1] {}
      AllKept(msgs[1..], answers[1..]);
      assert msgs == [msgs[0]] + msgs[1..];
    }
  }

  /** When not being ready persists, accepted messages followed by kept ones are the old outbox, in order. */
  lemma {:induction false} InOrder<T>(msgs: seq<T>, answers: seq<Answer>)
    requires |msgs| <= |answers| && Unbroken(answers, |msgs|) && Persists(answers, |msgs|)
    ensures Answered(msgs, answers, Ready) + Answered(msgs, answers, NotReady) == msgs
  {
    if msgs != [] {
      if answers[0] == NotReady {
        AllKept(msgs, answers);
      } else {
        forall i | 0 <= i < |msgs[1..]| ensures answers[1..][i] == answers[i + 1] {}
        assert answers[0] == Ready;
        InOrder(msgs[1..], answers[1..]);
        assert msgs == [msgs[0]] + msgs[1..];
      }
    }
  }

  /** For distinct messages the order is kept exactly when not being ready persists. */
  lemma {:induction false} InOrderExactly<T>(msgs: seq<T>, answers: seq<Answer>)
    requires |msgs| <= |answers| && Unbroken(answers, |msgs|) && Distinct(msgs)
    ensures Answered(msgs, answers, Ready) + Answered(msgs, answers, NotReady) == msgs <==> Persists(answers, |msgs|)
  {
    if Persists(answers, |msgs|) {
      InOrder(msgs, answers);
    } else {
      var i, j :| 0 <= i < j < |msgs| && answers[i] == NotReady && answers[j] != NotReady;
      OutOfOrder(msgs, answers, i, j);
    }
  }

  lemma {:induction false} OutOfOrder<T>(msgs: seq<T>, answers: seq<Answer>, i: nat, j: nat)
    requires |msgs| <= |answers| && Unbroken(answers, |msgs|) && Distinct(msgs)
    requires i < j < |msgs| && answers[i] == NotReady && answers[j] == Ready
    ensures Answered(msgs, answers, Ready) + Answered(msgs, answers, NotReady) != msgs
  {
    var later, answers' := msgs[1..], answers[1..];
    forall k | 0 <= k < |later| ensures later[k] == msgs[k + 1] && answers'[k] == answers[k + 1] {}
    if answers[0] == NotReady {
      IsAnswered(msgs, answers, j, Ready);
      NotFirst(msgs, answers);
    } else {
      OutOfOrder(later, answers', i - 1, j - 1);
      var rest := Answered(later, answers', Ready) + Answered(later, answers', NotReady);
      assert Answered(msgs, answers, Ready) + Answered(msgs, answers, NotReady) == [msgs[0]] + rest;
      assert ([msgs[0]] + rest)[1..] == rest;
    }
  }

  lemma {:induction false} IsAnswered<T>(msgs: seq<T>, answers: seq<Answer>, j: nat, wanted: Answer)
    requires j < |msgs| <= |answers| && answers[j] == wanted
    ensures msgs[j] in Answered(msgs, answers, wanted)
  {
    if j > 0 {
      IsAnswered(msgs[1..], answers[1..], j - 1, wanted);
    }
  }

  /** The first message, if kept, is not the first of the accepted ones. */
  lemma {:induction false} NotFirst<T>(msgs: seq<T>, answers: seq<Answer>)
    requires msgs != [] && |msgs| <= |answers| && Distinct(msgs) && answers[0] == NotReady
    ensures msgs[0] !in Answered(msgs, answers, Ready)
  {
    assert Answered(msgs, answers, Ready) == Answered(msgs[1..], answers[1..], Ready);
    forall k | 0 <= k < |msgs[1..]| ensures msgs[1..][k] != msgs[0] {
      assert msgs[1..][k] == msgs[k + 1];
    }
  }

  /** A pass over the outbox keeps account of everything. */
  lemma {:induction false} PassComplete<T>(accepted: seq<T>, msgs: seq<T>, answers: seq<Answer>, pushed: seq<T>)
    requires |msgs| <= |answers| && Unbroken(answers, |msgs|)
    requires multiset(accepted) + multiset(msgs) == multiset(pushed)
    ensures multiset(accepted + Answered(msgs, answers, Ready)) + multiset(Answered(msgs, answers, NotReady)) ==
            multiset(pushed)
  {
    Conserved(msgs, answers);
    hide Answered, Unbroken;
  }

  /** And of the order, where not being ready persists. */
  lemma {:induction false} PassInOrder<T>(accepted: seq<T>, msgs: seq<T>, answers: seq<Answer>, pushed: seq<T>)
    requires |msgs| <= |answers| && Unbroken(answers, |msgs|) && Persists(answers, |msgs|)
    requires accepted + msgs == pushed
    ensures accepted + Answered(msgs, answers, Ready) + Answered(msgs, answers, NotReady) == pushed
  {
    InOrder(msgs, answers);
    hide Answered, Unbroken, Persists;
    var ready, kept := Answered(msgs, answers, Ready), Answered(msgs, answers, NotReady);
    assert accepted + ready + kept == accepted + (ready + kept);
  }

  /** A task with an outbox; `accepted` is what its sink has taken, `pushed` what was ever put in. */
  class Task<T> {
    var outbox: seq<T>
    ghost var accepted: seq<T>
    ghost var pushed: seq<T>

    constructor ()
      ensures outbox == [] && accepted == [] && pushed == []
    {
      outbox, accepted, pushed := [], [], [];
    }

    /** Everything put in was accepted or is still there. */
    ghost predicate Complete()
      reads this
    {
      multiset(accepted) + multiset(outbox) == multiset(pushed)
    }

    /** And in order. */
    ghost predicate Queue()
      reads this
    {
      accepted + outbox == pushed
    }

    method Push(msg: T)
      modifies this
      ensures pushed == old(pushed) + [msg]
      ensures accepted == old(accepted) && outbox == old(outbox) + [msg]
      ensures old(Complete()) ==> Complete()
      ensures old(Queue()) ==> Queue()
    {
      outbox := outbox + [msg];
      pushed := pushed + [msg];
    }

    /** The macro: empties the outbox, offers each message, and puts back what is refused. */
    method SinkOutbox(answers: seq<Answer>) returns (ok: bool)
      requires |outbox| <= |answers|
      modifies this
      ensures pushed == old(pushed)
      ensures ok <==> Unbroken(answers, |old(outbox)|)
      ensures ok ==> outbox == Answered(old(outbox), answers, NotReady)
      ensures ok ==> accepted == old(accepted) + Answered(old(outbox), answers, Ready)
      ensures ok && old(Complete()) ==> Complete()
      ensures ok && old(Queue()) && Persists(answers, |old(outbox)|) ==> Queue()
    {
      hide Answered, Persists;
      var msgs := outbox;
      outbox := [];
      NoneAnswered<T>(answers, Ready);
      NoneAnswered<T>(answers, NotReady);
      assert msgs[..0] == [];
      var i := 0;
      while i < |msgs|
        invariant 0 <= i <= |msgs| && pushed == old(pushed)
        invariant Unbroken(answers, i)
        invariant outbox == Answered(msgs[..i], answers, NotReady)
        invariant accepted == old(accepted) + Answered(msgs[..i], answers, Ready)
      {
        AnsweredAppend(msgs, answers, i, Ready);
        AnsweredAppend(msgs, answers, i, NotReady);
        match answers[i] {
          case Ready => accepted := accepted + [msgs[i]];
          case NotReady => outbox := outbox + [msgs[i]];
          case Broken => return false;
        }
        i := i + 1;
      }
      assert msgs[..i] == msgs;
      if old(Complete()) {
        PassComplete(old(accepted), msgs, answers, pushed);
      }
      if old(Queue()) && Persists(answers, |msgs|) {
        PassInOrder(old(accepted), msgs, answers, pushed);
      }
      return true;
    }
  }
}
