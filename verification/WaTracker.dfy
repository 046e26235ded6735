/** `WaAckTracker`, whose table is updated in place and filtered. */
module WaTracker {
  import opened Outcomes
  import opened WaModel
  import WaConservation

  /** The receiving end of `cb_tx`. */
  class ControlBot {
    var reports: seq<Report>

    constructor ()
      ensures reports == []
    {
      reports := [];
    }

    method ReportFailure(r: Report)
      modifies this
      ensures reports == old(reports) + [r]
    {
      reports := reports + [r];
    }
  }

  lemma AllWarningsStep(cfg: Config, outgoing: map<Mid, Status>, order: seq<Mid>, i: nat, now: int)
    requires i < |order| && order[i] in outgoing
    ensures AllWarnings(cfg, outgoing, order[i..], now) ==
            Warnings(cfg, order[i], outgoing[order[i]], now) + AllWarnings(cfg, outgoing, order[i + 1..], now)
  {
    assert order[i..][0] == order[i] && order[i..][1..] == order[i + 1..];
  }

  /** What was reported and what is left to report, from `order[i]` on, make up the whole. */
  ghost predicate Reporting(cfg: Config, said: seq<Report>, outgoing: map<Mid, Status>, order: seq<Mid>, i: nat,
                            now: int, all: seq<Report>) {
    i <= |order| && said + AllWarnings(cfg, outgoing, order[i..], now) == all
  }

  lemma ReportingStart(cfg: Config, said: seq<Report>, outgoing: map<Mid, Status>, order: seq<Mid>, now: int)
    ensures Reporting(cfg, said, outgoing, order, 0, now, said + AllWarnings(cfg, outgoing, order, now))
  {
    assert order[0..] == order;
  }

  lemma ReportingStep(cfg: Config, said: seq<Report>, outgoing: map<Mid, Status>, order: seq<Mid>, i: nat, now: int,
                      all: seq<Report>)
    requires i < |order| && order[i] in outgoing && Reporting(cfg, said, outgoing, order, i, now, all)
    ensures Reporting(cfg, said + Warnings(cfg, order[i], outgoing[order[i]], now), outgoing, order, i + 1, now, all)
  {
    AllWarningsStep(cfg, outgoing, order, i, now);
    Regroup(said, Warnings(cfg, order[i], outgoing[order[i]], now), AllWarnings(cfg, outgoing, order[i + 1..], now));
  }

  lemma ReportingDone(cfg: Config, said: seq<Report>, outgoing: map<Mid, Status>, order: seq<Mid>, now: int,
                      all: seq<Report>)
    requires Reporting(cfg, said, outgoing, order, |order|, now, all)
    ensures said == all
  {
    assert order[|order|..] == [];
  }

  /** The statuses of some ids. */
  function StatusesOf(outgoing: map<Mid, Status>, mids: seq<Mid>): seq<Status> {
    if mids == [] then []
    else (if mids[0] in outgoing then [outgoing[mids[0]]] else []) + StatusesOf(outgoing, mids[1..])
  }

  lemma {:induction false} StatusesAppend(outgoing: map<Mid, Status>, mids: seq<Mid>, m: Mid)
    requires m in outgoing
    ensures StatusesOf(outgoing, mids + [m]) == StatusesOf(outgoing, mids) + [outgoing[m]]
  {
    if mids == [] {
      assert (mids + [m])[1..] == [];
    } else {
      StatusesAppend(outgoing, mids[1..], m);
      var first := if mids[0] in outgoing then [outgoing[mids[0]]] else [];
      Regroup(first, StatusesOf(outgoing, mids[1..]), [outgoing[m]]);
      assert (mids + [m])[0] == mids[0] && (mids + [m])[1..] == mids[1..] + [m];
    }
  }

  lemma {:induction false} StatusesAt(outgoing: map<Mid, Status>, mids: seq<Mid>, i: nat)
    requires i < |mids| && forall k :: 0 <= k < |mids| ==> mids[k] in outgoing
    ensures |StatusesOf(outgoing, mids)| == |mids| && StatusesOf(outgoing, mids)[i] == outgoing[mids[i]]
  {
    forall k | 0 <= k < |mids[1..]| ensures mids[1..][k] == mids[k + 1] {}
    if i > 0 { StatusesAt(outgoing, mids[1..], i - 1); }
    else if |mids| > 1 { StatusesAt(outgoing, mids[1..], 0); }
  }

  class WaAckTracker {
    const cfg: Config
    const cb: ControlBot
    var outgoing: map<Mid, Status>

    constructor (cfg: Config, cb: ControlBot)
      ensures this.cfg == cfg && this.cb == cb && outgoing == map[]
    {
      this.cfg := cfg;
      this.cb := cb;
      outgoing := map[];
    }

    method RegisterSend(item: Item, mid: Mid, unsent: bool, now: int)
      modifies this
      ensures outgoing == old(outgoing)[mid := Status(None, now, item, unsent, false, false)]
    {
      outgoing := outgoing[mid := Status(None, now, item, unsent, false, false)];
    }

    /** Takes the queued messages out; `order` is how the hash table lists its entries. */
    method ExtractUnsent(order: seq<Mid>) returns (ret: seq<Status>, ghost mids: seq<Mid>)
      requires Lists(order, outgoing.Keys)
      modifies this
      ensures Lists(mids, UnsentIds(old(outgoing)))
      ensures ret == StatusesOf(old(outgoing), mids)
      ensures outgoing == old(outgoing) - UnsentIds(old(outgoing))
    {
      ret, mids := [], [];
      ghost var was := outgoing;
      var i := 0;
      while i < |order|
        invariant 0 <= i <= |order| && outgoing == was
        invariant ret == StatusesOf(outgoing, mids)
        invariant forall k :: 0 <= k < i ==> order[k] in outgoing && (order[k] in mids <==> outgoing[order[k]].unsent)
        invariant forall m :: m in mids ==> m in order[..i] && m in outgoing && outgoing[m].unsent
        invariant forall j, k :: 0 <= j < k < |mids| ==> mids[j] != mids[k]
      {
        var m := order[i];
        assert m in order;
        assert m !in order[..i];
        if outgoing[m].unsent {
          StatusesAppend(outgoing, mids, m);
          ret := ret + [outgoing[m]];
          mids := mids + [m];
        }
        i := i + 1;
      }
      assert order[..i] == order;
      forall m | m in UnsentIds(outgoing) ensures m in mids {
        assert m in order;
      }
      outgoing := map m | m in outgoing && !outgoing[m].unsent :: outgoing[m];
    }

    method OnMessageAck(mid: Mid, level: Level)
      modifies this, cb
      ensures mid in old(outgoing) ==> outgoing == old(outgoing)[mid := old(outgoing)[mid].(ack := Some(level))]
      ensures mid in old(outgoing) ==>
              cb.reports == if level == LevelError then old(cb.reports) + [OtherReport] else old(cb.reports)
      ensures mid !in old(outgoing) ==> outgoing == old(outgoing) && cb.reports == old(cb.reports)
    {
      if mid in outgoing {
        if level == LevelError {
          cb.ReportFailure(OtherReport);
        }
        outgoing := outgoing[mid := outgoing[mid].(ack := Some(level))];
      }
    }

    /** Warns about one entry and flags it. */
    method CheckEntry(mid: Mid, now: int)
      requires mid in outgoing
      modifies this, cb
      ensures outgoing == old(outgoing)[mid := Warned(cfg, old(outgoing)[mid], now)]
      ensures cb.reports == old(cb.reports) + Warnings(cfg, mid, old(outgoing)[mid], now)
    {
      var mss := outgoing[mid];
      var delta := AsU64(now - mss.sentTs);
      if mss.ack.None? {
        if delta >= cfg.ackWarn && !mss.alerted {
          cb.ReportFailure(UnackedWarning(mid));
          mss := mss.(alerted := true);
        }
      }
      if mss.ack == Some(PendingSend) {
        if delta >= cfg.ackWarnPending && !mss.alertedPending {
          cb.ReportFailure(PendingWarning(mid));
          mss := mss.(alertedPending := true);
        }
      }
      outgoing := outgoing[mid := mss];
    }

    /** The loop over the entries; `order` is how the hash table lists them. */
    method WarnAll(order: seq<Mid>, now: int)
      requires Lists(order, outgoing.Keys)
      modifies this, cb
      ensures outgoing == WarnedAll(cfg, old(outgoing), now)
      ensures cb.reports == old(cb.reports) + AllWarnings(cfg, old(outgoing), order, now)
    {
      ghost var was, all := outgoing, cb.reports + AllWarnings(cfg, outgoing, order, now);
      ReportingStart(cfg, cb.reports, was, order, now);
      hide Reporting, AllWarnings, Warnings, Warned;
      forall k | 0 <= k < |order| ensures order[k] in was {
        assert order[k] in order;
      }
      var i := 0;
      while i < |order|
        invariant 0 <= i <= |order|
        invariant outgoing.Keys == was.Keys
        invariant forall k :: 0 <= k < i ==> order[k] in was && outgoing[order[k]] == Warned(cfg, was[order[k]], now)
        invariant forall k :: i <= k < |order| ==> order[k] in was && outgoing[order[k]] == was[order[k]]
        invariant Reporting(cfg, cb.reports, was, order, i, now, all)
      {
        ReportingStep(cfg, cb.reports, was, order, i, now, all);
        CheckEntry(order[i], now);
        i := i + 1;
      }
      ReportingDone(cfg, cb.reports, was, order, now, all);
      forall m | m in was ensures outgoing[m] == Warned(cfg, was[m], now) {
        assert m in order;
      }
    }

    /** Failures to deliver are kept, so the user knows what happened with them. */
    method CheckAcks(order: seq<Mid>, now: int)
      requires Lists(order, outgoing.Keys)
      modifies this, cb
      ensures outgoing == WarnedAll(cfg, old(outgoing), now) - ExpiredIds(cfg, old(outgoing), now)
      ensures cb.reports == old(cb.reports) + AllWarnings(cfg, old(outgoing), order, now)
      ensures forall m :: m in outgoing <==> m in old(outgoing) && !WaConservation.Over(cfg, old(outgoing)[m], now)
    {
      WarnAll(order, now);
      hide AllWarnings;
      outgoing := map m | m in outgoing && !Expired(cfg, outgoing[m], now) :: outgoing[m];
    }
  }
}
