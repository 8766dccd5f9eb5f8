/** The bridge loop's arms as code over its mutable locals; each performs one step of `Endpoint`. */
module Bridge {
  import opened Common
  import opened Ranges
  import opened RetransmitTimer
  import opened SecureChannel
  import opened Reorder
  import opened LossRecovery
  import opened AckHandling
  import opened AckProperties
  import opened Endpoint

  class DirectBridge {
    const sender: DirectSender
    const reorder: ReorderBuffer<Sealed>
    const secureSender: SecureSender
    const secureReceiver: SecureReceiver
    var nextOutbound: u64
    var close: Option<PendingClose>
    var readClosed: bool
    var status: Status
    var outbox: seq<Envelope>
    var written: seq<Bytes>
    ghost var read: seq<Bytes>
    ghost var highestAck: int

    ghost function Parts(): set<object>
      reads this
    {
      {this, sender, sender.scoreboard, sender.congestion, sender.estimator, reorder, secureSender, secureReceiver}
    }

    ghost predicate Valid()
      reads Parts()
    {
      && sender.Valid()
      && reorder.Valid() && InWindow(reorder.State())
      && forall p :: p in sender.pending ==> p.sequence < nextOutbound
    }

    ghost function Snapshot(): Endpoint
      reads Parts()
    {
      Endpoint(status, secureSender.direction, secureReceiver.direction, nextOutbound, secureSender.counter,
               sender.State(), close, readClosed, reorder.State(), secureReceiver.counter,
               read, written, highestAck, outbox)
    }

    constructor (directions: (Direction, Direction))
      ensures Valid() && Snapshot() == Initial(directions)
    {
      sender := new DirectSender();
      reorder := new ReorderBuffer();
      secureSender := new SecureSender(directions.0);
      secureReceiver := new SecureReceiver(directions.1);
      nextOutbound, close, readClosed, status := 0, None, false, Running;
      outbox, written, read, highestAck := [], [], [], 0;
    }

    // ---- sending

    /** `send_pending_direct_data` for a queued sequence. */
    method SendAgain(index: nat, now: Millis)
      requires Valid() && index < |sender.pending|
      modifies this`status, this`outbox, sender`pending
      ensures Valid() && Snapshot() == Resend(old(Snapshot()), index, now)
    {
      var p := sender.pending[index];
      if p.attempts + 1 > MAX_ATTEMPTS {
        status := Failed;
        return;
      }
      ReplaceKeepsQueue(sender.pending, index, p.(attempts := p.attempts + 1, lastSentAt := now));
      sender.pending := sender.pending[index := p.(attempts := p.attempts + 1, lastSentAt := now)];
      outbox := outbox + [Data(p.sequence, p.payload)];
    }

    method SendCloseAgain(now: Millis)
      requires Valid() && close.Some?
      modifies this`status, this`outbox, this`close
      ensures Valid() && Snapshot() == ResendClose(old(Snapshot()), now)
    {
      var c := close.value;
      if c.attempts + 1 > MAX_ATTEMPTS {
        status := Failed;
        return;
      }
      close := Some(c.(attempts := c.attempts + 1, lastSentAt := now));
      outbox := outbox + [Close(c.finalSequence)];
    }

    method StartCloseIfDone(now: Millis)
      requires Valid()
      modifies this`outbox, this`close
      ensures Valid() && Snapshot() == MaybeStartClose(old(Snapshot()), now)
      ensures readClosed && sender.pending == [] ==> close.Some?
      ensures close != old(close) ==> outbox == old(outbox) + [Close(nextOutbound)]
    {
      if close.Some? || sender.pending != [] || !readClosed {
        return;
      }
      close := Some(PendingClose(nextOutbound, 1, now));
      outbox := outbox + [Close(nextOutbound)];
    }

    /** The read arm, for a read that returned data. */
    method HandleRead(chunk: Bytes, now: Millis)
      requires Valid()
      modifies this`status, this`nextOutbound, this`outbox, this`read, sender`pending, secureSender
      ensures Valid() && Snapshot() == OnRead(old(Snapshot()), chunk, now)
    {
      var sealed := secureSender.Encrypt(chunk);
      if nextOutbound == U64_MAX {
        status := Failed;
        return;
      }
      var p := Pending(nextOutbound, sealed, 1, now);
      nextOutbound := nextOutbound + 1;
      outbox := outbox + [Data(p.sequence, p.payload)];
      AppendKeepsSorted(sender.pending, p);
      sender.pending := sender.pending + [p];
      read := read + [chunk];
    }

    /** The read arm, for the end of the local stream. */
    method HandleEof(now: Millis)
      requires Valid()
      modifies this`readClosed, this`outbox, this`close
      ensures Valid() && Snapshot() == OnEof(old(Snapshot()), now)
      ensures sender.pending == [] ==> close.Some?
    {
      readClosed := true;
      StartCloseIfDone(now);
    }

    method ResendTimedOut(now: Millis) returns (resent: bool)
      requires Valid()
      modifies this`status, this`outbox, sender`pending
      ensures Valid()
      ensures |sender.pending| == |old(sender.pending)|
      ensures resent <==> TimedOutIndex(old(sender.pending), now, sender.rto) < |old(sender.pending)|
      ensures Snapshot() == if resent then Resend(old(Snapshot()), TimedOutIndex(old(sender.pending), now, sender.rto), now)
                            else old(Snapshot())
    {
      hide Cover, Canonical;
      TimeoutPicksFirst(sender.pending, sender.scoreboard.ranges, now, sender.rto);
      var chosen := SelectLossRecovery(sender.pending, sender.scoreboard.ranges, TimeoutTrigger(now, sender.rto));
      resent := chosen.Some?;
      if resent {
        IndexOfSorted(sender.pending, TimedOutIndex(sender.pending, now, sender.rto));
        var index := IndexOf(sender.pending, chosen.value);
        SendAgain(index, now);
      }
    }

    /** The retransmission timer arm. */
    method HandleTick(now: Millis)
      requires Valid() && status.Running?
      modifies this`status, this`outbox, this`close, sender`pending, sender`rto, sender.congestion
      ensures Valid() && Snapshot() == OnTick(old(Snapshot()), now)
    {
      hide Cover, Canonical, Sorted, InWindow, Resend, ResendClose, TimedOutIndex, Backoff;
      ghost var before := Snapshot();
      var retransmittedData := ResendTimedOut(now);
      if status.Failed? {
        return;
      }
      var retransmittedClose := close.Some? && Elapsed(now, close.value.lastSentAt) >= sender.rto;
      if retransmittedClose {
        SendCloseAgain(now);
        if status.Failed? {
          return;
        }
      }
      if retransmittedData {
        sender.congestion.OnTimeout(|sender.pending|);
        sender.rto := Backoff(sender.rto);
      } else if retransmittedClose {
        sender.rto := Backoff(sender.rto);
      }
    }

    /** The arm for an acknowledgement. */
    method HandleAck(next: u64, ranges: seq<Range>, now: Millis)
      requires Valid() && status.Running?
      modifies Parts() - {reorder, secureSender, secureReceiver}
      ensures Valid() && Snapshot() == OnAck(old(Snapshot()), next, ranges, now)
    {
      hide Cover, Canonical, Keep, AfterAck;
      ghost var before := Snapshot();
      QueueIsFiltered(sender.State(), next, ranges, now);
      var resend := sender.HandleAck(next, ranges, now);
      highestAck := Max(highestAck, next);
      assert Valid();
      ghost var acked := Snapshot();
      assert acked == before.(send := AfterAck(before.send, next, ranges, now).0, highestAck := highestAck);
      if resend.Some? {
        var index := IndexOf(sender.pending, resend.value);
        if index < |sender.pending| {
          SendAgain(index, now);
          if status.Failed? {
            return;
          }
        }
      }
      assert Snapshot() == AckedAndResent(before, next, ranges, now);
      StartCloseIfDone(now);
    }

    // ---- receiving

    method SendAck()
      requires Valid()
      modifies this`outbox
      ensures Valid() && Snapshot() == Emit(old(Snapshot()), Report(old(reorder.State())))
    {
      hide Cover, Canonical, SackRanges;
      var keys := KeysInOrder(Inbound(reorder.expected, reorder.buffered));
      var ranges := SelectiveAckRanges(keys);
      outbox := outbox + [Ack(reorder.expected, ranges)];
    }

    /** Opens and writes released payloads one by one, until one does not open. */
    method OpenAndWrite(ready: seq<Sealed>) returns (ok: bool)
      modifies this`written, secureReceiver
      ensures
        var plaintexts := OpenAll(secureReceiver.direction, old(secureReceiver.counter), ready);
        && written == old(written) + plaintexts
        && (ok <==> |plaintexts| == |ready|)
        && secureReceiver.counter == CounterAfter(old(secureReceiver.counter), |plaintexts| + if ok then 0 else 1)
    {
      ghost var direction, first := secureReceiver.direction, secureReceiver.counter;
      ghost var plaintexts := OpenAll(direction, first, ready);
      assert ready[0..] == ready;
      for i := 0 to |ready|
        invariant secureReceiver.counter == CounterAfter(first, i)
        invariant i <= |plaintexts| && written == old(written) + plaintexts[..i]
        invariant plaintexts[i..] == OpenAll(direction, CounterAfter(first, i), ready[i..])
      {
        OpenNext(direction, CounterAfter(first, i), ready[i..]);
        assert ready[i..][0] == ready[i] && ready[i..][1..] == ready[i + 1..];
        var plaintext := secureReceiver.Decrypt(ready[i]);
        if plaintext.None? {
          assert plaintexts[..i] == plaintexts;
          return false;
        }
        assert plaintexts[i] == plaintexts[i..][0] == plaintext.value;
        assert plaintexts[i + 1..] == plaintexts[i..][1..];
        assert plaintexts[..i + 1] == plaintexts[..i] + [plaintext.value];
        written := written + [plaintext.value];
      }
      OpenNoMore(direction, first, ready);
      assert plaintexts[..|ready|] == plaintexts;
      return true;
    }

    /** The arm for a data packet: releases, opens and writes what is ready, then acknowledges. */
    method HandleData(sequence: u64, payload: Sealed)
      requires Valid() && status.Running?
      modifies this`status, this`written, this`outbox, reorder, secureReceiver
      ensures Valid() && Snapshot() == OnData(old(Snapshot()), sequence, payload)
    {
      hide Cover, Canonical, Queued, SackRanges, Sorted, OpenAll, Overflowed;
      var ready, overflow := reorder.Queue(sequence, payload);
      if overflow {
        status := Failed;
        return;
      }
      var ok := OpenAndWrite(ready);
      OpenNoMore(secureReceiver.direction, old(secureReceiver.counter), ready);
      if !ok {
        status := Failed;
        return;
      }
      SendAck();
    }

    /** The arm for the peer's close. */
    method HandleClose(finalSequence: u64)
      requires Valid()
      modifies this`status, this`outbox
      ensures Valid() && Snapshot() == OnClose(old(Snapshot()), finalSequence)
    {
      if finalSequence > reorder.expected {
        SendAck();
        return;
      }
      outbox := outbox + [CloseAck(finalSequence)];
      status := LeftByPeerClose;
    }

    /** The arm for the confirmation of our close. */
    method HandleCloseAck(finalSequence: u64)
      requires Valid()
      modifies this`status
      ensures Valid() && Snapshot() == OnCloseAck(old(Snapshot()), finalSequence)
      ensures close.None? ==> status == old(status)
      ensures close.Some? && close.value.finalSequence == finalSequence ==> status.LeftByCloseAck?
    {
      if close.Some? && finalSequence >= close.value.finalSequence {
        status := LeftByCloseAck;
      }
    }
  }

  lemma OpenNext(d: Direction, counter: u64, ready: seq<Sealed>)
    requires ready != []
    ensures var plaintext := Open(d, BuildNonce(d.noncePrefix, counter), ready[0]);
      OpenAll(d, counter, ready)
      == if plaintext.None? then [] else [plaintext.value] + OpenAll(d, SatAdd64(counter, 1), ready[1..])
  {
  }

  lemma {:induction false} OpenNoMore(d: Direction, counter: u64, ready: seq<Sealed>)
    ensures |OpenAll(d, counter, ready)| <= |ready|
    decreases |ready|
  {
    if ready != [] {
      OpenNoMore(d, SatAdd64(counter, 1), ready[1..]);
    }
  }

  lemma ReplaceKeepsQueue(q: seq<Pending>, i: nat, p: Pending)
    requires Sorted(q) && i < |q| && p.sequence == q[i].sequence
    ensures Sorted(q[i := p])
    ensures forall x :: x in q[i := p] ==> exists y :: y in q && y.sequence == x.sequence
  {
    forall x | x in q[i := p]
      ensures exists y :: y in q && y.sequence == x.sequence
    {
      var j :| 0 <= j < |q| && q[i := p][j] == x;
      assert q[j] in q && q[j].sequence == x.sequence;
    }
  }

  lemma AppendKeepsSorted(q: seq<Pending>, p: Pending)
    requires Sorted(q) && forall x :: x in q ==> x.sequence < p.sequence
    ensures Sorted(q + [p])
    ensures forall x :: x in q + [p] <==> x in q || x == p
  {
    assert forall i :: 0 <= i < |q| ==> q[i] in q;
  }

  lemma {:induction false} IndexOfSorted(q: seq<Pending>, i: nat)
    requires Sorted(q) && i <= |q|
    ensures i < |q| ==> IndexOf(q, q[i].sequence) == i
  {
    if 0 < i < |q| {
      SortedTail(q);
      IndexOfSorted(q[1..], i - 1);
    }
  }
}
