/** One stream, no pause: the exact shape of sender, lanes and receiver at every moment. */
module TransferUninterrupted {
  import opened Wrappers
  import opened Slicing
  import opened PacketCodec
  import opened TransferState
  import opened TransferModel
  import opened TransferSafety
  import opened TransferAccounting
  import opened TransferCompletion
  import opened TransferResume
  import opened TransferTheorems
  import opened TransferPointer
  import opened TransferProgress
  import opened Counting

  /** Smooth, with nobody pausing or accepting again and no foreign packets. */
  predicate Plain(job: Job, e: Event) {
    && Smooth(job, e)
    && !(e.N? && e.n.Foreign?)
    && !(e.S? && (e.s.PauseHere? || e.s.ResumeHere?))
    && !(e.R? && (e.r.PauseThere? || e.r.ResumeThere? || e.r.AcceptHere?))
  }

  predicate PlainRun(job: Job, es: seq<Event>) {
    forall i :: 0 <= i < |es| ==> Plain(job, es[i])
  }

  /** How many of the indices below `next` go to lane `l`. */
  function SentOn(l: nat, next: nat): nat
    requires l < LANES
  {
    (next + 3 - l) / LANES
  }

  /** The index the stream is at: everything below it has been sent. */
  function Next(w: World): nat {
    if w.s.streams == [] then 0 else w.s.streams[0].index
  }

  /** Chunks received on lane `l`: those sent on it and no longer in flight. */
  function ReceivedOn(w: World, l: nat): int
    requires l < LANES
  {
    SentOn(l, Next(w)) - |w.n.lanes[l]|
  }

  ghost predicate OneStream(job: Job, w: World) {
    && w.n.toReceiver == [] && !w.s.out.paused && !w.s.out.cancelled && !w.r.inc.paused && !w.r.inc.cancelled
    && (w.s.streams == [] ==> w.n.toSender == [Accept])
    && (w.s.streams != [] ==> |w.s.streams| == 1 && w.n.toSender == [])
    && Next(w) <= Total(job)
  }

  ghost predicate LaneShape(job: Job, w: World, l: nat)
    requires l < LANES
  {
    && ReceivedOn(w, l) >= 0
    && forall k :: 0 <= k < |w.n.lanes[l]| ==> IsChunk(job, w.n.lanes[l][k], l + LANES * (ReceivedOn(w, l) + k))
  }

  /** Of each lane, the first `counts[l]` of its chunks and no others. */
  ghost predicate ReceivedBy(received: set<nat>, counts: seq<int>)
    requires |counts| == LANES
  {
    forall i: nat :: i in received <==> i / LANES < counts[i % LANES]
  }

  function Counts(w: World): seq<int> {
    [ReceivedOn(w, 0), ReceivedOn(w, 1), ReceivedOn(w, 2), ReceivedOn(w, 3)]
  }

  lemma MarkOne(received: set<nat>, counts: seq<int>, l: nat)
    requires |counts| == LANES && l < LANES && counts[l] >= 0 && ReceivedBy(received, counts)
    ensures ReceivedBy(received + {l + LANES * counts[l]}, counts[l := counts[l] + 1])
  {
    forall i: nat
      ensures i in received + {l + LANES * counts[l]} <==> i / LANES < counts[l := counts[l] + 1][i % LANES] {
      assert i == LANES * (i / LANES) + i % LANES;
      assert i in received <==> i / LANES < counts[i % LANES];
    }
  }

  ghost predicate InShape(job: Job, w: World) {
    && OneStream(job, w)
    && (forall l :: 0 <= l < LANES ==> LaneShape(job, w, l))
    && ReceivedBy(w.r.inc.received, Counts(w))
  }

  lemma ShapeTransmit(job: Job, w: World)
    requires InShape(job, w) && PacketsMatch(job, w.s)
    ensures InShape(job, Step(job, w, S(Transmit(0, true))))
  {
    if w.s.streams != [] && w.s.streams[0].stage.Granted? {
      var w' := Step(job, w, S(Transmit(0, true)));
      var lane := Next(w) % LANES;
      assert PacketMatches(job, w.s.streams[0]);
      assert SentOn(lane, Next(w)) == Next(w) / LANES;
      forall l | 0 <= l < LANES ensures LaneShape(job, w', l) && ReceivedOn(w', l) == ReceivedOn(w, l) {
        assert LaneShape(job, w, l);
        if l != lane {
          assert w'.n.lanes[l] == w.n.lanes[l] && SentOn(l, Next(w) + 1) == SentOn(l, Next(w));
        }
      }
    }
  }

  function FirstGapOn(w: World, l: nat): int
    requires l < LANES
  {
    l + LANES * ReceivedOn(w, l)
  }

  /** The packet at the head of lane `l` is the first gap on that lane. */
  lemma HeadIsGap(job: Job, w: World, l: nat)
    requires InShape(job, w) && l < LANES && w.n.lanes[l] != []
    ensures 0 <= ReceivedOn(w, l) && FirstGapOn(w, l) < Total(job) && IsChunk(job, w.n.lanes[l][0], FirstGapOn(w, l))
  {
    assert LaneShape(job, w, l) && IsChunk(job, w.n.lanes[l][0], l + LANES * (ReceivedOn(w, l) + 0));
    assert FirstGapOn(w, l) < Next(w) <= Total(job);
  }

  lemma GapIsMissing(w: World, l: nat)
    requires l < LANES && ReceivedOn(w, l) >= 0 && ReceivedBy(w.r.inc.received, Counts(w))
    ensures FirstGapOn(w, l) !in w.r.inc.received
  {
    var i: nat := FirstGapOn(w, l);
    assert i % LANES == l && i / LANES == ReceivedOn(w, l);
  }

  /** So it is new and gets marked. */
  lemma HeadIsNew(job: Job, w: World, l: nat)
    requires InShape(job, w) && Sound(job, w.r) && l < LANES && w.n.lanes[l] != []
    ensures 0 <= ReceivedOn(w, l) && FirstGapOn(w, l) < Total(job) && FirstGapOn(w, l) !in w.r.inc.received
    ensures Step(job, w, R(Arrive(l))).r.inc == Admit(w.r.inc, FirstGapOn(w, l))
  {
    HeadIsGap(job, w, l);
    GapIsMissing(w, l);
    FullCount(job, w.r);
  }

  /** What changes when the head of lane `l` is received: that lane and the received set, by one chunk. */
  ghost predicate OneArrived(w: World, w': World, l: nat)
    requires l < LANES && w.n.lanes[l] != []
  {
    && w'.s == w.s && w'.n == w.n.(lanes := w.n.lanes[l := w.n.lanes[l][1..]])
    && FirstGapOn(w, l) >= 0 && w'.r.inc == Admit(w.r.inc, FirstGapOn(w, l))
  }

  lemma LaneAfterArrival(job: Job, w: World, w': World, l: nat, m: nat)
    requires InShape(job, w) && l < LANES && w.n.lanes[l] != [] && m < LANES && OneArrived(w, w', l)
    ensures LaneShape(job, w', m) && ReceivedOn(w', m) == ReceivedOn(w, m) + Tick(m == l)
  {
    assert LaneShape(job, w, m);
    if m == l {
      forall k | 0 <= k < |w'.n.lanes[m]| ensures IsChunk(job, w'.n.lanes[m][k], m + LANES * (ReceivedOn(w', m) + k)) {
        assert IsChunk(job, w.n.lanes[m][k + 1], m + LANES * (ReceivedOn(w, m) + (k + 1)));
      }
    }
  }

  lemma ShapeAfterArrival(job: Job, w: World, w': World, l: nat)
    requires InShape(job, w) && l < LANES && w.n.lanes[l] != [] && OneArrived(w, w', l)
    ensures InShape(job, w')
  {
    forall m | 0 <= m < LANES ensures LaneShape(job, w', m) && ReceivedOn(w', m) == ReceivedOn(w, m) + Tick(m == l) {
      LaneAfterArrival(job, w, w', l, m);
    }
    CountsAfterArrival(job, w, w', l);
  }

  lemma CountsMove(w: World, w': World, l: nat)
    requires l < LANES && forall m :: 0 <= m < LANES ==> ReceivedOn(w', m) == ReceivedOn(w, m) + Tick(m == l)
    ensures Counts(w') == Counts(w)[l := Counts(w)[l] + 1]
  {
  }

  lemma CountsAfterArrival(job: Job, w: World, w': World, l: nat)
    requires InShape(job, w) && l < LANES && w.n.lanes[l] != [] && OneArrived(w, w', l)
    requires forall m :: 0 <= m < LANES ==> ReceivedOn(w', m) == ReceivedOn(w, m) + Tick(m == l)
    ensures ReceivedBy(w'.r.inc.received, Counts(w'))
  {
    assert FirstGapOn(w, l) == l + LANES * Counts(w)[l];
    MarkOne(w.r.inc.received, Counts(w), l);
    CountsMove(w, w', l);
  }

  lemma ShapeArrive(job: Job, w: World, l: nat)
    requires InShape(job, w) && Sound(job, w.r) && l < LANES && w.n.lanes[l] != []
    ensures InShape(job, Step(job, w, R(Arrive(l))))
  {
    HeadIsNew(job, w, l);
    ShapeAfterArrival(job, w, Step(job, w, R(Arrive(l))), l);
  }

  lemma ShapeHear(job: Job, w: World)
    requires InShape(job, w) && Untouched(w) && w.s.streams == []
    ensures InShape(job, Step(job, w, S(Hear)))
  {
    var w' := Step(job, w, S(Hear));
    assert w'.s.streams == [Stream(0, Looping)];
    forall l | 0 <= l < LANES ensures LaneShape(job, w', l) {
      assert LaneShape(job, w, l);
    }
  }

  /** The other steps touch neither lanes, nor the stream's index, nor what has been received. */
  lemma ShapeOther(job: Job, w: World, e: Event)
    requires InShape(job, w) && PacketsMatch(job, w.s) && Plain(job, e)
    requires !(e.S? && (e.s.Transmit? || e.s.Hear?)) && !(e.R? && e.r.Arrive?)
    ensures InShape(job, Step(job, w, e))
  {
    var w' := Step(job, w, e);
    assert w'.n.lanes == w.n.lanes && Next(w') == Next(w) && w'.r.inc.received == w.r.inc.received;
    assert forall l | 0 <= l < LANES :: ReceivedOn(w', l) == ReceivedOn(w, l);
    forall l | 0 <= l < LANES ensures LaneShape(job, w', l) {
      assert LaneShape(job, w, l);
    }
  }

  lemma {:induction false} RunInShape(job: Job, es: seq<Event>)
    requires WellFormed(job) && job.file != [] && Total(job) <= U32_LIMIT && PlainRun(job, es)
    ensures var w := Run(job, Accepted(job), es); InShape(job, w) && Resumable(job, w) && PointerExact(w.r)
  {
    if es == [] {
      assert Run(job, Accepted(job), []) == Accepted(job);
      RunIsResumable(job, []);
      assert [] + [Accept] == [Accept];
    } else {
      var n := |es| - 1;
      RunInShape(job, es[..n]);
      var w, e := Run(job, Accepted(job), es[..n]), es[n];
      assert Plain(job, e) && HeldOnResume(w, e);
      ResumableStep(job, w, e);
      if e.R? {
        PointerStep(job, w.r, w.n, e.r);
      }
      if e.S? && e.s.Transmit? {
        if e.s.stream == 0 {
          ShapeTransmit(job, w);
        }
      } else if e.S? && e.s.Hear? {
        if w.s.streams == [] {
          ShapeHear(job, w);
        }
      } else if e.R? && e.r.Arrive? {
        if e.r.lane < LANES && w.n.lanes[e.r.lane] != [] {
          ShapeArrive(job, w, e.r.lane);
        }
      } else {
        ShapeOther(job, w, e);
      }
    }
  }

  /** The chunks in flight on lane `l` are the sent ones that have not been received. */
  lemma InFlightOnly(job: Job, w: World, q: nat, l: nat)
    requires InShape(job, w) && l < LANES && InLane(job, w.n, LANES * q + l)
    ensures ReceivedOn(w, l) <= q < SentOn(l, Next(w))
  {
    var i := LANES * q + l;
    var m, k :| 0 <= m < LANES && 0 <= k < |w.n.lanes[m]| && IsChunk(job, w.n.lanes[m][k], i);
    assert LaneShape(job, w, m) && i == m + LANES * (ReceivedOn(w, m) + k);
    assert m == l && q == ReceivedOn(w, l) + k;
  }

  lemma InFlightAll(job: Job, w: World, q: nat, l: nat)
    requires InShape(job, w) && l < LANES && ReceivedOn(w, l) <= q < SentOn(l, Next(w))
    ensures InLane(job, w.n, LANES * q + l)
  {
    var k := q - ReceivedOn(w, l);
    assert LaneShape(job, w, l) && IsChunk(job, w.n.lanes[l][k], l + LANES * (ReceivedOn(w, l) + k));
    assert l + LANES * (ReceivedOn(w, l) + k) == LANES * q + l;
  }

  lemma PartitionAt(job: Job, w: World, i: nat)
    requires InShape(job, w) && i < Total(job)
    ensures i < Next(w) <==> i in w.r.inc.received || InLane(job, w.n, i)
    ensures !(i in w.r.inc.received && InLane(job, w.n, i))
  {
    var l, q := i % LANES, i / LANES;
    assert i == LANES * q + l;
    if InLane(job, w.n, i) {
      InFlightOnly(job, w, q, l);
    } else if ReceivedOn(w, l) <= q < SentOn(l, Next(w)) {
      InFlightAll(job, w, q, l);
      assert false;
    }
    assert i < Next(w) <==> q < SentOn(l, Next(w));
    assert i in w.r.inc.received <==> q < Counts(w)[l];
  }

  /** Conservation: at every moment each chunk number is exactly one of received, in flight, or not yet sent, and the
      receiver's count is the number of distinct received indices less those whose handler has not counted yet. */
  lemma ChunksPartition(job: Job, es: seq<Event>, i: nat)
    requires WellFormed(job) && job.file != [] && Total(job) <= U32_LIMIT && PlainRun(job, es) && i < Total(job)
    ensures var w := Run(job, Accepted(job), es);
            && (i < Next(w) <==> i in w.r.inc.received || InLane(job, w.n, i))
            && !(i in w.r.inc.received && InLane(job, w.n, i))
            && w.r.inc.count + Num(w.r.tasks, IsUncounted) == |w.r.inc.received|
  {
    RunInShape(job, es);
    PartitionAt(job, Run(job, Accepted(job), es), i);
  }

  predicate IsMinimumOfGaps(w: World, c: nat) {
    && (forall l :: 0 <= l < LANES ==> c <= FirstGapOn(w, l))
    && (exists l :: 0 <= l < LANES && c == FirstGapOn(w, l))
  }

  lemma LeastMissingIsMinimum(job: Job, w: World, c: nat)
    requires InShape(job, w) && IsLeastMissing(w.r.inc.received, c)
    ensures IsMinimumOfGaps(w, c)
  {
    forall l | 0 <= l < LANES ensures c <= FirstGapOn(w, l) {
      assert LaneShape(job, w, l);
      var gap: nat := FirstGapOn(w, l);
      assert gap % LANES == l && gap / LANES == ReceivedOn(w, l);
      assert gap !in w.r.inc.received;
    }
    var l := c % LANES;
    assert c == LANES * (c / LANES) + l && c / LANES >= ReceivedOn(w, l);
    assert c == FirstGapOn(w, l);
  }

  /** Whenever no handler is suspended before its count, the resume pointer is the minimum over the four lanes of
      lane number plus four times the chunks received on that lane. */
  lemma PointerIsLaneMinimum(job: Job, es: seq<Event>)
    requires WellFormed(job) && job.file != [] && Total(job) <= U32_LIMIT && PlainRun(job, es)
    requires Num(Run(job, Accepted(job), es).r.tasks, IsUncounted) == 0
    ensures IsMinimumOfGaps(Run(job, Accepted(job), es), Run(job, Accepted(job), es).r.inc.contiguous)
  {
    RunInShape(job, es);
    LeastMissingIsMinimum(job, Run(job, Accepted(job), es), Run(job, Accepted(job), es).r.inc.contiguous);
  }

  // ---- delivery ----

  lemma {:induction false} PlainRunIsHeld(job: Job, es: seq<Event>)
    requires WellFormed(job) && job.file != [] && Total(job) <= U32_LIMIT && PlainRun(job, es)
    ensures HeldRun(job, Accepted(job), es)
  {
    if es != [] {
      var n := |es| - 1;
      PlainRunIsHeld(job, es[..n]);
      RunInShape(job, es[..n]);
    }
  }

  /** An uninterrupted transfer is delivered: its run cannot work for longer than the measure says, and where nothing
      can go on any more the file has been delivered, exactly once if each data message was handled to its end before
      the next. */
  lemma PlainRunDelivers(job: Job, es: seq<Event>)
    requires WellFormed(job) && job.file != [] && Total(job) <= U32_LIMIT && PlainRun(job, es)
    ensures AllWork(job, Accepted(job), es) ==> |es| <= Work(job, Accepted(job))
    ensures var w := Run(job, Accepted(job), es);
            !CanWork(job, w) ==>
              && w.r.completed != [] && (forall blob :: blob in w.r.completed ==> blob == job.file)
              && (SerialRun(job, Accepted(job), es) ==> w.r.completed == [job.file] && w.r.failures == 0)
  {
    var w := Run(job, Accepted(job), es);
    if AllWork(job, Accepted(job), es) {
      WorkTerminates(job, Accepted(job), es);
    }
    AtRestIff(job, w);
    if Drained(w) {
      PlainRunIsHeld(job, es);
      RunInShape(job, es);
      DrainedRunHasDelivered(job, es);
    }
  }
}
