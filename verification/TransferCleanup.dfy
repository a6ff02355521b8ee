/** What becomes of a transfer that ends: its failures are reported, and its stored rows are cleared. */
module TransferCleanup {
  import opened Wrappers
  import opened Slicing
  import opened PacketCodec
  import opened ChunkStore
  import opened TransferState
  import opened TransferModel
  import opened TransferSafety
  import opened TransferAccounting
  import opened TransferTheorems

  // ---- failing ----

  /** A stream that cannot go on, because its lane is closed, a packet is too long, the browser refuses it or something
      throws, gives up the transfer: the run ends and the entry goes. */
  lemma BrokenStreamGivesUp(job: Job, s: Sender, n: Network, i: nat, iv: Bytes)
    requires i < |s.streams| && |iv| == IV_BYTES
    ensures s.streams[i].stage.Sealing? ==> GivesUp(s, n, i, SenderStep(job, s, n, Seal(i, iv, false)))
    ensures s.streams[i].stage.Granted? && !s.out.paused && !s.out.cancelled ==>
              GivesUp(s, n, i, SenderStep(job, s, n, Transmit(i, false)))
    ensures s.streams[i].stage.Looping? || s.streams[i].stage.Sealing? ==>
              GivesUp(s, n, i, SenderStep(job, s, n, Breaks(i)))
  {
  }

  predicate GivesUp(s: Sender, n: Network, i: nat, after: (Sender, Network)) {
    && i < |s.streams| == |after.0.streams| && after.0.streams[i].stage.Ended? && !after.0.live
    && after.1 == n && after.0.out == s.out
    && forall k :: 0 <= k < |s.streams| && k != i ==> after.0.streams[k] == s.streams[k]
  }

  /** A stream at the head of its loop ends with its entry after the last chunk, ends at once when paused or cancelled,
      and otherwise takes up the next slice. */
  lemma LoopHeadDecides(job: Job, s: Sender, n: Network, i: nat)
    requires i < |s.streams| && s.streams[i].stage.Looping?
    ensures var s', past := SenderStep(job, s, n, LoopHead(i)).0, s.streams[i].index * 65536 >= |job.file|;
            && |s'.streams| == |s.streams| && s'.streams[i].index == s.streams[i].index && s'.out == s.out
            && (s'.streams[i].stage == if past || s.out.paused || s.out.cancelled then Ended else Sealing)
            && (s'.live <==> s.live && !past)
  {
    SliceCountBounds(|job.file|, CHUNK_SIZE, s.streams[i].index);
  }

  /** A sealed packet decodes to this chunk; it goes straight on if less than 1 MiB is buffered on its lane, and waits
      otherwise. */
  lemma SealDecides(job: Job, s: Sender, n: Network, i: nat, iv: Bytes)
    requires |job.id| == ID_BYTES && i < |s.streams| && s.streams[i].stage.Sealing? && |iv| == IV_BYTES
    ensures var s', index := SenderStep(job, s, n, Seal(i, iv, true)).0, s.streams[i].index;
            && |s'.streams| == |s.streams| && s'.streams[i].index == index && s'.out == s.out && s'.live == s.live
            && (if n.buffered[index % 4] < 1048576 then s'.streams[i].stage.Granted? else s'.streams[i].stage.Waiting?)
            && Decode(s'.streams[i].stage.packet)
               == Some(Chunk(job.id, index % U32_LIMIT, iv,
                             job.crypto.seal(job.key, BytesAt(job, index), iv)))
  {
    var plain := Slice(job.file, s.streams[i].index, CHUNK_SIZE);
    DecodeEncoded(job.id, s.streams[i].index, iv, job.crypto.seal(job.key, plain, iv));
    HeaderFields(job.id, s.streams[i].index, iv);
    var h := Header(job.id, s.streams[i].index, iv).value;
    assert job.id[..ID_BYTES] == job.id;
    assert h[1 + ID_BYTES + 4..] == h[1 + ID_BYTES + 4..1 + ID_BYTES + 4 + |iv|];
  }

  /** The bytes of the file from `index * 64 KiB` on, 64 KiB of them or what there is. */
  function BytesAt(job: Job, index: nat): Bytes {
    job.file[Min(index * 65536, |job.file|)..Min((index + 1) * 65536, |job.file|)]
  }

  /** A waiting packet is let through by the low event or by the timeout, as it is. */
  lemma WaitEnds(job: Job, s: Sender, n: Network, i: nat)
    requires i < |s.streams| && s.streams[i].stage.Waiting?
    ensures var (s', n') := SenderStep(job, s, n, Timeout(i));
            && s'.streams[i] == Stream(s.streams[i].index, Granted(s.streams[i].stage.packet))
                 && n'.timeouts == n.timeouts + 1
            && n'.lanes == n.lanes && n'.buffered == n.buffered
    ensures var (s', n') := SenderStep(job, s, n, LowEvent(i));
            && n' == n
            && s'.streams[i] == if n.buffered[s.streams[i].index % 4] <= 65536
                                then Stream(s.streams[i].index, Granted(s.streams[i].stage.packet)) else s.streams[i]
  {
  }

  /** A handler that throws, and a reassembly that fails, go to their catch blocks; each catch reports one failure, and
      the inner one another if reporting throws. */
  lemma FailuresAreReported(job: Job, r: Receiver, n: Network, t: nat, throws: bool)
    requires t < |r.tasks|
    ensures r.tasks[t].Counted? ==>
              var r' := ReceiverStep(job, r, n, Check(t, true)).0; r'.tasks[t] == Failing(false) && !r'.live
    ensures r.tasks[t].Fetched? && Assemble(job.crypto, r.inc, r.tasks[t].chunks).None? ==>
              ReceiverStep(job, r, n, Verify(t)).0.tasks[t] == Failing(true)
    ensures r.tasks[t].Failing? ==>
              ReceiverStep(job, r, n, Clear(t, throws)).0.tasks[t] == Failed(r.tasks[t].inner)
    ensures r.tasks[t].Failed? ==>
              var r' := ReceiverStep(job, r, n, Announce(t, throws)).0;
              && r'.failures == r.failures + 1 && r'.completed == r.completed
              && r'.tasks[t] == if throws && r.tasks[t].inner then Failing(false) else Finished
    ensures r.tasks[t].Delivering? ==>
              var r' := ReceiverStep(job, r, n, Announce(t, throws)).0;
              && r'.failures == r.failures && r'.completed == r.completed + [r.tasks[t].blob]
              && r'.tasks[t] == if throws then Failing(true) else Finished
    ensures r.tasks[t].Fetching? ==>
              ReceiverStep(job, r, n, Fetch(t, false)).0 == r.(tasks := r.tasks[t := Fetched([])])
  {
  }

  // ---- clearing ----

  /** Before the clearing that its end owes. */
  predicate OwesClearing(t: Task) {
    t.Fetching? || t.Fetched? || t.Completing? || t.Failing? || t.Sweeping?
  }

  /** Clearing, at whichever end, removes every row of the transfer and no other. */
  lemma ClearingEmpties(job: Job, r: Receiver, n: Network, t: nat, other: Bytes)
    requires t < |r.tasks| && (r.tasks[t].Completing? || r.tasks[t].Failing? || r.tasks[t].Sweeping?)
    ensures var r' := ReceiverStep(job, r, n, Clear(t, true)).0;
            Of(r'.rows, job.id) == [] && (other != job.id ==> Of(r'.rows, other) == Of(r.rows, other))
    ensures ReceiverStep(job, r, n, Clear(t, false)).0.rows == r.rows
  {
    ClearIsLocal(r.rows, job.id, other);
  }

  /** Nothing is stored for a transfer that has ended, or somebody still owes the clearing. */
  ghost predicate Tidy(job: Job, r: Receiver) {
    r.live || Of(r.rows, job.id) == [] || exists t :: 0 <= t < |r.tasks| && OwesClearing(r.tasks[t])
  }

  /** Clearings succeed, and no save does once the transfer has ended. */
  predicate IsTidy(w: World, e: Event) {
    && (e.R? && e.r.Clear? ==> e.r.ok)
    && (e.R? && e.r.SaveEnds? && e.r.ok ==> w.r.live)
  }

  ghost predicate TidyRun(job: Job, w: World, es: seq<Event>) {
    es == [] ||
    var n := |es| - 1;
    TidyRun(job, w, es[..n]) && IsTidy(Run(job, w, es[..n]), es[n])
  }

  lemma StillOwes(job: Job, w: World, e: Event, t: nat)
    requires t < |w.r.tasks| && OwesClearing(w.r.tasks[t]) && IsTidy(w, e)
    ensures var r' := Step(job, w, e).r;
            t < |r'.tasks| && (OwesClearing(r'.tasks[t]) || Of(r'.rows, job.id) == [])
  {
    if e.R? && e.r.Clear? && e.r.task == t {
      ClearIsLocal(w.r.rows, job.id, job.id);
    }
  }

  lemma EndOwes(job: Job, w: World, e: Event)
    requires w.r.live && !Step(job, w, e).r.live
    ensures exists t :: 0 <= t < |Step(job, w, e).r.tasks| && OwesClearing(Step(job, w, e).r.tasks[t])
  {
    var r' := Step(job, w, e).r;
    if e.r.Check? {
      assert OwesClearing(r'.tasks[e.r.task]);
    } else {
      assert OwesClearing(r'.tasks[|w.r.tasks|]);
    }
  }

  lemma StepIsTidy(job: Job, w: World, e: Event)
    requires Tidy(job, w.r) && IsTidy(w, e)
    ensures Tidy(job, Step(job, w, e).r)
  {
    var r' := Step(job, w, e).r;
    if w.r.live {
      if !r'.live {
        EndOwes(job, w, e);
      }
    } else if t :| 0 <= t < |w.r.tasks| && OwesClearing(w.r.tasks[t]) {
      StillOwes(job, w, e, t);
    } else {
      NothingStored(job, w, e);
    }
  }

  lemma NothingStored(job: Job, w: World, e: Event)
    requires Of(w.r.rows, job.id) == []
    requires e.R? && e.r.SaveEnds? && e.r.ok ==> !(e.r.task < |w.r.tasks| && w.r.tasks[e.r.task].Saving?)
    ensures Of(Step(job, w, e).r.rows, job.id) == []
  {
    ClearIsLocal(w.r.rows, job.id, job.id);
  }

  lemma {:induction false} RunIsTidy(job: Job, es: seq<Event>)
    requires TidyRun(job, Accepted(job), es)
    ensures Tidy(job, Run(job, Accepted(job), es).r)
  {
    if es != [] {
      RunIsTidy(job, es[..|es| - 1]);
      StepIsTidy(job, Run(job, Accepted(job), es[..|es| - 1]), es[|es| - 1]);
    }
  }

  /** In every run, whatever else fails or is cancelled: when the transfer has ended, delivered, failed or cancelled,
      and every handler with it, nothing is stored for it any more, provided clearings succeed and no save succeeds
      after the end. */
  lemma EndedLeavesNothing(job: Job, es: seq<Event>)
    requires TidyRun(job, Accepted(job), es)
    requires var r := Run(job, Accepted(job), es).r;
             !r.live && forall t :: 0 <= t < |r.tasks| ==> !OwesClearing(r.tasks[t])
    ensures Of(Run(job, Accepted(job), es).r.rows, job.id) == []
  {
    RunIsTidy(job, es);
  }

  predicate IsSavingTask(t: Task) {
    t.Saving?
  }

  lemma NobodySaves(job: Job, w: World, e: Event)
    requires !w.r.live && forall t :: 0 <= t < |w.r.tasks| ==> !IsSavingTask(w.r.tasks[t])
    ensures var r' := Step(job, w, e).r; !r'.live && forall t :: 0 <= t < |r'.tasks| ==> !IsSavingTask(r'.tasks[t])
  {
  }

  lemma {:induction false} StaysEmpty(job: Job, w: World, es: seq<Event>)
    requires !w.r.live && Of(w.r.rows, job.id) == [] && forall t :: 0 <= t < |w.r.tasks| ==> !IsSavingTask(w.r.tasks[t])
    ensures var r := Run(job, w, es).r;
            !r.live && Of(r.rows, job.id) == [] && forall t :: 0 <= t < |r.tasks| ==> !IsSavingTask(r.tasks[t])
  {
    if es != [] {
      var v := Run(job, w, es[..|es| - 1]);
      StaysEmpty(job, w, es[..|es| - 1]);
      NobodySaves(job, v, es[|es| - 1]);
      if es[|es| - 1].R? && es[|es| - 1].r.SaveEnds? && es[|es| - 1].r.task < |v.r.tasks| {
        assert !IsSavingTask(v.r.tasks[es[|es| - 1].r.task]);
      }
      NothingStored(job, v, es[|es| - 1]);
    }
  }

  /** Why the last proviso is needed, exactly: once an ended transfer has been cleared, rows of it can come back if and
      only if a handler is still in its save. */
  lemma RowsComeBackIff(job: Job, w: World)
    requires ReceiverOk(job, w.r) && !w.r.live && Of(w.r.rows, job.id) == []
    ensures (exists es :: Of(Run(job, w, es).r.rows, job.id) != [])
            <==> exists t :: 0 <= t < |w.r.tasks| && IsSavingTask(w.r.tasks[t])
  {
    if t :| 0 <= t < |w.r.tasks| && IsSavingTask(w.r.tasks[t]) {
      var es := [R(SaveEnds(t, true))];
      assert GoodTask(job, w.r, w.r.tasks[t]);
      assert Run(job, w, es[..0]) == w;
      OfAppend(w.r.rows, w.r.tasks[t].row, job.id);
      assert Of(Run(job, w, es).r.rows, job.id) != [];
    } else {
      forall es ensures Of(Run(job, w, es).r.rows, job.id) == [] {
        StaysEmpty(job, w, es);
      }
    }
  }
}
