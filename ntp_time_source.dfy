/** The periodic-refresh (NTP) time source: a background loop that resolves the
    server, asks it for a correction offset, keeps the latest offset and signals the
    first synchronisation, until it is cancelled. The time it reports is the local
    clock plus the offset.

    One pass of the loop body is one step with an abstract outcome (the DNS lookup
    and the NTP exchange are libraries); the cancellation token is a stop flag. The
    wait between passes is the gap between steps: cancelling during it ends it at
    once, so the next check of the flag ends the loop. */
module NtpTimeSource {
  import TimeSources

  /** What one pass of the loop body meets: resolution yields no address, some
      exception (DNS, transport, cancellation of the lookup), or a correction offset
      in ticks. */
  datatype Outcome = NoAddress | Fault(message: string) | Correction(offset: int)

  /** Why a pass was logged as failed: no address, the "first sync" signal being set
      a second time, or another exception. */
  datatype Reason = Unresolved | AlreadySignalled | Exception(message: string)

  datatype LogEntry = Synchronized(offset: int) | SyncFailed(reason: Reason)

  /** The loop's state: the offset, whether FirstSyncPerformed has completed, whether
      cancellation was requested, whether the loop still runs, and its log. */
  datatype Loop = Loop(offset: int, firstSync: bool, cancelled: bool, running: bool, log: seq<LogEntry>)

  /** A newly constructed source: offset zero, loop started. */
  const Started: Loop := Loop(0, false, false, true, [])

  /** One check of the loop condition followed, if not cancelled, by one pass of the
      body. A correction always replaces the offset; signalling the first sync a
      second time throws, so every later success is logged as a failure. */
  function Iteration(l: Loop, o: Outcome): Loop {
    if !l.running then l
    else if l.cancelled then l.(running := false)
    else
      match o
      case NoAddress => l.(log := l.log + [SyncFailed(Unresolved)])
      case Fault(m) => l.(log := l.log + [SyncFailed(Exception(m))])
      case Correction(d) =>
        if l.firstSync then l.(offset := d, log := l.log + [SyncFailed(AlreadySignalled)])
        else l.(offset := d, firstSync := true, log := l.log + [Synchronized(d)])
  }

  /** The loop after a sequence of passes, in order. */
  function Iterations(l: Loop, os: seq<Outcome>): Loop
    decreases |os|
  {
    if os == [] then l else Iteration(Iterations(l, os[..|os| - 1]), os[|os| - 1])
  }

  /** DisposeAsync: request cancellation and wait for the loop to end. */
  function Disposed(l: Loop): Loop {
    l.(cancelled := true, running := false)
  }

  /** GetCurrentTime: the local clock plus the offset. */
  function CurrentTime(l: Loop, now: int): (t: int)
    ensures t - now == l.offset
  {
    now + l.offset
  }

  /** The offset a sequence of passes leaves while the loop runs uncancelled: the
      last correction, or the earlier offset if there was none. */
  function LastCorrection(os: seq<Outcome>, earlier: int): int
    decreases |os|
  {
    if os == [] then earlier
    else if os[|os| - 1].Correction? then os[|os| - 1].offset
    else LastCorrection(os[..|os| - 1], earlier)
  }

  /** Errors never end the loop and never change the offset. */
  lemma ErrorsKeepLoopAndOffset(l: Loop, o: Outcome)
    requires l.running && !l.cancelled && !o.Correction?
    ensures Iteration(l, o).running && Iteration(l, o).offset == l.offset
    ensures Iteration(l, o).firstSync == l.firstSync
    ensures |Iteration(l, o).log| == |l.log| + 1 && Iteration(l, o).log[|l.log|].SyncFailed?
  {}

  /** A correction sets the offset and completes FirstSyncPerformed, so the reported
      time is the local clock plus the correction. */
  lemma CorrectionSetsOffset(l: Loop, d: int, now: int)
    requires l.running && !l.cancelled
    ensures Iteration(l, Correction(d)).firstSync
    ensures CurrentTime(Iteration(l, Correction(d)), now) == now + d
    ensures l.firstSync ==> Iteration(l, Correction(d)).log == l.log + [SyncFailed(AlreadySignalled)]
  {}

  /** While the loop runs uncancelled, its offset is that of the last correction. */
  lemma {:induction false} OffsetIsLastCorrection(l: Loop, os: seq<Outcome>)
    requires l.running && !l.cancelled
    ensures Iterations(l, os).running && !Iterations(l, os).cancelled
    ensures Iterations(l, os).offset == LastCorrection(os, l.offset)
    decreases |os|
  {
    if os != [] {
      OffsetIsLastCorrection(l, os[..|os| - 1]);
    }
  }

  /** Once FirstSyncPerformed has completed it stays completed. */
  lemma {:induction false} FirstSyncStays(l: Loop, os: seq<Outcome>)
    requires l.firstSync
    ensures Iterations(l, os).firstSync
    decreases |os|
  {
    if os != [] {
      FirstSyncStays(l, os[..|os| - 1]);
    }
  }

  /** Once the loop has ended nothing changes any more. */
  lemma {:induction false} EndedLoopIsFinal(l: Loop, os: seq<Outcome>)
    requires !l.running
    ensures Iterations(l, os) == l
    decreases |os|
  {
    if os != [] {
      EndedLoopIsFinal(l, os[..|os| - 1]);
    }
  }

  /** After a cancellation the loop runs no further pass: at most one more check,
      which ends it, and the offset and log never change. */
  lemma {:induction false} CancelledLoopKeepsOffset(l: Loop, os: seq<Outcome>)
    requires l.cancelled
    ensures Iterations(l, os).offset == l.offset && Iterations(l, os).log == l.log
    ensures os != [] ==> !Iterations(l, os).running
    decreases |os|
  {
    if os != [] {
      CancelledLoopKeepsOffset(l, os[..|os| - 1]);
    }
  }

  /** After DisposeAsync has been awaited the time reported is the local clock plus
      the offset at disposal, however many refresh intervals pass. */
  lemma DisposedOffsetIsFrozen(l: Loop, os: seq<Outcome>, now: int)
    ensures CurrentTime(Iterations(Disposed(l), os), now) == now + l.offset
  {
    EndedLoopIsFinal(Disposed(l), os);
  }

  /** A pass ends with FirstSyncPerformed completed exactly when the signal was
      already completed or the pass got a correction. */
  lemma {:induction false} FirstSyncIffCorrection(l: Loop, os: seq<Outcome>)
    requires l.running && !l.cancelled
    ensures Iterations(l, os).firstSync <==>
      l.firstSync || exists i :: 0 <= i < |os| && os[i].Correction?
    decreases |os|
  {
    if os != [] {
      var init := os[..|os| - 1];
      FirstSyncIffCorrection(l, init);
      OffsetIsLastCorrection(l, init);
      if exists i :: 0 <= i < |os| && os[i].Correction? {
        var i :| 0 <= i < |os| && os[i].Correction?;
        if i < |init| {
          assert init[i] == os[i];
        }
      }
      if exists i :: 0 <= i < |init| && init[i].Correction? {
        var i :| 0 <= i < |init| && init[i].Correction?;
        assert os[i] == init[i];
      }
    }
  }

  /** An attempt that waits on FirstSyncPerformed of a new source `h` under its
      deadline, after the source's loop has run `passes` before the deadline: the
      wait completes once the signal is completed and times out otherwise. The loop
      catches the exception of every pass and the signal is only ever completed
      with a result, so the wait ends in no other exception. */
  function FirstSyncWait(h: TimeSources.Handle, passes: seq<Outcome>): (r: TimeSources.SyncOutcome)
    ensures !r.Failed?
  {
    if Iterations(Started, passes).firstSync then TimeSources.Synced(h) else TimeSources.TimedOut
  }

  /** The wait succeeds, with the new source, exactly when some pass before the
      deadline got a correction; otherwise it times out. Whatever the DNS lookups and
      exchanges throw, an attempt on an NTP server never fails with an exception. */
  lemma FirstSyncWaitSucceedsIffCorrection(h: TimeSources.Handle, passes: seq<Outcome>)
    ensures FirstSyncWait(h, passes) == TimeSources.Synced(h) <==>
      exists i :: 0 <= i < |passes| && passes[i].Correction?
    ensures FirstSyncWait(h, passes) != TimeSources.Synced(h) ==>
      FirstSyncWait(h, passes) == TimeSources.TimedOut
  {
    FirstSyncIffCorrection(Started, passes);
  }

  class NtpSource {
    var offset: int          // _offset, in ticks
    var firstSync: bool      // FirstSyncPerformed has completed
    var cancelled: bool      // _cts.IsCancellationRequested
    var running: bool        // the background loop has not ended
    var log: seq<LogEntry>

    ghost function State(): Loop
      reads this
    {
      Loop(offset, firstSync, cancelled, running, log)
    }

    /** The constructor starts the loop; it has not synchronised yet. */
    constructor ()
      ensures State() == Started
    {
      offset, firstSync, cancelled, running, log := 0, false, false, true, [];
    }

    function GetCurrentTime(now: int): (t: int)
      reads this
      ensures t == CurrentTime(State(), now)
    {
      now + offset
    }

    /** One check of the loop condition and, if it holds, one pass of the body. */
    method Iterate(o: Outcome)
      modifies this
      ensures State() == Iteration(old(State()), o)
    {
      if !running {
        return;
      }
      if cancelled {
        running := false;
        return;
      }
      match o
      case NoAddress =>
        log := log + [SyncFailed(Unresolved)];
      case Fault(m) =>
        log := log + [SyncFailed(Exception(m))];
      case Correction(d) =>
        offset := d;
        if firstSync {
          log := log + [SyncFailed(AlreadySignalled)];
        } else {
          firstSync := true;
          log := log + [Synchronized(d)];
        }
    }

    /** PerformBackgroundUpdatesAsync, with the outcomes the libraries give each pass. */
    method PerformBackgroundUpdates(outcomes: seq<Outcome>)
      modifies this
      ensures State() == Iterations(old(State()), outcomes)
    {
      var i := 0;
      while i < |outcomes| && running
        invariant 0 <= i <= |outcomes|
        invariant State() == Iterations(old(State()), outcomes[..i])
      {
        assert outcomes[..i + 1][..i] == outcomes[..i];
        Iterate(outcomes[i]);
        i := i + 1;
      }
      if i < |outcomes| {
        EndedLoopIsFinal(State(), outcomes[i..]);
        IterationsSplit(old(State()), outcomes[..i], outcomes[i..]);
        assert outcomes[..i] + outcomes[i..] == outcomes;
      } else {
        assert outcomes[..i] == outcomes;
      }
    }

    /** Cancels the token without waiting. */
    method Cancel()
      modifies this
      ensures State() == old(State()).(cancelled := true)
    {
      cancelled := true;
    }

    /** DisposeAsync: cancel, then wait until the loop has observed it and ended. */
    method DisposeAsync()
      modifies this
      ensures State() == Disposed(old(State()))
    {
      cancelled := true;
      running := false;
    }
  }

  /** Running two sequences of passes one after the other is running them together. */
  lemma {:induction false} IterationsSplit(l: Loop, xs: seq<Outcome>, ys: seq<Outcome>)
    ensures Iterations(l, xs + ys) == Iterations(Iterations(l, xs), ys)
    decreases |ys|
  {
    if ys == [] {
      assert xs + ys == xs;
    } else {
      assert (xs + ys)[..|xs + ys| - 1] == xs + ys[..|ys| - 1];
      IterationsSplit(l, xs, ys[..|ys| - 1]);
    }
  }
}
