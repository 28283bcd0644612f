/** Shutting the App Server down: what can fail on the way, and the terminal cut it comes to. */
module TerminalCut {
  import opened Wrappers
  import opened Utf8
  import opened Reasons
  import opened AppServerProtocol
  import opened OrderedAcquisition
  import opened AcquisitionRuns

  datatype Await = Exited | StillRunning | AwaitRaised(error: string)

  datatype WriterClose = InputClosed | WriterBusy | CloseRaised(closeError: string)

  datatype Join = ReaderAbsent | Joined | StillAlive | JoinRaised(joinError: string)

  /** How the process and the two reader threads behave while the client shuts down; a signal
      that raised carries its text. */
  datatype Shutdown = Shutdown(
    processPresent: bool,
    writer: WriterClose,
    exit: Await,
    terminate: Option<string>,
    exitAfterTerminate: Await,
    kill: Option<string>,
    exitAfterKill: Await,
    stdoutJoin: Join,
    stderrJoin: Join,
    stderrDisposition: ReaderDisposition)
  {
    /** The losses of a shutdown, in order. */
    function Losses(stdoutDisposition: ReaderDisposition): seq<Reason> {
      if !processPresent then [AppServerAbsentAtTerminalEvidenceBoundary]
      else WriterLosses(writer) + ExitLosses() + ReaderLosses(stdoutDisposition)
    }

    function ReaderLosses(stdoutDisposition: ReaderDisposition): seq<Reason> {
      JoinLosses(stdoutJoin, stdoutDisposition) + JoinLosses(stderrJoin, stderrDisposition)
    }

    function ExitLosses(): seq<Reason> {
      if exit.Exited? then []
      else
        var terminated := AwaitLosses(exit, AppServerDidNotQuiesce) + RaiseLosses(terminate)
                          + AwaitLosses(exitAfterTerminate, AppServerDidNotExitAfterTerminate);
        if exitAfterTerminate.Exited? then terminated
        else terminated + RaiseLosses(kill) + AwaitLosses(exitAfterKill, AppServerFinalWaitFailed)
    }

    function Disposition(): ProcessDisposition {
      if !processPresent then ABSENT
      else if exit.Exited? then EXITED
      else if exitAfterTerminate.Exited? then EXITED_AFTER_TERMINATE
      else if exitAfterKill.Exited? then EXITED_AFTER_KILL
      else EXIT_UNCONFIRMED
    }
  }

  function AwaitLosses(await: Await, late: Reason): seq<Reason> {
    match await
    case Exited => []
    case StillRunning => [late]
    case AwaitRaised(error) => [Reported(error)]
  }

  function RaiseLosses(raised: Option<string>): seq<Reason> {
    if raised.Some? then [Reported(raised.value)] else []
  }

  function WriterLosses(writer: WriterClose): seq<Reason> {
    match writer
    case InputClosed => []
    case WriterBusy => [AppServerWriterLockDidNotQuiesce]
    case CloseRaised(error) => [Reported(error)]
  }

  function JoinLosses(join: Join, disposition: ReaderDisposition): seq<Reason> {
    match join
    case ReaderAbsent => [AppServerReaderAbsent]
    case StillAlive => [AppServerReaderDidNotReachEof]
    case JoinRaised(error) => [Reported(error)]
    case Joined => if disposition.CLEAN_EOF? then [] else [AppServerReaderEndedWithoutCleanEof]
  }

  // ---- The cut ----

  /** Losses recorded one after the other. */
  function RecordLosses(setup: Setup, c: Channels, losses: seq<Reason>): Channels {
    if losses == [] then c
    else RecordLoss(setup, RecordLosses(setup, c, losses[..|losses| - 1]), losses[|losses| - 1], None)
  }

  /** The client after its shutdown. */
  function Shut(setup: Setup, s: Client, shutdown: Shutdown): Client {
    s.(channels := RecordLosses(setup, s.channels, shutdown.Losses(s.reader.disposition)))
  }

  /** What `quiesce_acquisition` returns. */
  function QuiescedCut(setup: Setup, s: Client, shutdown: Shutdown): AcquisitionCut {
    var shut := Shut(setup, s, shutdown);
    AcquisitionCut(shutdown.Losses(s.reader.disposition) == [], shut.channels.lossGeneration, shutdown.Disposition(),
      shut.channels.ordinal, Some(setup.adapterProcessOccurrenceId), Some(setup.appServerSessionIdentity))
  }

  /** Nothing went wrong: the input was closed, the process left by itself, and both readers saw the
      end of their streams. */
  predicate QuietShutdown(shutdown: Shutdown, stdoutDisposition: ReaderDisposition) {
    && shutdown.processPresent && shutdown.writer == InputClosed && shutdown.exit == Exited
    && shutdown.stdoutJoin == Joined && shutdown.stderrJoin == Joined
    && stdoutDisposition == CLEAN_EOF && shutdown.stderrDisposition == CLEAN_EOF
  }

  function Count(failed: bool): nat { if failed then 1 else 0 }

  /** How many steps of the shutdown failed; a terminate and a kill are only tried in turn. */
  function Failures(shutdown: Shutdown, stdoutDisposition: ReaderDisposition): nat {
    if !shutdown.processPresent then 1
    else
      Count(shutdown.writer != InputClosed)
      + Count(shutdown.stdoutJoin != Joined || stdoutDisposition != CLEAN_EOF)
      + Count(shutdown.stderrJoin != Joined || shutdown.stderrDisposition != CLEAN_EOF)
      + if shutdown.exit == Exited then 0
        else 1 + Count(shutdown.terminate.Some?)
             + if shutdown.exitAfterTerminate == Exited then 0
               else 1 + Count(shutdown.kill.Some?) + Count(shutdown.exitAfterKill != Exited)
  }

  lemma FailuresAreLosses(shutdown: Shutdown, stdoutDisposition: ReaderDisposition)
    ensures |shutdown.Losses(stdoutDisposition)| == Failures(shutdown, stdoutDisposition)
  {
    assert |shutdown.ReaderLosses(stdoutDisposition)| ==
      Count(shutdown.stdoutJoin != Joined || stdoutDisposition != CLEAN_EOF)
      + Count(shutdown.stderrJoin != Joined || shutdown.stderrDisposition != CLEAN_EOF);
    assert |WriterLosses(shutdown.writer)| == Count(shutdown.writer != InputClosed);
  }

  /** The cut is quiesced exactly after a shutdown without failure; each failure is one loss; and the
      process's disposition tells which of the three waits, if any, saw it leave. */
  lemma QuiescedExactly(setup: Setup, s: Client, shutdown: Shutdown)
    ensures var cut := QuiescedCut(setup, s, shutdown);
      && (cut.streamQuiesced <==> QuietShutdown(shutdown, s.reader.disposition))
      && cut.lossGeneration == s.channels.lossGeneration + Failures(shutdown, s.reader.disposition)
      && (cut.processDisposition == ABSENT <==> !shutdown.processPresent)
      && (cut.processDisposition == EXITED <==> shutdown.processPresent && shutdown.exit == Exited)
      && (cut.processDisposition == EXITED_AFTER_TERMINATE <==>
            shutdown.processPresent && shutdown.exit != Exited && shutdown.exitAfterTerminate == Exited)
      && (cut.processDisposition == EXITED_AFTER_KILL <==>
            && shutdown.processPresent && shutdown.exit != Exited && shutdown.exitAfterTerminate != Exited
            && shutdown.exitAfterKill == Exited)
      && (cut.processDisposition == EXIT_UNCONFIRMED <==>
            && shutdown.processPresent && shutdown.exit != Exited && shutdown.exitAfterTerminate != Exited
            && shutdown.exitAfterKill != Exited)
      && cut.adapterProcessOccurrenceId == Some(setup.adapterProcessOccurrenceId)
      && cut.appServerSessionIdentity == Some(setup.appServerSessionIdentity)
  {
    hide RecordLosses, WriterLosses;
    hide Failures, QuietShutdown, RecordLoss;
    FailuresAreLosses(shutdown, s.reader.disposition);
    NoFailureIsQuiet(shutdown, s.reader.disposition);
    LossesAreCounted(setup, s.channels, shutdown.Losses(s.reader.disposition));
  }

  lemma NoFailureIsQuiet(shutdown: Shutdown, stdoutDisposition: ReaderDisposition)
    ensures Failures(shutdown, stdoutDisposition) == 0 <==> QuietShutdown(shutdown, stdoutDisposition)
  {
  }

  lemma OneLoss(setup: Setup, c: Channels, reason: Reason)
    ensures RecordLosses(setup, c, [reason]) == RecordLoss(setup, c, reason, None)
  {
    assert RecordLosses(setup, c, [reason][..0]) == c;
  }

  lemma {:induction false} LossesConcat(setup: Setup, c: Channels, a: seq<Reason>, b: seq<Reason>)
    ensures RecordLosses(setup, c, a + b) == RecordLosses(setup, RecordLosses(setup, c, a), b)
  {
    if b == [] {
      assert a + b == a;
    } else {
      LossesConcat(setup, c, a, b[..|b| - 1]);
      assert (a + b)[..|a + b| - 1] == a + b[..|b| - 1];
    }
  }

  lemma {:induction false} LossesAreCounted(setup: Setup, c: Channels, losses: seq<Reason>)
    ensures RecordLosses(setup, c, losses).lossGeneration == c.lossGeneration + |losses|
  {
    if losses != [] {
      LossesAreCounted(setup, c, losses[..|losses| - 1]);
    }
  }

  // ---- The cut in a run ----

  function SideLosses(losses: seq<Reason>): seq<Action> {
    if losses == [] then [] else SideLosses(losses[..|losses| - 1]) + [SideLoss(losses[|losses| - 1], None)]
  }

  lemma {:induction false} LossesRun(setup: Setup, stream: bytes, actions: seq<Action>, losses: seq<Reason>)
    ensures var m := Execute(setup, stream, actions);
      Execute(setup, stream, actions + SideLosses(losses))
        == m.(client := m.client.(channels := RecordLosses(setup, m.client.channels, losses)))
  {
    hide RecordLoss, Next, Execute;
    if losses == [] {
      assert actions + [] == actions;
    } else {
      var init, last := losses[..|losses| - 1], losses[|losses| - 1];
      LossesRun(setup, stream, actions, init);
      assert actions + SideLosses(losses) == (actions + SideLosses(init)) + [SideLoss(last, None)];
      ExecuteExtends(setup, stream, actions + SideLosses(init), SideLoss(last, None));
      OneSideLoss(setup, Execute(setup, stream, actions + SideLosses(init)), last);
    }
  }

  lemma OneSideLoss(setup: Setup, m: Machine, reason: Reason)
    ensures Next(setup, m, SideLoss(reason, None))
      == m.(client := m.client.(channels := RecordLoss(setup, m.client.channels, reason, None)))
  {
    hide RecordLoss;
  }

  /** The cut the client returns is the cut of its run, with the shutdown's losses as the run's
      last steps; and it is quiesced only at the end of stdout with the process gone. */
  lemma QuiescedCutIsOfRun(setup: Setup, stream: bytes, actions: seq<Action>, shutdown: Shutdown)
    ensures var m := Execute(setup, stream, actions);
      var cut := QuiescedCut(setup, m.client, shutdown);
      var m' := Execute(setup, stream, actions + SideLosses(shutdown.Losses(m.client.reader.disposition)));
      && m'.client == Shut(setup, m.client, shutdown) && m'.drained == m.drained && m'.taken == m.taken
      && CutOf(m', cut)
      && (cut.streamQuiesced ==> m' == m && ProcessClosed(cut.processDisposition))
  {
    var m := Execute(setup, stream, actions);
    LossesRun(setup, stream, actions, shutdown.Losses(m.client.reader.disposition));
  }
}
