/** A whole run that meets every hypothesis of the end-to-end theorems exists: five lines on
    stdout, one interleaving that reads and drains them, and a runner that claims completion. */
module WholeRunWitness {
  import opened Wrappers
  import opened Utf8
  import opened Json
  import opened AppServerProtocol
  import ByteBoundedQueue
  import opened ProviderAdmission
  import opened AdmissionLog
  import opened CleanRunWitness
  import opened ProviderRunner
  import opened WholeRun
  import Acquisition = OrderedAcquisition
  import opened AcquisitionRuns

  // ---- The stream and the client ----

  function MessageAt(i: nat): ServerMessage
    requires i < 5
  {
    Message(i)
  }

  function EnvelopeAt(i: nat): AcquisitionEnvelope
    requires i < 5
  {
    AcquisitionEnvelope(i, NOTIFICATION, Some(MessageAt(i)), None, None, None)
  }

  /** The stream from its k-th line on. */
  function Rest(k: nat): bytes
    requires k <= 5
    decreases 5 - k
  {
    if k == 5 then [] else Wire(k) + Rest(k + 1)
  }

  function Lines(k: nat): seq<bytes>
    requires k <= 5
  {
    if k == 0 then [] else Lines(k - 1) + [Wire(k - 1)]
  }

  function Messages(k: nat): seq<ServerMessage>
    requires k <= 5
  {
    if k == 0 then [] else Messages(k - 1) + [MessageAt(k - 1)]
  }

  function Envelopes(k: nat): (es: seq<AcquisitionEnvelope>)
    requires k <= 5
    ensures |es| == k && forall i | 0 <= i < k :: es[i] == EnvelopeAt(i)
  {
    if k == 0 then [] else Envelopes(k - 1) + [EnvelopeAt(k - 1)]
  }

  function ParseLine(line: bytes): Acquisition.LineParse {
    match Decode(line)
    case Parsed(v) => Acquisition.Decoded(v)
    case Refused(_) => Acquisition.Undecodable
  }

  function Client(): Acquisition.Setup {
    Acquisition.Setup(ParseLine, _ => "", _ => "", 1024, Acquisition.Bound(5, 1024), Acquisition.Bound(5, 1024),
                      LegacyV1, "p", "s")
  }

  /** After the first k lines have been read and delivered. */
  function Read(k: nat): Machine
    requires k <= 5
  {
    Machine(
      Acquisition.Client(
        Acquisition.Channels(Envelopes(k), Messages(k), [], [], k, 0),
        Acquisition.Selection(None, None), Acquisition.Routing(map[], map[]),
        Acquisition.Reader(Rest(k), None, Acquisition.READING)),
      [], Lines(k), 0)
  }

  lemma {:induction false} Weights(k: nat)
    requires k <= 5
    ensures |Messages(k)| == k && ByteBoundedQueue.TotalBytes(Acquisition.MessageSize(Client()), Messages(k)) == 2 * k
    ensures ByteBoundedQueue.TotalBytes(Acquisition.EnvelopeSize(Client()), Envelopes(k)) == 66 * k
  {
    hide EnvelopeAt, MessageAt, Client, Acquisition.MessageSize, Acquisition.EnvelopeSize;
    if k > 0 {
      Weights(k - 1);
      assert Messages(k)[..k - 1] == Messages(k - 1) && Envelopes(k)[..k - 1] == Envelopes(k - 1);
      Weight(k - 1);
    }
  }

  lemma Weight(i: nat)
    requires i < 5
    ensures Acquisition.MessageSize(Client())(MessageAt(i)) == 2
    ensures Acquisition.EnvelopeSize(Client())(EnvelopeAt(i)) == 66
  {
  }

  lemma Classified(i: nat)
    requires i < 5
    ensures Acquisition.FirstLine(Rest(i)) == Wire(i) && Rest(i)[2..] == Rest(i + 1)
    ensures Acquisition.Classify(Client(), Acquisition.Selection(None, None), Acquisition.Routing(map[], map[]), Wire(i))
      == Acquisition.Offer(MessageAt(i), false)
  {
    hide StartedParams, ResponseParams, CompletedParams, ItemParams, TurnParams, RefusedParams;
    Acquisition.LineLengthIs(Rest(i), 2);
    assert Decode(Wire(i)) == Parsed(Obj(Line(i)));
    assert "id" != "method" && "id" != "params";
  }

  /** With the k-th line in hand. */
  function Holding(k: nat): Machine
    requires k < 5
  {
    var held := Acquisition.Held(Wire(k), Acquisition.Offer(MessageAt(k), false));
    var reader := Acquisition.Reader(Rest(k + 1), Some(held), Acquisition.READING);
    Read(k).(client := Read(k).client.(reader := reader), lines := Lines(k + 1))
  }

  lemma FetchesOne(k: nat)
    requires k < 5
    ensures Next(Client(), Read(k), ReaderFetch) == Holding(k)
  {
    hide Acquisition.Classify, MessageAt, Envelopes, Messages;
    Classified(k);
  }

  lemma DeliversOne(k: nat)
    requires k < 5
    ensures Next(Client(), Holding(k), ReaderDeliver) == Read(k + 1)
  {
    hide MessageAt, Wire, Rest, Acquisition.MessageSize, Acquisition.EnvelopeSize;
    Weights(k);
    Weight(k);
  }

  lemma ReadsOne(k: nat)
    requires k < 5
    ensures Next(Client(), Next(Client(), Read(k), ReaderFetch), ReaderDeliver) == Read(k + 1)
  {
    hide Next, Read, Client;
    FetchesOne(k);
    DeliversOne(k);
  }

  function Reads(k: nat): seq<Action> {
    if k == 0 then [] else Reads(k - 1) + [ReaderFetch] + [ReaderDeliver]
  }

  lemma {:induction false} ReadsMany(k: nat)
    requires k <= 5
    ensures Execute(Client(), Rest(0), Reads(k)) == Read(k)
  {
    hide Next, Read, Client, Rest;
    if k == 0 {
      Starts();
    } else {
      ReadsMany(k - 1);
      ExecuteExtends(Client(), Rest(0), Reads(k - 1), ReaderFetch);
      ExecuteExtends(Client(), Rest(0), Reads(k - 1) + [ReaderFetch], ReaderDeliver);
      ReadsOne(k - 1);
    }
  }

  lemma Starts()
    ensures Execute(Client(), Rest(0), []) == Read(0)
  {
  }

  function Before(): seq<Action> { Reads(5) + [ReaderFetch] }

  function Takes(k: nat): seq<Action> {
    if k == 0 then [] else Takes(k - 1) + [TakeOrdered]
  }

  /** At the end of stdout, with the first k envelopes drained. */
  ghost predicate Ended(m: Machine, k: nat) {
    && k <= 5 && m.taken == 0
    && m.drained == Envelopes(k) && m.client.channels.ordered == Envelopes(5)[k..]
    && m.client.channels.ordinal == 5 && m.client.channels.lossGeneration == 0
    && m.client.reader.disposition.CLEAN_EOF?
  }

  lemma {:induction false} TakesMany(k: nat)
    requires k <= 5
    ensures Ended(Execute(Client(), Rest(0), Before() + Takes(k)), k)
  {
    hide Client, Rest, Next, Ended, Execute, Read, Reads;
    if k == 0 {
      ReadsMany(5);
      ExecuteExtends(Client(), Rest(0), Reads(5), ReaderFetch);
      assert Before() + [] == Before();
      SeesEnd();
    } else {
      TakesMany(k - 1);
      assert Before() + Takes(k) == (Before() + Takes(k - 1)) + [TakeOrdered];
      ExecuteExtends(Client(), Rest(0), Before() + Takes(k - 1), TakeOrdered);
      TakesOne(Execute(Client(), Rest(0), Before() + Takes(k - 1)), k);
    }
  }

  lemma TakesOne(m: Machine, k: nat)
    requires 1 <= k <= 5 && Ended(m, k - 1)
    ensures Ended(Next(Client(), m, TakeOrdered), k)
  {
    hide EnvelopeAt, Client;
    assert Envelopes(5)[k - 1..][0] == EnvelopeAt(k - 1);
    assert Envelopes(5)[k - 1..][1..] == Envelopes(5)[k..];
  }

  lemma SeesEnd()
    ensures Ended(Next(Client(), Read(5), ReaderFetch), 0)
  {
    assert Envelopes(5)[0..] == Envelopes(5);
  }

  // ---- The runner ----

  function Set(): Settings { Settings(Witness(), 1024) }

  function Drained(): Batch { Batch(Envelopes(5), false) }

  function End(): Ending { Ending(Batch([], false), CutAt(5), false) }

  lemma CallAt(i: nat)
    requires i < 5
    ensures Ops()[i] == Envelope(EnvelopeAt(i))
  {
    hide Message;
  }

  /** What the runner has projected before its k-th envelope: the agent message is the fourth, the
      end of the turn the fifth. */
  ghost predicate Projected(l: Live, k: nat) {
    && k <= 5 && l.calls == Ops()[..k] && !l.attributionFailed
    && l.outputBytes == (if k < 4 then 0 else |Encode("done")|)
    && l.record == FRESH.(workerOutput := if k < 4 then None else Some("done"),
                          turnStatus := if k < 5 then Null else Str("completed"))
  }

  lemma ConsumesOne(l: Live, i: nat)
    requires i < 5 && Projected(l, i) && GoesThrough(Ops(), i)
    ensures Consume(Set(), l, EnvelopeAt(i)).ok && Projected(Consume(Set(), l, EnvelopeAt(i)).live, i + 1)
  {
    hide Step, Run, Ops, Message, Project;
    CallAt(i);
    assert Ops()[..i] + [Ops()[i]] == Ops()[..i + 1];
    var p := Perform(Set(), l, Envelope(EnvelopeAt(i)));
    assert p.ok && p.live == l.(calls := Ops()[..i + 1]);
    if i < 3 {
      BoundaryIsSilent(p.live, i);
    } else if i == 3 {
      ItemIsOutput(p.live);
    } else {
      TurnIsStatus(p.live);
    }
  }

  lemma BoundaryIsSilent(l: Live, i: nat)
    requires i < 3
    ensures Project(Set(), l, MessageAt(i)) == Progress(l, true)
  {
    hide Run, Step;
    assert |TOKEN_USAGE| == 25 && |ITEM_COMPLETED| == 14 && |TURN_COMPLETED| == 14;
    assert |"providerRequest/started"| == 23 && |"rawResponse/started"| == 19 && |"rawResponse/completed"| == 21;
  }

  lemma ItemIsOutput(l: Live)
    requires !l.attributionFailed && l.outputBytes == 0
    ensures Project(Set(), l, MessageAt(3)) ==
      Progress(l.(outputBytes := |Encode("done")|, record := l.record.(workerOutput := Some("done"))), true)
  {
    hide Run, Step;
    assert |TOKEN_USAGE| == 25 && ITEM_COMPLETED[0] == 'i' && TURN_COMPLETED[0] == 't';
    assert |"done"| == 4 && |Encode("done")| <= 16;
    assert AgentText(ItemParams()["item"].fields) == Some("done");
  }

  lemma TurnIsStatus(l: Live)
    ensures Project(Set(), l, MessageAt(4)) == Progress(l.(record := l.record.(turnStatus := Str("completed"))), true)
  {
    hide Run, Step;
    assert |TOKEN_USAGE| == 25 && ITEM_COMPLETED[0] == 'i' && TURN_COMPLETED[0] == 't' && |TURN_COMPLETED| == 14;
  }

  lemma {:induction false} ConsumesAll(l: Live, i: nat)
    requires i <= 5 && Projected(l, i)
    ensures ConsumeAll(Set(), l, Envelopes(5)[i..]).ok && Projected(ConsumeAll(Set(), l, Envelopes(5)[i..]).live, 5)
    decreases 5 - i
  {
    hide Consume, Projected, Ops;
    if i < 5 {
      EveryCallGoesThrough();
      assert GoesThrough(Ops(), i);
      ConsumesOne(l, i);
      assert Envelopes(5)[i..][0] == EnvelopeAt(i) && Envelopes(5)[i..][1..] == Envelopes(5)[i + 1..];
      ConsumesAll(Consume(Set(), l, EnvelopeAt(i)).live, i + 1);
    } else {
      assert Envelopes(5)[i..] == [];
    }
  }

  lemma SixCalls()
    ensures |Ops()| == 6 && Ops()[5] == Cut(CutAt(5)) && Ops()[..0] == [] && Ops()[..6] == Ops()
  {
  }

  /** One batch is polled; it settles the turn. */
  lemma PollsOnce()
    ensures Poll(Set(), LAUNCHED, [Drained()]).ok && Polled(Set(), LAUNCHED, [Drained()]) == 1
    ensures var l := Poll(Set(), LAUNCHED, [Drained()]).live;
      && l.calls == Ops()[..5]
      && l.record.turnStatus == Str("completed") && l.record.workerOutput == Some("done")
  {
    hide ConsumeAll, Run, Step, Ops;
    SixCalls();
    assert Envelopes(5)[0..] == Envelopes(5);
    ConsumesAll(LAUNCHED, 0);
    EveryCallGoesThrough();
    assert Settled(Run(Witness(), Ops()[..5]));
  }

  lemma ConcludesClean(l: Live)
    requires l.calls == Ops()[..5] && l.record.turnStatus == Str("completed")
    ensures var p := Conclude(Set(), l, End());
      p.ok && p.live.record.state.RUN_COMPLETED? && p.live.record.workerOutput == l.record.workerOutput
  {
    hide Run, Step, Ops;
    SixCalls();
    EveryCallGoesThrough();
    assert GoesThrough(Ops(), 5);
    assert Ops()[..5] + [Ops()[5]] == Ops()[..6];
  }

  /** All the hypotheses of the whole-run theorem hold together: this run returns claiming
      completion with the agent's text, its cut is the client's, and its events are the drained ones. */
  lemma WholeRunExists()
    ensures var returned := Returned(Set(), [Drained()], End());
      && returned.Some? && returned.value.record.state.RUN_COMPLETED?
      && returned.value.record.workerOutput == Some("done")
    ensures CutOf(Execute(Client(), Rest(0), Before()), End().cut)
    ensures Polled(Set(), LAUNCHED, [Drained()]) == 1
    ensures EventsOf([Drained()]) + End().last.events <= Execute(Client(), Rest(0), Before() + Takes(5)).drained
  {
    hide Poll, Conclude, Execute, Client, Rest;
    PollsOnce();
    ConcludesClean(Poll(Set(), LAUNCHED, [Drained()]).live);
    TakesMany(0);
    TakesMany(5);
    assert Before() + [] == Before();
    assert [Drained()][1..] == [] && EventsOf([Drained()]) == Envelopes(5) + EventsOf([]);
  }
}
