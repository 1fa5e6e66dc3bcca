/** A run in which a requester's application is told of the end of its stream twice. */
module ChannelLateError {
  import opened Options
  import opened Bytes
  import opened Frames
  import opened Reassembler
  import opened Fragmenter
  import opened Sending
  import opened StreamSignals
  import opened ChannelStreams
  import opened ChannelSystem
  import opened ChannelErrors

  const GREETING := Item([9], None, false)
  const LARGE_METADATA := Item([], Some([1, 2, 3, 4, 5]), false)
  const NOTE := Extension(1, None, false)

  /** The handler is called with the request, and the responder completes. The requester, which may still
      send, sends large metadata without data, and an extension. */
  function LateSteps(): seq<Step> {
    [RequesterCalls(Ready(1)), ToResponder, ResponderCalls(HandlerReturns), ResponderCalls(Call.Completes), ToRequester,
     RequesterCalls(Call.Sends(LARGE_METADATA)), RequesterCalls(Extends(NOTE)), ToResponder, ToResponder, ToResponder, ToRequester]
  }

  function Piece(metadata: bytes): Frame {
    Payload(1, PayloadFlags(true, false, true, true), None, Some(metadata))
  }

  lemma LargeMetadataFrames()
    ensures SentFrames(PayloadKind, 1, LARGE_METADATA, 7) == [Piece([1, 2, 3, 4]), Piece([5])]
  {
    var m: bytes := [1, 2, 3, 4, 5];
    assert m[0..4] == [1, 2, 3, 4] && m[4..5] == [5];
    assert MetadataLoop(1, m, 5, 7, None, 0, 7, false) == MetadataPart([], None, 7);
    assert MetadataLoop(1, m, 4, 7, None, 0, 7, false).frames == [Piece([5])];
    assert MetadataLoop(1, m, 0, 7, None, 0, 7, false).frames == [Piece([1, 2, 3, 4])] + [Piece([5])];
  }

  const OPEN := Core(false, false, true, EMPTY, [], false)
  const GREETED := Started(AppPayload(Some([9]), None), 1, false)
  const TOLD := OPEN.(inboundDone := true, signals := [Completed])
  const SPOKEN := OPEN.(outboundDone := true, signals := [GREETED])

  function Now(rq: Core, phase: Phase, rs: Core, toResponder: seq<Frame>, toRequester: seq<Frame>, history: History): System {
    System(Requester(GREETING, false, 7, 1, 1, None, rq), Responder(1, 7, phase, rs), toResponder, toRequester, true, true, history)
  }

  const FIRST := History([GREETING], [], 1, 0, true, true, NOTHING_YET, NOTHING_YET, false, false, [], [])
  const REQUEST := RequestChannel(1, PayloadFlags(false, false, false, false), 1, Some([9]), None)

  lemma Greets(s0: System, s1: System, s2: System)
    requires s0 == Start(GREETING, false, 1, 7, 7)
    requires s1 == ChannelSystem.Next(s0, RequesterCalls(Ready(1))) && s2 == ChannelSystem.Next(s1, ToResponder)
    ensures s2 == Now(OPEN, InHandler(true, false), OPEN.(signals := [GREETED]), [], [], FIRST)
  {
    assert SentFrames(ChannelKind(1), 1, GREETING, 7) == [REQUEST];
    assert s1.toResponder == [REQUEST] && s1.history.offered == [GREETING];
    assert RequestIsDeliverable(s0.rq);
    assert s1.rq == Requester(GREETING, false, 7, 1, 1, None, OPEN);
    assert s2.toResponder == [] && s2.toRequester == [];
  }

  lemma Returns(s2: System, s3: System)
    requires s2 == Now(OPEN, InHandler(true, false), OPEN.(signals := [GREETED]), [], [], FIRST)
    requires s3 == ChannelSystem.Next(s2, ResponderCalls(HandlerReturns))
    ensures s3 == Now(OPEN, Running, OPEN.(signals := [GREETED]), [], [], s3.history)
  {
    assert s3.toRequester == [];
  }

  lemma Completes(s3: System, s4: System)
    requires s3 == Now(OPEN, Running, OPEN.(signals := [GREETED]), [], [], s3.history)
    requires s4 == ChannelSystem.Next(s3, ResponderCalls(Call.Completes))
    ensures s4 == Now(OPEN, Running, SPOKEN, [], [CompleteFrame(1)], s4.history)
  {
    assert s4.toRequester == [CompleteFrame(1)];
  }

  lemma HearsCompletion(s4: System, s5: System)
    requires s4 == Now(OPEN, Running, SPOKEN, [], [CompleteFrame(1)], s4.history)
    requires s5 == ChannelSystem.Next(s4, ToRequester)
    ensures s5 == Now(TOLD, Running, SPOKEN, [], [], s5.history)
  {
    assert s5.toRequester == [] && s5.toResponder == [];
  }

  lemma SendsAndExtends(s5: System, s6: System, s7: System)
    requires s5 == Now(TOLD, Running, SPOKEN, [], [], s5.history)
    requires s6 == ChannelSystem.Next(s5, RequesterCalls(Call.Sends(LARGE_METADATA)))
    requires s7 == ChannelSystem.Next(s6, RequesterCalls(Extends(NOTE)))
    ensures s7 == Now(TOLD, Running, SPOKEN, [Piece([1, 2, 3, 4]), Piece([5]), ExtFrame(1, NOTE)], [], s7.history)
  {
    hide SentFrames;
    LargeMetadataFrames();
    assert s6.toResponder == [Piece([1, 2, 3, 4]), Piece([5])];
  }

  lemma TakesPiece(s: System, s': System, held: Holder, metadata: bytes, rest: seq<Frame>)
    requires s == Now(TOLD, Running, SPOKEN.(holder := held), [Piece(metadata)] + rest, [], s.history)
    requires held == EMPTY || (held.hasFragments && held.data.None?)
    requires s' == ChannelSystem.Next(s, ToResponder) && metadata != []
    ensures var held' := s'.rs.core.holder;
            && held'.hasFragments && held'.data.None?
            && s' == Now(TOLD, Running, SPOKEN.(holder := held'), rest, [], s.history)
  {
    assert s'.toResponder == rest && s'.toRequester == [];
  }

  lemma Refuses(s9: System, s10: System)
    requires s9 == Now(TOLD, Running, SPOKEN.(holder := s9.rs.core.holder), [ExtFrame(1, NOTE)], [], s9.history)
    requires s9.rs.core.holder.hasFragments && s10 == ChannelSystem.Next(s9, ToResponder)
    ensures s10.rq == s9.rq && s10.requesterUp && s10.toRequester == [ErrorFrame(1, CANCELED_CODE)]
  {
  }

  lemma IsStruck(s10: System)
    requires Valid(s10)
    requires s10.rq == Requester(GREETING, false, 7, 1, 1, None, TOLD) && s10.requesterUp
    requires s10.toRequester == [ErrorFrame(1, CANCELED_CODE)]
    ensures Strikes(s10, ToRequester)
    ensures ChannelSystem.Next(s10, ToRequester).rq.core.signals == [Completed, Cancelled, Failed]
  {
  }

  lemma {:induction false} RunsOn(s: System, steps: seq<Step>, i: nat)
    requires Valid(s) && i < |steps|
    ensures Run(s, steps[..i + 1]) == ChannelSystem.Next(Run(s, steps[..i]), steps[i])
    decreases i
  {
    if i == 0 {
      assert steps[..1][1..] == [] && steps[..0] == [];
    } else {
      assert steps[..i + 1][1..] == steps[1..][..i] && steps[..i][1..] == steps[1..][..i - 1];
      RunsOn(ChannelSystem.Next(s, steps[0]), steps[1..], i - 1);
    }
  }

  /** After `i` of the steps. */
  function After(i: nat): (s: System)
    requires i <= 11
  {
    Run(Start(GREETING, false, 1, 7, 7), LateSteps()[..i])
  }

  lemma OneStep(i: nat)
    requires i < 11
    ensures Valid(After(i)) && After(i + 1) == ChannelSystem.Next(After(i), LateSteps()[i])
  {
    hide ChannelSystem.Next, Run;
    RunsOn(Start(GREETING, false, 1, 7, 7), LateSteps(), i);
  }

  lemma IsTold()
    ensures After(5) == Now(TOLD, Running, SPOKEN, [], [], After(5).history)
  {
    hide ChannelSystem.Next, After, Now, SentFrames;
    OneStep(0); OneStep(1); OneStep(2); OneStep(3); OneStep(4);
    StartsSo();
    Greets(After(0), After(1), After(2));
    Returns(After(2), After(3));
    Completes(After(3), After(4));
    HearsCompletion(After(4), After(5));
  }

  lemma StartsSo()
    ensures After(0) == Start(GREETING, false, 1, 7, 7)
  {
  }

  lemma IsRefused()
    ensures After(10).rq == After(7).rq && After(10).requesterUp && After(10).toRequester == [ErrorFrame(1, CANCELED_CODE)]
    ensures After(7) == Now(TOLD, Running, SPOKEN, [Piece([1, 2, 3, 4]), Piece([5]), ExtFrame(1, NOTE)], [], After(7).history)
  {
    hide ChannelSystem.Next, After, SentFrames, Piece, ExtFrame;
    IsTold();
    OneStep(5); OneStep(6); OneStep(7); OneStep(8); OneStep(9);
    SendsAndExtends(After(5), After(6), After(7));
    var last := [Piece([5])] + [ExtFrame(1, NOTE)];
    assert [Piece([1, 2, 3, 4]), Piece([5]), ExtFrame(1, NOTE)] == [Piece([1, 2, 3, 4])] + last;
    TakesPiece(After(7), After(8), EMPTY, [1, 2, 3, 4], last);
    TakesPiece(After(8), After(9), After(8).rs.core.holder, [5], [ExtFrame(1, NOTE)]);
    Refuses(After(9), After(10));
  }

  lemma TwoTerminals(log: seq<Signal>)
    requires log == [Completed, Cancelled, Failed]
    ensures !WellFormedLog(log)
  {
    assert Terminal(log[0]) && Terminal(log[2]);
  }

  /** The requester's application is told of the completion and, when its extension is refused, of an error. */
  lemma ToldTwice()
    ensures var s := Run(Start(GREETING, false, 1, 7, 7), LateSteps());
            s.rq.core.signals == [Completed, Cancelled, Failed] && !WellFormedLog(s.rq.core.signals)
  {
    hide ChannelSystem.Next, SentFrames, WellFormedLog, Run;
    IsRefused();
    OneStep(10);
    IsStruck(After(10));
    assert LateSteps()[..11] == LateSteps();
    TwoTerminals(After(11).rq.core.signals);
  }
}
