/**
 * The playback controls of a composition. On every render the component reads the
 * engine `status` from the audio-engine hook and, while the engine is playing, forwards
 * the composition's control messages to it; its play and pause handlers start, resume
 * or suspend the engine depending on that same status.
 *
 * The hook itself is not modelled: its status is an input of each render, and every
 * call the component makes on the engine is appended to a call log.
 */
module CompositionControls {
  import opened Wrappers

  /** The engine status reported by the hook; `Other` stands for any further value it may report. */
  datatype Status = Waiting | Started | Playing | Suspended | Other

  /** One entry of `messages`: a message for a port of a node of the audio patch. */
  datatype ControlMessage = ControlMessage(nodeId: string, portletId: int, message: string)

  /** The calls the component can make on what the hook returns. */
  datatype EngineCall =
    | Start
    | Resume
    | Suspend
    | Close
    | SendMsgToWebPd(nodeId: string, portletId: int, message: string)

  /** `if (patchPath)`: JavaScript truthiness, so an empty path counts as no path. */
  predicate HasPatch(patchPath: Option<string>) {
    patchPath.Some? && patchPath.value != ""
  }

  function SendOf(m: ControlMessage): EngineCall {
    SendMsgToWebPd(m.nodeId, m.portletId, m.message)
  }

  /** The sends of `messages.forEach(...)`, one per message. */
  function Sends(ms: seq<ControlMessage>): (r: seq<EngineCall>)
    ensures |r| == |ms|
  {
    if ms == [] then [] else [SendOf(ms[0])] + Sends(ms[1..])
  }

  /** The engine calls one render makes. */
  function RenderCalls(patchPath: Option<string>, status: Status, messages: Option<seq<ControlMessage>>): seq<EngineCall> {
    if HasPatch(patchPath) && status == Playing && messages.Some? then Sends(messages.value) else []
  }

  /** The engine calls `handlePlay` makes; the send after `start` resolves is commented out. */
  function PlayCalls(patchPath: Option<string>, status: Status): seq<EngineCall> {
    if HasPatch(patchPath) then
      (if status == Waiting then [Start] else []) + (if status == Suspended then [Resume] else [])
    else []
  }

  /** The engine calls `handlePause` makes. */
  function PauseCalls(patchPath: Option<string>, status: Status): seq<EngineCall> {
    if HasPatch(patchPath) && (status == Started || status == Playing) then [Suspend] else []
  }

  /** Each message is sent exactly once, in list order, with its own node, port and payload. */
  lemma {:induction false} SendsInOrder(ms: seq<ControlMessage>)
    ensures |Sends(ms)| == |ms|
    ensures forall i :: 0 <= i < |ms| ==>
      Sends(ms)[i] == SendMsgToWebPd(ms[i].nodeId, ms[i].portletId, ms[i].message)
  {
    if ms != [] {
      SendsInOrder(ms[1..]);
    }
  }

  lemma {:induction false} SendsAppend(ms: seq<ControlMessage>, m: ControlMessage)
    ensures Sends(ms + [m]) == Sends(ms) + [SendOf(m)]
  {
    if ms != [] {
      assert (ms + [m])[1..] == ms[1..] + [m];
      SendsAppend(ms[1..], m);
    }
  }

  /** Sending messages is the only thing forwarding does. */
  lemma {:induction false} SendsAreSendsOnly(ms: seq<ControlMessage>)
    ensures forall i :: 0 <= i < |Sends(ms)| ==> Sends(ms)[i].SendMsgToWebPd?
  {
    SendsInOrder(ms);
  }

  /** A render forwards messages if and only if a patch is set, the engine is playing and
      there are messages; it then sends exactly the list, in order, and nothing else. */
  lemma RenderForwardsOnlyWhilePlaying(patchPath: Option<string>, status: Status, messages: Option<seq<ControlMessage>>)
    ensures RenderCalls(patchPath, status, messages) != [] <==>
      HasPatch(patchPath) && status == Playing && messages.Some? && messages.value != []
    ensures messages.None? ==> RenderCalls(patchPath, status, messages) == []
    ensures HasPatch(patchPath) && status == Playing && messages.Some? ==>
      var calls := RenderCalls(patchPath, status, messages);
      |calls| == |messages.value| &&
      forall i :: 0 <= i < |calls| ==> calls[i] == SendOf(messages.value[i])
    ensures forall i :: 0 <= i < |RenderCalls(patchPath, status, messages)| ==>
      RenderCalls(patchPath, status, messages)[i].SendMsgToWebPd?
  {
    if messages.Some? {
      SendsInOrder(messages.value);
      SendsAreSendsOnly(messages.value);
    }
  }

  /** `handlePlay` starts a waiting engine, resumes a suspended one, and does nothing else:
      it never makes both calls and never sends a message. */
  lemma PlayDecision(patchPath: Option<string>, status: Status)
    ensures |PlayCalls(patchPath, status)| <= 1
    ensures PlayCalls(patchPath, status) == [Start] <==> HasPatch(patchPath) && status == Waiting
    ensures PlayCalls(patchPath, status) == [Resume] <==> HasPatch(patchPath) && status == Suspended
    ensures PlayCalls(patchPath, status) == [] <==>
      !HasPatch(patchPath) || (status != Waiting && status != Suspended)
    ensures Suspend !in PlayCalls(patchPath, status) && Close !in PlayCalls(patchPath, status)
  {
    if HasPatch(patchPath) {
      match status
      case Waiting => assert PlayCalls(patchPath, status) == [Start];
      case Suspended => assert PlayCalls(patchPath, status) == [Resume];
      case _ => assert PlayCalls(patchPath, status) == [];
    }
  }

  /** `handlePause` suspends a started or playing engine and does nothing otherwise. */
  lemma PauseDecision(patchPath: Option<string>, status: Status)
    ensures PauseCalls(patchPath, status) == [Suspend] <==>
      HasPatch(patchPath) && (status == Started || status == Playing)
    ensures PauseCalls(patchPath, status) == [] <==>
      !HasPatch(patchPath) || (status != Started && status != Playing)
  {
  }

  /** Without a patch path the component makes no engine call at all. */
  lemma NoPatchNoCalls(patchPath: Option<string>, status: Status, messages: Option<seq<ControlMessage>>)
    requires !HasPatch(patchPath)
    ensures RenderCalls(patchPath, status, messages) == []
    ensures PlayCalls(patchPath, status) == [] && PauseCalls(patchPath, status) == []
  {
  }

  /** `close` is taken from the hook but no render and no handler ever calls it. */
  lemma NeverCloses(patchPath: Option<string>, status: Status, messages: Option<seq<ControlMessage>>)
    ensures Close !in RenderCalls(patchPath, status, messages)
    ensures Close !in PlayCalls(patchPath, status) && Close !in PauseCalls(patchPath, status)
  {
    RenderForwardsOnlyWhilePlaying(patchPath, status, messages);
  }

  /** The component keeps no guard of its own against a second start: two plays while the
      hook still reports `waiting` make two `start` calls. */
  lemma NoStartGuard(patchPath: Option<string>)
    requires HasPatch(patchPath)
    ensures PlayCalls(patchPath, Waiting) + PlayCalls(patchPath, Waiting) == [Start, Start]
  {
  }

  /** One mounted `CompositionControls`: its latest props, the status the hook reported
      for the latest render, and the log of engine calls made so far. */
  class Controls {
    var play: bool
    var patchPath: Option<string>
    var messages: Option<seq<ControlMessage>>
    var status: Status
    var calls: seq<EngineCall>

    /** The first render. */
    constructor (play: bool, patchPath: Option<string>, messages: Option<seq<ControlMessage>>, status: Status)
      ensures this.play == play && this.patchPath == patchPath
      ensures this.messages == messages && this.status == status
      ensures calls == RenderCalls(patchPath, status, messages)
    {
      this.play := play;
      this.patchPath := patchPath;
      this.messages := messages;
      this.status := status;
      calls := [];
      new;
      Render(play, patchPath, messages, status);
    }

    /** A render with new props and the status the hook now reports; forwards the
        messages while the engine is playing. */
    method Render(play: bool, patchPath: Option<string>, messages: Option<seq<ControlMessage>>, status: Status)
      modifies this
      ensures this.play == play && this.patchPath == patchPath
      ensures this.messages == messages && this.status == status
      ensures calls == old(calls) + RenderCalls(patchPath, status, messages)
      ensures Close in calls <==> Close in old(calls)
    {
      this.play := play;
      this.patchPath := patchPath;
      this.messages := messages;
      this.status := status;
      if HasPatch(patchPath) && status == Playing && messages.Some? {
        var ms := messages.value;
        var i := 0;
        while i < |ms|
          invariant 0 <= i <= |ms|
          invariant this.play == play && this.patchPath == patchPath
          invariant this.messages == messages && this.status == status
          invariant calls == old(calls) + Sends(ms[..i])
        {
          SendsAppend(ms[..i], ms[i]);
          assert ms[..i + 1] == ms[..i] + [ms[i]];
          calls := calls + [SendOf(ms[i])];
          i := i + 1;
        }
        assert ms[..|ms|] == ms;
      }
      NeverCloses(patchPath, status, messages);
    }

    /** `handlePlay`, as wired to the play button of the latest render. */
    method HandlePlay()
      modifies this`calls
      ensures calls == old(calls) + PlayCalls(patchPath, status)
      ensures Close in calls <==> Close in old(calls)
    {
      if HasPatch(patchPath) {
        if status == Waiting {
          calls := calls + [Start];
        }
        if status == Suspended {
          calls := calls + [Resume];
        }
      }
    }

    /** Two clicks of the play button with no render in between: both handlers see the
        status of the latest render, so a waiting engine is started twice. */
    method PlayTwice()
      modifies this`calls
      ensures calls == old(calls) + PlayCalls(patchPath, status) + PlayCalls(patchPath, status)
      ensures HasPatch(patchPath) && status == Waiting ==> calls == old(calls) + [Start, Start]
    {
      HandlePlay();
      HandlePlay();
    }

    /** `handlePause`, as wired to the pause button of the latest render. */
    method HandlePause()
      modifies this`calls
      ensures calls == old(calls) + PauseCalls(patchPath, status)
      ensures Close in calls <==> Close in old(calls)
    {
      if HasPatch(patchPath) {
        if status == Started || status == Playing {
          calls := calls + [Suspend];
        }
      }
    }
  }
}
