/** `WhipServerTask`: the WHIP task with its fields updated in place. */
module WhipTask {
  import opened Seqs
  import opened Tasks

  class WhipServerTask {
    const iceUfrag: string
    const audioTrackId: TrackId
    const videoTrackId: TrackId
    var timeout: Option<Time>
    var rtc: Engine
    var outputs: seq<TaskOutput>
    var audioMid: Option<Mid>
    var videoMid: Option<Mid>
    ghost var fed: seq<EngineInput>

    ghost function View(): Task
      reads this
    {
      Task(Whip, iceUfrag, timeout, rtc, outputs, audioMid, videoMid, audioTrackId, videoTrackId, fed)
    }

    constructor (reqId: nat, ufrag: string, rtc: Engine, audioTrackId: TrackId, videoTrackId: TrackId)
      ensures View() == NewTask(Whip, reqId, ufrag, rtc, audioTrackId, videoTrackId)
    {
      iceUfrag, this.rtc := ufrag, rtc;
      this.audioTrackId, this.videoTrackId := audioTrackId, videoTrackId;
      timeout, audioMid, videoMid := None, None, None;
      outputs, fed := [HttpReply(reqId, 200)], [];
    }

    /** Lets the engine handle a deadline that has come. */
    method Tick(now: Time, r: Reaction) returns (due: bool)
      modifies this`timeout, this`rtc, this`fed
      ensures View() == Tasks.Tick(old(View()), now, r)
      ensures due <==> old(timeout).Some? && now >= old(timeout).value
      ensures due ==> timeout.None? && rtc == r.engine && fed == old(fed) + [TimeoutDue(now)]
      ensures !due ==> timeout == old(timeout) && rtc == old(rtc) && fed == old(fed)
    {
      if timeout.Some? && now >= timeout.value {
        rtc := r.engine;
        fed := fed + [TimeoutDue(now)];
        timeout := None;
        return true;
      }
      return false;
    }

    /** Takes an input; false is a panic: the inputs of the other role, a garbled datagram, and a keyframe request without a stream to ask, end the worker. */
    method Input(event: TaskInput, r: Reaction) returns (ok: bool)
      modifies this`timeout, this`rtc, this`fed
      ensures match InputWhip(old(View()), event, r) case Panic => !ok case Handled(t) => ok && View() == t
      ensures ok <==> InputAllowed(Whip, event) && !MissesStream(old(View()), event, r) && !Garbled(event, r)
      ensures event.KeyframeInput? && event.trackId == videoTrackId && old(videoMid).Some? && r.hasStream ==>
                rtc == r.engine && timeout == old(timeout) && fed == old(fed) + [AskKeyframe(videoMid.value, event.kind)]
      ensures event.KeyframeInput? && (event.trackId != videoTrackId || old(videoMid).None?) ==>
                rtc == old(rtc) && timeout == old(timeout) && fed == old(fed)
      ensures event.UdpSocketRecv? && r.parses ==>
                rtc == r.engine && timeout == None && fed == old(fed) + [Received(event.from, event.to, event.buf)]
    {
      match event {
        case UdpSocketRecv(from, to, buf) =>
          if !r.parses {
            return false;
          }
          rtc := r.engine;
          fed := fed + [Received(from, to, buf)];
          timeout := None;
        case KeyframeInput(trackId, kind) =>
          if trackId == videoTrackId {
            if videoMid.Some? {
              if !r.hasStream {
                return false;
              }
              rtc := r.engine;
              fed := fed + [AskKeyframe(videoMid.value, kind)];
            }
          }
        case _ => return false;
      }
      return true;
    }

    /** The next action: a queued one, or what the engine has unless a deadline is pending. */
    method PopAction(now: Time) returns (action: Option<TaskOutput>)
      modifies this`timeout, this`rtc, this`outputs, this`audioMid, this`videoMid
      ensures (action, View()) == Tasks.PopAction(old(View()), now)
      ensures old(outputs) == [] && Waiting(old(View()), now) ==> rtc == old(rtc)
    {
      if outputs != [] {
        action := Some(outputs[0]);
        outputs := outputs[1..];
        return;
      }
      if timeout.Some? && timeout.value > now {
        return None;
      }
      var output := rtc.Poll();
      rtc := rtc.Polled();
      action := None;
      match output {
        case Timeout(at) => timeout := Some(at);
        case Transmit(source, destination, contents) => action := Some(UdpSocketSend(source, destination, contents));
        case Connected =>
          outputs := outputs + [PublishTrack(audioTrackId)];
          outputs := outputs + [PublishTrack(videoTrackId)];
          assert outputs == [] + [PublishTrack(audioTrackId), PublishTrack(videoTrackId)];
        case MediaAdded(kind, mid) =>
          if kind == Audio {
            audioMid := Some(mid);
          } else {
            videoMid := Some(mid);
          }
        case IceChange(state) =>
          if state == Disconnected {
            action := Some(TaskEnded);
          }
        case Rtp(payloadType, seqNo, payload) =>
          var trackId := if payloadType == OPUS then audioTrackId else videoTrackId;
          action := Some(Media(TrackMedia(trackId, payloadType, seqNo, payload)));
        case _ =>
      }
    }
  }
}
