/** `WhepServerTask`: the WHEP task with its fields updated in place. */
module WhepTask {
  import opened Seqs
  import opened Tasks

  class WhepServerTask {
    const iceUfrag: string
    const audioTrackId: TrackId
    const videoTrackId: TrackId
    var timeout: Option<Time>
    var rtc: Engine
    var outputs: seq<TaskOutput>
    var audioMid: Option<Mid>
    var videoMid: Option<Mid>
    ghost var fed: seq<EngineInput>

    ghost function View(): Task
      reads this
    {
      Task(Whep, iceUfrag, timeout, rtc, outputs, audioMid, videoMid, audioTrackId, videoTrackId, fed)
    }

    constructor (reqId: nat, ufrag: string, rtc: Engine, audioTrackId: TrackId, videoTrackId: TrackId)
      ensures View() == NewTask(Whep, reqId, ufrag, rtc, audioTrackId, videoTrackId)
    {
      iceUfrag, this.rtc := ufrag, rtc;
      this.audioTrackId, this.videoTrackId := audioTrackId, videoTrackId;
      timeout, audioMid, videoMid := None, None, None;
      outputs, fed := [HttpReply(reqId, 200)], [];
    }

    /** Lets the engine handle a deadline that has come. */
    method Tick(now: Time, r: Reaction) returns (due: bool)
      modifies this`timeout, this`rtc, this`fed
      ensures View() == Tasks.Tick(old(View()), now, r)
      ensures due <==> old(timeout).Some? && now >= old(timeout).value
      ensures due ==> timeout.None? && rtc == r.engine && fed == old(fed) + [TimeoutDue(now)]
      ensures !due ==> timeout == old(timeout) && rtc == old(rtc) && fed == old(fed)
    {
      if timeout.Some? && now >= timeout.value {
        rtc := r.engine;
        fed := fed + [TimeoutDue(now)];
        timeout := None;
        return true;
      }
      return false;
    }

    /** Takes an input; false is a panic: the inputs of the other role and a garbled datagram end the worker. */
    method Input(event: TaskInput, r: Reaction) returns (ok: bool)
      modifies this`timeout, this`rtc, this`fed
      ensures match InputWhep(old(View()), event, r) case Panic => !ok case Handled(t) => ok && View() == t
      ensures ok <==> InputAllowed(Whep, event) && !Garbled(event, r)
      ensures event.MediaInput? && event.media.payloadType == 111 && old(audioMid).Some? && r.hasStream ==>
                rtc == r.engine && timeout == None && fed == old(fed) + [WriteRtp(audioMid.value, 111, event.media.seqNo, event.media.payload, false)]
      ensures event.MediaInput? && event.media.payloadType != 111 && old(videoMid).Some? && r.hasStream ==>
                && rtc == r.engine && timeout == None
                && fed == old(fed) + [WriteRtp(videoMid.value, event.media.payloadType, event.media.seqNo, event.media.payload, true)]
      ensures event.MediaInput? && (!r.hasStream || (if event.media.payloadType == 111 then old(audioMid) else old(videoMid)).None?) ==>
                rtc == old(rtc) && timeout == old(timeout) && fed == old(fed)
      ensures event.UdpSocketRecv? && r.parses ==>
                rtc == r.engine && timeout == None && fed == old(fed) + [Received(event.from, event.to, event.buf)]
    {
      match event {
        case UdpSocketRecv(from, to, buf) =>
          if !r.parses {
            return false;
          }
          rtc := r.engine;
          fed := fed + [Received(from, to, buf)];
          timeout := None;
        case MediaInput(media) =>
          var mid, nackable := if media.payloadType == OPUS then audioMid else videoMid, media.payloadType != OPUS;
          if mid.Some? && r.hasStream {
            rtc := r.engine;
            fed := fed + [WriteRtp(mid.value, media.payloadType, media.seqNo, media.payload, nackable)];
            timeout := None;
          }
        case _ => return false;
      }
      return true;
    }

    /** The next action: a queued one, or what the engine has unless a deadline is pending. */
    method PopAction(now: Time) returns (action: Option<TaskOutput>)
      modifies this`timeout, this`rtc, this`outputs, this`audioMid, this`videoMid
      ensures (action, View()) == Tasks.PopAction(old(View()), now)
      ensures old(outputs) == [] && Waiting(old(View()), now) ==> rtc == old(rtc)
    {
      if outputs != [] {
        action := Some(outputs[0]);
        outputs := outputs[1..];
        return;
      }
      if timeout.Some? && timeout.value > now {
        return None;
      }
      var output := rtc.Poll();
      rtc := rtc.Polled();
      action := None;
      match output {
        case Timeout(at) => timeout := Some(at);
        case Transmit(source, destination, contents) => action := Some(UdpSocketSend(source, destination, contents));
        case Connected =>
          outputs := outputs + [SubscribeTrack(audioTrackId)];
          outputs := outputs + [SubscribeTrack(videoTrackId)];
          assert outputs == [] + [SubscribeTrack(audioTrackId), SubscribeTrack(videoTrackId)];
        case MediaAdded(kind, mid) =>
          if kind == Audio {
            audioMid := Some(mid);
          } else {
            videoMid := Some(mid);
          }
        case IceChange(state) =>
          if state == Disconnected {
            action := Some(TaskEnded);
          }
        case KeyframeRequest(kind) => action := Some(RequestKeyframe(videoTrackId, kind));
        case _ =>
      }
    }
  }
}
