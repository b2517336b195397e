/**
 * The browser-side call controller (class WebRTCManager in
 * frontend/static/js/webrtc.js).
 *
 * Each handler runs as one atomic step; what the source awaits (the
 * bookkeeping API, getUserMedia, the peer connection's description calls) is
 * a parameter saying how the collaborator answered. Timers are entries in
 * `scheduled` that fire only through FireTimer. Everything that leaves the
 * manager (socket emits, bookkeeping requests, stopped tracks, closed peer
 * connections) is appended to `out`.
 */
module WebRTC {
  import opened Wrappers
  import opened Text

  type CallId = int
  type UserId = int
  type TimerId = nat
  type TrackId = nat
  type Candidate = string

  /** Peer connections are stored under `this.peers[this.currentCallId]`: a null call id is a key too. */
  type PeerKey = Option<CallId>

  datatype Kind = Audio | Video

  /** A local media track; `enabled` is what the mute toggles flip. */
  datatype Track = Track(id: TrackId, kind: Kind, enabled: bool)

  /** What a sender carries: the identity of a local track. */
  datatype TrackRef = TrackRef(id: TrackId, kind: Kind)

  /** An RTCRtpSender; removeTrack leaves the sender in place with a null track. */
  datatype Sender = Sender(track: Option<TrackRef>)

  /**
   * The parts of an RTCPeerConnection the controller relies on: its senders,
   * whether a remote description was applied, the room its own ICE candidates
   * are sent to, and the remote candidates it accepted.
   */
  datatype Peer = Peer(senders: seq<Sender>, remoteDescriptionSet: bool, iceRoom: string, candidates: seq<Candidate>)

  datatype CallStatus = Ringing | Connected

  /** Callbacks the manager leaves with setTimeout/setInterval. */
  datatype TimerKind =
    | RingTimeout            // the 30-second inactivity check armed by startCall
    | HangUpAfterInactive    // the endCall scheduled 2 seconds after "User inactive"
    | DurationTicker         // the 1-second interval of startCallTimer

  /** Payloads of the `call_signal` socket event, in both directions. */
  datatype Signal =
    | CallInitiated(callId: Option<CallId>, receiverId: Option<UserId>, caller: Option<UserId>, callType: string)
    | CallAnswered(callId: Option<CallId>, room: string)
    | CallEnded(callId: Option<CallId>, duration: int, room: string)
    | CallRejected(callId: Option<CallId>, room: string)
    | CallModeChanged(callId: Option<CallId>, newMode: string, room: string)
    | UnknownSignal(name: string)

  datatype Emission =
    | JoinRoom(room: string)
    | SendSignal(signal: Signal)
    | SendOffer(room: string)
    | SendAnswer(room: string)
    | SendIce(candidate: Candidate, room: string)

  /** Requests to the call bookkeeping service (calls.py). */
  datatype ApiRequest =
    | InitiateCallRequest(receiverId: UserId, callType: string)
    | AnswerCallRequest(callId: CallId)
    | EndCallRequest(callId: CallId)

  datatype Effect =
    | Emit(emission: Emission)
    | Api(request: ApiRequest)
    | StopTrack(track: TrackId)
    | ClosePeer(key: PeerKey)

  /** The per-call room, `call_${callId}`; a null id renders as "null". */
  function CallRoom(callId: Option<CallId>): (room: string)
    ensures StartsWith(room, "call_")
  {
    "call_" + (if callId.Some? then IntToString(callId.value) else "null")
  }

  /** Distinct call ids get distinct rooms. */
  lemma CallRoomInjective(a: Option<CallId>, b: Option<CallId>)
    requires CallRoom(a) == CallRoom(b)
    ensures a == b
  {
    var ra, rb := CallRoom(a), CallRoom(b);
    assert ra[5..] == (if a.Some? then IntToString(a.value) else "null");
    assert rb[5..] == (if b.Some? then IntToString(b.value) else "null");
    if a.Some? && b.Some? {
      IntToStringInjective(a.value, b.value);
    } else if a.Some? {
      NumberedRoomIsNotNullRoom(a.value);
    } else if b.Some? {
      NumberedRoomIsNotNullRoom(b.value);
    }
  }

  lemma NumberedRoomIsNotNullRoom(v: CallId)
    ensures CallRoom(Some(v))[5] != 'n'
  {
  }

  /**
   * Whole seconds since the call connected, Math.floor((now - connectedTime) / 1000),
   * or 0 when no (truthy) connection time is recorded.
   */
  function CallDuration(connectedTime: Option<int>, now: int): (d: int)
    ensures !Truthy(connectedTime) ==> d == 0
    ensures Truthy(connectedTime) ==> d * 1000 <= now - connectedTime.value < (d + 1) * 1000
  {
    if Truthy(connectedTime) then (now - connectedTime.value) / 1000 else 0
  }

  // ---------------------------------------------------------------- tracks

  function TimerSet(h: Option<TimerId>): set<TimerId>
  {
    if h.Some? then {h.value} else {}
  }

  function StreamTracks(stream: Option<seq<Track>>): seq<Track>
  {
    if stream.Some? then stream.value else []
  }

  function Ref(t: Track): TrackRef
  {
    TrackRef(t.id, t.kind)
  }

  /** The first track of the given kind, as getAudioTracks()[0] / getVideoTracks()[0] give it. */
  function FindTrack(tracks: seq<Track>, kind: Kind): (r: Option<nat>)
    ensures r.Some? ==> r.value < |tracks| && tracks[r.value].kind == kind
    decreases |tracks|
  {
    if tracks == [] then None
    else if tracks[0].kind == kind then Some(0)
    else
      var r := FindTrack(tracks[1..], kind);
      if r.Some? then Some(r.value + 1) else None
  }

  /** FindTrack finds the first track of the kind, and finds none only when there is none. */
  lemma {:induction false} FindTrackIsFirst(tracks: seq<Track>, kind: Kind)
    ensures FindTrack(tracks, kind).Some? ==> forall j :: 0 <= j < FindTrack(tracks, kind).value ==> tracks[j].kind != kind
    ensures FindTrack(tracks, kind).None? <==> forall j :: 0 <= j < |tracks| ==> tracks[j].kind != kind
    decreases |tracks|
  {
    if tracks != [] && tracks[0].kind != kind {
      FindTrackIsFirst(tracks[1..], kind);
      assert forall j :: 1 <= j < |tracks| ==> tracks[j] == tracks[1..][j - 1];
    }
  }

  /** What getUserMedia resolves with: an audio track, and a video track exactly when video was requested. */
  predicate Acquired(stream: seq<Track>, wantVideo: bool)
  {
    FindTrack(stream, Audio).Some? && (FindTrack(stream, Video).Some? <==> wantVideo)
  }

  /** The stop() calls cleanup makes, one per track in stream order. */
  function Stops(tracks: seq<Track>): (r: seq<Effect>)
    ensures |r| == |tracks|
  {
    if tracks == [] then [] else Stops(tracks[..|tracks| - 1]) + [StopTrack(tracks[|tracks| - 1].id)]
  }

  /** Every track is stopped, each at its own position. */
  lemma {:induction false} StopsContents(tracks: seq<Track>)
    ensures forall i :: 0 <= i < |tracks| ==> Stops(tracks)[i] == StopTrack(tracks[i].id)
    decreases |tracks|
  {
    if tracks != [] {
      StopsContents(tracks[..|tracks| - 1]);
    }
  }

  /** The tracks of one kind, in stream order (getVideoTracks()). */
  function OfKind(tracks: seq<Track>, kind: Kind): (r: seq<Track>)
    ensures |r| <= |tracks|
    ensures forall i :: 0 <= i < |r| ==> r[i].kind == kind && r[i] in tracks
    ensures forall t :: t in tracks && t.kind == kind ==> t in r
  {
    if tracks == [] then []
    else
      var rest := OfKind(tracks[..|tracks| - 1], kind);
      var last := tracks[|tracks| - 1];
      assert tracks == tracks[..|tracks| - 1] + [last];
      if last.kind == kind then rest + [last] else rest
  }

  /** Every track of `kind` set to `enabled`, the others untouched. */
  function WithEnabled(tracks: seq<Track>, kind: Kind, enabled: bool): (r: seq<Track>)
  {
    seq(|tracks|, i requires 0 <= i < |tracks| =>
      if tracks[i].kind == kind then tracks[i].(enabled := enabled) else tracks[i])
  }

  predicate AllOfKindEnabled(tracks: seq<Track>, kind: Kind, enabled: bool)
  {
    forall i :: 0 <= i < |tracks| && tracks[i].kind == kind ==> tracks[i].enabled == enabled
  }

  /** A toggle leaves every track of its kind agreeing with the new flag, and changes nothing else. */
  lemma WithEnabledEffect(tracks: seq<Track>, kind: Kind, enabled: bool)
    ensures |WithEnabled(tracks, kind, enabled)| == |tracks|
    ensures AllOfKindEnabled(WithEnabled(tracks, kind, enabled), kind, enabled)
    ensures forall i :: 0 <= i < |tracks| ==>
      var t := WithEnabled(tracks, kind, enabled)[i];
      t.id == tracks[i].id && t.kind == tracks[i].kind && (t.kind != kind ==> t == tracks[i])
  {
  }

  /**
   * Toggling twice restores the tracks whenever they agreed with the mute flag
   * before the first toggle: the first toggle sets them to `muted`, the second
   * to `!muted` again.
   */
  lemma ToggleTwiceRestores(tracks: seq<Track>, kind: Kind, muted: bool)
    requires AllOfKindEnabled(tracks, kind, !muted)
    ensures WithEnabled(WithEnabled(tracks, kind, !(!muted)), kind, !muted) == tracks
    ensures WithEnabled(WithEnabled(tracks, kind, muted), kind, !muted) == tracks
  {
    var once := WithEnabled(tracks, kind, muted);
    var twice := WithEnabled(once, kind, !muted);
    assert |twice| == |tracks|;
    forall i | 0 <= i < |tracks| ensures twice[i] == tracks[i] {
      if tracks[i].kind == kind {
        assert tracks[i].enabled == !muted;
      }
    }
    var other := WithEnabled(WithEnabled(tracks, kind, !(!muted)), kind, !muted);
    forall i | 0 <= i < |tracks| ensures other[i] == tracks[i] {
      if tracks[i].kind == kind {
        assert tracks[i].enabled == !muted;
      }
    }
  }

  // --------------------------------------------------------------- senders

  predicate Carries(s: Sender, kind: Kind)
  {
    s.track.Some? && s.track.value.kind == kind
  }

  /** getSenders().find(s => s.track && s.track.kind === kind), as an index. */
  function FindSender(senders: seq<Sender>, kind: Kind): (r: Option<nat>)
    ensures r.Some? ==> r.value < |senders| && Carries(senders[r.value], kind)
    ensures r.Some? ==> forall j :: 0 <= j < r.value ==> !Carries(senders[j], kind)
    ensures r.None? ==> forall j :: 0 <= j < |senders| ==> !Carries(senders[j], kind)
    decreases |senders|
  {
    if senders == [] then None
    else if Carries(senders[0], kind) then Some(0)
    else
      var r := FindSender(senders[1..], kind);
      if r.Some? then Some(r.value + 1) else None
  }

  /** The number of senders currently carrying a track of `kind`. */
  function ActiveCount(senders: seq<Sender>, kind: Kind): nat
  {
    if senders == [] then 0
    else ActiveCount(senders[..|senders| - 1], kind) + (if Carries(senders[|senders| - 1], kind) then 1 else 0)
  }

  function Bit(b: bool): nat { if b then 1 else 0 }

  lemma {:induction false} ActiveCountAppend(senders: seq<Sender>, x: Sender, kind: Kind)
    ensures ActiveCount(senders + [x], kind) == ActiveCount(senders, kind) + Bit(Carries(x, kind))
  {
    assert (senders + [x])[..|senders|] == senders;
  }

  lemma {:induction false} ActiveCountUpdate(senders: seq<Sender>, i: nat, x: Sender, kind: Kind)
    requires i < |senders|
    ensures ActiveCount(senders[i := x], kind) + Bit(Carries(senders[i], kind))
         == ActiveCount(senders, kind) + Bit(Carries(x, kind))
    decreases |senders|
  {
    var n := |senders|;
    var u := senders[i := x];
    if i == n - 1 {
      assert u[..n - 1] == senders[..n - 1];
    } else {
      assert u[..n - 1] == senders[..n - 1][i := x];
      ActiveCountUpdate(senders[..n - 1], i, x, kind);
    }
  }

  lemma {:induction false} ActiveCountNone(senders: seq<Sender>, kind: Kind)
    requires forall j :: 0 <= j < |senders| ==> !Carries(senders[j], kind)
    ensures ActiveCount(senders, kind) == 0
    decreases |senders|
  {
    if senders != [] {
      ActiveCountNone(senders[..|senders| - 1], kind);
    }
  }

  lemma {:induction false} ActiveCountPositive(senders: seq<Sender>, i: nat, kind: Kind)
    requires i < |senders| && Carries(senders[i], kind)
    ensures ActiveCount(senders, kind) >= 1
  {
    ActiveCountUpdate(senders, i, Sender(None), kind);
  }

  /**
   * switchToVideo on the sender list: replace the track of the first video
   * sender, or add a sender when there is none; then replace the track of the
   * first audio sender, if any.
   */
  function SendersToVideo(senders: seq<Sender>, video: TrackRef, audio: TrackRef): seq<Sender>
  {
    var vi := FindSender(senders, Video);
    var withVideo := if vi.Some? then senders[vi.value := Sender(Some(video))] else senders + [Sender(Some(video))];
    var ai := FindSender(withVideo, Audio);
    if ai.Some? then withVideo[ai.value := Sender(Some(audio))] else withVideo
  }

  /**
   * switchToAudio on the sender list: replace the track of the first audio
   * sender, if any; then remove the track of the first video sender, if any.
   */
  function SendersToAudio(senders: seq<Sender>, audio: TrackRef): seq<Sender>
  {
    var ai := FindSender(senders, Audio);
    var withAudio := if ai.Some? then senders[ai.value := Sender(Some(audio))] else senders;
    var vi := FindSender(withAudio, Video);
    if vi.Some? then withAudio[vi.value := Sender(None)] else withAudio
  }

  /**
   * Switching to video never duplicates a video sender: there is afterwards
   * one more video sender only when there was none; the audio senders are
   * as many as before; the list grows only in that case.
   */
  lemma SendersToVideoCounts(senders: seq<Sender>, video: TrackRef, audio: TrackRef)
    requires video.kind == Video && audio.kind == Audio
    ensures var r := SendersToVideo(senders, video, audio);
      && ActiveCount(r, Video) == (if ActiveCount(senders, Video) == 0 then 1 else ActiveCount(senders, Video))
      && ActiveCount(r, Audio) == ActiveCount(senders, Audio)
      && |r| == |senders| + Bit(ActiveCount(senders, Video) == 0)
  {
    var vi := FindSender(senders, Video);
    var withVideo := if vi.Some? then senders[vi.value := Sender(Some(video))] else senders + [Sender(Some(video))];
    if vi.Some? {
      ActiveCountUpdate(senders, vi.value, Sender(Some(video)), Video);
      ActiveCountUpdate(senders, vi.value, Sender(Some(video)), Audio);
      ActiveCountPositive(senders, vi.value, Video);
    } else {
      ActiveCountNone(senders, Video);
      ActiveCountAppend(senders, Sender(Some(video)), Video);
      ActiveCountAppend(senders, Sender(Some(video)), Audio);
    }
    var ai := FindSender(withVideo, Audio);
    if ai.Some? {
      ActiveCountUpdate(withVideo, ai.value, Sender(Some(audio)), Video);
      ActiveCountUpdate(withVideo, ai.value, Sender(Some(audio)), Audio);
    }
  }

  /**
   * Switching to audio takes one video sender out of service (when there is
   * one) and keeps the number of audio senders; the list keeps its length.
   */
  lemma SendersToAudioCounts(senders: seq<Sender>, audio: TrackRef)
    requires audio.kind == Audio
    ensures var r := SendersToAudio(senders, audio);
      && ActiveCount(r, Video) == (if ActiveCount(senders, Video) == 0 then 0 else ActiveCount(senders, Video) - 1)
      && ActiveCount(r, Audio) == ActiveCount(senders, Audio)
      && |r| == |senders|
  {
    var ai := FindSender(senders, Audio);
    var withAudio := if ai.Some? then senders[ai.value := Sender(Some(audio))] else senders;
    if ai.Some? {
      ActiveCountUpdate(senders, ai.value, Sender(Some(audio)), Video);
      ActiveCountUpdate(senders, ai.value, Sender(Some(audio)), Audio);
    }
    var vi := FindSender(withAudio, Video);
    if vi.Some? {
      ActiveCountUpdate(withAudio, vi.value, Sender(None), Video);
      ActiveCountUpdate(withAudio, vi.value, Sender(None), Audio);
      ActiveCountPositive(withAudio, vi.value, Video);
    } else {
      ActiveCountNone(withAudio, Video);
    }
  }

  /**
   * Going from video to audio and back to video leaves exactly one video
   * sender and one audio sender in service, starting from a connection with
   * one audio sender and at most one video sender.
   */
  lemma VideoAudioVideoRoundTrip(senders: seq<Sender>, a1: TrackRef, v2: TrackRef, a2: TrackRef)
    requires a1.kind == Audio && a2.kind == Audio && v2.kind == Video
    requires ActiveCount(senders, Audio) == 1 && ActiveCount(senders, Video) <= 1
    ensures var r := SendersToVideo(SendersToAudio(senders, a1), v2, a2);
      ActiveCount(r, Video) == 1 && ActiveCount(r, Audio) == 1
  {
    SendersToAudioCounts(senders, a1);
    SendersToVideoCounts(SendersToAudio(senders, a1), v2, a2);
  }

  /** The senders addTrack creates for every track of the local stream. */
  function SendersFor(stream: Option<seq<Track>>): (r: seq<Sender>)
    ensures |r| == |StreamTracks(stream)|
    ensures forall i :: 0 <= i < |r| ==> r[i] == Sender(Some(Ref(StreamTracks(stream)[i])))
  {
    var tracks := StreamTracks(stream);
    seq(|tracks|, i requires 0 <= i < |tracks| => Sender(Some(Ref(tracks[i]))))
  }

  /** peer.close() for each key of `order`, in that order. */
  function Closes(order: seq<PeerKey>): (r: seq<Effect>)
    ensures |r| == |order|
  {
    if order == [] then [] else [ClosePeer(order[0])] + Closes(order[1..])
  }

  /**
   * The order Object.values visits the peers in: keys that are call ids
   * ascending, then the key "null" (call ids are positive, so every id key is
   * an array index and comes first).
   */
  predicate KeyBefore(a: PeerKey, b: PeerKey)
  {
    a.Some? && (b.None? || a.value < b.value)
  }

  predicate IsFirst(k: PeerKey, keys: set<PeerKey>)
  {
    forall j :: j in keys && j != k ==> KeyBefore(k, j)
  }

  lemma {:induction false} FirstKeyExists(keys: set<PeerKey>)
    requires keys != {}
    ensures exists k :: k in keys && IsFirst(k, keys)
    decreases |keys|
  {
    var x :| x in keys;
    if keys == {x} {
      assert IsFirst(x, keys);
    } else {
      FirstKeyExists(keys - {x});
      var m :| m in keys - {x} && IsFirst(m, keys - {x});
      if KeyBefore(x, m) {
        forall j | j in keys && j != x ensures KeyBefore(x, j) {
          if j != m {
            assert KeyBefore(m, j);
          }
        }
      } else {
        assert IsFirst(m, keys);
      }
    }
  }

  /** The key Object.values visits first. */
  function FirstKey(keys: set<PeerKey>): (k: PeerKey)
    requires keys != {}
    ensures k in keys && IsFirst(k, keys)
  {
    FirstKeyExists(keys);
    var k :| k in keys && IsFirst(k, keys);
    k
  }

  /** All keys in Object.values order. */
  function KeyOrder(keys: set<PeerKey>): seq<PeerKey>
    decreases |keys|
  {
    if keys == {} then []
    else
      var k := FirstKey(keys);
      [k] + KeyOrder(keys - {k})
  }

  /** Object.values visits every peer exactly once, in strictly increasing key order. */
  lemma {:induction false} KeyOrderEnumerates(keys: set<PeerKey>)
    ensures |KeyOrder(keys)| == |keys|
    ensures forall k :: k in keys <==> k in KeyOrder(keys)
    ensures forall i, j :: 0 <= i < j < |KeyOrder(keys)| ==> KeyBefore(KeyOrder(keys)[i], KeyOrder(keys)[j])
    decreases |keys|
  {
    if keys != {} {
      var k := FirstKey(keys);
      var rest := keys - {k};
      KeyOrderEnumerates(rest);
      var r := KeyOrder(keys);
      assert r == [k] + KeyOrder(rest);
      forall i, j | 0 <= i < j < |r| ensures KeyBefore(r[i], r[j]) {
        if i == 0 {
          assert r[j] == KeyOrder(rest)[j - 1];
          assert r[j] in rest;
        } else {
          assert r[i] == KeyOrder(rest)[i - 1] && r[j] == KeyOrder(rest)[j - 1];
        }
      }
    }
  }

  /** switchToVideo on a peer: its senders move to the stream's first video and first audio track. */
  function VideoPeer(p: Peer, stream: seq<Track>): Peer
    requires Acquired(stream, true)
  {
    var video := stream[FindTrack(stream, Video).value];
    var audio := stream[FindTrack(stream, Audio).value];
    p.(senders := SendersToVideo(p.senders, Ref(video), Ref(audio)))
  }

  /** switchToAudio on a peer: its senders move to the stream's first audio track and drop video. */
  function AudioPeer(p: Peer, stream: seq<Track>): Peer
    requires Acquired(stream, false)
  {
    var audio := stream[FindTrack(stream, Audio).value];
    p.(senders := SendersToAudio(p.senders, Ref(audio)))
  }

  /**
   * A peer that carries one audio track and at most one video track carries
   * exactly one of each after switching to audio and back to video.
   */
  lemma SwitchBackToVideo(p: Peer, audioOnly: seq<Track>, withVideo: seq<Track>)
    requires Acquired(audioOnly, false) && Acquired(withVideo, true)
    requires ActiveCount(p.senders, Audio) == 1 && ActiveCount(p.senders, Video) <= 1
    ensures ActiveCount(VideoPeer(AudioPeer(p, audioOnly), withVideo).senders, Video) == 1
    ensures ActiveCount(VideoPeer(AudioPeer(p, audioOnly), withVideo).senders, Audio) == 1
  {
    var a1 := audioOnly[FindTrack(audioOnly, Audio).value];
    var v2 := withVideo[FindTrack(withVideo, Video).value];
    var a2 := withVideo[FindTrack(withVideo, Audio).value];
    VideoAudioVideoRoundTrip(p.senders, Ref(a1), Ref(v2), Ref(a2));
  }

  // --------------------------------------------------------------- manager

  class CallManager {
    var currentUser: Option<UserId>
    var currentCallId: Option<CallId>
    var callStatus: Option<CallStatus>
    var callStartTime: Option<int>
    var connectedTime: Option<int>
    var inactiveTimeout: Option<TimerId>
    var callTimer: Option<TimerId>
    /** Timer callbacks still pending in the event loop. */
    var scheduled: map<TimerId, TimerKind>
    /** The next handle setTimeout/setInterval will return; handles are never 0. */
    var nextTimer: TimerId
    var peers: map<PeerKey, Peer>
    var localStream: Option<seq<Track>>
    var isAudioMuted: bool
    var isVideoMuted: bool
    var isVideoCall: bool
    /** Socket emits, bookkeeping requests, stopped tracks and closed peers, oldest first. */
    var out: seq<Effect>

    ghost predicate Valid()
      reads this`nextTimer, this`scheduled, this`inactiveTimeout, this`callTimer, this`callStatus, this`connectedTime
    {
      && 0 < nextTimer
      && (forall t :: t in scheduled ==> 0 < t < nextTimer)
      && (inactiveTimeout.Some? ==> 0 < inactiveTimeout.value < nextTimer)
      && (callTimer.Some? ==> 0 < callTimer.value < nextTimer)
      && (callStatus == Some(Connected) ==> connectedTime.Some?)
    }

    constructor ()
      ensures Valid()
      ensures currentUser.None? && currentCallId.None? && callStatus.None? && connectedTime.None?
      ensures localStream.None? && peers == map[] && scheduled == map[]
      ensures !isAudioMuted && !isVideoMuted && !isVideoCall && out == []
    {
      currentUser := None;
      currentCallId := None;
      callStatus := None;
      callStartTime := None;
      connectedTime := None;
      inactiveTimeout := None;
      callTimer := None;
      scheduled := map[];
      nextTimer := 1;
      peers := map[];
      localStream := None;
      isAudioMuted := false;
      isVideoMuted := false;
      isVideoCall := false;
      out := [];
    }

    /** Every field but the output log and the pending timers is as it was. */
    twostate predicate KeptAllButLog()
      reads this
    {
      && currentUser == old(currentUser) && currentCallId == old(currentCallId)
      && callStatus == old(callStatus) && callStartTime == old(callStartTime)
      && connectedTime == old(connectedTime) && inactiveTimeout == old(inactiveTimeout)
      && callTimer == old(callTimer) && nextTimer == old(nextTimer)
      && peers == old(peers) && localStream == old(localStream)
      && isAudioMuted == old(isAudioMuted) && isVideoMuted == old(isVideoMuted)
      && isVideoCall == old(isVideoCall)
    }

    /**
     * What cleanup() leaves: both timers cleared and forgotten, every local
     * track stopped in stream order, every peer connection closed once, every
     * call field null, the mute flags and the call mode untouched.
     * `timersBefore` are the timers pending when cleanup started and
     * `prefix` the output log at that moment.
     */
    twostate predicate CleanedUp(timersBefore: map<TimerId, TimerKind>, prefix: seq<Effect>)
      reads this
    {
      && inactiveTimeout.None? && callTimer.None?
      && scheduled == timersBefore - TimerSet(old(inactiveTimeout)) - TimerSet(old(callTimer))
      && nextTimer == old(nextTimer)
      && localStream.None? && peers == map[]
      && currentCallId.None? && callStatus.None? && callStartTime.None? && connectedTime.None?
      && isAudioMuted == old(isAudioMuted) && isVideoMuted == old(isVideoMuted)
      && isVideoCall == old(isVideoCall)
      && out == prefix + Stops(StreamTracks(old(localStream))) + Closes(KeyOrder(old(peers).Keys))
    }

    /**
     * What endCall() leaves. With a (truthy) current call it asks the
     * bookkeeping service to end it; when that request fails the promise
     * rejects and nothing else happens; otherwise it announces `call_ended`
     * with the whole seconds since connecting and cleans up. Without a
     * current call it only cleans up.
     */
    twostate predicate EndCallDone(timersBefore: map<TimerId, TimerKind>, apiOk: bool, now: int)
      reads this
    {
      var id := old(currentCallId);
      && currentUser == old(currentUser)
      && if Truthy(id) then
           var asked := old(out) + [Api(EndCallRequest(id.value))];
           if apiOk then
             CleanedUp(timersBefore, asked + [Effect.Emit(SendSignal(CallEnded(id, CallDuration(old(connectedTime), now), CallRoom(id))))])
           else
             out == asked && scheduled == timersBefore && KeptAllButLog()
         else CleanedUp(timersBefore, old(out))
    }

    /** The timers after showCallScreen(): a connected video call gets one more ticker. */
    twostate predicate ScreenShown()
      reads this
    {
      if Truthy(currentCallId) && isVideoCall && callStatus == Some(Connected) then
        && callTimer == Some(old(nextTimer)) && nextTimer == old(nextTimer) + 1
        && scheduled == old(scheduled)[old(nextTimer) := DurationTicker]
      else
        callTimer == old(callTimer) && nextTimer == old(nextTimer) && scheduled == old(scheduled)
    }

    /** initCurrentUser: the current user arrives, or the request failed and nothing changes. */
    method CurrentUserLoaded(user: Option<UserId>)
      modifies this`currentUser
      ensures currentUser == (if user.Some? then user else old(currentUser))
    {
      if user.Some? {
        currentUser := user;
      }
    }

    method SetTimer(kind: TimerKind) returns (id: TimerId)
      requires Valid()
      modifies this`scheduled, this`nextTimer
      ensures Valid()
      ensures id == old(nextTimer) && id > 0 && nextTimer == old(nextTimer) + 1
      ensures id !in old(scheduled) && scheduled == old(scheduled)[id := kind]
    {
      id := nextTimer;
      scheduled := scheduled[id := kind];
      nextTimer := nextTimer + 1;
    }

    /** clearTimeout / clearInterval: a cleared callback never fires. */
    method ClearTimer(handle: Option<TimerId>)
      requires Valid()
      modifies this`scheduled
      ensures Valid()
      ensures scheduled == old(scheduled) - TimerSet(handle)
    {
      if handle.Some? {
        scheduled := scheduled - {handle.value};
      }
    }

    /** startCallTimer(): a new interval, whose handle replaces the previous one without clearing it. */
    method StartCallTimer()
      requires Valid()
      modifies this`scheduled, this`nextTimer, this`callTimer
      ensures Valid()
      ensures callTimer == Some(old(nextTimer)) && nextTimer == old(nextTimer) + 1
      ensures scheduled == old(scheduled)[old(nextTimer) := DurationTicker]
    {
      var id := SetTimer(DurationTicker);
      callTimer := Some(id);
    }

    /** showCallScreen(), as far as the manager's state goes. */
    method ShowCallScreen()
      requires Valid()
      modifies this`scheduled, this`nextTimer, this`callTimer
      ensures Valid()
      ensures ScreenShown()
    {
      if Truthy(currentCallId) && isVideoCall && callStatus == Some(Connected) {
        StartCallTimer();
      }
    }

    /** socket.emit */
    method SocketEmit(e: Emission)
      modifies this`out
      ensures out == old(out) + [Effect.Emit(e)]
    {
      out := out + [Effect.Emit(e)];
    }

    /** Stop every track of `tracks`, in order. */
    method StopTracks(tracks: seq<Track>)
      modifies this`out
      ensures out == old(out) + Stops(tracks)
    {
      var i := 0;
      while i < |tracks|
        invariant 0 <= i <= |tracks|
        invariant out == old(out) + Stops(tracks[..i])
      {
        assert tracks[..i + 1][..i] == tracks[..i];
        out := out + [StopTrack(tracks[i].id)];
        i := i + 1;
      }
      assert tracks[..|tracks|] == tracks;
    }

    /** Close every peer connection, in Object.values order, and forget them all. */
    method ClosePeers()
      modifies this`out, this`peers
      ensures peers == map[]
      ensures out == old(out) + Closes(KeyOrder(old(peers).Keys))
    {
      var keys := peers.Keys;
      while keys != {}
        invariant out + Closes(KeyOrder(keys)) == old(out) + Closes(KeyOrder(old(peers).Keys))
        decreases |keys|
      {
        var k := FirstKey(keys);
        assert Closes(KeyOrder(keys)) == [ClosePeer(k)] + Closes(KeyOrder(keys - {k}));
        out := out + [ClosePeer(k)];
        keys := keys - {k};
      }
      peers := map[];
    }

    /** The timer half of cleanup(): clear both handles and forget them. */
    method ClearCallTimers()
      requires Valid()
      modifies this`scheduled, this`inactiveTimeout, this`callTimer
      ensures Valid()
      ensures inactiveTimeout.None? && callTimer.None?
      ensures scheduled == old(scheduled) - TimerSet(old(inactiveTimeout)) - TimerSet(old(callTimer))
    {
      ClearTimer(inactiveTimeout);
      inactiveTimeout := None;
      ClearTimer(callTimer);
      callTimer := None;
    }

    /** The media half of cleanup(): stop the local tracks, then close every peer connection. */
    method ReleaseMedia()
      requires Valid()
      modifies this`out, this`localStream, this`peers
      ensures Valid()
      ensures localStream.None? && peers == map[]
      ensures out == old(out) + Stops(StreamTracks(old(localStream))) + Closes(KeyOrder(old(peers).Keys))
    {
      StopTracks(StreamTracks(localStream));
      localStream := None;
      ClosePeers();
    }

    /** cleanup() */
    method Cleanup()
      requires Valid()
      modifies this`scheduled, this`inactiveTimeout, this`callTimer, this`out, this`localStream, this`peers,
               this`currentCallId, this`callStatus, this`callStartTime, this`connectedTime
      ensures Valid()
      ensures CleanedUp(old(scheduled), old(out))
    {
      ghost var released := out + Stops(StreamTracks(localStream)) + Closes(KeyOrder(peers.Keys));
      ClearCallTimers();
      ReleaseMedia();
      assert out == released;
      currentCallId := None;
      callStatus := None;
      callStartTime := None;
      connectedTime := None;
    }

    /** getLocalStream(includeVideo): adopt the acquired stream and the call mode, or fail. */
    method GetLocalStream(includeVideo: bool, media: Option<seq<Track>>) returns (ok: bool)
      modifies this`localStream, this`isVideoCall
      ensures ok == media.Some?
      ensures ok ==> localStream == media && isVideoCall == includeVideo
      ensures !ok ==> localStream == old(localStream) && isVideoCall == old(isVideoCall)
    {
      ok := media.Some?;
      if ok {
        localStream := media;
        isVideoCall := includeVideo;
      }
    }

    /**
     * The state startCall leaves once the call rings: the call fields set,
     * the acquired stream adopted, the 30-second timeout armed, and the
     * room joined and the call announced after `prefix`.
     */
    twostate predicate StartedRinging(receiverId: UserId, callType: string, callId: CallId,
                                      media: Option<seq<Track>>, now: int, prefix: seq<Effect>)
      reads this
    {
      && currentCallId == Some(callId) && callStatus == Some(Ringing) && callStartTime == Some(now)
      && connectedTime == old(connectedTime)
      && localStream == media && isVideoCall == (callType == "video")
      && inactiveTimeout == Some(old(nextTimer)) && nextTimer == old(nextTimer) + 1
      && scheduled == old(scheduled)[old(nextTimer) := RingTimeout]
      && callTimer == old(callTimer) && peers == old(peers)
      && isAudioMuted == old(isAudioMuted) && isVideoMuted == old(isVideoMuted)
      && out == prefix + [Effect.Emit(JoinRoom(CallRoom(Some(callId)))),
                          Effect.Emit(SendSignal(CallInitiated(Some(callId), Some(receiverId), currentUser, callType)))]
    }

    /**
     * startCall(receiverId, callType). `fetchedUser` is what getCurrentUser
     * answers when no user is known yet (None: the request failed),
     * `created` the id of the new bookkeeping record (None: the request
     * failed) and `media` what getUserMedia resolves with (None: it
     * rejected). The result is the new call id, or None when the call could
     * not be started; then everything is cleaned up.
     */
    method StartCall(receiverId: UserId, callType: string, fetchedUser: Option<UserId>,
                     created: Option<CallId>, media: Option<seq<Track>>, now: int)
      returns (r: Option<CallId>)
      requires Valid()
      modifies this
      ensures Valid()
      ensures currentUser == (if old(currentUser).Some? then old(currentUser) else fetchedUser)
      ensures r.Some? <==> currentUser.Some? && created.Some? && media.Some?
      ensures r.Some? ==> r == created
      ensures r.Some? ==>
        StartedRinging(receiverId, callType, created.value, media, now, old(out) + [Api(InitiateCallRequest(receiverId, callType))])
      ensures r.None? ==>
        CleanedUp(old(scheduled), if currentUser.Some? then old(out) + [Api(InitiateCallRequest(receiverId, callType))] else old(out))
    {
      if currentUser.None? {
        currentUser := fetchedUser;
      }
      if currentUser.None? {
        Cleanup();
        r := None;
      } else {
        r := RequestCall(receiverId, callType, created, media, now);
      }
    }

    /** startCall once the user is known: ask the bookkeeping service for a call record. */
    method RequestCall(receiverId: UserId, callType: string, created: Option<CallId>, media: Option<seq<Track>>, now: int)
      returns (r: Option<CallId>)
      requires Valid()
      modifies this
      ensures Valid()
      ensures currentUser == old(currentUser)
      ensures r.Some? <==> created.Some? && media.Some?
      ensures r.Some? ==> r == created
      ensures r.Some? ==>
        StartedRinging(receiverId, callType, created.value, media, now, old(out) + [Api(InitiateCallRequest(receiverId, callType))])
      ensures r.None? ==> CleanedUp(old(scheduled), old(out) + [Api(InitiateCallRequest(receiverId, callType))])
    {
      out := out + [Api(InitiateCallRequest(receiverId, callType))];
      if created.None? {
        Cleanup();
        r := None;
      } else {
        r := Dial(receiverId, callType, created.value, media, now);
      }
    }

    /** startCall once the record exists: set the call fields, then acquire the media. */
    method Dial(receiverId: UserId, callType: string, callId: CallId, media: Option<seq<Track>>, now: int)
      returns (r: Option<CallId>)
      requires Valid()
      modifies this`currentCallId, this`callStatus, this`callStartTime, this`connectedTime, this`localStream,
               this`isVideoCall, this`scheduled, this`nextTimer, this`inactiveTimeout, this`callTimer, this`out, this`peers
      ensures Valid()
      ensures r.Some? <==> media.Some?
      ensures r.Some? ==> r == Some(callId) && StartedRinging(receiverId, callType, callId, media, now, old(out))
      ensures r.None? ==> CleanedUp(old(scheduled), old(out))
    {
      if media.Some? {
        r := DialAcquired(receiverId, callType, callId, media, now);
      } else {
        DialRefused(callType, callId, now);
        r := None;
      }
    }

    /** Dial when getUserMedia resolves: the call rings. */
    method DialAcquired(receiverId: UserId, callType: string, callId: CallId, media: Option<seq<Track>>, now: int)
      returns (r: Option<CallId>)
      requires Valid() && media.Some?
      modifies this`currentCallId, this`callStatus, this`callStartTime, this`localStream,
               this`isVideoCall, this`scheduled, this`nextTimer, this`inactiveTimeout, this`callTimer, this`out
      ensures Valid()
      ensures r == Some(callId) && StartedRinging(receiverId, callType, callId, media, now, old(out))
    {
      currentCallId := Some(callId);
      callStartTime := Some(now);
      callStatus := Some(Ringing);
      var acquired := GetLocalStream(callType == "video", media);
      r := Ring(receiverId, callType);
    }

    /** Dial when getUserMedia rejects: everything is cleaned up again. */
    method DialRefused(callType: string, callId: CallId, now: int)
      requires Valid()
      modifies this`currentCallId, this`callStatus, this`callStartTime, this`connectedTime, this`localStream,
               this`isVideoCall, this`scheduled, this`nextTimer, this`inactiveTimeout, this`callTimer, this`out, this`peers
      ensures Valid()
      ensures CleanedUp(old(scheduled), old(out))
    {
      currentCallId := Some(callId);
      callStartTime := Some(now);
      callStatus := Some(Ringing);
      var acquired := GetLocalStream(callType == "video", None);
      Cleanup();
    }

    /** The rest of startCall once the media flows: arm the ring timeout, join the room, announce the call. */
    method Ring(receiverId: UserId, callType: string) returns (r: Option<CallId>)
      requires Valid() && callStatus == Some(Ringing)
      modifies this`scheduled, this`nextTimer, this`inactiveTimeout, this`callTimer, this`out
      ensures Valid()
      ensures r == currentCallId && callTimer == old(callTimer)
      ensures inactiveTimeout == Some(old(nextTimer)) && nextTimer == old(nextTimer) + 1
      ensures scheduled == old(scheduled)[old(nextTimer) := RingTimeout]
      ensures out == old(out) + [Effect.Emit(JoinRoom(CallRoom(currentCallId))),
                                 Effect.Emit(SendSignal(CallInitiated(currentCallId, Some(receiverId), currentUser, callType)))]
    {
      ShowCallScreen();
      var ring := SetTimer(RingTimeout);
      inactiveTimeout := Some(ring);
      SocketEmit(JoinRoom(CallRoom(currentCallId)));
      SocketEmit(SendSignal(CallInitiated(currentCallId, Some(receiverId), currentUser, callType)));
      r := currentCallId;
    }

    /**
     * The state answerCall leaves once the media flows: the call connected,
     * the stream adopted, the room joined and the answer announced after
     * `prefix`, and a duration ticker started (two for a video call, since
     * showCallScreen starts one of its own before startCallTimer does).
     */
    twostate predicate Answered(callId: CallId, callType: string, media: Option<seq<Track>>, now: int, prefix: seq<Effect>)
      reads this
    {
      && currentCallId == Some(callId) && callStatus == Some(Connected) && connectedTime == Some(now)
      && callStartTime == old(callStartTime)
      && localStream == media && isVideoCall == (callType == "video")
      && inactiveTimeout == old(inactiveTimeout) && peers == old(peers)
      && isAudioMuted == old(isAudioMuted) && isVideoMuted == old(isVideoMuted)
      && out == prefix + [Effect.Emit(JoinRoom(CallRoom(Some(callId)))),
                          Effect.Emit(SendSignal(CallAnswered(Some(callId), CallRoom(Some(callId)))))]
      && callTimer == Some(nextTimer - 1)
      && if callType == "video" && callId != 0 then
           && nextTimer == old(nextTimer) + 2
           && scheduled == old(scheduled)[old(nextTimer) := DurationTicker][old(nextTimer) + 1 := DurationTicker]
         else
           nextTimer == old(nextTimer) + 1 && scheduled == old(scheduled)[old(nextTimer) := DurationTicker]
    }

    /**
     * answerCall(callId, callType): the call is marked connected before the
     * bookkeeping request (`apiOk`) and getUserMedia (`media`) are awaited;
     * either failing cleans everything up again.
     */
    method AnswerCall(callId: CallId, callType: string, apiOk: bool, media: Option<seq<Track>>, now: int)
      returns (ok: bool)
      requires Valid()
      modifies this`currentCallId, this`callStatus, this`callStartTime, this`connectedTime, this`localStream,
               this`isVideoCall, this`scheduled, this`nextTimer, this`inactiveTimeout, this`callTimer, this`out, this`peers
      ensures Valid()
      ensures ok <==> apiOk && media.Some?
      ensures ok ==> Answered(callId, callType, media, now, old(out) + [Api(AnswerCallRequest(callId))])
      ensures !ok ==> CleanedUp(old(scheduled), old(out) + [Api(AnswerCallRequest(callId))])
    {
      currentCallId := Some(callId);
      callStatus := Some(Connected);
      connectedTime := Some(now);
      out := out + [Api(AnswerCallRequest(callId))];
      if apiOk {
        ok := JoinCall(callId, callType, media);
      } else {
        Cleanup();
        ok := false;
      }
    }

    /** answerCall once the media flows: join the room, announce the answer, show the screen, start the ticker. */
    method Connect(callId: CallId)
      requires Valid() && currentCallId == Some(callId) && callStatus == Some(Connected)
      modifies this`out, this`scheduled, this`nextTimer, this`callTimer
      ensures Valid()
      ensures out == old(out) + [Effect.Emit(JoinRoom(CallRoom(Some(callId)))),
                                 Effect.Emit(SendSignal(CallAnswered(Some(callId), CallRoom(Some(callId)))))]
      ensures callTimer == Some(nextTimer - 1)
      ensures if isVideoCall && callId != 0 then
                && nextTimer == old(nextTimer) + 2
                && scheduled == old(scheduled)[old(nextTimer) := DurationTicker][old(nextTimer) + 1 := DurationTicker]
              else
                nextTimer == old(nextTimer) + 1 && scheduled == old(scheduled)[old(nextTimer) := DurationTicker]
    {
      var room := CallRoom(Some(callId));
      SocketEmit(JoinRoom(room));
      SocketEmit(SendSignal(CallAnswered(Some(callId), room)));
      ShowCallScreen();
      StartCallTimer();
    }

    /** answerCall once the bookkeeping service agreed: acquire the media, join and announce, start the ticker. */
    method JoinCall(callId: CallId, callType: string, media: Option<seq<Track>>) returns (ok: bool)
      requires Valid() && currentCallId == Some(callId) && callStatus == Some(Connected)
      modifies this`currentCallId, this`callStatus, this`callStartTime, this`connectedTime, this`localStream,
               this`isVideoCall, this`scheduled, this`nextTimer, this`inactiveTimeout, this`callTimer, this`out, this`peers
      ensures Valid()
      ensures ok <==> media.Some?
      ensures ok ==> Answered(callId, callType, media, old(connectedTime).value, old(out))
      ensures !ok ==> CleanedUp(old(scheduled), old(out))
    {
      var acquired := GetLocalStream(callType == "video", media);
      if !acquired {
        Cleanup();
        return false;
      }
      Connect(callId);
      ok := true;
    }

    /** endCall() */
    method EndCall(apiOk: bool, now: int)
      requires Valid()
      modifies this
      ensures Valid()
      ensures EndCallDone(old(scheduled), apiOk, now)
    {
      if Truthy(currentCallId) {
        var duration := CallDuration(connectedTime, now);
        out := out + [Api(EndCallRequest(currentCallId.value))];
        if !apiOk {
          return;
        }
        SocketEmit(SendSignal(CallEnded(currentCallId, duration, CallRoom(currentCallId))));
      }
      Cleanup();
    }

    /** handleCallRejection(callId): tell the room, then clean up. */
    method HandleCallRejection(callId: CallId)
      requires Valid()
      modifies this
      ensures Valid()
      ensures currentUser == old(currentUser)
      ensures CleanedUp(old(scheduled), old(out) + [Effect.Emit(SendSignal(CallRejected(Some(callId), CallRoom(Some(callId)))))])
    {
      SocketEmit(SendSignal(CallRejected(Some(callId), CallRoom(Some(callId)))));
      Cleanup();
    }

    /** The `call_answered` branch: every field but the listed ones is as it was. */
    twostate predicate AnswerSeen(callId: Option<CallId>, now: int)
      reads this
    {
      && scheduled == (old(scheduled) - TimerSet(old(inactiveTimeout)))[old(nextTimer) := DurationTicker]
      && inactiveTimeout == old(inactiveTimeout)
      && callStatus == Some(Connected) && connectedTime == Some(now)
      && callTimer == Some(old(nextTimer)) && nextTimer == old(nextTimer) + 1
      && peers == old(peers)[callId := Peer(SendersFor(old(localStream)), false, CallRoom(callId), [])]
      && out == old(out) + [Effect.Emit(SendOffer(CallRoom(callId)))]
      && currentUser == old(currentUser) && currentCallId == old(currentCallId)
      && callStartTime == old(callStartTime) && localStream == old(localStream)
      && isAudioMuted == old(isAudioMuted) && isVideoMuted == old(isVideoMuted) && isVideoCall == old(isVideoCall)
    }

    /**
     * handleCallModeChange(newMode): follow the other side's mode. A switch
     * to video re-shows the call screen, which starts a ticker on a connected
     * call; nothing else changes.
     */
    twostate predicate ModeFollowed(newMode: string)
      reads this
    {
      var toAudio := newMode == "audio" && old(isVideoCall);
      var toVideo := newMode == "video" && !old(isVideoCall);
      && isVideoCall == (if toAudio then false else if toVideo then true else old(isVideoCall))
      && (if toVideo && Truthy(currentCallId) && callStatus == Some(Connected) then
            && callTimer == Some(old(nextTimer)) && nextTimer == old(nextTimer) + 1
            && scheduled == old(scheduled)[old(nextTimer) := DurationTicker]
          else
            callTimer == old(callTimer) && nextTimer == old(nextTimer) && scheduled == old(scheduled))
      && currentUser == old(currentUser) && currentCallId == old(currentCallId)
      && callStatus == old(callStatus) && callStartTime == old(callStartTime)
      && connectedTime == old(connectedTime) && inactiveTimeout == old(inactiveTimeout)
      && peers == old(peers) && localStream == old(localStream) && out == old(out)
      && isAudioMuted == old(isAudioMuted) && isVideoMuted == old(isVideoMuted)
    }

    /**
     * handleCallSignal(data), the later of the two definitions in the class
     * (it replaces the earlier one). `now` is Date.now() and `endApiOk` how
     * the bookkeeping request of a resulting endCall() went.
     */
    method HandleCallSignal(sig: Signal, now: int, endApiOk: bool)
      requires Valid()
      modifies this
      ensures Valid()
      ensures sig.CallInitiated? ==>
        if sig.receiverId == old(currentUser) then
          && currentCallId == sig.callId
          && unchanged(this`currentUser, this`callStatus, this`callStartTime, this`connectedTime, this`inactiveTimeout,
                       this`callTimer, this`scheduled, this`nextTimer, this`peers, this`localStream,
                       this`isAudioMuted, this`isVideoMuted, this`isVideoCall, this`out)
        else unchanged(this)
      ensures sig.CallAnswered? ==> AnswerSeen(sig.callId, now)
      ensures sig.CallEnded? ==> EndCallDone(old(scheduled), endApiOk, now)
      ensures sig.CallRejected? ==> CleanedUp(old(scheduled), old(out)) && currentUser == old(currentUser)
      ensures sig.CallModeChanged? ==>
        if sig.callId == old(currentCallId) then ModeFollowed(sig.newMode) else unchanged(this)
      ensures sig.UnknownSignal? ==> unchanged(this)
    {
      match sig
      case CallInitiated(callId, receiverId, _, _) =>
        // loose equality: a missing receiver id equals a missing user
        if receiverId == currentUser {
          currentCallId := callId;
        }
      case CallAnswered(callId, _) =>
        OnCallAnswered(callId, now);
      case CallEnded(_, _, _) =>
        EndCall(endApiOk, now);
      case CallRejected(_, _) =>
        Cleanup();
      case CallModeChanged(callId, newMode, _) =>
        // strict equality of the call ids
        if callId == currentCallId {
          HandleCallModeChange(newMode);
        }
      case UnknownSignal(_) =>
    }

    /** The `call_answered` branch of handleCallSignal. */
    method OnCallAnswered(callId: Option<CallId>, now: int)
      requires Valid()
      modifies this`scheduled, this`callStatus, this`connectedTime, this`nextTimer, this`callTimer, this`peers, this`out
      ensures Valid()
      ensures AnswerSeen(callId, now)
    {
      ClearTimer(inactiveTimeout);
      callStatus := Some(Connected);
      connectedTime := Some(now);
      StartCallTimer();
      InitiateWebRTCConnection(callId);
    }

    /**
     * initiateWebRTCConnection(callId): a new peer connection under `callId`
     * (replacing, without closing, any earlier one there), carrying every
     * local track; its offer goes to the call's room.
     */
    method InitiateWebRTCConnection(callId: Option<CallId>)
      modifies this`peers, this`out
      ensures peers == old(peers)[callId := Peer(SendersFor(localStream), false, CallRoom(callId), [])]
      ensures out == old(out) + [Effect.Emit(SendOffer(CallRoom(callId)))]
    {
      peers := peers[callId := Peer(SendersFor(localStream), false, CallRoom(callId), [])];
      SocketEmit(SendOffer(CallRoom(callId)));
    }

    /** handleCallModeChange(newMode), the later of the two definitions in the class. */
    method HandleCallModeChange(newMode: string)
      requires Valid()
      modifies this`isVideoCall, this`scheduled, this`nextTimer, this`callTimer
      ensures Valid()
      ensures ModeFollowed(newMode)
      ensures newMode == "audio" || newMode == "video" ==> isVideoCall == (newMode == "video")
      ensures old(isVideoCall) == (newMode == "video") ==> unchanged(this)
    {
      if newMode == "audio" && isVideoCall {
        isVideoCall := false;
        ShowCallScreen();
      } else if newMode == "video" && !isVideoCall {
        isVideoCall := true;
        ShowCallScreen();
      }
    }

    /**
     * handleOffer(data): a new peer connection under the current call id,
     * carrying every local track, whose own candidates go to the offer's
     * room. When the offer is accepted as remote description (`accepted`)
     * the answer goes back to that room.
     */
    method HandleOffer(room: string, accepted: bool)
      modifies this`peers, this`out
      ensures peers == old(peers)[old(currentCallId) := Peer(SendersFor(localStream), accepted, room, [])]
      ensures out == old(out) + (if accepted then [Effect.Emit(SendAnswer(room))] else [])
    {
      peers := peers[currentCallId := Peer(SendersFor(localStream), accepted, room, [])];
      if accepted {
        SocketEmit(SendAnswer(room));
      }
    }

    /** handleAnswer(data): the answer becomes the remote description of the current call's peer, if there is one. */
    method HandleAnswer(accepted: bool)
      modifies this`peers
      ensures peers == if currentCallId in old(peers) && accepted
                       then old(peers)[currentCallId := old(peers)[currentCallId].(remoteDescriptionSet := true)]
                       else old(peers)
    {
      if currentCallId in peers && accepted {
        peers := peers[currentCallId := peers[currentCallId].(remoteDescriptionSet := true)];
      }
    }

    /**
     * handleIceCandidate(data): a remote candidate is added to the current
     * call's peer; addIceCandidate rejects it while that peer has no remote
     * description, and a missing candidate or peer is ignored.
     */
    method HandleIceCandidate(candidate: Option<Candidate>)
      modifies this`peers
      ensures peers == if currentCallId in old(peers) && candidate.Some? && old(peers)[currentCallId].remoteDescriptionSet
                       then old(peers)[currentCallId := old(peers)[currentCallId].(candidates := old(peers)[currentCallId].candidates + [candidate.value])]
                       else old(peers)
    {
      if currentCallId in peers && candidate.Some? && peers[currentCallId].remoteDescriptionSet {
        var p := peers[currentCallId];
        peers := peers[currentCallId := p.(candidates := p.candidates + [candidate.value])];
      }
    }

    /** The onicecandidate handler of the peer under `key`: a found candidate goes to that peer's room. */
    method OnLocalIceCandidate(key: PeerKey, candidate: Option<Candidate>)
      requires key in peers
      modifies this`out
      ensures out == old(out) + (if candidate.Some? then [Effect.Emit(SendIce(candidate.value, peers[key].iceRoom))] else [])
    {
      if candidate.Some? {
        SocketEmit(SendIce(candidate.value, peers[key].iceRoom));
      }
    }

    /** Set `enabled` on every local track of `kind`, one track at a time. */
    method SetTracksEnabled(kind: Kind, enabled: bool)
      modifies this`localStream
      ensures localStream == if old(localStream).Some? then Some(WithEnabled(old(localStream).value, kind, enabled)) else None
    {
      if localStream.Some? {
        var tracks := localStream.value;
        ghost var goal := WithEnabled(tracks, kind, enabled);
        var i := 0;
        while i < |tracks|
          invariant 0 <= i <= |tracks| == |goal|
          invariant tracks[..i] == goal[..i]
          invariant tracks[i..] == old(localStream).value[i..]
        {
          if tracks[i].kind == kind {
            tracks := tracks[i := tracks[i].(enabled := enabled)];
          }
          assert tracks[..i + 1] == goal[..i + 1];
          i := i + 1;
        }
        assert tracks == goal;
        localStream := Some(tracks);
      }
    }

    /** toggleAudio(): flip the flag; every local audio track then agrees with it. */
    method ToggleAudio()
      modifies this`isAudioMuted, this`localStream
      ensures isAudioMuted == !old(isAudioMuted)
      ensures localStream == if old(localStream).Some? then Some(WithEnabled(old(localStream).value, Audio, !isAudioMuted)) else None
      ensures localStream.Some? ==> AllOfKindEnabled(localStream.value, Audio, !isAudioMuted)
    {
      isAudioMuted := !isAudioMuted;
      SetTracksEnabled(Audio, !isAudioMuted);
      if localStream.Some? {
        WithEnabledEffect(old(localStream).value, Audio, !isAudioMuted);
      }
    }

    /** toggleVideo(): flip the flag; every local video track then agrees with it. */
    method ToggleVideo()
      modifies this`isVideoMuted, this`localStream
      ensures isVideoMuted == !old(isVideoMuted)
      ensures localStream == if old(localStream).Some? then Some(WithEnabled(old(localStream).value, Video, !isVideoMuted)) else None
      ensures localStream.Some? ==> AllOfKindEnabled(localStream.value, Video, !isVideoMuted)
    {
      isVideoMuted := !isVideoMuted;
      SetTracksEnabled(Video, !isVideoMuted);
      if localStream.Some? {
        WithEnabledEffect(old(localStream).value, Video, !isVideoMuted);
      }
    }

    /** The end of both switches: tell the other side, take the new mode, re-show the call screen. */
    method AnnounceMode(video: bool)
      requires Valid()
      modifies this`out, this`isVideoCall, this`scheduled, this`nextTimer, this`callTimer
      ensures Valid()
      ensures out == old(out) + [Effect.Emit(SendSignal(CallModeChanged(currentCallId, if video then "video" else "audio", CallRoom(currentCallId))))]
      ensures isVideoCall == video
      ensures if video && Truthy(currentCallId) && callStatus == Some(Connected) then
                && callTimer == Some(old(nextTimer)) && nextTimer == old(nextTimer) + 1
                && scheduled == old(scheduled)[old(nextTimer) := DurationTicker]
              else
                callTimer == old(callTimer) && nextTimer == old(nextTimer) && scheduled == old(scheduled)
    {
      SocketEmit(SendSignal(CallModeChanged(currentCallId, if video then "video" else "audio", CallRoom(currentCallId))));
      isVideoCall := video;
      ShowCallScreen();
    }

    /**
     * What switchToVideo() leaves when the current call has a peer: its
     * senders switched to the new stream's first video and audio tracks, the
     * old local tracks stopped, the new stream adopted, the other side told,
     * and the call screen re-shown in video mode.
     */
    twostate predicate SwitchedToVideo(stream: seq<Track>)
      reads this
    {
      var key := old(currentCallId);
      && key in old(peers) && Acquired(stream, true)
      && peers == old(peers)[key := VideoPeer(old(peers)[key], stream)]
      && localStream == Some(stream) && isVideoCall
      && out == old(out) + Stops(StreamTracks(old(localStream)))
                         + [Effect.Emit(SendSignal(CallModeChanged(key, "video", CallRoom(key))))]
      && (if Truthy(key) && callStatus == Some(Connected) then
            && callTimer == Some(old(nextTimer)) && nextTimer == old(nextTimer) + 1
            && scheduled == old(scheduled)[old(nextTimer) := DurationTicker]
          else
            callTimer == old(callTimer) && nextTimer == old(nextTimer) && scheduled == old(scheduled))
    }

    /** The peer of the current call moves to `stream`, the old local tracks stop, `stream` becomes the local stream. */
    method AdoptVideoStream(stream: seq<Track>)
      requires Valid()
      requires currentCallId in peers && Acquired(stream, true)
      modifies this`peers, this`out, this`localStream
      ensures Valid()
      ensures peers == old(peers)[currentCallId := VideoPeer(old(peers)[currentCallId], stream)]
      ensures out == old(out) + Stops(StreamTracks(old(localStream)))
      ensures localStream == Some(stream)
    {
      peers := peers[currentCallId := VideoPeer(peers[currentCallId], stream)];
      StopTracks(StreamTracks(localStream));
      localStream := Some(stream);
    }

    /**
     * switchToVideo(). `media` is what getUserMedia resolves with (None: it
     * rejected). Without a peer for the current call the acquired stream is
     * simply dropped.
     */
    method SwitchToVideo(media: Option<seq<Track>>)
      requires Valid()
      requires media.Some? ==> Acquired(media.value, true)
      modifies this`peers, this`out, this`localStream, this`isVideoCall, this`scheduled, this`nextTimer, this`callTimer
      ensures Valid()
      ensures media.None? || old(currentCallId) !in old(peers) ==> unchanged(this)
      ensures media.Some? && old(currentCallId) in old(peers) ==> SwitchedToVideo(media.value)
    {
      if media.None? || currentCallId !in peers {
        return;
      }
      AdoptVideoStream(media.value);
      AnnounceMode(true);
    }

    /**
     * What switchToAudio() leaves when the current call has a peer: its
     * first audio sender switched to the new stream's audio track and its
     * first video sender emptied, the new stream adopted (the old audio
     * tracks are not stopped), the other side told, audio mode.
     * `stopped` is the log after the old video tracks were stopped.
     */
    twostate predicate SwitchedToAudio(stream: seq<Track>, stopped: seq<Effect>)
      reads this
    {
      var key := old(currentCallId);
      && key in old(peers) && Acquired(stream, false)
      && peers == old(peers)[key := AudioPeer(old(peers)[key], stream)]
      && localStream == Some(stream) && !isVideoCall
      && out == stopped + [Effect.Emit(SendSignal(CallModeChanged(key, "audio", CallRoom(key))))]
      && callTimer == old(callTimer) && nextTimer == old(nextTimer) && scheduled == old(scheduled)
    }

    /** The peer of the current call moves to `stream`, which becomes the local stream. */
    method AdoptAudioStream(stream: seq<Track>)
      requires Valid()
      requires currentCallId in peers && Acquired(stream, false)
      modifies this`peers, this`localStream
      ensures Valid()
      ensures peers == old(peers)[currentCallId := AudioPeer(old(peers)[currentCallId], stream)]
      ensures localStream == Some(stream)
    {
      peers := peers[currentCallId := AudioPeer(peers[currentCallId], stream)];
      localStream := Some(stream);
    }

    /**
     * switchToAudio(). The local video tracks are stopped before the new
     * stream is even requested; `media` is what getUserMedia resolves with
     * (None: it rejected).
     */
    method SwitchToAudio(media: Option<seq<Track>>)
      requires Valid()
      requires media.Some? ==> Acquired(media.value, false)
      modifies this`peers, this`out, this`localStream, this`isVideoCall, this`scheduled, this`nextTimer, this`callTimer
      ensures Valid()
      ensures var stopped := old(out) + Stops(OfKind(StreamTracks(old(localStream)), Video));
        if media.Some? && old(currentCallId) in old(peers) then SwitchedToAudio(media.value, stopped)
        else out == stopped && unchanged(this`peers, this`localStream, this`isVideoCall, this`scheduled, this`nextTimer,
                                         this`callTimer, this`currentCallId, this`callStatus, this`connectedTime)
    {
      StopTracks(OfKind(StreamTracks(localStream), Video));
      if media.None? || currentCallId !in peers {
        return;
      }
      AdoptAudioStream(media.value);
      AnnounceMode(false);
    }

    /**
     * The event loop runs the pending callback `id` (with Date.now() = `now`;
     * `endApiOk` is how the request of a resulting endCall() went). A fired
     * timeout is no longer pending; an interval stays.
     */
    method FireTimer(id: TimerId, now: int, endApiOk: bool)
      requires Valid() && id in scheduled
      modifies this
      ensures Valid()
      ensures old(scheduled)[id] == RingTimeout ==>
        && unchanged(this`currentUser, this`currentCallId, this`callStatus, this`callStartTime, this`connectedTime,
                     this`inactiveTimeout, this`callTimer, this`peers, this`localStream,
                     this`isAudioMuted, this`isVideoMuted, this`isVideoCall, this`out)
        && if old(callStatus) == Some(Ringing) then
             // the 2-second hang-up: its handle is kept nowhere, so nothing can cancel it
             nextTimer == old(nextTimer) + 1 && scheduled == (old(scheduled) - {id})[old(nextTimer) := HangUpAfterInactive]
           else
             nextTimer == old(nextTimer) && scheduled == old(scheduled) - {id}
      ensures old(scheduled)[id] == HangUpAfterInactive ==> EndCallDone(old(scheduled) - {id}, endApiOk, now)
      ensures old(scheduled)[id] == DurationTicker ==> unchanged(this)
    {
      match scheduled[id]
      case RingTimeout =>
        scheduled := scheduled - {id};
        if callStatus == Some(Ringing) {
          var hangUp := SetTimer(HangUpAfterInactive);
        }
      case HangUpAfterInactive =>
        scheduled := scheduled - {id};
        EndCall(endApiOk, now);
      case DurationTicker =>
    }
  }
}
