/** The WebSocket client: inbound dispatch to the delegate, and the
    connection lifecycle (connect, disconnect, keep-alive, subscribe, receive)
    as a state machine over abstract transport events. Sends and receives are
    events, not I/O; the 25-second keep-alive period is a `PingTimerFires`
    step that the environment may take whenever the timer exists. */
module SocketSession {
  import opened Wrappers
  import opened Json
  import opened SocketMessage

  /** The endpoint every session connects to. */
  const Endpoint: string := "wss://ws.midjourney.com/ws"

  /** The room of a user's own jobs. */
  const RoomPrefix: string := "singleplayer_"

  /** What the delegate learns of a new job. */
  datatype WSJob = WSJob(id: string, enqueueTime: Int64, width: Int64, height: Int64)

  datatype UpdateImg = UpdateImg(data: string)

  /** What the delegate learns of a progress update. */
  datatype WSJobUpdate = WSJobUpdate(id: string, percentageComplete: Int64, imgs: Option<seq<UpdateImg>>)

  /** A delegate callback: `jobCreated` or `jobUpdate`. */
  datatype Event = JobCreated(job: WSJob) | JobUpdate(update: WSJobUpdate)

  function CopyImgs(imgs: seq<Img>): seq<UpdateImg> {
    seq(|imgs|, i requires 0 <= i < |imgs| => UpdateImg(imgs[i].data))
  }

  /** Inbound dispatch: a new job and a progress update each become exactly
      one delegate event carrying the message's fields; every other variant
      is ignored. */
  function OnSocketMessage(m: Message): (events: seq<Event>)
    ensures |events| <= 1
    ensures events != [] <==> m.RoomNewJob? || m.JobProgress?
    ensures m.RoomNewJob? ==>
      && events[0].JobCreated?
      && events[0].job.id == m.job.id
      && events[0].job.enqueueTime == m.job.enqueueTime
      && events[0].job.width == m.job.width
      && events[0].job.height == m.job.height
    ensures m.JobProgress? ==>
      && events[0].JobUpdate?
      && events[0].update.id == m.jobId
      && events[0].update.percentageComplete == m.data.percentageComplete
      && (events[0].update.imgs.None? <==> m.data.imgs.None?)
      && (events[0].update.imgs.Some? ==>
            && |events[0].update.imgs.value| == |m.data.imgs.value|
            && forall i :: 0 <= i < |m.data.imgs.value| ==>
                 events[0].update.imgs.value[i].data == m.data.imgs.value[i].data)
  {
    match m
    case RoomNewJob(_, job) =>
      [JobCreated(WSJob(job.id, job.enqueueTime, job.width, job.height))]
    case JobProgress(data, jobId, _) =>
      var imgs := match data.imgs
        case None => None
        case Some(imgs) => Some(CopyImgs(imgs));
      [JobUpdate(WSJobUpdate(jobId, data.percentageComplete, imgs))]
    case _ => []
  }

  // ----- Session state -----

  /** The `webSocketTask` reference: never created, running, or cancelled
      (a cancelled task stays referenced). */
  datatype TaskState = NoTask | Open | Cancelled

  /** How a send's completion handler is invoked. With no task the optional
      chain skips the send and the handler never runs. */
  datatype Completion = NeverCalled | Succeeded | Failed

  /** `sent` holds the JSON of every frame put on the wire, in order;
      `events` every delegate callback, in order. */
  datatype Session = Session(
    userId: string,
    webToken: string,
    hasDelegate: bool,
    task: TaskState,
    pingTimer: bool,
    receiving: bool,
    sent: seq<JValue>,
    events: seq<Event>)

  /** What a frame carries once the transport has parsed it as JSON; `None`
      when its text or bytes are not JSON. */
  datatype Frame = Text(json: Option<JValue>) | Binary(json: Option<JValue>) | OtherFrame

  datatype ReceiveOutcome = ReceiveFailed | Received(frame: Frame)

  datatype SendResult = SendResult(session: Session, completion: Completion)

  function NewSession(userId: string, webToken: string, hasDelegate: bool): Session {
    Session(userId, webToken, hasDelegate, NoTask, false, false, [], [])
  }

  /** `webSocketTask?.send`: only a running task puts the frame on the wire.
      With no task the optional chain skips the call, so the completion
      handler never runs; a cancelled task fails the send. Nothing but the
      sent frames changes. */
  function Transmit(s: Session, m: Message): (r: SendResult)
    ensures r.session.(sent := s.sent) == s
    ensures s.task == Open <==> r.session.sent == s.sent + [Encode(m)]
    ensures s.task != Open ==> r.session == s
    ensures r.completion == NeverCalled <==> s.task == NoTask
    ensures r.completion == Failed <==> s.task == Cancelled
  {
    match s.task
    case NoTask => SendResult(s, NeverCalled)
    case Open => SendResult(s.(sent := s.sent + [Encode(m)]), Succeeded)
    case Cancelled => SendResult(s, Failed)
  }

  /** Opens a fresh task, arms the receive loop, subscribes to the user with
      the session's token and starts the keep-alive timer. */
  function Connect(s: Session): (r: Session)
    ensures r.task == Open && r.receiving && r.pingTimer
    ensures |r.sent| == |s.sent| + 1 && r.sent[..|s.sent|] == s.sent
    ensures Decode(r.sent[|s.sent|]) == Success(SubscribeToUser(s.webToken))
    ensures r.events == s.events
    ensures r.userId == s.userId && r.webToken == s.webToken && r.hasDelegate == s.hasDelegate
  {
    var started := s.(task := Open, receiving := true);
    var subscribed := Transmit(started, SubscribeToUser(s.webToken)).session;
    RoundTrip(SubscribeToUser(s.webToken));
    subscribed.(pingTimer := true)
  }

  /** Cancels the task, if any, and drops the timer. The cancelled task's
      outstanding receive completes with a failure, which ends the receive
      loop; the model takes that step here. Nothing is sent and nothing is
      delivered. */
  function Disconnect(s: Session): (r: Session)
    ensures !r.pingTimer && !r.receiving
    ensures r.task != Open
    ensures r.task == NoTask <==> s.task == NoTask
    ensures r.sent == s.sent && r.events == s.events
    ensures r.userId == s.userId && r.webToken == s.webToken && r.hasDelegate == s.hasDelegate
  {
    var task := if s.task == NoTask then NoTask else Cancelled;
    s.(task := task, pingTimer := false, receiving := false)
  }

  /** A tick of the keep-alive timer sends `ping`; without a timer nothing
      fires. Send failures are ignored. */
  function PingTimerFires(s: Session): (r: Session)
    ensures !s.pingTimer ==> r == s
    ensures s.pingTimer && s.task == Open ==> r.sent == s.sent + [Encode(Ping)]
    ensures s.task != Open ==> r.sent == s.sent
    ensures r.events == s.events && r.task == s.task && r.pingTimer == s.pingTimer
    ensures r.(sent := s.sent) == s
  {
    if s.pingTimer then Transmit(s, Ping).session else s
  }

  /** `subscribeToJob`: sends `subscribe_to_job` for the job in the user's
      own room, and reports how the completion handler is called. */
  function SubscribeToJobInRoom(s: Session, jobId: string): (r: SendResult)
    ensures s.task == Open ==>
      && r.completion == Succeeded
      && |r.session.sent| == |s.sent| + 1
      && r.session.sent[..|s.sent|] == s.sent
      && Decode(r.session.sent[|s.sent|]) == Success(SubscribeToJob(jobId, RoomPrefix + s.userId))
    ensures s.task == NoTask ==> r == SendResult(s, NeverCalled)
    ensures s.task == Cancelled ==> r == SendResult(s, Failed)
    ensures r.session.events == s.events && r.session.task == s.task
    ensures r.session.(sent := s.sent) == s
  {
    var message := SubscribeToJob(jobId, RoomPrefix + s.userId);
    RoundTrip(message);
    Transmit(s, message)
  }

  /** The message a frame carries, when it decodes; anything else is
      dropped. */
  function FrameMessage(f: Frame): Option<Message> {
    match f
    case Text(Some(v)) => Decode(v).ToOption()
    case Binary(Some(v)) => Decode(v).ToOption()
    case _ => None
  }

  /** One completion of the outstanding receive. A failure ends the loop; any
      frame, decodable or not, re-arms it; a decoded message is dispatched
      to the delegate, if there is one. */
  function Receive(s: Session, outcome: ReceiveOutcome): (r: Session)
    ensures r.receiving <==> s.receiving && !outcome.ReceiveFailed?
    ensures !s.receiving ==> r == s
    ensures outcome.ReceiveFailed? ==> r == s.(receiving := false)
    ensures outcome.Received? && FrameMessage(outcome.frame).None? ==> r == s
    ensures s.receiving && outcome.Received? && FrameMessage(outcome.frame).Some? ==>
      r == s.(events := s.events + (if s.hasDelegate then OnSocketMessage(FrameMessage(outcome.frame).value) else []))
    ensures r.sent == s.sent && r.task == s.task && r.pingTimer == s.pingTimer
  {
    if !s.receiving then s
    else match outcome
      case ReceiveFailed => s.(receiving := false)
      case Received(frame) =>
        match FrameMessage(frame)
        case None => s
        case Some(m) =>
          if s.hasDelegate then s.(events := s.events + OnSocketMessage(m)) else s
  }

  /** Successive completions of the receive loop. */
  function ReceiveAll(s: Session, outcomes: seq<ReceiveOutcome>): Session
    decreases |outcomes|
  {
    if outcomes == [] then s else ReceiveAll(Receive(s, outcomes[0]), outcomes[1..])
  }

  // ----- Properties of the lifecycle -----

  /** Disconnecting twice is the same as disconnecting once. */
  lemma DisconnectIdempotent(s: Session)
    ensures Disconnect(Disconnect(s)) == Disconnect(s)
  {
  }

  /** Disconnecting a session that never connected changes nothing. */
  lemma DisconnectNeverConnected(userId: string, webToken: string, hasDelegate: bool)
    ensures Disconnect(NewSession(userId, webToken, hasDelegate)) == NewSession(userId, webToken, hasDelegate)
  {
  }

  /** A text frame and a binary frame carrying the same JSON are handled alike. */
  lemma FramingIrrelevant(s: Session, json: Option<JValue>)
    ensures Receive(s, Received(Text(json))) == Receive(s, Received(Binary(json)))
  {
  }

  /** The loop keeps receiving through any number of frames, decodable or
      not, and stops for good at the first receive failure; a stopped loop
      takes no further step. */
  lemma {:induction false} ReceiveLoopRuns(s: Session, outcomes: seq<ReceiveOutcome>)
    ensures ReceiveAll(s, outcomes).receiving <==>
      s.receiving && forall i :: 0 <= i < |outcomes| ==> !outcomes[i].ReceiveFailed?
    ensures !s.receiving ==> ReceiveAll(s, outcomes) == s
    decreases |outcomes|
  {
    if outcomes != [] {
      var next := Receive(s, outcomes[0]);
      ReceiveLoopRuns(next, outcomes[1..]);
      assert forall i :: 1 <= i < |outcomes| ==> outcomes[i] == outcomes[1..][i - 1];
    }
  }

  /** A `room_new_job` frame followed by a `job_progress` frame for the same
      job notifies the delegate exactly twice, in that order, with the
      fields mapped from the two messages. */
  lemma NewJobThenProgress(s: Session, created: Message, progress: Message)
    requires s.receiving && s.hasDelegate
    requires created.RoomNewJob? && progress.JobProgress? && progress.jobId == created.job.id
    ensures var r := ReceiveAll(s, [Received(Binary(Some(Encode(created)))), Received(Text(Some(Encode(progress))))]);
      && r.receiving
      && r.sent == s.sent
      && r.events == s.events + OnSocketMessage(created) + OnSocketMessage(progress)
      && |r.events| == |s.events| + 2
      && r.events[|s.events|] == JobCreated(WSJob(created.job.id, created.job.enqueueTime, created.job.width, created.job.height))
      && r.events[|s.events| + 1].JobUpdate?
      && r.events[|s.events| + 1].update.id == created.job.id
  {
    var first := Received(Binary(Some(Encode(created))));
    var second := Received(Text(Some(Encode(progress))));
    EncodedFrameCarries(created);
    EncodedFrameCarries(progress);
    var s1 := Receive(s, first);
    var s2 := Receive(s1, second);
    ReceiveTwo(s, first, second);
    var e1, e2 := OnSocketMessage(created), OnSocketMessage(progress);
    assert s1.events == s.events + e1 && s1.receiving;
    assert s2.events == s1.events + e2 && s2.receiving;
    assert |e1| == 1 && |e2| == 1;
    assert s2.events[|s.events|] == e1[0];
    assert s2.events[|s.events| + 1] == e2[0];
  }

  /** A frame holding the encoding of a message carries that message, in
      either framing. */
  lemma EncodedFrameCarries(m: Message)
    ensures FrameMessage(Text(Some(Encode(m)))) == Some(m)
    ensures FrameMessage(Binary(Some(Encode(m)))) == Some(m)
  {
    RoundTrip(m);
  }

  lemma ReceiveTwo(s: Session, first: ReceiveOutcome, second: ReceiveOutcome)
    ensures ReceiveAll(s, [first, second]) == Receive(Receive(s, first), second)
  {
    var s1 := Receive(s, first);
    assert [first, second][1..] == [second];
    assert ReceiveAll(s, [first, second]) == ReceiveAll(s1, [second]);
    assert [second][1..] == [];
    assert ReceiveAll(s1, [second]) == ReceiveAll(Receive(s1, second), []);
  }

  /** `delegate` is a public property that may be set or cleared between
      frames; only the delegate's presence matters to the model. */
  function SetDelegate(s: Session, present: bool): (r: Session)
    ensures r.hasDelegate == present
    ensures r.(hasDelegate := s.hasDelegate) == s
  {
    s.(hasDelegate := present)
  }

  /** With no delegate set, a received frame keeps the loop going but
      notifies nobody: the event is lost, not queued for a later delegate. */
  lemma FramesWithoutDelegateAreLost(s: Session, f: Frame)
    requires s.receiving && !s.hasDelegate
    ensures Receive(s, Received(f)) == s
  {
  }

  /** The keep-alive stops with the session: after a disconnect, timer ticks
      send nothing. */
  lemma NoPingAfterDisconnect(s: Session)
    ensures PingTimerFires(Disconnect(s)) == Disconnect(s)
  {
  }
}
