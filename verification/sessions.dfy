/**
 * The chunked-HTTP ("XHTTP") session multiplexer as a state machine.
 *
 * A `World` holds the session table, every HTTP response the server has
 * begun (with the flags `tryWrite` checks and everything written to it),
 * every destination connection (with what has been written or piped into
 * it, in order), the request bodies waiting for their first chunk, and the
 * pending timers. Each event of the event loop is one step function.
 * Request bodies are opaque ids; piping a body into a destination appends
 * it to that destination's inflow. Timers are explicit entries that fire in
 * any order.
 */
module Sessions {
  import opened Wrappers
  import opened JsBuffer
  import opened Handshake

  type Chunk = Bytes
  type ResId = nat
  type BodyId = nat
  type TargetId = nat

  datatype Phase = Idle | Connecting | Established

  /** Phases only move forward: Idle, then Connecting, then Established. */
  function Rank(p: Phase): nat {
    match p
    case Idle => 0
    case Connecting => 1
    case Established => 2
  }

  /** Whether the response still has a live socket (`tryWrite` refuses a missing or destroyed one). */
  datatype SocketState = Attached | SocketDestroyed

  /**
   * An HTTP response. `owner`/`ownerSerial` name the session whose close
   * handler clears it; `sent` is everything written to it, in order.
   */
  datatype Response = Response(owner: string, ownerSerial: nat, ended: bool, destroyed: bool, socket: SocketState, sent: seq<Chunk>)

  /**
   * One session. `serial` tells apart sessions that reuse an id after
   * teardown. `download` is the GET response, `upload` the latest POST
   * response, `buffer` the downlink chunks no channel took, `pending` the
   * POST bodies queued until the destination connects.
   */
  datatype Session = Session(
    serial: nat,
    phase: Phase,
    download: Option<ResId>,
    upload: Option<ResId>,
    target: Option<TargetId>,
    buffer: seq<Chunk>,
    pending: seq<BodyId>)

  /** What reaches a destination connection: a direct write, or a body piped into it. */
  datatype Inflow = Wrote(data: Chunk) | Piped(body: BodyId)

  /**
   * A destination connection opened for `session` after a successful parse
   * of `firstChunk`, which arrived on `handshakeBody`.
   */
  datatype Target = Target(
    session: string,
    dest: Destination,
    firstChunk: Chunk,
    handshakeBody: BodyId,
    connected: bool,
    destroyed: bool,
    closed: bool,
    inflow: seq<Inflow>)

  datatype Reason = TargetClosed | TargetError | ProtocolError | Error | Timeout

  /**
   * The 60-second inactivity check `createSession` schedules, and the
   * 500-millisecond delayed teardown `cleanupSession` schedules (which
   * remembers the session it was called for).
   */
  datatype Timer = InactivityCheck(id: string) | DelayedCleanup(id: string, serial: nat, reason: Reason)

  datatype World = World(
    sessions: map<string, Session>,
    responses: map<ResId, Response>,
    targets: map<TargetId, Target>,
    handshakes: map<BodyId, string>,
    acks: map<BodyId, ResId>,
    discarded: set<BodyId>,
    timers: seq<Timer>,
    nextSerial: nat,
    nextRes: nat,
    nextBody: nat,
    nextTarget: nat)

  /** The acknowledgement header sent downlink when a VLESS destination connects. */
  const VlessAck: Chunk := [0x00, 0x00]

  /** The reasons for which the delayed teardown actually tears down. */
  predicate Removing(reason: Reason) {
    reason == TargetClosed || reason == TargetError || reason == ProtocolError || reason == Error
  }

  function Fresh(owner: string, serial: nat): Response {
    Response(owner, serial, false, false, Attached, [])
  }

  /** `tryWrite`'s checks: not null, not ended, not destroyed, socket present and not destroyed. */
  predicate Writable(r: Response) {
    !r.ended && !r.destroyed && r.socket == Attached
  }

  predicate CanWrite(w: World, ch: Option<ResId>) {
    ch.Some? && ch.value in w.responses && Writable(w.responses[ch.value])
  }

  function WithSent(w: World, rid: ResId, extra: seq<Chunk>): World
    requires rid in w.responses
  {
    w.(responses := w.responses[rid := w.responses[rid].(sent := w.responses[rid].sent + extra)])
  }

  function WithSession(w: World, id: string, s: Session): World {
    w.(sessions := w.sessions[id := s])
  }

  function Feed(w: World, tid: TargetId, flows: seq<Inflow>): World
    requires tid in w.targets
  {
    w.(targets := w.targets[tid := w.targets[tid].(inflow := w.targets[tid].inflow + flows)])
  }

  /** `createSession`: a fresh session under `id` and its inactivity check. */
  function Create(w: World, id: string): (r: World)
    ensures r.sessions == w.sessions[id := Session(w.nextSerial, Idle, None, None, None, [], [])]
    ensures r.timers == w.timers + [InactivityCheck(id)]
    ensures r.nextSerial == w.nextSerial + 1
    ensures r == w.(sessions := r.sessions, timers := r.timers, nextSerial := r.nextSerial)
  {
    w.(sessions := w.sessions[id := Session(w.nextSerial, Idle, None, None, None, [], [])],
       timers := w.timers + [InactivityCheck(id)],
       nextSerial := w.nextSerial + 1)
  }

  /**
   * `sendDownlinkData`: the GET response if it takes the chunk, else the
   * POST response if it does, else the end of the buffer. Unknown ids are
   * ignored.
   */
  function Dispatch(w: World, id: string, chunk: Chunk): (r: World)
    ensures id !in w.sessions ==> r == w
    ensures id in w.sessions && CanWrite(w, w.sessions[id].download) ==>
      r == WithSent(w, w.sessions[id].download.value, [chunk])
    ensures id in w.sessions && !CanWrite(w, w.sessions[id].download) && CanWrite(w, w.sessions[id].upload) ==>
      r == WithSent(w, w.sessions[id].upload.value, [chunk])
    ensures id in w.sessions && !CanWrite(w, w.sessions[id].download) && !CanWrite(w, w.sessions[id].upload) ==>
      r == WithSession(w, id, w.sessions[id].(buffer := w.sessions[id].buffer + [chunk]))
  {
    if id !in w.sessions then w
    else
      var s := w.sessions[id];
      if CanWrite(w, s.download) then WithSent(w, s.download.value, [chunk])
      else if CanWrite(w, s.upload) then WithSent(w, s.upload.value, [chunk])
      else WithSession(w, id, s.(buffer := s.buffer + [chunk]))
  }

  function DispatchAll(w: World, id: string, items: seq<Chunk>): World
    decreases |items|
  {
    if items == [] then w else DispatchAll(Dispatch(w, id, items[0]), id, items[1..])
  }

  /**
   * `flushBuffer`: empty the buffer and dispatch its old chunks again in
   * order. The session's id is looked up by identity and must be truthy, so
   * under the empty id the chunks are dropped.
   */
  function Flush(w: World, id: string): World
  {
    if id !in w.sessions || w.sessions[id].buffer == [] then w
    else
      var items := w.sessions[id].buffer;
      var cleared := WithSession(w, id, w.sessions[id].(buffer := []));
      if id == "" then cleared else DispatchAll(cleared, id, items)
  }

  /** `cleanupSession`: for a known id, schedule the delayed teardown of the current session. */
  function ScheduleCleanup(w: World, id: string, reason: Reason): (r: World)
    ensures id !in w.sessions ==> r == w
    ensures id in w.sessions ==> r == w.(timers := w.timers + [DelayedCleanup(id, w.sessions[id].serial, reason)])
  {
    if id in w.sessions then w.(timers := w.timers + [DelayedCleanup(id, w.sessions[id].serial, reason)])
    else w
  }

  function EndResponse(w: World, ch: Option<ResId>): World {
    if ch.Some? && ch.value in w.responses && !w.responses[ch.value].ended
    then w.(responses := w.responses[ch.value := w.responses[ch.value].(ended := true)])
    else w
  }

  function DestroyTarget(w: World, t: Option<TargetId>): World {
    if t.Some? && t.value in w.targets && !w.targets[t.value].destroyed
    then w.(targets := w.targets[t.value := w.targets[t.value].(destroyed := true)])
    else w
  }

  /**
   * The body of the delayed teardown: destroy the destination, end both
   * responses, destroy the queued bodies, and drop the table entry.
   */
  function Release(w: World, id: string): World
    requires id in w.sessions
  {
    var s := w.sessions[id];
    var w1 := EndResponse(EndResponse(DestroyTarget(w, s.target), s.download), s.upload);
    w1.(discarded := w1.discarded + (set b | b in s.pending), sessions := w1.sessions - {id})
  }

  /**
   * The delayed teardown firing: it acts only for a removing reason, and
   * only on the session it was scheduled for.
   */
  function FireCleanup(w: World, id: string, serial: nat, reason: Reason): World {
    if Removing(reason) && id in w.sessions && w.sessions[id].serial == serial then Release(w, id)
    else w
  }

  /**
   * The delayed teardown as the source writes it: the entry is deleted by id,
   * so a timer left over from an earlier session with the same id deletes
   * the newer session without releasing the newer session's resources. The
   * source also releases the resources of the session captured when the
   * timer was set; this function does so only while that session is the
   * one in the table.
   */
  function FireCleanupAsWritten(w: World, id: string, serial: nat, reason: Reason): World {
    if !Removing(reason) || id !in w.sessions then w
    else if w.sessions[id].serial == serial then Release(w, id)
    else w.(sessions := w.sessions - {id})
  }

  /** `handleXhttpGet`: find or create the session, attach the new response as downlink, flush. */
  function OnGet(w: World, id: string): World
  {
    var w1 := if id in w.sessions then w else Create(w, id);
    var s := w1.sessions[id];
    var rid := w1.nextRes;
    var w2 := w1.(responses := w1.responses[rid := Fresh(id, s.serial)], nextRes := rid + 1);
    Flush(WithSession(w2, id, s.(download := Some(rid))), id)
  }

  /**
   * `handleXhttpPost`. A new session starts connecting with this body as
   * its handshake. Otherwise the response becomes the uplink channel (and,
   * with a downlink present and a declared length, is ended when the body
   * ends), the buffer is flushed, and the body is piped, queued or parsed
   * according to the phase.
   */
  function OnPost(w: World, id: string, hasLength: bool): World
  {
    var rid := w.nextRes;
    var b := w.nextBody;
    var w0 := w.(nextRes := rid + 1, nextBody := b + 1);
    if id !in w.sessions then
      var w1 := Create(w0, id);
      var s := w1.sessions[id];
      w1.(responses := w1.responses[rid := Fresh(id, s.serial)],
          sessions := w1.sessions[id := s.(phase := Connecting, upload := Some(rid))],
          handshakes := w1.handshakes[b := id])
    else
      Route(AttachUplink(w, id, hasLength), id, b)
  }

  /**
   * A POST on a known session: the response becomes the uplink (ended when
   * the body ends if a downlink exists and the request declared a length),
   * and the buffer is flushed.
   */
  function AttachUplink(w: World, id: string, hasLength: bool): World
    requires id in w.sessions
  {
    var rid := w.nextRes;
    var b := w.nextBody;
    var s := w.sessions[id];
    var w1 := w.(nextRes := rid + 1, nextBody := b + 1,
                 responses := w.responses[rid := Fresh(id, s.serial)],
                 sessions := w.sessions[id := s.(upload := Some(rid))],
                 acks := if s.download.Some? && hasLength then w.acks[b := rid] else w.acks);
    Flush(w1, id)
  }

  /** What a POST does with its body once the session exists, by phase. */
  function Route(w: World, id: string, b: BodyId): World
  {
    if id !in w.sessions then w
    else
      var s := w.sessions[id];
      match s.phase
      case Established =>
        if s.target.Some? && s.target.value in w.targets then Feed(w, s.target.value, [Piped(b)]) else w
      case Connecting => WithSession(w, id, s.(pending := s.pending + [b]))
      case Idle => WithSession(w, id, s.(phase := Connecting)).(handshakes := w.handshakes[b := id])
  }

  /** The teardown reason for a refused handshake: an exception gives 'Error'. */
  function RejectReason(e: ParseError): Reason {
    if e == ReadPastEnd then Error else ProtocolError
  }

  /**
   * The first chunk of a handshake body. With a destination already present
   * the chunk is written and the body piped; otherwise the chunk is parsed,
   * and either the session is scheduled for teardown or a destination
   * connection is opened (name resolution is folded into this step).
   */
  function OnFirstChunk(secret: Secret, w: World, b: BodyId, chunk: Chunk): World
  {
    if b !in w.handshakes then w
    else
      var id := w.handshakes[b];
      var w1 := w.(handshakes := w.handshakes - {b});
      if id in w1.sessions && w1.sessions[id].target.Some? && w1.sessions[id].target.value in w1.targets then
        Feed(w1, w1.sessions[id].target.value, [Wrote(chunk), Piped(b)])
      else
        match Parse(secret, chunk)
        case Failure(e) => ScheduleCleanup(w1, id, RejectReason(e))
        case Success(d) =>
          var tid := w1.nextTarget;
          var w2 := w1.(targets := w1.targets[tid := Target(id, d, chunk, b, false, false, false, [])],
                        nextTarget := tid + 1);
          if id in w2.sessions then WithSession(w2, id, w2.sessions[id].(target := Some(tid))) else w2
  }

  /** All queued bodies, in queue order, as pipes. */
  function PipeAll(bodies: seq<BodyId>): (flows: seq<Inflow>)
    ensures |flows| == |bodies|
    ensures forall i :: 0 <= i < |bodies| ==> flows[i] == Piped(bodies[i])
  {
    seq(|bodies|, i requires 0 <= i < |bodies| => Piped(bodies[i]))
  }

  /** The connect callback's drain: Established, queued bodies piped in order, queue empty. */
  function Drain(w: World, id: string, tid: TargetId): World
    requires id in w.sessions && tid in w.targets
  {
    var s := w.sessions[id];
    WithSession(Feed(w, tid, PipeAll(s.pending)), id, s.(phase := Established, pending := []))
  }

  /**
   * The destination's connect callback: the VLESS acknowledgement goes
   * downlink, the session is established and drained, the initial payload
   * is written, and the handshake body is piped.
   */
  function OnConnected(w: World, tid: TargetId): World
  {
    if tid !in w.targets || w.targets[tid].connected || w.targets[tid].destroyed then w
    else
      var t := w.targets[tid];
      var w1 := w.(targets := w.targets[tid := t.(connected := true)]);
      var w2 := if t.dest.variant == Vless then Dispatch(w1, t.session, VlessAck) else w1;
      var w3 := if t.session in w2.sessions then Drain(w2, t.session, tid) else w2;
      var start := t.dest.payloadStart;
      var w4 := if start < |t.firstChunk| then Feed(w3, tid, [Wrote(t.firstChunk[start..])]) else w3;
      Feed(w4, tid, [Piped(t.handshakeBody)])
  }

  /** Data from a connected destination goes through the dispatcher. */
  function OnTargetData(w: World, tid: TargetId, chunk: Chunk): World
  {
    if tid in w.targets && w.targets[tid].connected && !w.targets[tid].destroyed
    then Dispatch(w, w.targets[tid].session, chunk)
    else w
  }

  function OnTargetError(w: World, tid: TargetId): World
  {
    if tid !in w.targets || w.targets[tid].destroyed then w
    else
      var t := w.targets[tid];
      ScheduleCleanup(w.(targets := w.targets[tid := t.(destroyed := true)]), t.session, TargetError)
  }

  function OnTargetClose(w: World, tid: TargetId): World
  {
    if tid !in w.targets || w.targets[tid].closed then w
    else
      var t := w.targets[tid];
      ScheduleCleanup(w.(targets := w.targets[tid := t.(closed := true, destroyed := true)]), t.session, TargetClosed)
  }

  /** The end of a POST body whose response is to be ended then (the acknowledgement). */
  function OnBodyEnd(w: World, b: BodyId): World
  {
    if b !in w.acks then w
    else EndResponse(w.(acks := w.acks - {b}), Some(w.acks[b]))
  }

  /** A response closes: it is destroyed, and its owner forgets it if still attached. */
  function OnResponseClosed(w: World, rid: ResId): World
  {
    if rid !in w.responses then w
    else
      var r := w.responses[rid];
      var w1 := w.(responses := w.responses[rid := r.(destroyed := true, socket := SocketDestroyed)]);
      if r.owner in w1.sessions && w1.sessions[r.owner].serial == r.ownerSerial then
        var s := w1.sessions[r.owner];
        WithSession(w1, r.owner, s.(download := if s.download == Some(rid) then None else s.download,
                                    upload := if s.upload == Some(rid) then None else s.upload))
      else w1
  }

  /** The inactivity check: teardown is requested only for a session with no destination that is not established. */
  function OnInactivity(w: World, id: string): World
  {
    if id in w.sessions && w.sessions[id].target.None? && w.sessions[id].phase != Established
    then ScheduleCleanup(w, id, Timeout)
    else w
  }

  /** Timer `i` fires (timers fire in any order). */
  function OnTimer(w: World, i: nat): World
  {
    if i >= |w.timers| then w
    else
      var w1 := w.(timers := w.timers[..i] + w.timers[i + 1..]);
      match w.timers[i]
      case InactivityCheck(id) => OnInactivity(w1, id)
      case DelayedCleanup(id, serial, reason) => FireCleanup(w1, id, serial, reason)
  }

  datatype Event =
    | Get(id: string)
    | Post(id: string, hasLength: bool)
    | FirstChunk(body: BodyId, chunk: Chunk)
    | BodyEnd(body: BodyId)
    | ResponseClosed(res: ResId)
    | Connected(target: TargetId)
    | TargetData(target: TargetId, chunk: Chunk)
    | TargetErrored(target: TargetId)
    | TargetClosedEvent(target: TargetId)
    | TimerFires(index: nat)

  function Step(secret: Secret, w: World, e: Event): World
  {
    match e
    case Get(id) => OnGet(w, id)
    case Post(id, hasLength) => OnPost(w, id, hasLength)
    case FirstChunk(b, chunk) => OnFirstChunk(secret, w, b, chunk)
    case BodyEnd(b) => OnBodyEnd(w, b)
    case ResponseClosed(rid) => OnResponseClosed(w, rid)
    case Connected(tid) => OnConnected(w, tid)
    case TargetData(tid, chunk) => OnTargetData(w, tid, chunk)
    case TargetErrored(tid) => OnTargetError(w, tid)
    case TargetClosedEvent(tid) => OnTargetClose(w, tid)
    case TimerFires(i) => OnTimer(w, i)
  }

  /** The empty server. */
  const Initial: World := World(map[], map[], map[], map[], map[], {}, [], 0, 0, 0, 0)
}
