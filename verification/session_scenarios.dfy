/**
 * Whole exchanges on the session multiplexer: a new session opened by a
 * POST whose first chunk carries a well-formed VLESS or Trojan header, a
 * refused handshake, and a run of events in which a teardown scheduled for
 * an earlier session meets a newer session under the same id.
 */
module SessionScenarios {
  import opened Wrappers
  import opened JsBuffer
  import opened Handshake
  import opened HandshakeWire
  import opened Sessions
  import opened SessionFacts

  /** The identifiers the next response, body and destination will get are not in use. */
  predicate FreshCounters(w: World) {
    w.nextRes !in w.responses && w.nextBody !in w.handshakes && w.nextTarget !in w.targets
  }

  /**
   * A refused handshake opens no destination and changes no session; the
   * session, if still present, is scheduled for teardown ('Error' when a
   * read ran past the end, 'Protocol Error' otherwise).
   */
  lemma RefusedHandshakeOpensNothing(secret: Secret, w: World, b: BodyId, chunk: Chunk)
    requires b in w.handshakes
    requires var id := w.handshakes[b];
      !(id in w.sessions && w.sessions[id].target.Some? && w.sessions[id].target.value in w.targets)
    requires Parse(secret, chunk).Failure?
    ensures var r := OnFirstChunk(secret, w, b, chunk); var id := w.handshakes[b];
      && r.targets == w.targets && r.sessions == w.sessions && r.responses == w.responses
      && b !in r.handshakes
      && (id in w.sessions ==>
            r.timers == w.timers + [DelayedCleanup(id, w.sessions[id].serial, RejectReason(Parse(secret, chunk).error))])
      && (id !in w.sessions ==> r.timers == w.timers)
  {
  }

  /** The teardown reason of a refusal is 'Protocol Error' unless a read ran past the end. */
  lemma RefusalReasons(secret: Secret, chunk: Chunk)
    requires Parse(secret, chunk).Failure?
    ensures RejectReason(Parse(secret, chunk).error) == Error <==> Parse(secret, chunk).error == ReadPastEnd
    ensures Classify(chunk) == Unrecognised ==> RejectReason(Parse(secret, chunk).error) == ProtocolError
  {
  }

  /**
   * A POST opening a new session whose first chunk parses, followed by the
   * destination's connect: the session is established on that destination,
   * which receives the bytes after the header (if any) and then the rest of
   * the body; the POST response carries the VLESS acknowledgement and
   * nothing for Trojan.
   */
  lemma OpeningExchange(secret: Secret, w: World, id: string, hasLength: bool, chunk: Chunk, d: Destination)
    requires id !in w.sessions && FreshCounters(w)
    requires Parse(secret, chunk) == Success(d)
    ensures var w1 := OnPost(w, id, hasLength);
      var w2 := OnFirstChunk(secret, w1, w.nextBody, chunk);
      var r := OnConnected(w2, w.nextTarget);
      && id in r.sessions && r.sessions[id].phase == Established && r.sessions[id].target == Some(w.nextTarget)
      && r.sessions[id].pending == [] && r.sessions[id].buffer == []
      && w.nextTarget in r.targets && r.targets[w.nextTarget].dest == d
      && r.targets[w.nextTarget].inflow ==
           (if d.payloadStart < |chunk| then [Wrote(chunk[d.payloadStart..])] else []) + [Piped(w.nextBody)]
      && w.nextRes in r.responses
      && r.responses[w.nextRes].sent == (if d.variant == Vless then [VlessAck] else [])
  {
    var w1 := OnPost(w, id, hasLength);
    PostOpensSession(w, id, hasLength);
    var w2 := OnFirstChunk(secret, w1, w.nextBody, chunk);
    var tid := w.nextTarget;
    assert w1.responses == w.responses[w.nextRes := Fresh(id, w.nextSerial)];
    AcceptedHandshakeOpensTarget(secret, w1, w.nextBody, chunk, d);
    assert Channel(w2, id) == Some(w.nextRes);
    ConnectDrainsInOrder(w2, tid);
  }

  /**
   * An accepted first chunk on a session with no destination opens one for
   * the parsed destination, with nothing written to it yet, and records it
   * on the session; nothing else but the listener table changes.
   */
  lemma AcceptedHandshakeOpensTarget(secret: Secret, w: World, b: BodyId, chunk: Chunk, d: Destination)
    requires b in w.handshakes && w.handshakes[b] in w.sessions && w.sessions[w.handshakes[b]].target.None?
    requires Parse(secret, chunk) == Success(d)
    ensures var r := OnFirstChunk(secret, w, b, chunk); var id := w.handshakes[b];
      && r.targets == w.targets[w.nextTarget := Target(id, d, chunk, b, false, false, false, [])]
      && r.nextTarget == w.nextTarget + 1
      && r.sessions == w.sessions[id := w.sessions[id].(target := Some(w.nextTarget))]
      && r.responses == w.responses && r.handshakes == w.handshakes - {b} && r.timers == w.timers
  {
  }

  /** A VLESS client's opening exchange: the destination gets exactly the request's payload, then the body. */
  lemma VlessOpening(secret: Secret, w: World, id: string, hasLength: bool, req: VlessRequest)
    requires |secret.raw| == 16 && ValidVless(req)
    requires id !in w.sessions && FreshCounters(w)
    ensures var w1 := OnPost(w, id, hasLength);
      var w2 := OnFirstChunk(secret, w1, w.nextBody, EncodeVless(secret, req));
      var r := OnConnected(w2, w.nextTarget);
      && id in r.sessions && r.sessions[id].phase == Established
      && w.nextTarget in r.targets
      && r.targets[w.nextTarget].dest == Destination(Vless, HostOf(req.address), req.port, |VlessHeaderBytes(secret, req)|)
      && r.targets[w.nextTarget].inflow == (if req.payload == [] then [] else [Wrote(req.payload)]) + [Piped(w.nextBody)]
      && w.nextRes in r.responses && r.responses[w.nextRes].sent == [VlessAck]
  {
    VlessRoundTrip(secret, req);
    var chunk := EncodeVless(secret, req);
    OpeningExchange(secret, w, id, hasLength, chunk, Parse(secret, chunk).value);
  }

  /** A Trojan client's opening exchange: the destination gets exactly the request's payload, then the body; no acknowledgement. */
  lemma TrojanOpening(secret: Secret, w: World, id: string, hasLength: bool, req: TrojanRequest)
    requires IsHexDigest(secret.digestHex) && ValidTrojan(req)
    requires id !in w.sessions && FreshCounters(w)
    ensures var w1 := OnPost(w, id, hasLength);
      var w2 := OnFirstChunk(secret, w1, w.nextBody, EncodeTrojan(secret, req));
      var r := OnConnected(w2, w.nextTarget);
      && id in r.sessions && r.sessions[id].phase == Established
      && w.nextTarget in r.targets
      && r.targets[w.nextTarget].dest == Destination(Trojan, HostOf(req.address), req.port, |TrojanHeaderBytes(secret, req)|)
      && r.targets[w.nextTarget].inflow == (if req.payload == [] then [] else [Wrote(req.payload)]) + [Piped(w.nextBody)]
      && w.nextRes in r.responses && r.responses[w.nextRes].sent == []
  {
    TrojanRoundTrip(secret, req);
    var chunk := EncodeTrojan(secret, req);
    OpeningExchange(secret, w, id, hasLength, chunk, Parse(secret, chunk).value);
  }

  /** A VLESS request for 1.2.3.4:80 with no payload. */
  const SampleRequest: VlessRequest := VlessRequest([], 1, 80, IPv4Addr([1, 2, 3, 4]), [])

  /** From the empty server: a POST opens session "s" with a well-formed first chunk, and its destination connects. */
  function Opened(secret: Secret): World {
    var w1 := Step(secret, Initial, Post("s", false));
    var w2 := Step(secret, w1, FirstChunk(0, EncodeVless(secret, SampleRequest)));
    Step(secret, w2, Connected(0))
  }

  lemma OpenedFacts(secret: Secret)
    requires |secret.raw| == 16
    ensures var w := Opened(secret);
      && "s" in w.sessions && w.sessions["s"].serial == 0 && w.nextSerial == 1
      && 0 in w.targets && !w.targets[0].destroyed && !w.targets[0].closed && w.targets[0].session == "s"
      && w.timers == [InactivityCheck("s")] && w.nextRes == 1 && w.responses.Keys == {0}
  {
    var chunk := EncodeVless(secret, SampleRequest);
    VlessRoundTrip(secret, SampleRequest);
    var w1 := OnPost(Initial, "s", false);
    PostedFacts();
    assert Opened(secret) == OnConnected(OnFirstChunk(secret, w1, 0, chunk), 0);
    OpenedFrom(secret, w1, chunk, Parse(secret, chunk).value);
  }

  /** The world after the first POST of "s" on the empty server. */
  lemma PostedFacts()
    ensures var w1 := OnPost(Initial, "s", false);
      && w1.sessions == map["s" := Session(0, Connecting, None, Some(0), None, [], [])]
      && w1.timers == [InactivityCheck("s")] && w1.nextSerial == 1 && w1.nextRes == 1
      && w1.responses.Keys == {0} && w1.targets == map[] && w1.nextTarget == 0
      && w1.handshakes == map[0 := "s"]
  {
    PostOpensSession(Initial, "s", false);
  }

  /** After that POST, an accepted first chunk and the destination's connect. */
  lemma OpenedFrom(secret: Secret, w1: World, chunk: Chunk, d: Destination)
    requires w1.sessions == map["s" := Session(0, Connecting, None, Some(0), None, [], [])]
    requires w1.timers == [InactivityCheck("s")] && w1.nextSerial == 1 && w1.nextRes == 1
    requires w1.responses.Keys == {0} && w1.targets == map[] && w1.nextTarget == 0
    requires w1.handshakes == map[0 := "s"]
    requires Parse(secret, chunk) == Success(d)
    ensures var w := OnConnected(OnFirstChunk(secret, w1, 0, chunk), 0);
      && "s" in w.sessions && w.sessions["s"].serial == 0 && w.nextSerial == 1
      && 0 in w.targets && !w.targets[0].destroyed && !w.targets[0].closed && w.targets[0].session == "s"
      && w.timers == [InactivityCheck("s")] && w.nextRes == 1 && w.responses.Keys == {0}
  {
    var w2 := OnFirstChunk(secret, w1, 0, chunk);
    AcceptedHandshakeOpensTarget(secret, w1, 0, chunk, d);
    ConnectedKeeps(w2, 0);
  }

  /** The connect callback changes no serial, timer, counter or response set, and leaves its destination open. */
  lemma ConnectedKeeps(w: World, tid: TargetId)
    requires tid in w.targets && !w.targets[tid].connected && !w.targets[tid].destroyed
    ensures var r := OnConnected(w, tid);
      && r.timers == w.timers && r.nextSerial == w.nextSerial && r.nextRes == w.nextRes
      && r.responses.Keys == w.responses.Keys && r.sessions.Keys == w.sessions.Keys
      && (forall k :: k in w.sessions ==> r.sessions[k].serial == w.sessions[k].serial)
      && tid in r.targets && !r.targets[tid].destroyed && r.targets[tid].closed == w.targets[tid].closed
      && r.targets[tid].session == w.targets[tid].session
  {
    var t := w.targets[tid];
    var w1 := w.(targets := w.targets[tid := t.(connected := true)]);
    var w2 := if t.dest.variant == Vless then Dispatch(w1, t.session, VlessAck) else w1;
    if t.dest.variant == Vless {
      DispatchSame(w1, t.session, VlessAck);
    }
    var w3 := if t.session in w2.sessions then Drain(w2, t.session, tid) else w2;
    if t.session in w2.sessions {
      DrainSame(w2, t.session, tid);
    }
    var start := t.dest.payloadStart;
    var w4 := if start < |t.firstChunk| then Feed(w3, tid, [Wrote(t.firstChunk[start..])]) else w3;
    if start < |t.firstChunk| {
      FeedSame(w3, tid, [Wrote(t.firstChunk[start..])]);
    }
    FeedSame(w4, tid, [Piped(t.handshakeBody)]);
    SameTrans(w, w1, w2, tid);
    SameTrans(w, w2, w3, tid);
    SameTrans(w, w3, w4, tid);
    SameTrans(w, w4, Feed(w4, tid, [Piped(t.handshakeBody)]), tid);
  }

  lemma DispatchSame(w: World, id: string, chunk: Chunk)
    ensures Same(w, Dispatch(w, id, chunk)) && Dispatch(w, id, chunk).targets == w.targets
  {
  }

  lemma DrainSame(w: World, id: string, tid: TargetId)
    requires id in w.sessions && tid in w.targets
    ensures Same(w, Drain(w, id, tid)) && SameTarget(w, Drain(w, id, tid), tid)
  {
  }

  lemma FeedSame(w: World, tid: TargetId, flows: seq<Inflow>)
    requires tid in w.targets
    ensures Same(w, Feed(w, tid, flows)) && SameTarget(w, Feed(w, tid, flows), tid)
  {
  }

  lemma SameTrans(a: World, b: World, c: World, tid: TargetId)
    requires Same(a, b) && Same(b, c) && SameTarget(a, b, tid) && SameTarget(b, c, tid)
    ensures Same(a, c) && SameTarget(a, c, tid)
  {
  }

  /** The destination `tid` keeps its session, and its teardown flags. */
  predicate SameTarget(w: World, r: World, tid: TargetId) {
    tid in w.targets ==>
      && tid in r.targets && r.targets[tid].session == w.targets[tid].session
      && r.targets[tid].destroyed == w.targets[tid].destroyed && r.targets[tid].closed == w.targets[tid].closed
  }

  /** Nothing but buffers, phases, queues and sent logs differ. */
  predicate Same(w: World, r: World) {
    && r.timers == w.timers && r.nextSerial == w.nextSerial && r.nextRes == w.nextRes
    && r.responses.Keys == w.responses.Keys && r.sessions.Keys == w.sessions.Keys
    && (forall k :: k in w.sessions ==> r.sessions[k].serial == w.sessions[k].serial)
  }

  /** A destination that errors and then closes schedules two teardowns for its session, in that order. */
  lemma ErrorThenClose(w: World, tid: TargetId)
    requires tid in w.targets && !w.targets[tid].destroyed && !w.targets[tid].closed
    requires w.targets[tid].session in w.sessions
    ensures var r := OnTargetClose(OnTargetError(w, tid), tid); var id := w.targets[tid].session;
      && r.sessions == w.sessions && r.responses == w.responses
      && r.nextSerial == w.nextSerial && r.nextRes == w.nextRes
      && r.timers == w.timers + [DelayedCleanup(id, w.sessions[id].serial, TargetError),
                                 DelayedCleanup(id, w.sessions[id].serial, TargetClosed)]
  {
    var t := w.targets[tid];
    var w4 := OnTargetError(w, tid);
    assert w4 == ScheduleCleanup(w.(targets := w.targets[tid := t.(destroyed := true)]), t.session, TargetError);
    assert tid in w4.targets && !w4.targets[tid].closed && w4.targets[tid].session == t.session;
    assert w4.sessions == w.sessions;
  }

  /** The destination then errors and closes: two teardowns are scheduled for the session. */
  lemma FailedFacts(secret: Secret, w: World)
    requires "s" in w.sessions && w.sessions["s"].serial == 0 && w.nextSerial == 1
    requires 0 in w.targets && !w.targets[0].destroyed && !w.targets[0].closed && w.targets[0].session == "s"
    requires w.timers == [InactivityCheck("s")] && w.nextRes == 1 && w.responses.Keys == {0}
    ensures var r := Step(secret, Step(secret, w, TargetErrored(0)), TargetClosedEvent(0));
      && "s" in r.sessions && r.sessions["s"].serial == 0 && r.nextSerial == 1
      && r.timers == [InactivityCheck("s"), DelayedCleanup("s", 0, TargetError), DelayedCleanup("s", 0, TargetClosed)]
      && r.nextRes == 1 && r.responses.Keys == {0}
  {
    ErrorThenClose(w, 0);
  }

  /** The first teardown removes the session, and a new POST opens a new session under the same id. */
  lemma ReopenedFacts(secret: Secret, w: World)
    requires "s" in w.sessions && w.sessions["s"].serial == 0 && w.nextSerial == 1
    requires w.timers == [InactivityCheck("s"), DelayedCleanup("s", 0, TargetError), DelayedCleanup("s", 0, TargetClosed)]
    requires w.nextRes == 1 && w.responses.Keys == {0}
    ensures "s" !in Step(secret, w, TimerFires(1)).sessions
    ensures var r := Step(secret, Step(secret, w, TimerFires(1)), Post("s", false));
      && "s" in r.sessions && r.sessions["s"].serial == 1 && r.sessions["s"].upload == Some(1)
      && 1 in r.responses && !r.responses[1].ended
      && r.timers == [InactivityCheck("s"), DelayedCleanup("s", 0, TargetClosed), InactivityCheck("s")]
  {
    FirstTeardown(secret, w);
    PostOpensSession(Step(secret, w, TimerFires(1)), "s", false);
  }

  /** The earlier of the two teardowns fires first and removes the session. */
  lemma FirstTeardown(secret: Secret, w: World)
    requires "s" in w.sessions && w.sessions["s"].serial == 0 && w.nextSerial == 1
    requires w.timers == [InactivityCheck("s"), DelayedCleanup("s", 0, TargetError), DelayedCleanup("s", 0, TargetClosed)]
    requires w.nextRes == 1 && w.responses.Keys == {0}
    ensures var r := Step(secret, w, TimerFires(1));
      && "s" !in r.sessions && r.nextSerial == 1 && r.nextRes == 1 && r.responses.Keys == {0}
      && r.timers == [InactivityCheck("s"), DelayedCleanup("s", 0, TargetClosed)]
  {
    var w' := w.(timers := w.timers[..1] + w.timers[2..]);
    assert w'.timers == [InactivityCheck("s"), DelayedCleanup("s", 0, TargetClosed)];
    CleanupTearsDown(w', "s", 0, TargetError);
    assert Step(secret, w, TimerFires(1)) == FireCleanup(w', "s", 0, TargetError);
  }

  /** After the opening, the destination errors and then closes. */
  function Failed(secret: Secret): World {
    Step(secret, Step(secret, Opened(secret), TargetErrored(0)), TargetClosedEvent(0))
  }

  /** Then the first scheduled teardown fires. */
  function TornDown(secret: Secret): World {
    Step(secret, Failed(secret), TimerFires(1))
  }

  /** Then a new POST arrives under the same id. */
  function Reopened(secret: Secret): World {
    Step(secret, TornDown(secret), Post("s", false))
  }

  /**
   * From the empty server: a POST opens session "s" and its destination
   * connects; the destination errors and then closes, which schedules two
   * teardowns; the first removes the session; a new POST opens a new
   * session under "s". The leftover teardown of the first session then
   * fires while the second is live. The source's teardown deletes the live
   * session (its response is never ended); the corrected teardown leaves
   * the world unchanged.
   */
  lemma StaleTeardownTrace(secret: Secret)
    requires |secret.raw| == 16
    ensures "s" !in TornDown(secret).sessions
    ensures var w := Reopened(secret);
      && "s" in w.sessions && |w.timers| == 3 && w.timers[1] == DelayedCleanup("s", 0, TargetClosed)
      && w.sessions["s"].serial != 0 && w.sessions["s"].upload.Some?
      && w.sessions["s"].upload.value in w.responses && !w.responses[w.sessions["s"].upload.value].ended
      && Step(secret, w, TimerFires(1)).sessions == w.sessions
      && "s" !in FireCleanupAsWritten(w.(timers := w.timers[..1] + w.timers[2..]), "s", 0, TargetClosed).sessions
  {
    OpenedFacts(secret);
    FailedFacts(secret, Opened(secret));
    ReopenedFacts(secret, Failed(secret));
    LeftoverTeardown(secret, Reopened(secret));
  }

  /** The leftover teardown for serial 0 meets a session with another serial. */
  lemma LeftoverTeardown(secret: Secret, w: World)
    requires "s" in w.sessions && w.sessions["s"].serial != 0
    requires |w.timers| == 3 && w.timers[1] == DelayedCleanup("s", 0, TargetClosed)
    ensures Step(secret, w, TimerFires(1)).sessions == w.sessions
    ensures "s" !in FireCleanupAsWritten(w.(timers := w.timers[..1] + w.timers[2..]), "s", 0, TargetClosed).sessions
  {
    var w' := w.(timers := w.timers[..1] + w.timers[2..]);
    CleanupSpares(w', "s", 0, TargetClosed);
  }
}
