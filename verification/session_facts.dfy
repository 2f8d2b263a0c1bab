/**
 * Properties of the session multiplexer: where the dispatcher puts a chunk
 * and what a flush does with the buffer, how GET and POST requests move a
 * session through its phases, that queued uplink bodies reach the
 * destination in arrival order, and what the delayed teardown removes.
 */
module SessionFacts {
  import opened Wrappers
  import opened JsBuffer
  import opened Handshake
  import opened Sessions

  /** The channel the dispatcher writes to: the downlink first, then the uplink. */
  function Channel(w: World, id: string): (ch: Option<ResId>)
    requires id in w.sessions
    ensures ch.Some? ==> CanWrite(w, ch) && ch.value in w.responses
    ensures ch.None? <==> !CanWrite(w, w.sessions[id].download) && !CanWrite(w, w.sessions[id].upload)
  {
    var s := w.sessions[id];
    if CanWrite(w, s.download) then s.download
    else if CanWrite(w, s.upload) then s.upload
    else None
  }

  lemma WithSentTwice(w: World, rid: ResId, a: seq<Chunk>, b: seq<Chunk>)
    requires rid in w.responses
    ensures WithSent(WithSent(w, rid, a), rid, b) == WithSent(w, rid, a + b)
  {
    assert w.responses[rid].sent + a + b == w.responses[rid].sent + (a + b);
  }

  /** Appending to a log changes no session and no writability, so the channel stays the same. */
  lemma ChannelAfterSend(w: World, id: string, rid: ResId, extra: seq<Chunk>)
    requires id in w.sessions && rid in w.responses
    ensures id in WithSent(w, rid, extra).sessions
    ensures Channel(WithSent(w, rid, extra), id) == Channel(w, id)
  {
    var w' := WithSent(w, rid, extra);
    assert forall q :: q in w.responses ==> q in w'.responses && Writable(w'.responses[q]) == Writable(w.responses[q]);
  }

  /**
   * Dispatching a run of chunks while the channels stay as they are: all go,
   * in order, to the dispatcher's channel, or all join the buffer in order.
   */
  lemma {:induction false} DispatchAllDelivers(w: World, id: string, items: seq<Chunk>)
    requires id in w.sessions
    ensures Channel(w, id).Some? ==> DispatchAll(w, id, items) == WithSent(w, Channel(w, id).value, items)
    ensures Channel(w, id).None? ==>
      DispatchAll(w, id, items) == WithSession(w, id, w.sessions[id].(buffer := w.sessions[id].buffer + items))
    decreases |items|
  {
    var s := w.sessions[id];
    if items == [] {
      assert s.buffer + items == s.buffer;
      assert w.sessions[id := s] == w.sessions;
      if Channel(w, id).Some? {
        assert w.responses[Channel(w, id).value].sent + items == w.responses[Channel(w, id).value].sent;
        assert w.responses[Channel(w, id).value := w.responses[Channel(w, id).value]] == w.responses;
      }
    } else {
      var w1 := Dispatch(w, id, items[0]);
      assert items == [items[0]] + items[1..];
      match Channel(w, id)
      case Some(rid) =>
        assert w1 == WithSent(w, rid, [items[0]]);
        ChannelAfterSend(w, id, rid, [items[0]]);
        DispatchAllDelivers(w1, id, items[1..]);
        WithSentTwice(w, rid, [items[0]], items[1..]);
      case None =>
        assert w1 == WithSession(w, id, s.(buffer := s.buffer + [items[0]]));
        assert w1.responses == w.responses;
        assert w1.sessions[id].download == s.download && w1.sessions[id].upload == s.upload;
        assert Channel(w1, id).None?;
        DispatchAllDelivers(w1, id, items[1..]);
        assert s.buffer + [items[0]] + items[1..] == s.buffer + items;
    }
  }

  /**
   * One chunk is delivered exactly once: to the dispatcher's channel if
   * there is one, and otherwise to the end of the buffer. No other log,
   * buffer or part of the world changes.
   */
  lemma DispatchDeliversOnce(w: World, id: string, chunk: Chunk)
    requires id in w.sessions
    ensures var r := Dispatch(w, id, chunk); var s := w.sessions[id];
      && r == w.(responses := r.responses, sessions := r.sessions)
      && r.sessions.Keys == w.sessions.Keys && r.responses.Keys == w.responses.Keys
      && (forall k :: k in w.sessions && k != id ==> r.sessions[k] == w.sessions[k])
      && (forall q :: q in w.responses && Some(q) != Channel(w, id) ==> r.responses[q] == w.responses[q])
      && (Channel(w, id).Some? ==>
            && r.sessions[id] == s
            && r.responses[Channel(w, id).value]
                 == w.responses[Channel(w, id).value].(sent := w.responses[Channel(w, id).value].sent + [chunk]))
      && (Channel(w, id).None? ==> r.responses == w.responses && r.sessions[id] == s.(buffer := s.buffer + [chunk]))
  {
  }

  /**
   * `flushBuffer`: the buffer is emptied and its chunks, in their original
   * order, all reach the dispatcher's channel; with no writable channel they
   * are all re-buffered in the same order and nothing changes.
   */
  lemma FlushDelivers(w: World, id: string)
    requires id in w.sessions && id != ""
    ensures Channel(w, id).Some? ==>
      Flush(w, id) == WithSent(WithSession(w, id, w.sessions[id].(buffer := [])), Channel(w, id).value, w.sessions[id].buffer)
    ensures Channel(w, id).None? ==> Flush(w, id) == w
  {
    var s := w.sessions[id];
    if s.buffer == [] {
      assert w.sessions[id := s.(buffer := [])] == w.sessions;
      if Channel(w, id).Some? {
        var rid := Channel(w, id).value;
        assert w.responses[rid].sent + [] == w.responses[rid].sent;
        assert w.responses[rid := w.responses[rid]] == w.responses;
      }
    } else {
      var cleared := WithSession(w, id, s.(buffer := []));
      assert cleared.responses == w.responses;
      assert Channel(cleared, id) == Channel(w, id);
      DispatchAllDelivers(cleared, id, s.buffer);
      if Channel(w, id).None? {
        assert cleared.sessions[id].(buffer := cleared.sessions[id].buffer + s.buffer) == s;
        assert cleared.sessions[id := s] == w.sessions;
        assert WithSession(cleared, id, s) == w;
      }
    }
  }

  /** Under the empty id the flush drops the buffered chunks (the id lookup yields a falsy key). */
  lemma FlushEmptyIdDrops(w: World)
    requires "" in w.sessions && w.sessions[""].buffer != []
    ensures Flush(w, "") == WithSession(w, "", w.sessions[""].(buffer := []))
  {
  }

  /** What a flush leaves alone: everything but the responses and this session's buffer. */
  lemma FlushKeeps(w: World, id: string)
    ensures var r := Flush(w, id);
      && r.sessions.Keys == w.sessions.Keys
      && r.targets == w.targets && r.handshakes == w.handshakes && r.acks == w.acks
      && r.discarded == w.discarded && r.timers == w.timers
      && r.nextSerial == w.nextSerial && r.nextRes == w.nextRes
      && r.nextBody == w.nextBody && r.nextTarget == w.nextTarget
      && r.responses.Keys == w.responses.Keys
      && (forall q :: q in w.responses ==> r.responses[q] == w.responses[q].(sent := r.responses[q].sent))
      && (forall k :: k in w.sessions && k != id ==> r.sessions[k] == w.sessions[k])
      && (id in w.sessions ==> r.sessions[id] == w.sessions[id].(buffer := r.sessions[id].buffer))
  {
    if id in w.sessions && w.sessions[id].buffer != [] && id != "" {
      FlushDelivers(w, id);
    }
  }

  /** Every session's serial was handed out before: serials are below the next one to hand out. */
  predicate SerialsBelow(w: World) {
    forall k :: k in w.sessions ==> w.sessions[k].serial < w.nextSerial
  }

  /**
   * `createSession` makes a new session object: its serial differs from
   * every other session's, it starts Idle with no channel, destination,
   * buffer or queue, other sessions are untouched, and the inactivity check
   * it arms, if it fired at once, would request a 'Timeout' teardown.
   */
  lemma CreateIsFresh(w: World, id: string)
    requires SerialsBelow(w)
    ensures var r := Create(w, id);
      && SerialsBelow(r) && id in r.sessions
      && (forall k :: k in w.sessions && k != id ==> r.sessions[k] == w.sessions[k] && r.sessions[k].serial != r.sessions[id].serial)
      && r.sessions[id].phase == Idle && Channel(r, id).None? && r.sessions[id].target.None?
      && r.sessions[id].buffer == [] && r.sessions[id].pending == []
      && |r.timers| == |w.timers| + 1 && r.timers[|w.timers|] == InactivityCheck(id)
      && OnTimer(r, |w.timers|) == ScheduleCleanup(w.(sessions := r.sessions, nextSerial := r.nextSerial), id, Timeout)
  {
    var r := Create(w, id);
    assert r.timers[..|w.timers|] + r.timers[|w.timers| + 1..] == w.timers;
  }

  /**
   * `cleanupSession` on a known id arms one timer, bound to the session
   * present now: firing it at once releases exactly that session for a
   * removing reason, and changes nothing for 'Timeout'.
   */
  lemma ScheduledTeardownFires(w: World, id: string, reason: Reason)
    requires id in w.sessions
    ensures var r := ScheduleCleanup(w, id, reason);
      && |r.timers| == |w.timers| + 1 && r.timers[..|w.timers|] == w.timers
      && OnTimer(r, |w.timers|) == (if Removing(reason) then Release(w, id) else w)
  {
    var r := ScheduleCleanup(w, id, reason);
    assert r.timers[..|w.timers|] + r.timers[|w.timers| + 1..] == w.timers;
    assert r.(timers := w.timers) == w;
  }

  /**
   * A handshake body's first chunk on a session that already has a
   * destination is not parsed: the chunk is written to the destination and
   * the rest of the body piped after it.
   */
  lemma FirstChunkWithTargetForwards(secret: Secret, w: World, b: BodyId, chunk: Chunk)
    requires b in w.handshakes && w.handshakes[b] in w.sessions
    requires var s := w.sessions[w.handshakes[b]]; s.target.Some? && s.target.value in w.targets
    ensures var r := OnFirstChunk(secret, w, b, chunk); var tid := w.sessions[w.handshakes[b]].target.value;
      && r.targets == w.targets[tid := w.targets[tid].(inflow := w.targets[tid].inflow + [Wrote(chunk), Piped(b)])]
      && r.sessions == w.sessions && r.responses == w.responses && r.timers == w.timers
      && r.handshakes == w.handshakes - {b}
  {
  }

  /**
   * `handleXhttpGet`: the new response becomes the downlink, receives the
   * whole buffer in its original order, and the buffer is emptied. A new
   * session starts Idle. Nothing else in the table changes.
   */
  lemma GetAttachesAndFlushes(w: World, id: string)
    requires id != "" && w.nextRes !in w.responses
    ensures var r := OnGet(w, id); var rid := w.nextRes;
      && id in r.sessions && rid in r.responses
      && r.responses[rid].sent == (if id in w.sessions then w.sessions[id].buffer else [])
      && Writable(r.responses[rid])
      && (id in w.sessions ==> r.sessions[id] == w.sessions[id].(download := Some(rid), buffer := []))
      && (id !in w.sessions ==> r.sessions[id] == Session(w.nextSerial, Idle, Some(rid), None, None, [], []))
      && (forall k :: k in w.sessions && k != id ==> k in r.sessions && r.sessions[k] == w.sessions[k])
      && (forall q :: q in w.responses ==> q in r.responses && r.responses[q] == w.responses[q])
      && r.targets == w.targets && r.handshakes == w.handshakes && r.timers == (if id in w.sessions then w.timers else w.timers + [InactivityCheck(id)])
  {
    var w1 := if id in w.sessions then w else Create(w, id);
    var s := w1.sessions[id];
    var rid := w1.nextRes;
    var w2 := w1.(responses := w1.responses[rid := Fresh(id, s.serial)], nextRes := rid + 1);
    var w3 := WithSession(w2, id, s.(download := Some(rid)));
    assert Channel(w3, id) == Some(rid);
    FlushDelivers(w3, id);
    if s.buffer == [] {
      assert w3.sessions[id].(buffer := []) == w3.sessions[id];
    }
  }

  /** Chunks buffered before the GET arrive on it before any chunk the destination sends afterwards. */
  lemma BufferedChunksPrecedeLiveData(w: World, id: string, tid: TargetId, chunk: Chunk)
    requires id != "" && id in w.sessions && w.nextRes !in w.responses
    requires tid in w.targets && w.targets[tid].session == id && w.targets[tid].connected && !w.targets[tid].destroyed
    ensures var r := OnTargetData(OnGet(w, id), tid, chunk);
      w.nextRes in r.responses && r.responses[w.nextRes].sent == w.sessions[id].buffer + [chunk]
  {
    GetAttachesAndFlushes(w, id);
  }

  /**
   * The flush of a POST on a known session (index.js:197): the buffer ends
   * empty and its chunks, in their original order, reach the downlink when
   * it is writable and otherwise the new uplink response, before any chunk
   * dispatched later.
   */
  lemma PostFlushesBuffer(w: World, id: string, hasLength: bool)
    requires id != "" && id in w.sessions && w.nextRes !in w.responses
    ensures var r := OnPost(w, id, hasLength); var s := w.sessions[id]; var rid := w.nextRes;
      && id in r.sessions && r.sessions[id].buffer == [] && rid in r.responses
      && (CanWrite(w, s.download) ==>
            && s.download.value in r.responses
            && r.responses[s.download.value].sent == w.responses[s.download.value].sent + s.buffer
            && r.responses[rid].sent == [])
      && (!CanWrite(w, s.download) ==> r.responses[rid].sent == s.buffer)
  {
    var a := AttachUplink(w, id, hasLength);
    AttachFlushes(w, id, hasLength);
    assert OnPost(w, id, hasLength) == Route(a, id, w.nextBody);
    RouteKeepsChannels(a, id, w.nextBody);
  }

  /** The flush inside `AttachUplink`, with the new response as the fallback channel. */
  lemma AttachFlushes(w: World, id: string, hasLength: bool)
    requires id != "" && id in w.sessions && w.nextRes !in w.responses
    ensures var a := AttachUplink(w, id, hasLength); var s := w.sessions[id]; var rid := w.nextRes;
      && id in a.sessions && a.sessions[id].buffer == [] && rid in a.responses
      && (CanWrite(w, s.download) ==>
            && s.download.value in a.responses
            && a.responses[s.download.value].sent == w.responses[s.download.value].sent + s.buffer
            && a.responses[rid].sent == [])
      && (!CanWrite(w, s.download) ==> a.responses[rid].sent == s.buffer)
  {
    var s := w.sessions[id];
    var rid := w.nextRes;
    var b := w.nextBody;
    var w1 := w.(nextRes := rid + 1, nextBody := b + 1,
                 responses := w.responses[rid := Fresh(id, s.serial)],
                 sessions := w.sessions[id := s.(upload := Some(rid))],
                 acks := if s.download.Some? && hasLength then w.acks[b := rid] else w.acks);
    assert AttachUplink(w, id, hasLength) == Flush(w1, id);
    FlushDelivers(w1, id);
    assert Channel(w1, id) == if CanWrite(w, s.download) then s.download else Some(rid);
  }

  /** Routing a body touches no response and no buffer. */
  lemma RouteKeepsChannels(w: World, id: string, b: BodyId)
    ensures var r := Route(w, id, b);
      && r.responses == w.responses && r.sessions.Keys == w.sessions.Keys
      && (forall k :: k in w.sessions ==> r.sessions[k].buffer == w.sessions[k].buffer)
  {
  }

  /** A POST on a known session changes only its uplink and buffer, the response table and the counters. */
  lemma AttachUplinkKeeps(w: World, id: string, hasLength: bool)
    requires id in w.sessions
    ensures var a := AttachUplink(w, id, hasLength); var s := w.sessions[id];
      && a.sessions.Keys == w.sessions.Keys
      && a.sessions[id] == s.(upload := Some(w.nextRes), buffer := a.sessions[id].buffer)
      && (forall k :: k in w.sessions && k != id ==> a.sessions[k] == w.sessions[k])
      && a.targets == w.targets && a.handshakes == w.handshakes
      && a.nextBody == w.nextBody + 1 && a.nextRes == w.nextRes + 1
      && a.acks == (if s.download.Some? && hasLength then w.acks[w.nextBody := w.nextRes] else w.acks)
      && w.nextRes in a.responses && !a.responses[w.nextRes].ended
  {
    var rid := w.nextRes;
    var b := w.nextBody;
    var s := w.sessions[id];
    var w1 := w.(nextRes := rid + 1, nextBody := b + 1,
                 responses := w.responses[rid := Fresh(id, s.serial)],
                 sessions := w.sessions[id := s.(upload := Some(rid))],
                 acks := if s.download.Some? && hasLength then w.acks[b := rid] else w.acks);
    assert AttachUplink(w, id, hasLength) == Flush(w1, id);
    FlushKeeps(w1, id);
  }

  /** A POST that opens a session: it starts Connecting with this body as its handshake. */
  lemma PostOpensSession(w: World, id: string, hasLength: bool)
    requires id !in w.sessions
    ensures var r := OnPost(w, id, hasLength);
      && r.sessions == w.sessions[id := Session(w.nextSerial, Connecting, None, Some(w.nextRes), None, [], [])]
      && r.handshakes == w.handshakes[w.nextBody := id] && r.targets == w.targets
      && r.nextBody == w.nextBody + 1
  {
  }

  /** A POST on an Idle session: it starts Connecting and this body carries the handshake. */
  lemma PostOnIdle(w: World, id: string, hasLength: bool)
    requires id in w.sessions && w.sessions[id].phase == Idle
    ensures var r := OnPost(w, id, hasLength); var s := w.sessions[id];
      && id in r.sessions && r.sessions[id].phase == Connecting
      && r.sessions[id].upload == Some(w.nextRes) && r.sessions[id].pending == s.pending
      && r.handshakes == w.handshakes[w.nextBody := id] && r.targets == w.targets
  {
    AttachUplinkKeeps(w, id, hasLength);
  }

  /** A POST on a Connecting session: its body joins the end of the queue; no new handshake. */
  lemma PostOnConnecting(w: World, id: string, hasLength: bool)
    requires id in w.sessions && w.sessions[id].phase == Connecting
    ensures var r := OnPost(w, id, hasLength); var s := w.sessions[id];
      && id in r.sessions && r.sessions[id].phase == Connecting
      && r.sessions[id].upload == Some(w.nextRes) && r.sessions[id].pending == s.pending + [w.nextBody]
      && r.sessions[id].serial == s.serial && r.sessions[id].target == s.target
      && r.handshakes == w.handshakes && r.targets == w.targets
      && r.nextBody == w.nextBody + 1
  {
    AttachUplinkKeeps(w, id, hasLength);
  }

  /** A POST on an Established session: its body is piped straight into the destination. */
  lemma PostOnEstablished(w: World, id: string, hasLength: bool)
    requires id in w.sessions && w.sessions[id].phase == Established
    requires w.sessions[id].target.Some? && w.sessions[id].target.value in w.targets
    ensures var r := OnPost(w, id, hasLength); var s := w.sessions[id]; var tid := s.target.value;
      && id in r.sessions && r.sessions[id].phase == Established
      && r.sessions[id].upload == Some(w.nextRes) && r.sessions[id].pending == s.pending
      && r.handshakes == w.handshakes
      && r.targets == w.targets[tid := w.targets[tid].(inflow := w.targets[tid].inflow + [Piped(w.nextBody)])]
  {
    AttachUplinkKeeps(w, id, hasLength);
  }

  /**
   * The acknowledgement: on a known session, the POST response is ended
   * when its body ends exactly when a downlink is attached and the request
   * declared a length.
   */
  lemma AckEndsUplink(w: World, id: string, hasLength: bool)
    requires id in w.sessions && w.nextBody !in w.acks
    ensures var r := OnBodyEnd(OnPost(w, id, hasLength), w.nextBody);
      w.nextRes in r.responses &&
      (r.responses[w.nextRes].ended <==> w.sessions[id].download.Some? && hasLength)
  {
    AttachUplinkKeeps(w, id, hasLength);
    var a := AttachUplink(w, id, hasLength);
    var p := Route(a, id, w.nextBody);
    assert p.acks == a.acks && p.responses == a.responses;
  }

  /**
   * A response that closes is never written again: if it was the session's
   * downlink, the next chunk goes to the uplink if that can take it, and
   * otherwise to the buffer.
   */
  lemma ClosedDownlinkFallsBack(w: World, id: string, rid: ResId, chunk: Chunk)
    requires id in w.sessions && w.sessions[id].download == Some(rid) && rid in w.responses
    requires w.responses[rid].owner == id && w.responses[rid].ownerSerial == w.sessions[id].serial
    ensures var c := OnResponseClosed(w, rid); var s := w.sessions[id];
      && id in c.sessions && c.sessions[id].download.None?
      && Dispatch(c, id, chunk).responses[rid] == c.responses[rid]
      && (CanWrite(w, s.upload) && s.upload != Some(rid) ==>
            Dispatch(c, id, chunk) == WithSent(c, s.upload.value, [chunk]))
      && (!(CanWrite(w, s.upload) && s.upload != Some(rid)) ==>
            Dispatch(c, id, chunk).sessions[id].buffer == s.buffer + [chunk])
  {
  }

  /** A close handler of a response from an earlier session under the id leaves the current session alone. */
  lemma StaleCloseSparesSession(w: World, rid: ResId)
    requires rid in w.responses
    requires var o := w.responses[rid].owner; o in w.sessions && w.sessions[o].serial != w.responses[rid].ownerSerial
    ensures OnResponseClosed(w, rid).sessions == w.sessions
    ensures !Writable(OnResponseClosed(w, rid).responses[rid])
  {
  }

  /** `n` POSTs in a row, the `i`-th declaring a length or not. */
  function Posts(w: World, id: string, lengths: seq<bool>): World
    decreases |lengths|
  {
    if lengths == [] then w else Posts(OnPost(w, id, lengths[0]), id, lengths[1..])
  }

  /** The body ids `start`, `start + 1`, ... in order. */
  function Ids(start: nat, n: nat): (s: seq<BodyId>)
    ensures |s| == n && forall i :: 0 <= i < n ==> s[i] == start + i
  {
    seq(n, i requires 0 <= i < n => start + i)
  }

  /** POST bodies that arrive while the session connects are queued in arrival order. */
  lemma {:induction false} PostsQueueInOrder(w: World, id: string, lengths: seq<bool>)
    requires id in w.sessions && w.sessions[id].phase == Connecting
    ensures var r := Posts(w, id, lengths);
      && id in r.sessions && r.sessions[id].phase == Connecting
      && r.sessions[id].pending == w.sessions[id].pending + Ids(w.nextBody, |lengths|)
      && r.sessions[id].serial == w.sessions[id].serial && r.sessions[id].target == w.sessions[id].target
      && r.handshakes == w.handshakes && r.targets == w.targets
      && r.nextBody == w.nextBody + |lengths|
    decreases |lengths|
  {
    if lengths == [] {
      assert w.sessions[id].pending + Ids(w.nextBody, 0) == w.sessions[id].pending;
    } else {
      var w1 := OnPost(w, id, lengths[0]);
      PostOnConnecting(w, id, lengths[0]);
      PostsQueueInOrder(w1, id, lengths[1..]);
      var ids := Ids(w.nextBody, |lengths|);
      assert ids == [w.nextBody] + Ids(w1.nextBody, |lengths| - 1);
    }
  }

  /**
   * The destination's connect callback: the session becomes Established
   * with an empty queue, and the destination receives, after whatever it
   * had, every queued body in queue order, then the bytes of the first
   * chunk after the header (when there are any), then the rest of the
   * handshake body. A VLESS destination sends the two-byte acknowledgement
   * downlink first; a Trojan one sends nothing.
   */
  lemma ConnectDrainsInOrder(w: World, tid: TargetId)
    requires tid in w.targets && !w.targets[tid].connected && !w.targets[tid].destroyed
    requires w.targets[tid].session in w.sessions
    ensures var r := OnConnected(w, tid); var t := w.targets[tid]; var s := w.sessions[t.session];
      var start := t.dest.payloadStart;
      && t.session in r.sessions && tid in r.targets
      && r.sessions[t.session].phase == Established && r.sessions[t.session].pending == []
      && r.targets[tid].connected
      && r.targets[tid].inflow ==
           t.inflow + PipeAll(s.pending)
           + (if start < |t.firstChunk| then [Wrote(t.firstChunk[start..])] else [])
           + [Piped(t.handshakeBody)]
      && (t.dest.variant == Trojan ==> r.responses == w.responses && r.sessions[t.session].buffer == s.buffer)
      && (t.dest.variant == Vless && Channel(w, t.session).Some? ==>
            r.responses == WithSent(w, Channel(w, t.session).value, [VlessAck]).responses
            && r.sessions[t.session].buffer == s.buffer)
      && (t.dest.variant == Vless && Channel(w, t.session).None? ==>
            r.responses == w.responses && r.sessions[t.session].buffer == s.buffer + [VlessAck])
  {
    var t := w.targets[tid];
    var w1 := w.(targets := w.targets[tid := t.(connected := true)]);
    assert Channel(w1, t.session) == Channel(w, t.session);
  }

  /**
   * Bodies POSTed while the destination connects reach it in the order
   * they were POSTed, after those queued before and before the first
   * chunk's payload and the handshake body's remainder.
   */
  lemma QueuedBodiesReachDestinationInOrder(w: World, id: string, lengths: seq<bool>, tid: TargetId)
    requires id in w.sessions && w.sessions[id].phase == Connecting
    requires tid in w.targets && w.targets[tid].session == id
    requires !w.targets[tid].connected && !w.targets[tid].destroyed
    ensures var r := OnConnected(Posts(w, id, lengths), tid); var t := w.targets[tid];
      var start := t.dest.payloadStart;
      && tid in r.targets
      && r.targets[tid].inflow ==
           t.inflow + PipeAll(w.sessions[id].pending + Ids(w.nextBody, |lengths|))
           + (if start < |t.firstChunk| then [Wrote(t.firstChunk[start..])] else [])
           + [Piped(t.handshakeBody)]
  {
    PostsQueueInOrder(w, id, lengths);
    ConnectDrainsInOrder(Posts(w, id, lengths), tid);
  }

  lemma DestroyTargetOnly(w: World, t: Option<TargetId>)
    ensures var r := DestroyTarget(w, t);
      && r == w.(targets := r.targets) && r.targets.Keys == w.targets.Keys
      && (t.Some? && t.value in w.targets ==> r.targets[t.value].destroyed)
      && (forall k :: k in w.targets && Some(k) != t ==> r.targets[k] == w.targets[k])
  {
  }

  lemma EndResponseOnly(w: World, ch: Option<ResId>)
    ensures var r := EndResponse(w, ch);
      && r == w.(responses := r.responses) && r.responses.Keys == w.responses.Keys
      && (ch.Some? && ch.value in w.responses ==> r.responses[ch.value].ended)
      && (forall q :: q in w.responses && Some(q) != ch ==> r.responses[q] == w.responses[q])
      && (forall q :: q in w.responses && w.responses[q].ended ==> r.responses[q].ended)
  {
  }

  /**
   * The delayed teardown for the session it was scheduled for: the entry
   * is gone, its destination destroyed, both responses ended, its queued
   * bodies destroyed; other sessions, destinations and responses are as
   * they were, and no timer is added or removed.
   */
  lemma CleanupTearsDown(w: World, id: string, serial: nat, reason: Reason)
    requires Removing(reason) && id in w.sessions && w.sessions[id].serial == serial
    ensures var r := FireCleanup(w, id, serial, reason); var s := w.sessions[id];
      && r.sessions == w.sessions - {id}
      && r.targets.Keys == w.targets.Keys && r.responses.Keys == w.responses.Keys
      && (s.target.Some? && s.target.value in w.targets ==> r.targets[s.target.value].destroyed)
      && (forall t :: t in w.targets && Some(t) != s.target ==> r.targets[t] == w.targets[t])
      && (s.download.Some? && s.download.value in w.responses ==> r.responses[s.download.value].ended)
      && (s.upload.Some? && s.upload.value in w.responses ==> r.responses[s.upload.value].ended)
      && (forall q :: q in w.responses && Some(q) != s.download && Some(q) != s.upload ==> r.responses[q] == w.responses[q])
      && (forall b :: b in s.pending ==> b in r.discarded)
      && r.timers == w.timers && r.handshakes == w.handshakes
  {
    var s := w.sessions[id];
    var w1 := DestroyTarget(w, s.target);
    var w2 := EndResponse(w1, s.download);
    var w3 := EndResponse(w2, s.upload);
    DestroyTargetOnly(w, s.target);
    EndResponseOnly(w1, s.download);
    EndResponseOnly(w2, s.upload);
  }

  /** A teardown for 'Timeout', for an unknown id, or for an earlier session under the id changes nothing. */
  lemma CleanupSpares(w: World, id: string, serial: nat, reason: Reason)
    requires !Removing(reason) || id !in w.sessions || w.sessions[id].serial != serial
    ensures FireCleanup(w, id, serial, reason) == w
  {
  }

  /** Only 'Timeout' is not a removing reason. */
  lemma RemovingExceptTimeout(reason: Reason)
    ensures Removing(reason) <==> reason != Timeout
  {
  }

  /** Firing the same teardown twice is the same as firing it once. */
  lemma CleanupIdempotent(w: World, id: string, serial: nat, reason: Reason)
    ensures var r := FireCleanup(w, id, serial, reason); FireCleanup(r, id, serial, reason) == r
  {
    if Removing(reason) && id in w.sessions && w.sessions[id].serial == serial {
      assert id !in FireCleanup(w, id, serial, reason).sessions;
    }
  }

  /** On the session it was scheduled for, the source's teardown and the corrected one agree. */
  lemma CleanupAsWrittenAgreesOnCurrent(w: World, id: string, serial: nat, reason: Reason)
    requires id !in w.sessions || w.sessions[id].serial == serial
    ensures FireCleanupAsWritten(w, id, serial, reason) == FireCleanup(w, id, serial, reason)
  {
  }

  /**
   * A teardown left over from an earlier session under the same id: as
   * written it deletes the newer session's entry without ending its
   * responses or destroying its destination; the corrected one leaves it.
   */
  lemma StaleCleanupDeletesNewerSession(w: World, id: string, serial: nat, reason: Reason)
    requires Removing(reason) && id in w.sessions && w.sessions[id].serial != serial
    ensures var r := FireCleanupAsWritten(w, id, serial, reason);
      && r.sessions == w.sessions - {id}
      && r.responses == w.responses && r.targets == w.targets
    ensures FireCleanup(w, id, serial, reason) == w
  {
  }

  /**
   * The inactivity check, and the 'Timeout' teardown it schedules, never
   * remove a session: only the timer list changes.
   */
  lemma InactivityNeverRemoves(w: World, i: nat)
    requires i < |w.timers|
    requires w.timers[i].InactivityCheck? || w.timers[i].reason == Timeout
    ensures var r := OnTimer(w, i);
      && r.sessions == w.sessions && r.responses == w.responses && r.targets == w.targets
      && |r.timers| <= |w.timers|
  {
  }

  /** The inactivity check requests a teardown exactly for a session with no destination that is not established. */
  lemma InactivityCheckRequests(w: World, i: nat)
    requires i < |w.timers| && w.timers[i].InactivityCheck?
    ensures var r := OnTimer(w, i); var id := w.timers[i].id;
      |r.timers| == |w.timers| <==>
        (id in w.sessions && w.sessions[id].target.None? && w.sessions[id].phase != Established)
    ensures var r := OnTimer(w, i); var id := w.timers[i].id; var rest := w.timers[..i] + w.timers[i + 1..];
      r.timers == if id in w.sessions && w.sessions[id].target.None? && w.sessions[id].phase != Established
                  then rest + [DelayedCleanup(id, w.sessions[id].serial, Timeout)]
                  else rest
  {
  }

  /** No session that survives a step moves back a phase. */
  predicate PhasesAdvance(w: World, r: World) {
    forall id :: id in w.sessions && id in r.sessions ==> Rank(w.sessions[id].phase) <= Rank(r.sessions[id].phase)
  }

  /** Bodies wait in a queue only while their session connects. */
  predicate QueueOnlyWhileConnecting(w: World) {
    forall id :: id in w.sessions && w.sessions[id].phase != Connecting ==> w.sessions[id].pending == []
  }

  /** A step that creates no session and leaves every phase and queue as it was. */
  predicate PhasesAndQueuesKept(w: World, r: World) {
    forall id :: id in r.sessions ==>
      id in w.sessions && r.sessions[id].phase == w.sessions[id].phase && r.sessions[id].pending == w.sessions[id].pending
  }

  lemma KeptSuffices(w: World, r: World)
    requires PhasesAndQueuesKept(w, r)
    ensures PhasesAdvance(w, r)
    ensures QueueOnlyWhileConnecting(w) ==> QueueOnlyWhileConnecting(r)
  {
  }

  lemma GetKeepsPhases(w: World, id: string)
    ensures PhasesAdvance(w, OnGet(w, id))
    ensures QueueOnlyWhileConnecting(w) ==> QueueOnlyWhileConnecting(OnGet(w, id))
  {
    var w1 := if id in w.sessions then w else Create(w, id);
    var s := w1.sessions[id];
    var rid := w1.nextRes;
    var w2 := w1.(responses := w1.responses[rid := Fresh(id, s.serial)], nextRes := rid + 1);
    var w3 := WithSession(w2, id, s.(download := Some(rid)));
    FlushKeeps(w3, id);
    if id in w.sessions {
      KeptSuffices(w, OnGet(w, id));
    }
  }

  lemma KeptThenAdvance(w: World, a: World, r: World)
    requires PhasesAndQueuesKept(w, a) && PhasesAdvance(a, r)
    requires forall id :: id in r.sessions && id !in a.sessions ==> id !in w.sessions
    ensures PhasesAdvance(w, r)
    ensures QueueOnlyWhileConnecting(w) && (QueueOnlyWhileConnecting(a) ==> QueueOnlyWhileConnecting(r)) ==> QueueOnlyWhileConnecting(r)
  {
    KeptSuffices(w, a);
  }

  lemma RouteAdvances(w: World, id: string, b: BodyId)
    ensures PhasesAdvance(w, Route(w, id, b)) && Route(w, id, b).sessions.Keys == w.sessions.Keys
    ensures QueueOnlyWhileConnecting(w) ==> QueueOnlyWhileConnecting(Route(w, id, b))
  {
    if id in w.sessions {
      var s := w.sessions[id];
      var r := Route(w, id, b);
      match s.phase
      case Established =>
        assert r.sessions == w.sessions;
      case Connecting =>
        assert r.sessions == w.sessions[id := s.(pending := s.pending + [b])];
      case Idle =>
        assert r.sessions == w.sessions[id := s.(phase := Connecting)];
    }
  }

  lemma PostKeepsPhases(w: World, id: string, hasLength: bool)
    ensures PhasesAdvance(w, OnPost(w, id, hasLength))
    ensures QueueOnlyWhileConnecting(w) ==> QueueOnlyWhileConnecting(OnPost(w, id, hasLength))
  {
    if id in w.sessions {
      var a := AttachUplink(w, id, hasLength);
      AttachUplinkKeeps(w, id, hasLength);
      assert PhasesAndQueuesKept(w, a);
      RouteAdvances(a, id, w.nextBody);
      KeptThenAdvance(w, a, Route(a, id, w.nextBody));
    } else {
      PostOpensSession(w, id, hasLength);
    }
  }

  lemma FirstChunkKeepsPhases(secret: Secret, w: World, b: BodyId, chunk: Chunk)
    ensures PhasesAndQueuesKept(w, OnFirstChunk(secret, w, b, chunk))
  {
  }

  lemma DispatchKeepsPhases(w: World, id: string, chunk: Chunk)
    ensures PhasesAndQueuesKept(w, Dispatch(w, id, chunk))
  {
  }

  lemma DrainAdvances(w: World, id: string, tid: TargetId)
    requires id in w.sessions && tid in w.targets
    ensures var r := Drain(w, id, tid);
      && PhasesAdvance(w, r) && r.sessions.Keys == w.sessions.Keys
      && (QueueOnlyWhileConnecting(w) ==> QueueOnlyWhileConnecting(r))
  {
  }

  /** The sessions after the connect callback: the drained ones, or those after the acknowledgement. */
  lemma ConnectedSessions(w: World, tid: TargetId)
    requires tid in w.targets && !w.targets[tid].connected && !w.targets[tid].destroyed
    ensures var t := w.targets[tid];
      var w1 := w.(targets := w.targets[tid := t.(connected := true)]);
      var w2 := if t.dest.variant == Vless then Dispatch(w1, t.session, VlessAck) else w1;
      && (t.session in w2.sessions ==> OnConnected(w, tid).sessions == Drain(w2, t.session, tid).sessions)
      && (t.session !in w2.sessions ==> OnConnected(w, tid).sessions == w2.sessions)
  {
  }

  lemma ConnectedAdvances(w: World, tid: TargetId)
    ensures PhasesAdvance(w, OnConnected(w, tid))
    ensures QueueOnlyWhileConnecting(w) ==> QueueOnlyWhileConnecting(OnConnected(w, tid))
  {
    if tid in w.targets && !w.targets[tid].connected && !w.targets[tid].destroyed {
      var t := w.targets[tid];
      var w1 := w.(targets := w.targets[tid := t.(connected := true)]);
      var w2 := if t.dest.variant == Vless then Dispatch(w1, t.session, VlessAck) else w1;
      assert PhasesAndQueuesKept(w, w2) by {
        DispatchKeepsPhases(w1, t.session, VlessAck);
      }
      ConnectedSessions(w, tid);
      var r := OnConnected(w, tid);
      if t.session in w2.sessions {
        var w3 := Drain(w2, t.session, tid);
        DrainAdvances(w2, t.session, tid);
        assert r.sessions == w3.sessions;
        KeptThenAdvance(w, w2, w3);
        assert PhasesAdvance(w, r);
      } else {
        KeptSuffices(w, w2);
        assert PhasesAdvance(w, r);
      }
    }
  }

  lemma TimerKeepsPhases(w: World, i: nat)
    ensures PhasesAndQueuesKept(w, OnTimer(w, i))
  {
    if i < |w.timers| {
      var w1 := w.(timers := w.timers[..i] + w.timers[i + 1..]);
      match w.timers[i]
      case InactivityCheck(id) =>
      case DelayedCleanup(id, serial, reason) =>
        if Removing(reason) && id in w1.sessions && w1.sessions[id].serial == serial {
          CleanupTearsDown(w1, id, serial, reason);
        }
    }
  }

  /**
   * Every event of the server keeps both invariants of the phase machine:
   * no session moves back a phase, and only a Connecting session holds
   * queued bodies.
   */
  lemma StepAdvances(secret: Secret, w: World, e: Event)
    ensures PhasesAdvance(w, Step(secret, w, e))
    ensures QueueOnlyWhileConnecting(w) ==> QueueOnlyWhileConnecting(Step(secret, w, e))
  {
    var r := Step(secret, w, e);
    match e {
      case Get(id) => GetKeepsPhases(w, id);
      case Post(id, hasLength) => PostKeepsPhases(w, id, hasLength);
      case Connected(tid) => ConnectedAdvances(w, tid);
      case _ =>
        SimpleStepKeeps(secret, w, e);
        KeptSuffices(w, r);
    }
  }

  lemma SimpleStepKeeps(secret: Secret, w: World, e: Event)
    requires !e.Get? && !e.Post? && !e.Connected?
    ensures PhasesAndQueuesKept(w, Step(secret, w, e))
  {
    match e {
      case FirstChunk(b, chunk) => FirstChunkKeepsPhases(secret, w, b, chunk);
      case BodyEnd(b) =>
      case ResponseClosed(rid) =>
      case TargetData(tid, chunk) =>
      case TargetErrored(tid) =>
      case TargetClosedEvent(tid) =>
      case TimerFires(i) => TimerKeepsPhases(w, i);
    }
  }

  lemma InitialHasNoQueue()
    ensures QueueOnlyWhileConnecting(Initial)
  {
  }
}
