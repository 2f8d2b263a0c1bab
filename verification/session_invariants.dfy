/**
 * Reachable worlds of the session multiplexer: every response, body,
 * destination and session serial in use was handed out by its counter, so
 * the identifier each counter hands out next is free. The empty server has
 * this property and every event keeps it, so the opening scenarios apply to
 * every world a run of events can reach.
 */
module SessionInvariants {
  import opened Wrappers
  import opened JsBuffer
  import opened Handshake
  import opened Sessions
  import opened SessionFacts
  import opened SessionScenarios

  /** Every identifier in use lies below the counter that handed it out. */
  predicate CountersAhead(w: World) {
    && (forall q :: q in w.responses ==> q < w.nextRes)
    && (forall b :: b in w.handshakes ==> b < w.nextBody)
    && (forall b :: b in w.acks ==> b < w.nextBody)
    && (forall t :: t in w.targets ==> t < w.nextTarget)
    && SerialsBelow(w)
  }

  /** The world after a run of events, one step each. */
  function Run(secret: Secret, w: World, events: seq<Event>): World
    decreases |events|
  {
    if events == [] then w else Run(secret, Step(secret, w, events[0]), events[1..])
  }

  /**
   * `r` uses no identifier `w` did not use, except ones handed out by the
   * counters in between; no counter goes back, and surviving sessions keep
   * their serials.
   */
  predicate OnlyFreshIds(w: World, r: World) {
    && w.nextRes <= r.nextRes && w.nextBody <= r.nextBody
    && w.nextTarget <= r.nextTarget && w.nextSerial <= r.nextSerial
    && (forall q :: q in r.responses ==> q in w.responses || w.nextRes <= q < r.nextRes)
    && (forall b :: b in r.handshakes ==> b in w.handshakes || w.nextBody <= b < r.nextBody)
    && (forall b :: b in r.acks ==> b in w.acks || w.nextBody <= b < r.nextBody)
    && (forall t :: t in r.targets ==> t in w.targets || w.nextTarget <= t < r.nextTarget)
    && (forall k :: k in r.sessions ==>
          (k in w.sessions && r.sessions[k].serial == w.sessions[k].serial)
          || w.nextSerial <= r.sessions[k].serial < r.nextSerial)
  }

  /** Handing out only fresh identifiers keeps every identifier below its counter. */
  lemma FreshIdsKeepAhead(w: World, r: World)
    requires CountersAhead(w) && OnlyFreshIds(w, r)
    ensures CountersAhead(r)
  {
  }

  lemma FreshIdsTrans(a: World, b: World, c: World)
    requires OnlyFreshIds(a, b) && OnlyFreshIds(b, c)
    ensures OnlyFreshIds(a, c)
  {
  }

  /** The free identifiers the opening scenarios ask for. */
  lemma AheadIsFresh(w: World)
    requires CountersAhead(w)
    ensures FreshCounters(w) && w.nextRes !in w.responses
  {
  }

  lemma InitialIsAhead()
    ensures CountersAhead(Initial)
  {
  }

  /** The per-operation steps below: each uses only identifiers its counters handed out. */
  lemma {:induction false} DispatchAllFresh(w: World, id: string, items: seq<Chunk>)
    ensures OnlyFreshIds(w, DispatchAll(w, id, items))
    decreases |items|
  {
    if items != [] {
      var w1 := Dispatch(w, id, items[0]);
      if id in w.sessions {
        DispatchDeliversOnce(w, id, items[0]);
      }
      DispatchAllFresh(w1, id, items[1..]);
      FreshIdsTrans(w, w1, DispatchAll(w, id, items));
    }
  }

  lemma FlushFresh(w: World, id: string)
    ensures OnlyFreshIds(w, Flush(w, id))
  {
    if id in w.sessions && w.sessions[id].buffer != [] && id != "" {
      var cleared := WithSession(w, id, w.sessions[id].(buffer := []));
      DispatchAllFresh(cleared, id, w.sessions[id].buffer);
      FreshIdsTrans(w, cleared, Flush(w, id));
    }
  }

  lemma DispatchFresh(w: World, id: string, chunk: Chunk)
    ensures OnlyFreshIds(w, Dispatch(w, id, chunk))
  {
    if id in w.sessions {
      DispatchDeliversOnce(w, id, chunk);
    }
  }

  lemma GetFresh(w: World, id: string)
    ensures OnlyFreshIds(w, OnGet(w, id))
  {
    var w1 := if id in w.sessions then w else Create(w, id);
    var s := w1.sessions[id];
    var rid := w1.nextRes;
    var w2 := w1.(responses := w1.responses[rid := Fresh(id, s.serial)], nextRes := rid + 1);
    var w3 := WithSession(w2, id, s.(download := Some(rid)));
    assert OnlyFreshIds(w, w3);
    FlushFresh(w3, id);
    FreshIdsTrans(w, w3, OnGet(w, id));
  }

  lemma PostFresh(w: World, id: string, hasLength: bool)
    ensures OnlyFreshIds(w, OnPost(w, id, hasLength))
  {
    if id in w.sessions {
      var a := AttachUplink(w, id, hasLength);
      AttachFresh(w, id, hasLength);
      RouteFrame(a, id, w.nextBody);
      assert OnPost(w, id, hasLength) == Route(a, id, w.nextBody);
    } else {
      NewPostFresh(w, id, hasLength);
    }
  }

  lemma NewPostFresh(w: World, id: string, hasLength: bool)
    requires id !in w.sessions
    ensures OnlyFreshIds(w, OnPost(w, id, hasLength))
  {
  }

  lemma AttachFresh(w: World, id: string, hasLength: bool)
    requires id in w.sessions
    ensures OnlyFreshIds(w, AttachUplink(w, id, hasLength))
    ensures AttachUplink(w, id, hasLength).nextBody == w.nextBody + 1
  {
    var s := w.sessions[id];
    var rid := w.nextRes;
    var b := w.nextBody;
    var w1 := w.(nextRes := rid + 1, nextBody := b + 1,
                 responses := w.responses[rid := Fresh(id, s.serial)],
                 sessions := w.sessions[id := s.(upload := Some(rid))],
                 acks := if s.download.Some? && hasLength then w.acks[b := rid] else w.acks);
    assert AttachUplink(w, id, hasLength) == Flush(w1, id);
    assert OnlyFreshIds(w, w1);
    FlushFresh(w1, id);
    FlushKeeps(w1, id);
    FreshIdsTrans(w, w1, Flush(w1, id));
  }

  /** Routing registers at most the routed body as a handshake and changes no other identifier. */
  lemma RouteFrame(w: World, id: string, b: BodyId)
    ensures var r := Route(w, id, b);
      && r.responses == w.responses && r.acks == w.acks && r.targets.Keys == w.targets.Keys
      && (forall c :: c in r.handshakes ==> c in w.handshakes || c == b)
      && r.nextRes == w.nextRes && r.nextBody == w.nextBody
      && r.nextTarget == w.nextTarget && r.nextSerial == w.nextSerial
      && r.sessions.Keys == w.sessions.Keys
      && (forall k :: k in r.sessions ==> r.sessions[k].serial == w.sessions[k].serial)
  {
    if id in w.sessions {
      var s := w.sessions[id];
      match s.phase
      case Established =>
        if s.target.Some? && s.target.value in w.targets {
          assert Route(w, id, b) == Feed(w, s.target.value, [Piped(b)]);
        }
      case Connecting =>
        assert Route(w, id, b) == WithSession(w, id, s.(pending := s.pending + [b]));
      case Idle =>
        assert Route(w, id, b) == WithSession(w, id, s.(phase := Connecting)).(handshakes := w.handshakes[b := id]);
    }
  }

  lemma FirstChunkFresh(secret: Secret, w: World, b: BodyId, chunk: Chunk)
    ensures OnlyFreshIds(w, OnFirstChunk(secret, w, b, chunk))
  {
  }

  lemma WithSessionFresh(w: World, id: string, s: Session)
    requires id in w.sessions && s.serial == w.sessions[id].serial
    ensures OnlyFreshIds(w, WithSession(w, id, s))
  {
  }

  lemma ScheduleFresh(w: World, id: string, reason: Reason)
    ensures OnlyFreshIds(w, ScheduleCleanup(w, id, reason))
  {
  }

  lemma EndResponseFresh(w: World, ch: Option<ResId>)
    ensures OnlyFreshIds(w, EndResponse(w, ch))
  {
  }

  lemma DestroyTargetFresh(w: World, t: Option<TargetId>)
    ensures OnlyFreshIds(w, DestroyTarget(w, t))
  {
  }

  /** No identifier is added or removed, no counter moves, and every session keeps its serial. */
  predicate IdsKept(w: World, r: World) {
    && r.responses.Keys == w.responses.Keys && r.handshakes == w.handshakes && r.acks == w.acks
    && r.targets.Keys == w.targets.Keys && r.sessions.Keys == w.sessions.Keys
    && r.nextRes == w.nextRes && r.nextBody == w.nextBody
    && r.nextTarget == w.nextTarget && r.nextSerial == w.nextSerial
    && (forall k :: k in w.sessions ==> r.sessions[k].serial == w.sessions[k].serial)
  }

  lemma IdsKeptTrans(a: World, b: World, c: World)
    requires IdsKept(a, b) && IdsKept(b, c)
    ensures IdsKept(a, c)
  {
  }

  lemma ConnectedFresh(w: World, tid: TargetId)
    ensures OnlyFreshIds(w, OnConnected(w, tid))
  {
    if tid in w.targets && !w.targets[tid].connected && !w.targets[tid].destroyed {
      ConnectedIdsKept(w, tid);
    }
  }

  /** The connect callback only changes contents: no identifier, counter or serial moves. */
  lemma ConnectedIdsKept(w: World, tid: TargetId)
    requires tid in w.targets && !w.targets[tid].connected && !w.targets[tid].destroyed
    ensures IdsKept(w, OnConnected(w, tid))
  {
    var t := w.targets[tid];
    var w1 := w.(targets := w.targets[tid := t.(connected := true)]);
    var w2 := if t.dest.variant == Vless then Dispatch(w1, t.session, VlessAck) else w1;
    if t.dest.variant == Vless {
      DispatchIdsKept(w1, t.session, VlessAck);
    }
    var w3 := if t.session in w2.sessions then Drain(w2, t.session, tid) else w2;
    if t.session in w2.sessions {
      DrainIdsKept(w2, t.session, tid);
    }
    var start := t.dest.payloadStart;
    var w4 := if start < |t.firstChunk| then Feed(w3, tid, [Wrote(t.firstChunk[start..])]) else w3;
    if start < |t.firstChunk| {
      FeedIdsKept(w3, tid, [Wrote(t.firstChunk[start..])]);
    }
    FeedIdsKept(w4, tid, [Piped(t.handshakeBody)]);
    IdsKeptTrans(w, w1, w2);
    IdsKeptTrans(w, w2, w3);
    IdsKeptTrans(w, w3, w4);
    IdsKeptTrans(w, w4, Feed(w4, tid, [Piped(t.handshakeBody)]));
  }

  lemma DrainIdsKept(w: World, id: string, tid: TargetId)
    requires id in w.sessions && tid in w.targets
    ensures IdsKept(w, Drain(w, id, tid)) && tid in Drain(w, id, tid).targets
  {
  }

  lemma FeedIdsKept(w: World, tid: TargetId, flows: seq<Inflow>)
    requires tid in w.targets
    ensures IdsKept(w, Feed(w, tid, flows)) && tid in Feed(w, tid, flows).targets
  {
  }

  lemma DispatchIdsKept(w: World, id: string, chunk: Chunk)
    ensures IdsKept(w, Dispatch(w, id, chunk)) && Dispatch(w, id, chunk).targets == w.targets
  {
  }

  lemma ReleaseFresh(w: World, id: string)
    requires id in w.sessions
    ensures OnlyFreshIds(w, Release(w, id))
  {
    var s := w.sessions[id];
    var a := DestroyTarget(w, s.target);
    DestroyTargetFresh(w, s.target);
    var b := EndResponse(a, s.download);
    EndResponseFresh(a, s.download);
    FreshIdsTrans(w, a, b);
    var c := EndResponse(b, s.upload);
    EndResponseFresh(b, s.upload);
    FreshIdsTrans(w, b, c);
    assert OnlyFreshIds(c, Release(w, id));
    FreshIdsTrans(w, c, Release(w, id));
  }

  lemma TimerFresh(w: World, i: nat)
    ensures OnlyFreshIds(w, OnTimer(w, i))
  {
    if i < |w.timers| {
      var w1 := w.(timers := w.timers[..i] + w.timers[i + 1..]);
      assert OnlyFreshIds(w, w1);
      match w.timers[i]
      case InactivityCheck(id) =>
        assert OnTimer(w, i) == OnInactivity(w1, id);
        ScheduleFresh(w1, id, Timeout);
        FreshIdsTrans(w, w1, OnTimer(w, i));
      case DelayedCleanup(id, serial, reason) =>
        assert OnTimer(w, i) == FireCleanup(w1, id, serial, reason);
        if Removing(reason) && id in w1.sessions && w1.sessions[id].serial == serial {
          ReleaseFresh(w1, id);
        }
        FreshIdsTrans(w, w1, OnTimer(w, i));
    }
  }

  lemma BodyEndFresh(w: World, b: BodyId)
    ensures OnlyFreshIds(w, OnBodyEnd(w, b))
  {
    if b in w.acks {
      var w1 := w.(acks := w.acks - {b});
      assert OnlyFreshIds(w, w1);
      EndResponseFresh(w1, Some(w.acks[b]));
      FreshIdsTrans(w, w1, OnBodyEnd(w, b));
    }
  }

  lemma ResponseClosedFresh(w: World, rid: ResId)
    ensures OnlyFreshIds(w, OnResponseClosed(w, rid))
  {
    if rid in w.responses {
      var r := w.responses[rid];
      var w1 := w.(responses := w.responses[rid := r.(destroyed := true, socket := SocketDestroyed)]);
      assert OnlyFreshIds(w, w1);
      if r.owner in w1.sessions && w1.sessions[r.owner].serial == r.ownerSerial {
        var s := w1.sessions[r.owner];
        WithSessionFresh(w1, r.owner, s.(download := if s.download == Some(rid) then None else s.download,
                                         upload := if s.upload == Some(rid) then None else s.upload));
      }
      FreshIdsTrans(w, w1, OnResponseClosed(w, rid));
    }
  }

  lemma TargetErrorFresh(w: World, tid: TargetId)
    ensures OnlyFreshIds(w, OnTargetError(w, tid))
  {
    if tid in w.targets && !w.targets[tid].destroyed {
      var t := w.targets[tid];
      var w1 := w.(targets := w.targets[tid := t.(destroyed := true)]);
      assert OnlyFreshIds(w, w1);
      ScheduleFresh(w1, t.session, TargetError);
      FreshIdsTrans(w, w1, OnTargetError(w, tid));
    }
  }

  lemma TargetCloseFresh(w: World, tid: TargetId)
    ensures OnlyFreshIds(w, OnTargetClose(w, tid))
  {
    if tid in w.targets && !w.targets[tid].closed {
      var t := w.targets[tid];
      var w1 := w.(targets := w.targets[tid := t.(closed := true, destroyed := true)]);
      assert OnlyFreshIds(w, w1);
      ScheduleFresh(w1, t.session, TargetClosed);
      FreshIdsTrans(w, w1, OnTargetClose(w, tid));
    }
  }

  /** No event uses an identifier its counters did not hand out. */
  lemma StepFresh(secret: Secret, w: World, e: Event)
    ensures OnlyFreshIds(w, Step(secret, w, e))
  {
    match e
    case Get(id) => GetFresh(w, id);
    case Post(id, hasLength) => PostFresh(w, id, hasLength);
    case FirstChunk(b, chunk) => FirstChunkFresh(secret, w, b, chunk);
    case BodyEnd(b) => BodyEndFresh(w, b);
    case ResponseClosed(rid) => ResponseClosedFresh(w, rid);
    case Connected(tid) => ConnectedFresh(w, tid);
    case TargetData(tid, chunk) =>
      if tid in w.targets {
        DispatchFresh(w, w.targets[tid].session, chunk);
      }
    case TargetErrored(tid) => TargetErrorFresh(w, tid);
    case TargetClosedEvent(tid) => TargetCloseFresh(w, tid);
    case TimerFires(i) => TimerFresh(w, i);
  }

  /** Every event keeps every identifier in use below its counter. */
  lemma StepKeepsAhead(secret: Secret, w: World, e: Event)
    requires CountersAhead(w)
    ensures CountersAhead(Step(secret, w, e))
  {
    StepFresh(secret, w, e);
    FreshIdsKeepAhead(w, Step(secret, w, e));
  }

  lemma {:induction false} RunKeepsAhead(secret: Secret, w: World, events: seq<Event>)
    requires CountersAhead(w)
    ensures CountersAhead(Run(secret, w, events))
    decreases |events|
  {
    if events != [] {
      StepKeepsAhead(secret, w, events[0]);
      RunKeepsAhead(secret, Step(secret, w, events[0]), events[1..]);
    }
  }

  /** Every world a run of events reaches from the empty server has fresh counters. */
  lemma ReachableIsFresh(secret: Secret, events: seq<Event>)
    ensures CountersAhead(Run(secret, Initial, events))
    ensures FreshCounters(Run(secret, Initial, events))
    ensures Run(secret, Initial, events).nextRes !in Run(secret, Initial, events).responses
  {
    InitialIsAhead();
    RunKeepsAhead(secret, Initial, events);
    AheadIsFresh(Run(secret, Initial, events));
  }

  /**
   * A GET in every reachable world: the new downlink receives the whole
   * buffer, in order.
   */
  lemma ReachableGetFlushes(secret: Secret, events: seq<Event>, id: string)
    requires id != ""
    ensures var w := Run(secret, Initial, events); var r := OnGet(w, id);
      && w.nextRes in r.responses && id in r.sessions && r.sessions[id].buffer == []
      && r.responses[w.nextRes].sent == (if id in w.sessions then w.sessions[id].buffer else [])
  {
    ReachableIsFresh(secret, events);
    GetAttachesAndFlushes(Run(secret, Initial, events), id);
  }

  /**
   * The opening exchange in every reachable world: a POST opening a new
   * session whose first chunk parses is established on a new destination
   * once that destination connects.
   */
  lemma ReachableOpening(secret: Secret, events: seq<Event>, id: string, hasLength: bool, chunk: Chunk, d: Destination)
    requires id !in Run(secret, Initial, events).sessions
    requires Parse(secret, chunk) == Success(d)
    ensures var w := Run(secret, Initial, events);
      var w1 := OnPost(w, id, hasLength);
      var w2 := OnFirstChunk(secret, w1, w.nextBody, chunk);
      var r := OnConnected(w2, w.nextTarget);
      && id in r.sessions && r.sessions[id].phase == Established && r.sessions[id].target == Some(w.nextTarget)
  {
    ReachableIsFresh(secret, events);
    OpeningExchange(secret, Run(secret, Initial, events), id, hasLength, chunk, d);
  }
}
