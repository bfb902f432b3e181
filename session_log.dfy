/** `createSessionLogger` of web/lib/log.js: an append-only event log with a fixed session id. */
module SessionLog {

  datatype Event<P> = Event(t: int, kind: string, payload: P)

  /** What `exportJson` returns. */
  datatype Export<P> = Export(sessionId: string, createdAt: int, events: seq<Event<P>>)

  /** `events[0]?.t ?? Date.now()`. */
  function CreatedAt<P>(events: seq<Event<P>>, now: int): (t: int)
    ensures |events| > 0 ==> t == events[0].t
    ensures |events| == 0 ==> t == now
  {
    if |events| > 0 then events[0].t else now
  }

  /**
   * The logger. `sessionId` is drawn from Math.random and Date.now at creation,
   * so it is a constructor parameter here; payload cloning is the identity.
   */
  class SessionLogger<P> {
    const sessionId: string
    var events: seq<Event<P>>

    constructor (id: string)
      ensures sessionId == id && events == []
    {
      sessionId := id;
      events := [];
    }

    /** `log(type, payload)` at time `now`. */
    method Log(kind: string, payload: P, now: int) returns (evt: Event<P>)
      modifies this
      ensures evt == Event(now, kind, payload)
      ensures events == old(events) + [evt]
    {
      evt := Event(now, kind, payload);
      events := events + [evt];
    }

    /** `exportJson()` at time `now`. */
    method ExportJson(now: int) returns (e: Export<P>)
      ensures e.sessionId == sessionId && e.events == events
      ensures e.createdAt == CreatedAt(events, now)
    {
      e := Export(sessionId, CreatedAt(events, now), events);
    }
  }

  /** Once the log holds an event, later events and later clocks do not move `createdAt`. */
  lemma CreatedAtIsStable<P>(log: seq<Event<P>>, more: seq<Event<P>>, now1: int, now2: int)
    requires |log| > 0
    ensures CreatedAt(log + more, now1) == CreatedAt(log, now2) == log[0].t
  {
  }

  /** A client: the first event fixes `createdAt` for every later export. */
  method LogThenExport<P>(logger: SessionLogger<P>, p: P)
    modifies logger
    requires logger.events == []
  {
    var first := logger.Log("game_start", p, 100);
    var second := logger.Log("prompt", p, 250);
    var e := logger.ExportJson(900);
    assert e.createdAt == 100 && |e.events| == 2 && e.sessionId == logger.sessionId;
  }
}
