/** The events the facade emits, the callbacks it defers with `process.nextTick`, and the
    counting facts its invariants rest on. */
module Events {

  /** The payload of a repository `changed` notification, carried through unchanged. */
  datatype ChangeData = ChangeData(toggleNames: seq<string>)

  /** An event emitted by the facade. */
  datatype Event = Ready | Synchronized | Changed(data: ChangeData) | Warn(message: string)

  /** A callback queued with `process.nextTick`: emitting an event, or the automatic `start()`. */
  datatype Deferred = Emit(event: Event) | AutoStart

  /** How often `e` occurs in `log`. */
  function Occurrences(log: seq<Event>, e: Event): nat
  {
    if log == [] then 0
    else (if log[0] == e then 1 else 0) + Occurrences(log[1..], e)
  }

  /** Counting distributes over concatenation of logs. */
  lemma {:induction false} OccurrencesAppend(a: seq<Event>, b: seq<Event>, e: Event)
    ensures Occurrences(a + b, e) == Occurrences(a, e) + Occurrences(b, e)
  {
    if a != [] {
      assert (a + b)[1..] == a[1..] + b;
      OccurrencesAppend(a[1..], b, e);
    } else {
      assert a + b == b;
    }
  }

  /** How many `changed` events `log` holds, whatever their payload. */
  function Changes(log: seq<Event>): nat
  {
    if log == [] then 0
    else (if log[0].Changed? then 1 else 0) + Changes(log[1..])
  }

  /** Counting `changed` events distributes over concatenation of logs. */
  lemma {:induction false} ChangesAppend(a: seq<Event>, b: seq<Event>)
    ensures Changes(a + b) == Changes(a) + Changes(b)
  {
    if a != [] {
      assert (a + b)[1..] == a[1..] + b;
      ChangesAppend(a[1..], b);
    } else {
      assert a + b == b;
    }
  }

  /** The events still waiting in the deferred queue, in the order they will be emitted. */
  function Scheduled(queue: seq<Deferred>): seq<Event>
  {
    if queue == [] then []
    else (if queue[0].Emit? then [queue[0].event] else []) + Scheduled(queue[1..])
  }

  /** The scheduled events of a longer queue are those of its parts, in order. */
  lemma {:induction false} ScheduledAppend(a: seq<Deferred>, b: seq<Deferred>)
    ensures Scheduled(a + b) == Scheduled(a) + Scheduled(b)
  {
    if a != [] {
      assert (a + b)[1..] == a[1..] + b;
      ScheduledAppend(a[1..], b);
    } else {
      assert a + b == b;
    }
  }

  /** Inserting an event other than `e` does not change how often `e` occurs. */
  lemma OccurrencesInsertAppend(a: seq<Event>, x: Event, b: seq<Event>, c: seq<Event>, e: Event)
    requires x != e
    ensures Occurrences((a + [x]) + (b + c), e) == Occurrences(a + b, e) + Occurrences(c, e)
  {
    assert (a + [x]) + (b + c) == a + ([x] + (b + c));
    assert ([x] + (b + c))[1..] == b + c;
    OccurrencesAppend(a, [x] + (b + c), e);
    OccurrencesAppend(a, b + c, e);
    OccurrencesAppend(b, c, e);
    OccurrencesAppend(a, b, e);
  }
}
