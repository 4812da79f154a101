/** The streaming transcription service
    (gradio/services/streaming_transcription_service.py) as three folds:
    the receive loop turning inbound frames into queued events, the queue
    consumer that annotates status events and emits once-a-second ticks,
    and the whole `stream_transcription` generator with its guard and its
    guaranteed terminal status. Clock readings, frame contents and the
    connection's outcome are inputs; the base service's own handlers are
    opaque. */
module StreamingService {
  import opened Common
  import opened Text
  import opened Protocol

  datatype EventKind = DeltaEvent | TranscriptEvent | StatusEvent | ErrorEvent

  /** A yielded event dictionary: `event_type`, `data`, the optional
      `current_text` of delta events and `time_remaining` of status events. */
  datatype Event = Event(kind: EventKind, data: string, currentText: Option<string>, timeRemaining: Option<int>)

  function Status(data: string): Event { Event(StatusEvent, data, None, None) }
  function Error(data: string): Event { Event(ErrorEvent, data, None, None) }

  const SpeechDetectedText := "Speech detected, listening..."
  const SpeechStoppedText := "Speech stopped"
  const UnknownErrorText := "Unknown error"
  const ConnectionClosedText := "WebSocket connection closed"
  const ReceivingCompleteText := "Message receiving complete"
  const SessionEndedText := "Transcription session ended"
  const AlreadyRecordingText := "Already recording"
  const EstablishedText := "WebSocket connection established"
  const ConfigSentText := "Session configuration sent"
  const ReceiveErrorPrefix := "Error in receive_messages: "

  /** Status data for the two session notifications, i.e. the type name
      after `.replace('_', ' ').title()` (`.title()` capitalises the letter
      after the '.', too). Only these two names reach the expression. */
  function SessionNotice(msgType: string): string {
    if msgType == SessionCreatedType then "Transcription Session.Created"
    else "Transcription Session.Updated"
  }

  /** The event a decoded message object enqueues, if any. `baseCurrent` is
      the base service's `current_transcription` after its own delta
      handler ran, which this model does not compute. */
  function Dispatch(kind: ServiceKind, msg: Fields, baseCurrent: string): (e: Option<Event>)
    ensures msg.msgType == Some(DeltaType) ==>
              e == Some(Event(DeltaEvent, msg.delta.GetOr(""), Some(baseCurrent), None))
    ensures msg.msgType == Some(CompletedType) ==>
              e == Some(Event(TranscriptEvent, CompletedTranscript(kind, msg), None, None))
    ensures msg.msgType == Some(SpeechStartedType) ==> e == Some(Status(SpeechDetectedText))
    ensures msg.msgType == Some(SpeechStoppedType) ==> e == Some(Status(SpeechStoppedText))
    ensures msg.msgType == Some(ErrorType) ==> e == Some(Error(msg.message.GetOr(UnknownErrorText)))
    ensures msg.msgType == Some(SessionCreatedType) ==> e == Some(Status("Transcription Session.Created"))
    ensures msg.msgType == Some(SessionUpdatedType) ==> e == Some(Status("Transcription Session.Updated"))
    ensures e.None? <==>
              msg.msgType !in {Some(DeltaType), Some(CompletedType), Some(SpeechStartedType),
                               Some(SpeechStoppedType), Some(ErrorType),
                               Some(SessionCreatedType), Some(SessionUpdatedType)}
  {
    match msg.msgType
    case None => None
    case Some(t) =>
      if t == DeltaType then Some(Event(DeltaEvent, msg.delta.GetOr(""), Some(baseCurrent), None))
      else if t == CompletedType then Some(Event(TranscriptEvent, CompletedTranscript(kind, msg), None, None))
      else if t == SpeechStartedType then Some(Status(SpeechDetectedText))
      else if t == SpeechStoppedType then Some(Status(SpeechStoppedText))
      else if t == ErrorType then Some(Error(msg.message.GetOr(UnknownErrorText)))
      else if t == SessionCreatedType || t == SessionUpdatedType then Some(Status(SessionNotice(t)))
      else None
  }

  /** One inbound text frame as `json.loads` sees it. A JSON value that is
      not an object has no `.get`; the AttributeError's text is carried. */
  datatype Frame =
    | NotJson
    | NonObject(attributeError: string)
    | Object(fields: Fields, baseCurrent: string)

  /** Outcome of one `websocket.recv()`. `ClosedWithError` is the library's
      ConnectionClosedError; any other exception (including a normal close)
      is `Raised` with its text. */
  datatype Recv = Received(frame: Frame) | ClosedWithError | Raised(error: string)

  /** `streaming_receive_messages`: the events it enqueues for a sequence
      of receive outcomes. The loop ends at a close, at an exception, or
      when the outcomes run out (the asyncio receiver is cancelled); in every case
      "Message receiving complete" is enqueued last. */
  function Receive(kind: ServiceKind, recvs: seq<Recv>): (q: seq<Event>)
    ensures |q| > 0 && q[|q| - 1] == Status(ReceivingCompleteText)
  {
    ReceiveBody(kind, recvs) + [Status(ReceivingCompleteText)]
  }

  /** The events enqueued before the `finally` clause. */
  function ReceiveBody(kind: ServiceKind, recvs: seq<Recv>): seq<Event> {
    if |recvs| == 0 then []
    else match recvs[0]
      case ClosedWithError => [Status(ConnectionClosedText)]
      case Raised(err) => [Error(ReceiveErrorPrefix + err)]
      case Received(NonObject(err)) => [Error(ReceiveErrorPrefix + err)]
      case Received(_) => EventsOf(kind, recvs[0]) + ReceiveBody(kind, recvs[1..])
  }

  /** The event a received frame enqueues: that of a decoded object, if it
      has one; nothing for a non-JSON frame. */
  function EventsOf(kind: ServiceKind, r: Recv): (es: seq<Event>)
    ensures |es| <= 1
  {
    if r.Received? && r.frame.Object? then
      var e := Dispatch(kind, r.frame.fields, r.frame.baseCurrent);
      if e.Some? then [e.value] else []
    else []
  }

  /** Reference: the events of the decoded objects, in arrival order. */
  function ObjectEvents(kind: ServiceKind, recvs: seq<Recv>): seq<Event> {
    if |recvs| == 0 then [] else EventsOf(kind, recvs[0]) + ObjectEvents(kind, recvs[1..])
  }

  /** Receive outcomes that keep the loop running. */
  predicate Continues(r: Recv) {
    r.Received? && (r.frame.NotJson? || r.frame.Object?)
  }

  /** While the connection stays up, the queue holds exactly the events of
      the decoded objects, in arrival order; non-JSON frames are skipped. */
  lemma {:induction false} ReceiveOrder(kind: ServiceKind, recvs: seq<Recv>)
    requires forall i :: 0 <= i < |recvs| ==> Continues(recvs[i])
    ensures Receive(kind, recvs) == ObjectEvents(kind, recvs) + [Status(ReceivingCompleteText)]
  {
    BodyIsObjectEvents(kind, recvs);
  }

  lemma {:induction false} BodyIsObjectEvents(kind: ServiceKind, recvs: seq<Recv>)
    requires forall i :: 0 <= i < |recvs| ==> Continues(recvs[i])
    ensures ReceiveBody(kind, recvs) == ObjectEvents(kind, recvs)
  {
    if |recvs| > 0 {
      assert Continues(recvs[0]);
      BodyIsObjectEvents(kind, recvs[1..]);
    }
  }

  /** A failure stops the loop: nothing after it is received, and the
      queue ends with the failure's event and then the completion status. */
  lemma {:induction false} ReceiveStopsAtFailure(kind: ServiceKind, before: seq<Recv>, failure: Recv, after: seq<Recv>)
    requires forall i :: 0 <= i < |before| ==> Continues(before[i])
    requires !Continues(failure)
    ensures Receive(kind, before + [failure] + after)
         == ObjectEvents(kind, before)
            + [if failure.ClosedWithError? then Status(ConnectionClosedText)
               else if failure.Raised? then Error(ReceiveErrorPrefix + failure.error)
               else Error(ReceiveErrorPrefix + failure.frame.attributeError)]
            + [Status(ReceivingCompleteText)]
  {
    FailureBody(kind, before, failure, after);
  }

  lemma {:induction false} FailureBody(kind: ServiceKind, before: seq<Recv>, failure: Recv, after: seq<Recv>)
    requires forall i :: 0 <= i < |before| ==> Continues(before[i])
    requires !Continues(failure)
    ensures ReceiveBody(kind, before + [failure] + after)
         == ObjectEvents(kind, before)
            + [if failure.ClosedWithError? then Status(ConnectionClosedText)
               else if failure.Raised? then Error(ReceiveErrorPrefix + failure.error)
               else Error(ReceiveErrorPrefix + failure.frame.attributeError)]
  {
    var all := before + [failure] + after;
    if |before| == 0 {
      assert all == [failure] + after;
    } else {
      assert all[1..] == before[1..] + [failure] + after;
      assert all[0] == before[0];
      assert Continues(before[0]);
      FailureBody(kind, before[1..], failure, after);
      assert ReceiveBody(kind, all) == EventsOf(kind, before[0]) + ReceiveBody(kind, all[1..]);
    }
  }

  /** One iteration of the queue consumer: the clock reading in whole
      seconds, whether a queued event was ready within the 0.1 s wait, and
      whether the auto-terminate timer had fired when the consumer checked
      after a yield. */
  datatype Poll = Poll(now: int, ready: bool, timerFired: bool)

  /** What the consumer yielded: an event taken from the queue (status
      events annotated with the time remaining) or an idle tick. */
  datatype Yielded = FromQueue(event: Event) | Tick(second: int, remaining: int)

  /** `round(max(0, duration - elapsed))` in whole seconds. */
  function TimeRemaining(duration: int, elapsed: int): (r: int)
    ensures r >= 0
    ensures elapsed >= 0 ==> r <= if duration > 0 then duration else 0
    ensures elapsed < duration ==> r == duration - elapsed
    ensures elapsed >= duration ==> r == 0
  {
    if duration - elapsed > 0 then duration - elapsed else 0
  }

  /** A queued event as yielded at clock reading `now`. */
  function Annotate(e: Event, duration: int, elapsed: int): (a: Event)
    ensures a.kind == e.kind && a.data == e.data && a.currentText == e.currentText
    ensures e.kind == StatusEvent ==> a.timeRemaining == Some(TimeRemaining(duration, elapsed))
    ensures e.kind != StatusEvent ==> a == e
  {
    if e.kind == StatusEvent then e.(timeRemaining := Some(TimeRemaining(duration, elapsed))) else e
  }

  /** Remaining seconds of every tick are never negative, and ticks are at
      strictly increasing whole seconds, above the initial marker. */
  predicate TicksWellFormed(out: seq<Yielded>, floor: int) {
    && (forall i :: 0 <= i < |out| && out[i].Tick? ==> out[i].remaining >= 0 && out[i].second > floor)
    && (forall i, j :: 0 <= i < j < |out| && out[i].Tick? && out[j].Tick? ==> out[i].second < out[j].second)
  }

  /** The queued events the consumer passed on, without their annotation. */
  function Delivered(out: seq<Yielded>): seq<Event> {
    if |out| == 0 then []
    else Delivered(out[..|out| - 1])
         + (if out[|out| - 1].FromQueue? then [out[|out| - 1].event.(timeRemaining := None)] else [])
  }

  lemma DeliveredSnoc(out: seq<Yielded>, y: Yielded)
    ensures Delivered(out + [y])
         == Delivered(out) + (if y.FromQueue? then [y.event.(timeRemaining := None)] else [])
  {
    assert (out + [y])[..|out|] == out;
  }

  /** Status events yielded from the queue carry a non-negative time remaining. */
  predicate Annotated(out: seq<Yielded>) {
    forall i :: 0 <= i < |out| && out[i].FromQueue? && out[i].event.kind == StatusEvent ==>
      out[i].event.timeRemaining.Some? && out[i].event.timeRemaining.value >= 0
  }

  /** The polls that found an event ready before the deadline. */
  function ReadyPolls(polls: seq<Poll>, start: int, duration: int): (n: nat)
    ensures n <= |polls|
  {
    if |polls| == 0 then 0
    else ReadyPolls(polls[..|polls| - 1], start, duration)
         + (if polls[|polls| - 1].ready && polls[|polls| - 1].now - start < duration then 1 else 0)
  }

  /** `y` may have been yielded at poll `p`: only before the deadline; a
      queued event only when one was ready, a status event annotated from
      that poll's clock and any other event left as queued; a tick carrying
      that poll's second and the time remaining then. */
  predicate YieldedAt(y: Yielded, p: Poll, start: int, duration: int) {
    && p.now - start < duration
    && (y.FromQueue? ==>
          && p.ready
          && y.event.timeRemaining
             == (if y.event.kind == StatusEvent then Some(TimeRemaining(duration, p.now - start)) else None))
    && (y.Tick? ==> y == Tick(p.now, TimeRemaining(duration, p.now - start)))
  }

  /** `at[i]` is the poll, among the first `bound`, at which `out[i]` was
      yielded; one item per poll, in poll order. */
  predicate Schedule(out: seq<Yielded>, at: seq<nat>, polls: seq<Poll>, start: int, duration: int, bound: int) {
    && |at| == |out|
    && (forall i :: 0 <= i < |at| ==> at[i] < bound && at[i] < |polls|)
    && (forall i, j :: 0 <= i < j < |at| ==> at[i] < at[j])
    && (forall i :: 0 <= i < |at| ==> YieldedAt(out[i], polls[at[i]], start, duration))
  }

  lemma ScheduleSnoc(out: seq<Yielded>, at: seq<nat>, polls: seq<Poll>, start: int, duration: int, k: nat, y: Yielded)
    requires Schedule(out, at, polls, start, duration, k)
    requires k < |polls| && YieldedAt(y, polls[k], start, duration)
    ensures Schedule(out + [y], at + [k], polls, start, duration, k + 1)
  {
    assert forall i :: 0 <= i < |at| ==> (at + [k])[i] == at[i] && (out + [y])[i] == out[i];
  }

  lemma ReadyPollsStep(polls: seq<Poll>, start: int, duration: int, k: nat)
    requires k < |polls|
    ensures ReadyPolls(polls[..k + 1], start, duration)
         == ReadyPolls(polls[..k], start, duration)
            + (if polls[k].ready && polls[k].now - start < duration then 1 else 0)
  {
    assert polls[..k + 1][..k] == polls[..k];
  }

  /** When every poll finds an event ready before the deadline, every poll
      counts: the consumer then takes one queued event per poll until the
      queue is exhausted. */
  lemma {:induction false} ReadyPollsAll(polls: seq<Poll>, start: int, duration: int)
    requires forall j :: 0 <= j < |polls| ==> polls[j].ready && polls[j].now - start < duration
    ensures ReadyPolls(polls, start, duration) == |polls|
  {
    if |polls| > 0 {
      ReadyPollsAll(polls[..|polls| - 1], start, duration);
    }
  }

  /** The consumer between polls: what it yielded and at which polls, how
      many queued events it took, how many polls it made, the second of its
      last tick and whether it has stopped. */
  datatype Consumer = Consumer(out: seq<Yielded>, at: seq<nat>, taken: nat, polled: nat, lastTick: int, stop: bool)

  /** One poll of the consumer: past the deadline it stops without
      yielding; a ready event is annotated and yielded; otherwise a tick is
      yielded once per new second. After a yield it stops when the timer
      had fired. */
  function PollStep(c: Consumer, queue: seq<Event>, polls: seq<Poll>, start: int, duration: int): Consumer
    requires c.polled < |polls| && c.taken <= |queue|
  {
    var p := polls[c.polled];
    var elapsed := p.now - start;
    if elapsed >= duration then c.(polled := c.polled + 1, stop := true)
    else if p.ready && c.taken < |queue| then
      c.(out := c.out + [FromQueue(Annotate(queue[c.taken], duration, elapsed))], at := c.at + [c.polled],
         taken := c.taken + 1, polled := c.polled + 1, stop := p.timerFired)
    else if p.now > c.lastTick then
      c.(out := c.out + [Tick(p.now, TimeRemaining(duration, elapsed))], at := c.at + [c.polled],
         polled := c.polled + 1, lastTick := p.now, stop := p.timerFired)
    else c.(polled := c.polled + 1)
  }

  /** What the consumer yielded so far agrees with the queue and the polls. */
  predicate Yields(c: Consumer, queue: seq<Event>, polls: seq<Poll>, start: int, duration: int) {
    Queued(c.out, c.taken, queue) && Timed(c.out, c.at, c.polled, c.lastTick, polls, start, duration)
  }

  /** The queued events passed on are the first `taken` of the queue. */
  predicate Queued(out: seq<Yielded>, taken: nat, queue: seq<Event>) {
    taken <= |queue| && Delivered(out) == queue[..taken]
  }

  /** Every item was yielded at one of the first `polled` polls, ticks at
      increasing seconds no later than `lastTick`. */
  predicate Timed(out: seq<Yielded>, at: seq<nat>, polled: nat, lastTick: int, polls: seq<Poll>, start: int, duration: int) {
    && polled <= |polls|
    && TicksWellFormed(out, 0)
    && (forall i :: 0 <= i < |out| && out[i].Tick? ==> out[i].second <= lastTick)
    && lastTick >= 0
    && Annotated(out)
    && Schedule(out, at, polls, start, duration, polled)
  }

  lemma QueuedSnoc(out: seq<Yielded>, taken: nat, queue: seq<Event>, y: Yielded)
    requires Queued(out, taken, queue) && taken < |queue|
    requires y.FromQueue? && y.event.(timeRemaining := None) == queue[taken]
    ensures Queued(out + [y], taken + 1, queue)
  {
    DeliveredSnoc(out, y);
    assert queue[..taken + 1] == queue[..taken] + [queue[taken]];
  }

  lemma TimedSnoc(out: seq<Yielded>, at: seq<nat>, polled: nat, lastTick: int, polls: seq<Poll>, start: int,
                  duration: int, y: Yielded, nextTick: int)
    requires Timed(out, at, polled, lastTick, polls, start, duration) && polled < |polls|
    requires YieldedAt(y, polls[polled], start, duration)
    requires y.Tick? ==> y.second == nextTick > lastTick
    requires y.FromQueue? ==> nextTick == lastTick
    ensures Timed(out + [y], at + [polled], polled + 1, nextTick, polls, start, duration)
  {
    ScheduleSnoc(out, at, polls, start, duration, polled, y);
    var out' := out + [y];
    assert forall i :: 0 <= i < |out| ==> out'[i] == out[i];
  }

  lemma TimedIdle(out: seq<Yielded>, at: seq<nat>, polled: nat, lastTick: int, polls: seq<Poll>, start: int, duration: int)
    requires Timed(out, at, polled, lastTick, polls, start, duration) && polled < |polls|
    ensures Timed(out, at, polled + 1, lastTick, polls, start, duration)
  {
  }

  /** The consumer ran on only while the deadline was ahead and the timer
      had not fired after a yield; a stop names its cause. */
  predicate Stops(c: Consumer, polls: seq<Poll>, start: int, duration: int)
    requires c.polled <= |polls|
  {
    && (forall j :: 0 <= j < (if c.stop then c.polled - 1 else c.polled) ==> polls[j].now - start < duration)
    && (forall i :: 0 <= i < |c.at| && c.at[i] < |polls| && (c.at[i] < c.polled - 1 || !c.stop) ==>
          !polls[c.at[i]].timerFired)
    && (c.stop ==>
          && c.polled > 0
          && (|| polls[c.polled - 1].now - start >= duration
              || (|c.at| > 0 && c.at[|c.at| - 1] == c.polled - 1 && polls[c.polled - 1].timerFired)))
  }

  /** Every ready poll before the deadline took an event while one was left. */
  predicate Progress(c: Consumer, queue: seq<Event>, polls: seq<Poll>, start: int, duration: int)
    requires c.polled <= |polls|
  {
    var n := ReadyPolls(polls[..c.polled], start, duration);
    c.taken == if n < |queue| then n else |queue|
  }

  lemma YieldsStep(c: Consumer, queue: seq<Event>, polls: seq<Poll>, start: int, duration: int)
    requires Yields(c, queue, polls, start, duration) && c.polled < |polls|
    requires forall i :: 0 <= i < |queue| ==> queue[i].timeRemaining.None?
    ensures Yields(PollStep(c, queue, polls, start, duration), queue, polls, start, duration)
  {
    var p := polls[c.polled];
    var elapsed := p.now - start;
    var d := PollStep(c, queue, polls, start, duration);
    if elapsed >= duration || (!(p.ready && c.taken < |queue|) && p.now <= c.lastTick) {
      assert d.out == c.out && d.at == c.at && d.taken == c.taken && d.lastTick == c.lastTick;
      TimedIdle(c.out, c.at, c.polled, c.lastTick, polls, start, duration);
    } else if p.ready && c.taken < |queue| {
      var y := FromQueue(Annotate(queue[c.taken], duration, elapsed));
      assert d.out == c.out + [y] && d.at == c.at + [c.polled] && d.taken == c.taken + 1 && d.lastTick == c.lastTick;
      QueuedSnoc(c.out, c.taken, queue, y);
      TimedSnoc(c.out, c.at, c.polled, c.lastTick, polls, start, duration, y, c.lastTick);
    } else {
      var y := Tick(p.now, TimeRemaining(duration, elapsed));
      assert d.out == c.out + [y] && d.at == c.at + [c.polled] && d.taken == c.taken && d.lastTick == p.now;
      DeliveredSnoc(c.out, y);
      TimedSnoc(c.out, c.at, c.polled, c.lastTick, polls, start, duration, y, p.now);
    }
    assert d.polled == c.polled + 1;
  }

  lemma StopsStep(c: Consumer, queue: seq<Event>, polls: seq<Poll>, start: int, duration: int)
    requires c.polled < |polls| && c.taken <= |queue| && !c.stop && Stops(c, polls, start, duration)
    requires forall i :: 0 <= i < |c.at| ==> c.at[i] < c.polled
    ensures Stops(PollStep(c, queue, polls, start, duration), polls, start, duration)
  {
    var d := PollStep(c, queue, polls, start, duration);
    assert forall i :: 0 <= i < |c.at| ==> d.at[i] == c.at[i];
  }

  lemma ProgressStep(c: Consumer, queue: seq<Event>, polls: seq<Poll>, start: int, duration: int)
    requires c.polled < |polls| && c.taken <= |queue| && Progress(c, queue, polls, start, duration)
    ensures Progress(PollStep(c, queue, polls, start, duration), queue, polls, start, duration)
  {
    ReadyPollsStep(polls, start, duration, c.polled);
  }

  /** The consumer before its first poll. */
  lemma Initial(queue: seq<Event>, polls: seq<Poll>, start: int, duration: int)
    ensures var c := Consumer([], [], 0, 0, 0, false);
            Yields(c, queue, polls, start, duration) && Stops(c, polls, start, duration)
            && Progress(c, queue, polls, start, duration)
  {
    assert polls[..0] == [];
  }

  /** One poll keeps the consumer's invariant. */
  lemma StepKeeps(c: Consumer, queue: seq<Event>, polls: seq<Poll>, start: int, duration: int)
    requires forall i :: 0 <= i < |queue| ==> queue[i].timeRemaining.None?
    requires Yields(c, queue, polls, start, duration) && c.polled < |polls| && !c.stop
    requires Stops(c, polls, start, duration) && Progress(c, queue, polls, start, duration)
    ensures var d := PollStep(c, queue, polls, start, duration);
            Yields(d, queue, polls, start, duration) && Stops(d, polls, start, duration)
            && Progress(d, queue, polls, start, duration)
  {
    YieldsStep(c, queue, polls, start, duration);
    StopsStep(c, queue, polls, start, duration);
    ProgressStep(c, queue, polls, start, duration);
  }

  /** What a consumer that has stopped, or used every poll, has done. */
  lemma Finished(c: Consumer, queue: seq<Event>, polls: seq<Poll>, start: int, duration: int)
    requires Yields(c, queue, polls, start, duration)
    requires Stops(c, polls, start, duration) && Progress(c, queue, polls, start, duration)
    requires c.polled < |polls| ==> c.stop
    ensures c.taken <= |queue|
    ensures Delivered(c.out) == queue[..c.taken]
    ensures TicksWellFormed(c.out, 0)
    ensures Annotated(c.out)
    ensures c.polled <= |polls| && Schedule(c.out, c.at, polls, start, duration, c.polled)
    ensures forall j :: 0 <= j < c.polled - 1 ==> polls[j].now - start < duration
    ensures forall i :: 0 <= i < |c.at| && c.at[i] < c.polled - 1 ==> !polls[c.at[i]].timerFired
    ensures c.polled < |polls| ==>
              && c.polled > 0
              && (|| polls[c.polled - 1].now - start >= duration
                  || (|c.at| > 0 && c.at[|c.at| - 1] == c.polled - 1 && polls[c.polled - 1].timerFired))
    ensures var n := ReadyPolls(polls[..c.polled], start, duration);
            c.taken == if n < |queue| then n else |queue|
  {
    assert forall i :: 0 <= i < |c.at| ==> c.at[i] < |polls|;
  }

  /** `process_message_queue` together with the generator's check of the
      termination timer after each yield. The consumer takes `polled` polls:
      it stops at the first poll at or after the deadline, at the first
      yield after which the timer had fired, or when the polls run out.
      Each ready poll before the deadline takes the next queued event while
      one is left; `at` gives the poll of each yielded item. */
  method Consume(queue: seq<Event>, polls: seq<Poll>, start: int, duration: int)
    returns (out: seq<Yielded>, at: seq<nat>, taken: nat, polled: nat)
    requires forall i :: 0 <= i < |queue| ==> queue[i].timeRemaining.None?
    ensures taken <= |queue|
    ensures Delivered(out) == queue[..taken]
    ensures TicksWellFormed(out, 0)
    ensures Annotated(out)
    ensures polled <= |polls| && Schedule(out, at, polls, start, duration, polled)
    ensures forall j :: 0 <= j < polled - 1 ==> polls[j].now - start < duration
    ensures forall i :: 0 <= i < |at| && at[i] < polled - 1 ==> !polls[at[i]].timerFired
    ensures polled < |polls| ==>
              && polled > 0
              && (|| polls[polled - 1].now - start >= duration
                  || (|at| > 0 && at[|at| - 1] == polled - 1 && polls[polled - 1].timerFired))
    ensures var n := ReadyPolls(polls[..polled], start, duration);
            taken == if n < |queue| then n else |queue|
  {
    var c := Consumer([], [], 0, 0, 0, false);
    Initial(queue, polls, start, duration);
    while c.polled < |polls| && !c.stop
      invariant Yields(c, queue, polls, start, duration)
      invariant Stops(c, polls, start, duration)
      invariant Progress(c, queue, polls, start, duration)
      decreases |polls| - c.polled
    {
      StepKeeps(c, queue, polls, start, duration);
      c := PollStep(c, queue, polls, start, duration);
    }
    Finished(c, queue, polls, start, duration);
    out, at, taken, polled := c.out, c.at, c.taken, c.polled;
  }

  /** The data of an idle tick. */
  function TickText(remaining: int): string {
    "Recording in progress. Time remaining: " + IntToString(remaining) + " seconds"
  }

  /** A consumer item as the event dictionary the caller receives. */
  function Render(y: Yielded): Event {
    match y
    case FromQueue(e) => e
    case Tick(_, r) => Event(StatusEvent, TickText(r), None, Some(r))
  }

  function RenderAll(ys: seq<Yielded>): (es: seq<Event>)
    ensures |es| == |ys|
    ensures forall i :: 0 <= i < |ys| ==> es[i] == Render(ys[i])
  {
    if |ys| == 0 then [] else [Render(ys[0])] + RenderAll(ys[1..])
  }

  /** Why opening or configuring the connection failed. */
  datatype Failure = InvalidStatus(detail: string) | ClosedUnexpectedly(detail: string) | OtherError(detail: string)

  function FailureText(f: Failure): string {
    match f
    case InvalidStatus(d) => "Invalid status: " + d
    case ClosedUnexpectedly(d) => "Connection closed unexpectedly: " + d
    case OtherError(d) => "WebSocket connection error: " + d
  }

  /** How far the connection got: refused outright, opened but the session
      configuration failed, or opened and configured. */
  datatype Connection = Refused(failure: Failure) | ConfigFailed(failure: Failure) | Configured

  /** A full session's inputs beyond the recording flag. */
  datatype Session = Session(
    kind: ServiceKind,
    duration: int,
    start: int,
    connection: Connection,
    recvs: seq<Recv>,
    polls: seq<Poll>)

  predicate IsSessionEnd(e: Event) {
    e.kind == StatusEvent && e.data == SessionEndedText
  }

  function CountSessionEnds(es: seq<Event>): nat {
    if |es| == 0 then 0 else (if IsSessionEnd(es[0]) then 1 else 0) + CountSessionEnds(es[1..])
  }

  /** `stream_transcription`: the events yielded to the caller, the
      recording flag afterwards and the items the queue consumer produced
      (none unless the connection was opened and configured). */
  method StreamTranscription(isRecording: bool, s: Session)
    returns (events: seq<Event>, recordingAfter: bool, consumed: seq<Yielded>)
    ensures isRecording ==> events == [Error(AlreadyRecordingText)] && recordingAfter
    ensures isRecording ==> CountSessionEnds(events) == 0
    ensures !isRecording ==> !recordingAfter
    ensures !isRecording ==> |events| >= 2 && events[0] == Status("Starting transcription for " + IntToString(s.duration) + " seconds")
    ensures !isRecording ==> events[|events| - 1] == Status(SessionEndedText)
    ensures !isRecording ==> CountSessionEnds(events) == 1
    ensures !isRecording && s.connection.Refused? ==> |events| == 3 && events[1] == Error(FailureText(s.connection.failure))
    ensures !isRecording && s.connection.ConfigFailed? ==>
              events[1..] == [Status(EstablishedText), Error(FailureText(s.connection.failure)), Status(SessionEndedText)]
    ensures !(!isRecording && s.connection.Configured?) ==> consumed == []
    ensures !isRecording && s.connection.Configured? ==>
              && |events| == |consumed| + 4
              && events[1] == Status(EstablishedText) && events[2] == Status(ConfigSentText)
              && events[3..|events| - 1] == RenderAll(consumed)
              && Delivered(consumed) <= Receive(s.kind, s.recvs)
              && Annotated(consumed) && TicksWellFormed(consumed, 0)
  {
    consumed := [];
    if isRecording {
      events := [Error(AlreadyRecordingText)];
      recordingAfter := true;
      return;
    }
    var opening := Status("Starting transcription for " + IntToString(s.duration) + " seconds");
    var middle: seq<Event>;
    match s.connection {
      case Refused(f) =>
        middle := [Error(FailureText(f))];
      case ConfigFailed(f) =>
        middle := [Status(EstablishedText), Error(FailureText(f))];
      case Configured =>
        var queue := Receive(s.kind, s.recvs);
        QueueUnannotated(s.kind, s.recvs);
        var out, at, taken, polled := Consume(queue, s.polls, s.start, s.duration);
        consumed := out;
        middle := [Status(EstablishedText), Status(ConfigSentText)] + RenderAll(out);
        NoSessionEndInQueue(s.kind, s.recvs);
        NoSessionEndInRendered(out, queue, taken);
    }
    events := [opening] + middle + [Status(SessionEndedText)];
    recordingAfter := false;
    assert !IsSessionEnd(opening) by { assert opening.data[0] == 'S'; }
    Framed(opening, middle);
    if s.connection.Configured? {
      assert events[3..|events| - 1] == middle[2..];
    }
  }

  /** The opening status, the events in between and the terminal status:
      the terminal status is counted once when nothing else is one. */
  lemma Framed(opening: Event, middle: seq<Event>)
    requires !IsSessionEnd(opening)
    requires forall i :: 0 <= i < |middle| ==> !IsSessionEnd(middle[i])
    ensures var events := [opening] + middle + [Status(SessionEndedText)];
            && CountSessionEnds(events) == 1
            && events[1..|events| - 1] == middle
            && (forall i :: 0 <= i < |middle| ==> events[i + 1] == middle[i])
  {
    NoSessionEndCount(middle);
    CountSessionEndsAppend([opening] + middle, [Status(SessionEndedText)]);
    CountSessionEndsAppend([opening], middle);
  }

  lemma {:induction false} CountSessionEndsAppend(a: seq<Event>, b: seq<Event>)
    ensures CountSessionEnds(a + b) == CountSessionEnds(a) + CountSessionEnds(b)
  {
    if |a| > 0 {
      assert (a + b)[1..] == a[1..] + b;
      CountSessionEndsAppend(a[1..], b);
    } else {
      assert a + b == b;
    }
  }

  lemma {:induction false} NoSessionEndCount(es: seq<Event>)
    requires forall i :: 0 <= i < |es| ==> !IsSessionEnd(es[i])
    ensures CountSessionEnds(es) == 0
  {
    if |es| > 0 {
      NoSessionEndCount(es[1..]);
    }
  }

  /** Events built by the receive loop carry no time annotation. */
  lemma {:induction false} QueueUnannotated(kind: ServiceKind, recvs: seq<Recv>)
    ensures forall i :: 0 <= i < |Receive(kind, recvs)| ==> Receive(kind, recvs)[i].timeRemaining.None?
  {
    BodyUnannotated(kind, recvs);
  }

  lemma {:induction false} BodyUnannotated(kind: ServiceKind, recvs: seq<Recv>)
    ensures forall i :: 0 <= i < |ReceiveBody(kind, recvs)| ==> ReceiveBody(kind, recvs)[i].timeRemaining.None?
  {
    if |recvs| > 0 {
      BodyUnannotated(kind, recvs[1..]);
    }
  }

  /** No event of the receive loop is the terminal session status: its
      status texts are fixed and none of them is "Transcription session ended". */
  lemma {:induction false} NoSessionEndInQueue(kind: ServiceKind, recvs: seq<Recv>)
    ensures forall i :: 0 <= i < |Receive(kind, recvs)| ==> !IsSessionEnd(Receive(kind, recvs)[i])
  {
    NoSessionEndInBody(kind, recvs);
    assert !IsSessionEnd(Status(ReceivingCompleteText)) by {
      assert ReceivingCompleteText[0] == 'M';
    }
  }

  lemma {:induction false} NoSessionEndInBody(kind: ServiceKind, recvs: seq<Recv>)
    ensures forall i :: 0 <= i < |ReceiveBody(kind, recvs)| ==> !IsSessionEnd(ReceiveBody(kind, recvs)[i])
  {
    if |recvs| > 0 {
      NoSessionEndInBody(kind, recvs[1..]);
      assert ConnectionClosedText[0] == 'W';
      match recvs[0]
      case Received(Object(fields, base)) =>
        var e := Dispatch(kind, fields, base);
        if e.Some? && e.value.kind == StatusEvent {
          assert e.value.data in {SpeechDetectedText, SpeechStoppedText,
                                  "Transcription Session.Created", "Transcription Session.Updated"};
          assert SpeechDetectedText[..6] == "Speech";
          assert SpeechStoppedText[..6] == "Speech";
          assert "Transcription Session.Created"[14] == 'S';
          assert "Transcription Session.Updated"[14] == 'S';
          assert SessionEndedText[..6] == "Transc";
          assert SessionEndedText[14] == 's';
        }
      case _ =>
    }
  }

  /** Rendering the consumer's items introduces no terminal status: ticks
      read "Recording in progress..." and queued events come from the queue. */
  lemma NoSessionEndInRendered(out: seq<Yielded>, queue: seq<Event>, taken: nat)
    requires forall i :: 0 <= i < |queue| ==> !IsSessionEnd(queue[i])
    requires taken <= |queue| && Delivered(out) == queue[..taken]
    ensures forall i :: 0 <= i < |RenderAll(out)| ==> !IsSessionEnd(RenderAll(out)[i])
  {
    forall i | 0 <= i < |out| ensures !IsSessionEnd(Render(out[i])) {
      match out[i]
      case Tick(_, r) =>
        assert TickText(r)[0] == 'R';
        assert SessionEndedText[0] == 'T';
      case FromQueue(e) =>
        DeliveredMember(out, i);
        var j :| 0 <= j < |Delivered(out)| && Delivered(out)[j] == e.(timeRemaining := None);
        assert queue[j] == e.(timeRemaining := None);
    }
  }

  lemma {:induction false} DeliveredMember(out: seq<Yielded>, i: int)
    requires 0 <= i < |out| && out[i].FromQueue?
    ensures exists j :: 0 <= j < |Delivered(out)| && Delivered(out)[j] == out[i].event.(timeRemaining := None)
    decreases |out|
  {
    var init := out[..|out| - 1];
    if i == |out| - 1 {
      assert Delivered(out)[|Delivered(out)| - 1] == out[i].event.(timeRemaining := None);
    } else {
      assert init[i] == out[i];
      DeliveredMember(init, i);
      var j :| 0 <= j < |Delivered(init)| && Delivered(init)[j] == init[i].event.(timeRemaining := None);
      assert Delivered(out)[j] == Delivered(init)[j];
    }
  }
}
