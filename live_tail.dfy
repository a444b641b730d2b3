/** The live tail returned by `stream`: where it resumes the change feed,
    which changes it re-emits, and how `destroy` tears it down. The stream
    is a state machine driven by four inputs: the `info` reply, a change or
    an error from the feed, and a `destroy` call. */
module LiveTail {
  import opened Values

  /** A change notification as the feed delivers it (documents included). */
  datatype Change = Change(deleted: Value, doc: Value)

  /** The change filter: re-emitted exactly when the change is not a
      deletion and carries a document with (truthy) `params`. */
  predicate Accepted(c: Change): (r: bool)
    ensures r <==> && !Truthy(c.deleted) && c.doc.Obj? && "params" in c.doc.props
                   && Truthy(c.doc.props["params"])
  {
    !Truthy(c.deleted) && Truthy(c.doc) && Truthy(Get(c.doc, "params"))
  }

  /** The parameters a change carries. */
  function ParamsOf(c: Change): Value {
    Get(c.doc, "params")
  }

  /** The payload one change produces: its parameters when accepted, nothing otherwise. */
  function Emitted(c: Change): (r: seq<Value>)
    ensures |r| <= 1 && (r != [] <==> Accepted(c))
  {
    if Accepted(c) then [ParamsOf(c)] else []
  }

  /** The `log` payloads a sequence of changes produces, in delivery order. */
  function Logs(changes: seq<Change>): (r: seq<Value>)
    ensures |r| <= |changes|
  {
    if changes == [] then []
    else Emitted(changes[0]) + Logs(changes[1..])
  }

  /** A stretch of the feed produces no log exactly when none of its
      changes passes the filter. */
  lemma {:induction false} LogsEmptyIffNoneAccepted(changes: seq<Change>)
    ensures Logs(changes) == [] <==> forall i :: 0 <= i < |changes| ==> !Accepted(changes[i])
  {
    if changes != [] {
      LogsEmptyIffNoneAccepted(changes[1..]);
      assert forall i :: 1 <= i < |changes| ==> changes[1..][i - 1] == changes[i];
    }
  }

  /** The filter works change by change: the logs of two stretches of the
      feed are the logs of the first followed by the logs of the second. */
  lemma {:induction false} LogsAppend(a: seq<Change>, b: seq<Change>)
    ensures Logs(a + b) == Logs(a) + Logs(b)
  {
    if a == [] {
      assert a + b == b;
    } else {
      assert (a + b)[0] == a[0] && (a + b)[1..] == a[1..] + b;
      LogsAppend(a[1..], b);
      assert Emitted(a[0]) + (Logs(a[1..]) + Logs(b)) == (Emitted(a[0]) + Logs(a[1..])) + Logs(b);
    }
  }

  /** The sequence number the feed resumes from: `null` when `start` is
      `-1` or falsy, the database's current `update_seq` otherwise. */
  function Since(start: Value, updateSeq: int): (r: Option<int>)
    ensures r.None? <==> start == Num(-1) || !Truthy(start)
    ensures r.Some? ==> r.value == updateSeq
  {
    if start == Num(-1) || !Truthy(start) then None else Some(updateSeq)
  }

  /** Beyond `-1` and falsiness the value of `start` is ignored: any two
      other values resume from the same place. */
  lemma SinceIgnoresStartValue(a: Value, b: Value, updateSeq: int)
    requires Truthy(a) && a != Num(-1) && Truthy(b) && b != Num(-1)
    ensures Since(a, updateSeq) == Since(b, updateSeq) == Some(updateSeq)
  {
  }

  /** The change feed: not subscribed yet, subscribed from `since`, or stopped. */
  datatype Feed = Unsubscribed | Running(since: Option<int>) | Stopped(since: Option<int>)

  datatype TailEvent = LogEvent(params: Value) | StreamError(error: Error)

  datatype TailState = TailState(destroyed: bool, feed: Feed, events: seq<TailEvent>)

  datatype TailInput =
    | InfoReply(info: Result<int, Error>)
    | FeedChange(change: Change)
    | FeedError(error: Error)
    | DestroyCall

  const Fresh := TailState(false, Unsubscribed, [])

  /** `destroy`: mark the stream destroyed and stop the feed. Stopping a
      feed that does not exist yet, or is already stopped, throws inside
      the `try` and is swallowed, so the call always completes. */
  function AfterDestroy(s: TailState): (t: TailState)
    ensures t.destroyed && !t.feed.Running? && t.events == s.events
  {
    TailState(true, if s.feed.Running? then Stopped(s.feed.since) else s.feed, s.events)
  }

  /** A change or an error from the feed; only a running feed delivers. */
  function Deliver(s: TailState, i: TailInput): (t: TailState)
    requires i.FeedChange? || i.FeedError?
    ensures t.destroyed == s.destroyed && t.feed == s.feed
  {
    if !s.feed.Running? then s
    else match i
      case FeedChange(c) => s.(events := s.events + LogEvents(Emitted(c)))
      case FeedError(e) => s.(events := s.events + [StreamError(e)])
  }

  /** The stream as written: the `info` reply subscribes to the feed even
      when the stream was destroyed while the reply was outstanding. */
  function StepAsWritten(start: Value, s: TailState, i: TailInput): (t: TailState)
    // a successful reply subscribes, whether or not the stream was destroyed
    ensures i.InfoReply? && i.info.Success? ==> t.feed == Running(Since(start, i.info.value))
    // only `destroy` sets the flag, and nothing resets it
    ensures t.destroyed == (s.destroyed || i.DestroyCall?)
    // events are only ever appended
    ensures s.events <= t.events
  {
    match i
    case InfoReply(Failure(e)) => s.(events := s.events + [StreamError(e)])
    case InfoReply(Success(u)) => s.(feed := Running(Since(start, u)))
    case DestroyCall => AfterDestroy(s)
    case _ => Deliver(s, i)
  }

  /** The stream as intended: a reply that arrives after `destroy` is dropped. */
  function Step(start: Value, s: TailState, i: TailInput): (t: TailState)
    ensures s.destroyed && !s.feed.Running? ==> t == s
    ensures !s.destroyed ==> t == StepAsWritten(start, s, i)
  {
    if s.destroyed && i.InfoReply? then s else StepAsWritten(start, s, i)
  }

  /** A run of the stream over a sequence of inputs. */
  function Run(start: Value, s: TailState, inputs: seq<TailInput>): TailState
    decreases inputs
  {
    if inputs == [] then s else Run(start, Step(start, s, inputs[0]), inputs[1..])
  }

  function RunAsWritten(start: Value, s: TailState, inputs: seq<TailInput>): (t: TailState)
    ensures t.destroyed == (s.destroyed || DestroyCall in inputs)
    ensures s.events <= t.events
    decreases inputs
  {
    if inputs == [] then s else RunAsWritten(start, StepAsWritten(start, s, inputs[0]), inputs[1..])
  }

  /** After `destroy` the stream emits nothing more, whatever arrives. */
  lemma {:induction false} NothingAfterDestroy(start: Value, s: TailState, inputs: seq<TailInput>)
    ensures Run(start, s, [DestroyCall] + inputs).events == s.events
    ensures Run(start, s, [DestroyCall] + inputs).destroyed
  {
    assert ([DestroyCall] + inputs)[1..] == inputs;
    QuietOnceDestroyed(start, AfterDestroy(s), inputs);
  }

  lemma {:induction false} QuietOnceDestroyed(start: Value, s: TailState, inputs: seq<TailInput>)
    requires s.destroyed && !s.feed.Running?
    ensures Run(start, s, inputs) == s
    decreases inputs
  {
    if inputs != [] {
      QuietOnceDestroyed(start, Step(start, s, inputs[0]), inputs[1..]);
    }
  }

  function ChangeInputs(changes: seq<Change>): (r: seq<TailInput>)
    ensures |r| == |changes| && forall i :: 0 <= i < |r| ==> r[i] == FeedChange(changes[i])
  {
    seq(|changes|, i requires 0 <= i < |changes| => FeedChange(changes[i]))
  }

  function LogEvents(payloads: seq<Value>): (r: seq<TailEvent>)
    ensures |r| == |payloads| && forall i :: 0 <= i < |r| ==> r[i] == LogEvent(payloads[i])
  {
    seq(|payloads|, i requires 0 <= i < |payloads| => LogEvent(payloads[i]))
  }

  /** While the feed runs, the stream re-emits exactly the filtered
      parameters of the delivered changes, in delivery order. */
  lemma {:induction false} RunningFeedEmitsLogs(start: Value, s: TailState, changes: seq<Change>)
    requires s.feed.Running?
    ensures Run(start, s, ChangeInputs(changes)) == s.(events := s.events + LogEvents(Logs(changes)))
    decreases changes
  {
    if changes == [] {
      assert s.events + LogEvents([]) == s.events;
    } else {
      var head := LogEvents(Emitted(changes[0]));
      var rest := LogEvents(Logs(changes[1..]));
      var t := Step(start, s, FeedChange(changes[0]));
      assert t == s.(events := s.events + head);
      RunFirstChange(start, s, changes);
      RunningFeedEmitsLogs(start, t, changes[1..]);
      LogEventsAppend(Emitted(changes[0]), Logs(changes[1..]));
      assert (s.events + head) + rest == s.events + (head + rest);
    }
  }

  lemma RunFirstChange(start: Value, s: TailState, changes: seq<Change>)
    requires changes != []
    ensures Run(start, s, ChangeInputs(changes)) == Run(start, Step(start, s, FeedChange(changes[0])), ChangeInputs(changes[1..]))
  {
    var inputs := ChangeInputs(changes);
    assert inputs[1..] == ChangeInputs(changes[1..]);
  }

  lemma LogEventsAppend(a: seq<Value>, b: seq<Value>)
    ensures LogEvents(a + b) == LogEvents(a) + LogEvents(b)
  {
  }

  /** `stream({start: -1})` followed by a successful `info` reply tails from
      the current position and re-emits every accepted change. */
  lemma TailFromNow(updateSeq: int, changes: seq<Change>)
    ensures Run(Num(-1), Fresh, [InfoReply(Success(updateSeq))] + ChangeInputs(changes)) ==
            TailState(false, Running(None), LogEvents(Logs(changes)))
  {
    var inputs := [InfoReply(Success(updateSeq))] + ChangeInputs(changes);
    assert inputs[1..] == ChangeInputs(changes);
    RunningFeedEmitsLogs(Num(-1), TailState(false, Running(None), []), changes);
  }

  /** The code as written: `destroy` called before the `info` reply does not
      keep the stream quiet; the reply subscribes and a later change is emitted. */
  lemma DestroyBeforeInfoStillEmits()
    ensures var c := Change(Undefined, Obj(map["params" := Obj(map["level" := Str("info")])]));
            RunAsWritten(Undefined, Fresh, [DestroyCall, InfoReply(Success(7)), FeedChange(c)]).events ==
            [LogEvent(Obj(map["level" := Str("info")]))]
  {
    var params := Obj(map["level" := Str("info")]);
    var c := Change(Undefined, Obj(map["params" := params]));
    assert Accepted(c) && ParamsOf(c) == params;
    var inputs := [DestroyCall, InfoReply(Success(7)), FeedChange(c)];
    var s1 := TailState(true, Unsubscribed, []);
    var s2 := TailState(true, Running(None), []);
    var s3 := TailState(true, Running(None), [LogEvent(params)]);
    assert StepAsWritten(Undefined, Fresh, DestroyCall) == s1;
    assert StepAsWritten(Undefined, s1, InfoReply(Success(7))) == s2;
    assert StepAsWritten(Undefined, s2, FeedChange(c)) == s3;
    assert inputs[1..] == [InfoReply(Success(7)), FeedChange(c)];
    assert inputs[1..][1..] == [FeedChange(c)];
    assert inputs[1..][1..][1..] == [];
    assert RunAsWritten(Undefined, s3, []) == s3;
    assert RunAsWritten(Undefined, s2, [FeedChange(c)]) == s3;
    assert RunAsWritten(Undefined, s1, [InfoReply(Success(7)), FeedChange(c)]) == s3;
  }

  /** The live stream object: the `destroyed` flag, the feed, and the
      events emitted so far. */
  class TailStream {
    const start: Value
    var destroyed: bool
    var feed: Feed
    var events: seq<TailEvent>

    function State(): TailState
      reads this
    {
      TailState(destroyed, feed, events)
    }

    constructor (start: Value)
      ensures this.start == start && State() == Fresh
    {
      this.start := start;
      destroyed := false;
      feed := Unsubscribed;
      events := [];
    }

    /** The `info` callback: report an error, or subscribe from `since`. */
    method OnInfo(info: Result<int, Error>)
      modifies this
      ensures State() == Step(start, old(State()), InfoReply(info))
    {
      if destroyed {
        return;
      }
      match info
      case Failure(e) =>
        events := events + [StreamError(e)];
      case Success(u) =>
        feed := Running(Since(start, u));
    }

    /** The feed's `change` handler. */
    method OnChange(c: Change)
      modifies this
      ensures State() == Step(start, old(State()), FeedChange(c))
    {
      if feed.Running? && Accepted(c) {
        events := events + [LogEvent(ParamsOf(c))];
      }
    }

    /** The feed's `error` handler. */
    method OnFeedError(e: Error)
      modifies this
      ensures State() == Step(start, old(State()), FeedError(e))
    {
      if feed.Running? {
        events := events + [StreamError(e)];
      }
    }

    /** `destroy`: never fails, whatever the state of the feed. */
    method Destroy()
      modifies this
      ensures State() == Step(start, old(State()), DestroyCall)
      ensures destroyed && !feed.Running?
    {
      destroyed := true;
      if feed.Running? {
        feed := Stopped(feed.since);
      }
    }
  }
}
