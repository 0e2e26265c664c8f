/** The room's countdown-timer middleware: one handler of the message pipeline
    and the per-second tick it schedules. */
module CountdownTimer {
  import opened Messages

  const SetMethod: string := "moderator:setCountdownTimer"
  const ToggleMethod: string := "moderator:toggleCountdownTimer"
  const StartMethod: string := "moderator:startCountdownTimer"
  const StopMethod: string := "moderator:stopCountdownTimer"

  predicate IsTimerMethod(m: string)
  {
    m == SetMethod || m == ToggleMethod || m == StartMethod || m == StopMethod
  }

  /** What the middleware does that others observe: `room.notifyPeers(method,
      data, excludePeer?)`, and the call of `next()`. */
  datatype Effect =
    | Broadcast(methodName: string, data: Data, except: Option<string>)
    | Next

  /** The `countdownTimer` record together with the interval handle: `ticker` is
      `Some(peerId)` while a per-second tick started by that peer is scheduled. */
  datatype TimerState = TimerState(left: Value, isEnabled: Value, isRunning: bool, ticker: Option<string>)

  /** The timer runs exactly while a tick is scheduled. */
  predicate Scheduled(s: TimerState)
  {
    s.isRunning <==> s.ticker.Some?
  }

  datatype Handled = Handled(state: TimerState, handled: bool, broadcasts: seq<Effect>)

  datatype Ticked = Ticked(state: TimerState, broadcasts: seq<Effect>)

  /** The `switch (message.method)` of the middleware, given the state and the
      context's `handled` flag on entry. */
  function Dispatch(s: TimerState, peerId: string, msg: Message, handled: bool): (r: Handled)
    ensures r.handled == (handled || IsTimerMethod(msg.methodName))
    ensures !IsTimerMethod(msg.methodName) ==> r.state == s && r.broadcasts == []
    ensures msg.methodName == SetMethod ==>
              r.state == s.(left := Field(msg.data, "left"))
              && r.broadcasts == [Broadcast(SetMethod, map["peerId" := FromString(peerId), "left" := Field(msg.data, "left")], None)]
    ensures msg.methodName == ToggleMethod ==>
              r.state == s.(isEnabled := Field(msg.data, "isEnabled"))
              && r.broadcasts == [Broadcast(ToggleMethod, map["peerId" := FromString(peerId), "isEnabled" := Field(msg.data, "isEnabled")], Some(peerId))]
    ensures msg.methodName == StartMethod ==>
              r.state == s.(isRunning := true, ticker := Some(peerId)) && r.broadcasts == []
    ensures msg.methodName == StopMethod && s.isRunning ==>
              r.state == s.(isRunning := false, ticker := None)
              && r.broadcasts == [Broadcast(SetMethod, map["peerId" := FromString(peerId), "left" := s.left, "isRunning" := Flag(false)], None)]
    ensures msg.methodName == StopMethod && !s.isRunning ==> r.state == s && r.broadcasts == []
    ensures |r.broadcasts| <= 1
    ensures Scheduled(s) ==> Scheduled(r.state)
  {
    if msg.methodName == SetMethod then
      var left := Field(msg.data, "left");
      Handled(s.(left := left), true, [Broadcast(SetMethod, map["peerId" := FromString(peerId), "left" := left], None)])
    else if msg.methodName == ToggleMethod then
      var isEnabled := Field(msg.data, "isEnabled");
      Handled(s.(isEnabled := isEnabled), true,
              [Broadcast(ToggleMethod, map["peerId" := FromString(peerId), "isEnabled" := isEnabled], Some(peerId))])
    else if msg.methodName == StartMethod then
      Handled(s.(isRunning := true, ticker := Some(peerId)), true, [])
    else if msg.methodName == StopMethod then
      if s.isRunning then
        Handled(s.(isRunning := false, ticker := None), true,
                [Broadcast(SetMethod, map["peerId" := FromString(peerId), "left" := s.left, "isRunning" := Flag(false)], None)])
      else
        Handled(s, true, [])
    else
      Handled(s, handled, [])
  }

  /** `moment.unix(moment('1000-01-01 ' + left).unix() - 1).format('HH:mm:ss')`:
      one second earlier, wrapping from 00:00:00 to 23:59:59; anything that is
      not a time gives 'Invalid date'. */
  function TickLeft(left: Value): (r: Value)
    ensures left.Time? && left.seconds > 0 ==> r == Time(left.seconds - 1)
    ensures left == Time(0) ==> r == Time(SecondsPerDay - 1)
    ensures !left.Time? ==> r == Text("Invalid date")
  {
    match left
    case Time(s) => Time((s - 1) % SecondsPerDay)
    case _ => Text("Invalid date")
  }

  /** The stop test `left === end`: the decremented time is midnight of the same day. */
  predicate ReachesEnd(left: Value)
  {
    left == Time(1)
  }

  /** One firing of the scheduled interval callback; `roomEmpty` is `room.empty`. */
  function TickStep(s: TimerState, roomEmpty: bool): (r: Ticked)
    ensures s.ticker.None? ==> r == Ticked(s, [])
    ensures s.ticker.Some? ==>
              |r.broadcasts| > 0
              && r.broadcasts[0] == Broadcast(SetMethod, map["peerId" := FromString(s.ticker.value), "isEnabled" := s.isEnabled,
                                                              "left" := TickLeft(s.left), "isRunning" := Flag(s.isRunning)], None)
    ensures s.ticker.Some? && (ReachesEnd(s.left) || roomEmpty) ==>
              r.state == s.(left := Time(0), isRunning := false, ticker := None)
              && r.broadcasts == [r.broadcasts[0], Broadcast(SetMethod, map["peerId" := FromString(s.ticker.value), "left" := Time(0),
                                                                        "isRunning" := Flag(false)], None)]
    ensures s.ticker.Some? && !ReachesEnd(s.left) && !roomEmpty ==>
              r.state == s.(left := TickLeft(s.left)) && r.broadcasts == [r.broadcasts[0]]
    ensures Scheduled(s) ==> Scheduled(r.state)
  {
    match s.ticker
    case None => Ticked(s, [])
    case Some(starter) =>
      var left := TickLeft(s.left);
      var update := Broadcast(SetMethod, map["peerId" := FromString(starter), "isEnabled" := s.isEnabled,
                                             "left" := left, "isRunning" := Flag(s.isRunning)], None);
      if ReachesEnd(s.left) || roomEmpty then
        Ticked(s.(left := Time(0), isRunning := false, ticker := None),
               [update, Broadcast(SetMethod, map["peerId" := FromString(starter), "left" := Time(0),
                                                 "isRunning" := Flag(false)], None)])
      else
        Ticked(s.(left := left), [update])
  }

  /** The state after `n` ticks in a room that stays occupied. */
  function Ticks(s: TimerState, n: nat): TimerState
    decreases n
  {
    if n == 0 then s else Ticks(TickStep(s, false).state, n - 1)
  }

  /** A running timer showing `n` seconds (n >= 1) is still running, showing
      `n - k` seconds, after `k < n` ticks, and has stopped at 00:00:00 after `n`. */
  lemma {:induction false} CountsDownToZero(s: TimerState, n: nat, k: nat)
    requires s.ticker.Some? && 1 <= n < SecondsPerDay && s.left == Time(n) && k <= n
    decreases k
    ensures k < n ==> Ticks(s, k) == s.(left := Time(n - k))
    ensures k == n ==> Ticks(s, k) == s.(left := Time(0), isRunning := false, ticker := None)
  {
    if k > 0 {
      var next := TickStep(s, false).state;
      if n == 1 {
        assert next == s.(left := Time(0), isRunning := false, ticker := None);
      } else {
        assert next == s.(left := Time(n - 1));
        CountsDownToZero(next, n - 1, k - 1);
      }
    }
  }

  /** A timer started at 00:00:00 does not stop at once: the first tick wraps it
      to 23:59:59, it is still running after every tick `k` of the day, showing
      86400 - k seconds, and it stops only at tick 86400. */
  lemma StartedAtZeroRunsADay(s: TimerState)
    requires s.ticker.Some? && s.left == Time(0)
    ensures forall k :: 1 <= k < SecondsPerDay ==> Ticks(s, k) == s.(left := Time(SecondsPerDay - k))
    ensures Ticks(s, SecondsPerDay) == s.(left := Time(0), isRunning := false, ticker := None)
  {
    var next := TickStep(s, false).state;
    assert next == s.(left := Time(SecondsPerDay - 1));
    forall k | 1 <= k < SecondsPerDay
      ensures Ticks(s, k) == s.(left := Time(SecondsPerDay - k))
    {
      CountsDownToZero(next, SecondsPerDay - 1, k - 1);
    }
    CountsDownToZero(next, SecondsPerDay - 1, SecondsPerDay - 1);
  }

  /** A second stop changes nothing and broadcasts nothing, but is still handled. */
  lemma StopIsIdempotent(s: TimerState, p: string, q: string, msg: Message, handled: bool)
    requires msg.methodName == StopMethod
    ensures var once := Dispatch(s, p, msg, handled);
            var twice := Dispatch(once.state, q, msg, once.handled);
            twice.state == once.state && twice.broadcasts == [] && twice.handled
  {
  }

  // ------------------------------------------------------------- objects

  /** The room's `countdownTimer` record. */
  class Timer {
    var left: Value
    var isEnabled: Value
    var isRunning: bool

    constructor (left: Value, isEnabled: Value)
      ensures this.left == left && this.isEnabled == isEnabled && !isRunning
    {
      this.left := left;
      this.isEnabled := isEnabled;
      isRunning := false;
    }
  }

  /** The per-message context the pipeline hands to each middleware. */
  class Context {
    const peerId: string
    const message: Message
    var handled: bool
    var response: Data

    constructor (peerId: string, message: Message)
      ensures this.peerId == peerId && this.message == message && !handled && response == map[]
    {
      this.peerId := peerId;
      this.message := message;
      handled := false;
      response := map[];
    }
  }

  /** The closure returned by `createCountdownTimerMiddleware`, with the state it
      captures: the room's timer record and the interval handle. */
  class TimerMiddleware {
    const timer: Timer
    var ticker: Option<string>
    var effects: seq<Effect>

    function State(): TimerState
      reads this, timer
    {
      TimerState(timer.left, timer.isEnabled, timer.isRunning, ticker)
    }

    ghost predicate Valid()
      reads this, timer
    {
      Scheduled(State())
    }

    /** No interval is scheduled yet, so the state is consistent exactly when the
        record does not claim to be running. */
    constructor (timer: Timer)
      ensures this.timer == timer && ticker.None? && effects == []
      ensures Valid() <==> !timer.isRunning
    {
      this.timer := timer;
      ticker := None;
      effects := [];
    }

    /** The middleware: updates the timer, broadcasts, marks a recognised message
        handled, and then calls `next()` exactly once. */
    method Handle(ctx: Context)
      modifies timer, this`ticker, this`effects, ctx`handled
      ensures old(Valid()) ==> Valid()
      ensures State() == Dispatch(old(State()), ctx.peerId, ctx.message, old(ctx.handled)).state
      ensures ctx.handled == Dispatch(old(State()), ctx.peerId, ctx.message, old(ctx.handled)).handled
      ensures effects == old(effects) + Dispatch(old(State()), ctx.peerId, ctx.message, old(ctx.handled)).broadcasts + [Next]
    {
      var m := ctx.message.methodName;
      if m == SetMethod {
        var left := Field(ctx.message.data, "left");
        timer.left := left;
        effects := effects + [Broadcast(SetMethod, map["peerId" := FromString(ctx.peerId), "left" := timer.left], None)];
        ctx.handled := true;
      } else if m == ToggleMethod {
        var isEnabled := Field(ctx.message.data, "isEnabled");
        timer.isEnabled := isEnabled;
        effects := effects + [Broadcast(ToggleMethod, map["peerId" := FromString(ctx.peerId), "isEnabled" := timer.isEnabled],
                                        Some(ctx.peerId))];
        ctx.handled := true;
      } else if m == StartMethod {
        timer.isRunning := true;
        ticker := Some(ctx.peerId);   // clearInterval, then setInterval capturing the peer
        ctx.handled := true;
      } else if m == StopMethod {
        if timer.isRunning {
          timer.isRunning := false;
          ticker := None;             // clearInterval
          effects := effects + [Broadcast(SetMethod, map["peerId" := FromString(ctx.peerId), "left" := timer.left,
                                                         "isRunning" := Flag(timer.isRunning)], None)];
        }
        ctx.handled := true;
      }
      effects := effects + [Next];
    }

    /** One firing of the scheduled interval; nothing fires when none is scheduled. */
    method Tick(roomEmpty: bool)
      modifies timer, this`ticker, this`effects
      ensures old(Valid()) ==> Valid()
      ensures State() == TickStep(old(State()), roomEmpty).state
      ensures effects == old(effects) + TickStep(old(State()), roomEmpty).broadcasts
    {
      if ticker.None? {
        return;
      }
      var starter := ticker.value;
      var ended := ReachesEnd(timer.left);
      timer.left := TickLeft(timer.left);
      effects := effects + [Broadcast(SetMethod, map["peerId" := FromString(starter), "isEnabled" := timer.isEnabled,
                                                     "left" := timer.left, "isRunning" := Flag(timer.isRunning)], None)];
      if ended || roomEmpty {
        ticker := None;               // clearInterval
        timer.isRunning := false;
        timer.left := Time(0);
        effects := effects + [Broadcast(SetMethod, map["peerId" := FromString(starter), "left" := timer.left,
                                                       "isRunning" := Flag(timer.isRunning)], None)];
      }
    }
  }
}
