/**
 The stream watchdog: a response-header, a first-token and an idle timer, driven by the
 transport, the protocol and the clock.  Budgets and times are counts of nanoseconds; a
 timer that expires launches a callback, which runs at some later moment.
 */
module Watchdog {
  import opened Common

  datatype Phase = ResponseHeader | FirstTokenPhase | StreamIdle

  datatype Cause = DeadlineExceeded | FirstTokenTimeout | IdleTimeout | Canceled | ParentCanceled

  /** A budget that is not positive means no such protection. */
  datatype Config = Config(header: int, first: int, idle: int)

  datatype Timer = NoTimer | Timer(deadline: Option<int>, launched: nat) {

    function Stop(): Timer {
      if Timer? then this.(deadline := None) else this
    }

    function Reset(at: int): Timer {
      if Timer? then this.(deadline := Some(at)) else this
    }
  }

  predicate Armed(t: Timer) {
    t.Timer? && t.deadline.Some?
  }

  datatype Which = HeaderTimer | FirstTimer | IdleTimer

  /** Only the first value counts. */
  function Keep<T>(first: Option<T>, v: T): Option<T> {
    if first.None? then Some(v) else first
  }

  datatype Watch = Watch(
    config: Config, now: int, started: Option<int>, canceled: bool, headersDone: bool, firstToken: bool,
    header: Timer, first: Timer, idle: Timer, expired: bool, phase: Option<Phase>, cause: Option<Cause>)
  {
    function Of(k: Which): Timer {
      match k
      case HeaderTimer => header
      case FirstTimer => first
      case IdleTimer => idle
    }

    function ArmIdle(): Watch {
      if config.idle > 0 && idle.NoTimer? then this.(idle := Timer(Some(now + config.idle), 0)) else this
    }
  }

  function New(config: Config, now: int): Watch {
    Watch(config, now, None, false, false, false, NoTimer, NoTimer, NoTimer, false, None, None)
  }

  // ----- the five handles

  function OnStart(w: Watch): Watch {
    if w.started.Some? || w.canceled then w
    else
      var w1 := w.(started := Some(w.now));
      var w2 := if w.config.header > 0 && !w.headersDone then w1.(header := Timer(Some(w.now + w.config.header), 0)) else w1;
      var w3 := if w.config.first > 0 && !w.firstToken then w2.(first := Timer(Some(w.now + w.config.first), 0)) else w2;
      if w.firstToken || (w.headersDone && w.config.first <= 0) then w3.ArmIdle() else w3
  }

  function OnHeaders(w: Watch): Watch {
    if w.headersDone then w
    else
      var w1 := w.(headersDone := true, header := w.header.Stop());
      if w.started.Some? && w.config.first <= 0 then w1.ArmIdle() else w1
  }

  function OnToken(w: Watch): Watch {
    if w.firstToken then w
    else
      var w1 := w.(firstToken := true, first := w.first.Stop());
      if w.started.Some? then w1.ArmIdle() else w1
  }

  function OnActivity(w: Watch): Watch {
    if w.config.idle <= 0 then w else w.(idle := w.idle.Reset(w.now + w.config.idle))
  }

  function OnCancel(w: Watch): Watch {
    w.(canceled := true, header := w.header.Stop(), first := w.first.Stop(), idle := w.idle.Stop(), cause := Keep(w.cause, Canceled))
  }

  // ----- the clock and the callbacks

  function PhaseOf(k: Which): Phase {
    match k
    case HeaderTimer => ResponseHeader
    case FirstTimer => FirstTokenPhase
    case IdleTimer => StreamIdle
  }

  function CauseOf(k: Which): Cause {
    match k
    case HeaderTimer => DeadlineExceeded
    case FirstTimer => FirstTokenTimeout
    case IdleTimer => IdleTimeout
  }

  predicate Due(w: Watch, k: Which) {
    Armed(w.Of(k)) && w.Of(k).deadline.value <= w.now
  }

  /** A due timer launches its callback. */
  function Expire(w: Watch, k: Which): Watch {
    if !Due(w, k) then w
    else
      match k
      case HeaderTimer => w.(header := Timer(None, w.header.launched + 1), expired := true)
      case FirstTimer => w.(first := Timer(None, w.first.launched + 1), expired := true)
      case IdleTimer => w.(idle := Timer(None, w.idle.launched + 1), expired := true)
  }

  /** A launched callback records its phase and cancels the stream. */
  function Callback(w: Watch, k: Which): Watch {
    if w.Of(k).Timer? && w.Of(k).launched > 0
    then
      var w' := w.(phase := Keep(w.phase, PhaseOf(k)), cause := Keep(w.cause, CauseOf(k)));
      match k
      case HeaderTimer => w'.(header := w.header.(launched := w.header.launched - 1))
      case FirstTimer => w'.(first := w.first.(launched := w.first.launched - 1))
      case IdleTimer => w'.(idle := w.idle.(launched := w.idle.launched - 1))
    else w
  }

  datatype Event =
    | TransportStarted | Headers | Token | Activity | Canceling
    | Elapse(nanoseconds: nat) | Expires(k: Which) | Runs(k: Which) | ParentGone

  function Step(w: Watch, e: Event): Watch {
    match e
    case TransportStarted => OnStart(w)
    case Headers => OnHeaders(w)
    case Token => OnToken(w)
    case Activity => OnActivity(w)
    case Canceling => OnCancel(w)
    case Elapse(d) => w.(now := w.now + d)
    case Expires(k) => Expire(w, k)
    case Runs(k) => Callback(w, k)
    case ParentGone => w.(cause := Keep(w.cause, ParentCanceled))
  }

  function Run(w: Watch, events: seq<Event>): Watch {
    if events == [] then w else Step(Run(w, events[..|events| - 1]), events[|events| - 1])
  }

  // ----- invariant

  /** The first-token deadline counts from the start of the transport, and the idle timer waits for the first token. */
  predicate FirstOk(w: Watch) {
    w.config.first > 0 ==>
      && (Armed(w.first) ==> w.started.Some? && w.first.deadline.value == w.started.value + w.config.first && !w.firstToken)
      && (w.started.Some? && !w.canceled && !w.firstToken ==> w.first.Timer? && (Armed(w.first) || w.expired))
      && (w.idle.Timer? ==> w.firstToken)
  }

  predicate HeaderOk(w: Watch) {
    && (Armed(w.header) ==> w.started.Some? && w.header.deadline.value == w.started.value + w.config.header && !w.headersDone)
    && (w.config.header > 0 && w.started.Some? && !w.canceled && !w.headersDone ==> w.header.Timer? && (Armed(w.header) || w.expired))
  }

  /** While the stream runs and nothing has expired, somebody is watching. */
  predicate Watched(w: Watch) {
    w.started.Some? && !w.canceled && !w.expired ==>
      if w.config.first > 0 then
        if w.firstToken then w.config.idle > 0 ==> Armed(w.idle) else Armed(w.first)
      else
        if w.headersDone || w.firstToken then w.config.idle > 0 ==> Armed(w.idle)
        else w.config.header > 0 ==> Armed(w.header)
  }

  /** Timers exist only on a started stream, and one that exists is stopped only for a reason. */
  predicate Timely(w: Watch) {
    && (w.started.None? ==> w.header.NoTimer? && w.first.NoTimer? && w.idle.NoTimer?)
    && (w.started.Some? ==> w.started.value <= w.now)
    && (w.idle.Timer? && w.idle.deadline.None? ==> w.expired || w.canceled)
  }

  predicate Ok(w: Watch) {
    FirstOk(w) && HeaderOk(w) && Watched(w) && Timely(w)
  }

  lemma StartKeeps(w: Watch)
    requires Ok(w)
    ensures Ok(OnStart(w))
  {}

  lemma HeadersKeep(w: Watch)
    requires Ok(w)
    ensures Ok(OnHeaders(w))
  {}

  lemma TokenKeeps(w: Watch)
    requires Ok(w)
    ensures Ok(OnToken(w))
  {}

  lemma ActivityKeeps(w: Watch)
    requires Ok(w)
    ensures Ok(OnActivity(w))
  {}

  lemma CancelKeeps(w: Watch)
    requires Ok(w)
    ensures Ok(OnCancel(w))
  {}

  lemma ExpireKeeps(w: Watch, k: Which)
    requires Ok(w)
    ensures Ok(Expire(w, k))
  {}

  lemma CallbackKeeps(w: Watch, k: Which)
    requires Ok(w)
    ensures Ok(Callback(w, k))
  {
    match k
    case HeaderTimer =>
    case FirstTimer =>
    case IdleTimer =>
  }

  lemma ElapseKeeps(w: Watch, d: nat)
    requires Ok(w)
    ensures Ok(w.(now := w.now + d))
  {}

  lemma ParentKeeps(w: Watch)
    requires Ok(w)
    ensures Ok(w.(cause := Keep(w.cause, ParentCanceled)))
  {}

  lemma StepKeeps(w: Watch, e: Event)
    requires Ok(w)
    ensures Ok(Step(w, e))
  {
    hide Ok, OnStart, OnHeaders, OnToken, OnActivity, OnCancel, Expire, Callback;
    match e
    case TransportStarted => StartKeeps(w);
    case Headers => HeadersKeep(w);
    case Token => TokenKeeps(w);
    case Activity => ActivityKeeps(w);
    case Canceling => CancelKeeps(w);
    case Elapse(d) => ElapseKeeps(w, d);
    case Expires(k) => ExpireKeeps(w, k);
    case Runs(k) => CallbackKeeps(w, k);
    case ParentGone => ParentKeeps(w);
  }

  lemma StepKeepsConfig(w: Watch, e: Event)
    ensures Step(w, e).config == w.config
  {}

  lemma {:induction false} RunKeeps(config: Config, at: int, events: seq<Event>)
    ensures Ok(Run(New(config, at), events)) && Run(New(config, at), events).config == config
  {
    if events != [] {
      RunKeeps(config, at, events[..|events| - 1]);
      StepKeeps(Run(New(config, at), events[..|events| - 1]), events[|events| - 1]);
      StepKeepsConfig(Run(New(config, at), events[..|events| - 1]), events[|events| - 1]);
    }
  }

  // ----- the guarantees, over every sequence of events

  /**
   With a first-token budget, as long as the token has not come and nobody has cancelled,
   the deadline is the budget after the start of the transport, whatever headers and
   heartbeats arrive: once that moment has come the timer is due or something has expired.
   */
  lemma FirstTokenDeadlineStands(config: Config, at: int, events: seq<Event>)
    requires config.first > 0
    ensures var w := Run(New(config, at), events);
      w.started.Some? && !w.canceled && !w.firstToken ==>
        && (Armed(w.first) ==> w.first.deadline == Some(w.started.value + config.first))
        && (w.now >= w.started.value + config.first ==> Due(w, FirstTimer) || w.expired)
  {
    hide Run;
    RunKeeps(config, at, events);
    var w := Run(New(config, at), events);
    if w.started.Some? && !w.canceled && !w.firstToken { DeadlineStands(w); }
  }

  /** The same of the response headers and their budget. */
  lemma HeaderDeadlineStands(config: Config, at: int, events: seq<Event>)
    requires config.header > 0
    ensures var w := Run(New(config, at), events);
      w.started.Some? && !w.canceled && !w.headersDone ==>
        && (Armed(w.header) ==> w.header.deadline == Some(w.started.value + config.header))
        && (w.now >= w.started.value + config.header ==> Due(w, HeaderTimer) || w.expired)
  {
    hide Run;
    RunKeeps(config, at, events);
  }

  lemma DeadlineStands(w: Watch)
    requires FirstOk(w) && w.config.first > 0 && w.started.Some? && !w.canceled && !w.firstToken
    ensures Armed(w.first) ==> w.first.deadline == Some(w.started.value + w.config.first)
    ensures w.now >= w.started.value + w.config.first ==> Due(w, FirstTimer) || w.expired
  {}

  /**
   Activity moves the deadline of an existing idle timer to the idle budget from now, and
   nothing else: before there is such a timer it does nothing at all.
   */
  lemma ActivityMovesIdle(w: Watch)
    ensures w.config.idle > 0 && w.idle.Timer? ==>
              OnActivity(w) == w.(idle := Timer(Some(w.now + w.config.idle), w.idle.launched))
    ensures w.config.idle <= 0 || w.idle.NoTimer? ==> OnActivity(w) == w
  {}

  /** Nothing but activity moves the idle deadline; only a cancellation or its own expiry takes it away. */
  lemma IdleMovesOnlyByActivity(w: Watch, e: Event)
    requires Armed(w.idle) && e != Activity
    ensures Step(w, e).idle.Timer?
    ensures e != Canceling && e != Expires(IdleTimer) ==> Step(w, e).idle.deadline == w.idle.deadline
    ensures e == Expires(IdleTimer) && w.now < w.idle.deadline.value ==> Step(w, e).idle.deadline == w.idle.deadline
  {}

  /** The idle timer starts at the full budget from the token, or from the headers where there is no first-token budget. */
  lemma IdleStartsInFull(w: Watch)
    requires Ok(w) && w.config.idle > 0 && w.started.Some? && w.idle.NoTimer?
    ensures !w.firstToken ==> OnToken(w).idle == Timer(Some(w.now + w.config.idle), 0)
    ensures !w.headersDone ==> OnHeaders(w).idle == if w.config.first <= 0 then Timer(Some(w.now + w.config.idle), 0) else NoTimer
  {}

  /** The first start arms each timer that has a budget and is still to come, from now on; a second one does nothing. */
  lemma StartArms(w: Watch)
    requires Ok(w)
    ensures w.started.Some? || w.canceled ==> OnStart(w) == w
    ensures w.started.None? && !w.canceled ==>
      var w' := OnStart(w);
      && w'.started == Some(w.now) && w'.phase == w.phase && w'.cause == w.cause && w'.headersDone == w.headersDone && w'.firstToken == w.firstToken
      && w'.header == (if w.config.header > 0 && !w.headersDone then Timer(Some(w.now + w.config.header), 0) else NoTimer)
      && w'.first == (if w.config.first > 0 && !w.firstToken then Timer(Some(w.now + w.config.first), 0) else NoTimer)
      && w'.idle == (if w.config.idle > 0 && (w.firstToken || (w.config.first <= 0 && w.headersDone)) then Timer(Some(w.now + w.config.idle), 0) else NoTimer)
  {}

  /** What has arrived is not waited for any more, and a cancelled stream waits for nothing. */
  lemma ArrivalsDisarm(w: Watch)
    requires Ok(w)
    ensures OnHeaders(w).headersDone && !Armed(OnHeaders(w).header)
    ensures OnToken(w).firstToken && (w.config.first > 0 ==> !Armed(OnToken(w).first))
    ensures var c := OnCancel(w); c.canceled && !Armed(c.header) && !Armed(c.first) && !Armed(c.idle) && c.cause == (if w.cause.None? then Some(Canceled) else w.cause)
  {}

  /**
   A timer that is due, and no other, expires; its callback records the phase and the cause
   that belong to it, if none were recorded before.
   */
  lemma DueTimerEndsStream(w: Watch, k: Which)
    ensures !(Armed(w.Of(k)) && w.Of(k).deadline.value <= w.now) ==> Expire(w, k) == w
    ensures Armed(w.Of(k)) && w.Of(k).deadline.value <= w.now ==>
      var w' := Callback(Expire(w, k), k);
      && !Armed(w'.Of(k)) && w'.expired && (forall j: Which :: j != k ==> w'.Of(j) == w.Of(j))
      && (w.phase.None? ==> w'.phase == Some(match k case HeaderTimer => ResponseHeader case FirstTimer => FirstTokenPhase case IdleTimer => StreamIdle))
      && (w.cause.None? ==> w'.cause == Some(match k case HeaderTimer => DeadlineExceeded case FirstTimer => FirstTokenTimeout case IdleTimer => IdleTimeout))
  {
    match k
    case HeaderTimer =>
    case FirstTimer =>
    case IdleTimer =>
  }

  /** Neither headers nor heartbeats touch the first-token timer. */
  lemma HeadersAndHeartbeatsLeaveFirstToken(w: Watch)
    ensures OnHeaders(w).first == w.first && OnActivity(w).first == w.first
    ensures w.config.first > 0 ==> OnHeaders(w).idle == w.idle
  {}

  /** With a first-token budget the idle timer does not exist before the first token. */
  lemma IdleWaitsForFirstToken(config: Config, at: int, events: seq<Event>)
    requires config.first > 0 && !Run(New(config, at), events).firstToken
    ensures Run(New(config, at), events).idle.NoTimer?
  {
    RunKeeps(config, at, events);
  }

  /** With an idle budget and another one, a started stream on which nothing has expired is always being watched. */
  lemma SomeTimerIsArmed(config: Config, at: int, events: seq<Event>)
    requires config.idle > 0 && (config.first > 0 || config.header > 0)
    ensures var w := Run(New(config, at), events);
      w.started.Some? && !w.canceled && !w.expired ==> Armed(w.header) || Armed(w.first) || Armed(w.idle)
  {
    RunKeeps(config, at, events);
  }

  /** The first phase and the first cause to be recorded stay. */
  lemma {:induction false} FirstPhaseStays(w: Watch, events: seq<Event>)
    ensures w.phase.Some? ==> Run(w, events).phase == w.phase
    ensures w.cause.Some? ==> Run(w, events).cause == w.cause
  {
    if events != [] {
      FirstPhaseStays(w, events[..|events| - 1]);
      StepKeepsPhase(Run(w, events[..|events| - 1]), events[|events| - 1]);
    }
  }

  lemma StepKeepsPhase(w: Watch, e: Event)
    ensures w.phase.Some? ==> Step(w, e).phase == w.phase
    ensures w.cause.Some? ==> Step(w, e).cause == w.cause
  {}

  /** What must have happened before the timer of a phase can expire. */
  predicate RanOut(w: Watch, phase: Phase) {
    w.started.Some? && w.expired &&
    match phase
    case ResponseHeader => w.config.header > 0 && w.now >= w.started.value + w.config.header
    case FirstTokenPhase => w.config.first > 0 && w.now >= w.started.value + w.config.first
    case StreamIdle =>
      w.config.idle > 0 && w.now >= w.started.value + w.config.idle && (w.firstToken || (w.config.first <= 0 && w.headersDone))
  }

  /** A timer exists only with its budget, and the idle timer only once the stream has got that far. */
  predicate Budgeted(w: Watch) {
    && (w.header.Timer? ==> w.config.header > 0) && (w.first.Timer? ==> w.config.first > 0)
    && (Armed(w.first) ==> w.started.Some? && w.first.deadline.value == w.started.value + w.config.first)
    && (w.idle.Timer? ==> w.config.idle > 0 && w.started.Some? && (w.firstToken || (w.config.first <= 0 && w.headersDone)))
    && (Armed(w.idle) ==> w.started.Some? && w.idle.deadline.value >= w.started.value + w.config.idle)
  }

  predicate PhaseExplained(w: Watch) {
    && Budgeted(w) && (w.phase.Some? ==> RanOut(w, w.phase.value))
    && (Launched(w.header) ==> RanOut(w, ResponseHeader)) && (Launched(w.first) ==> RanOut(w, FirstTokenPhase))
    && (Launched(w.idle) ==> RanOut(w, StreamIdle))
  }

  predicate Launched(t: Timer) {
    t.Timer? && t.launched > 0
  }

  /**
   A recorded phase is the phase of a timer that ran out: its budget is set and has passed
   since the start of the transport, and an idle phase needs a stream that had its first
   token, or, without a first-token budget, its headers.
   */
  lemma {:induction false} PhaseMeansExpiry(config: Config, at: int, events: seq<Event>)
    ensures var w := Run(New(config, at), events); PhaseExplained(w) && (w.phase.Some? ==> RanOut(w, w.phase.value))
  {
    if events != [] {
      PhaseMeansExpiry(config, at, events[..|events| - 1]);
      RunKeeps(config, at, events[..|events| - 1]);
      ExplainedKeeps(Run(New(config, at), events[..|events| - 1]), events[|events| - 1]);
    }
  }

  lemma ExplainedKeeps(w: Watch, e: Event)
    requires Ok(w) && PhaseExplained(w)
    ensures PhaseExplained(Step(w, e))
  {
    hide PhaseExplained, FirstOk, HeaderOk, Watched, Timely, OnStart, OnHeaders, OnToken, OnActivity, OnCancel, Expire, Callback;
    match e
    case Expires(k) => ExpiryExplained(w, k);
    case Runs(k) => CallbackExplained(w, k);
    case TransportStarted => StartExplained(w);
    case Headers => HeadersExplained(w);
    case Token => TokenExplained(w);
    case Activity => ActivityExplained(w);
    case Canceling => CancelExplained(w);
    case Elapse(d) => TimeExplained(w, d);
    case ParentGone => CauseExplained(w);
  }

  lemma CauseExplained(w: Watch)
    requires PhaseExplained(w)
    ensures PhaseExplained(w.(cause := Keep(w.cause, ParentCanceled)))
  {}

  lemma StartExplained(w: Watch)
    requires Timely(w) && PhaseExplained(w)
    ensures PhaseExplained(OnStart(w))
  {}

  lemma HeadersExplained(w: Watch)
    requires Timely(w) && PhaseExplained(w)
    ensures PhaseExplained(OnHeaders(w))
  {}

  lemma TokenExplained(w: Watch)
    requires Timely(w) && PhaseExplained(w)
    ensures PhaseExplained(OnToken(w))
  {}

  lemma ActivityExplained(w: Watch)
    requires Timely(w) && PhaseExplained(w)
    ensures PhaseExplained(OnActivity(w))
  {}

  lemma CancelExplained(w: Watch)
    requires Timely(w) && PhaseExplained(w)
    ensures PhaseExplained(OnCancel(w))
  {}

  lemma TimeExplained(w: Watch, d: nat)
    requires PhaseExplained(w)
    ensures PhaseExplained(w.(now := w.now + d))
  {}

  lemma ExpiryExplained(w: Watch, k: Which)
    requires HeaderOk(w) && PhaseExplained(w)
    ensures PhaseExplained(Expire(w, k))
  {
    match k
    case HeaderTimer =>
    case FirstTimer =>
    case IdleTimer =>
  }

  lemma CallbackExplained(w: Watch, k: Which)
    requires PhaseExplained(w)
    ensures PhaseExplained(Callback(w, k))
  {
    match k
    case HeaderTimer =>
    case FirstTimer =>
    case IdleTimer =>
  }

  // ----- the handles as they run, each under the mutex

  class StreamTimeout {
    const config: Config
    var now: int
    var started: Option<int>
    var canceled: bool
    var headersDone: bool
    var firstToken: bool
    var header: Timer
    var first: Timer
    var idle: Timer
    var expired: bool
    var phase: Option<Phase>
    var cause: Option<Cause>

    function View(): Watch
      reads this
    {
      Watch(config, now, started, canceled, headersDone, firstToken, header, first, idle, expired, phase, cause)
    }

    constructor (c: Config, at: int)
      ensures View() == New(c, at) && config == c
    {
      config, now, started, canceled, headersDone, firstToken := c, at, None, false, false, false;
      header, first, idle, expired, phase, cause := NoTimer, NoTimer, NoTimer, false, None, None;
    }

    method Start()
      modifies this
      ensures View() == OnStart(old(View()))
    {
      if started.Some? || canceled { return; }
      started := Some(now);
      if config.header > 0 && !headersDone { header := Timer(Some(now + config.header), 0); }
      if config.first > 0 && !firstToken { first := Timer(Some(now + config.first), 0); }
      if config.idle > 0 && idle.NoTimer? && (firstToken || (headersDone && config.first <= 0)) {
        idle := Timer(Some(now + config.idle), 0);
      }
    }

    method HeadersReceived()
      modifies this
      ensures View() == OnHeaders(old(View()))
    {
      if headersDone { return; }
      headersDone := true;
      if header.Timer? { header := header.Stop(); }
      if started.Some? && config.first <= 0 && config.idle > 0 && idle.NoTimer? { idle := Timer(Some(now + config.idle), 0); }
    }

    method FirstToken()
      modifies this
      ensures View() == OnToken(old(View()))
    {
      if firstToken { return; }
      firstToken := true;
      if first.Timer? { first := first.Stop(); }
      if started.Some? && config.idle > 0 && idle.NoTimer? { idle := Timer(Some(now + config.idle), 0); }
    }

    method ResetIdle()
      modifies this
      ensures View() == OnActivity(old(View()))
    {
      if config.idle <= 0 { return; }
      if idle.Timer? { idle := idle.Reset(now + config.idle); }
    }

    method Cancel()
      modifies this
      ensures View() == OnCancel(old(View()))
    {
      canceled := true;
      if header.Timer? { header := header.Stop(); }
      if first.Timer? { first := first.Stop(); }
      if idle.Timer? { idle := idle.Stop(); }
      if cause.None? { cause := Some(Canceled); }
    }
  }
}
