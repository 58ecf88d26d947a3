/**
 * The lifecycle of an `Ember.Resource` instance: its fetch state, its expiry
 * time on a virtual clock, and the flags derived from them. The observable
 * attribute machinery is replaced by a counter of the notifications that
 * observers of `isFetchable` receive, and `Em.run.next` by an explicit queue of
 * deferred work that the next run-loop turn drains.
 */
module Lifecycle {
  import opened Wrappers

  /** How long a fetch stays fresh: five minutes, in milliseconds. */
  const ExpireInMs: int := 300000

  datatype ResourceState = Unfetched | Fetching | Fetched

  /** `isExpired`: an expiry time is set and it is not in the future. */
  predicate IsExpired(expireAt: Option<int>, now: int) {
    expireAt.Some? && expireAt.value <= now
  }

  /**
   * `isFetchable`: never fetched, or fetched and expired. An instance whose
   * fetch is in flight is never fetchable.
   */
  predicate IsFetchable(s: Snapshot, now: int) {
    s.state == Unfetched || (s.state == Fetched && IsExpired(s.expireAt, now))
  }

  /**
   * The stored fields of an instance. `notifications` counts the change
   * notifications sent to observers of `isFetchable`: one for every write of
   * `resourceState` or `expireAt`, the two properties it depends on.
   */
  datatype Snapshot = Snapshot(
    state: ResourceState,
    expireAt: Option<int>,
    hasBeenFetched: bool,
    destroyed: bool,
    notifications: nat)

  /** A freshly created instance. */
  function Initial(): Snapshot {
    Snapshot(Unfetched, None, false, false, 0)
  }

  /** `fetch()` issues a transport request exactly when the live instance is fetchable. */
  predicate Issues(s: Snapshot, now: int) {
    !s.destroyed && IsFetchable(s, now)
  }

  /** `fetch()`: move to FETCHING when a request is issued; otherwise nothing happens. */
  function AfterFetch(s: Snapshot, now: int): Snapshot {
    if Issues(s, now) then s.(state := Fetching, notifications := s.notifications + 1) else s
  }

  /**
   * The transport's successful response: FETCHED, fresh for five minutes from
   * now, and marked as fetched. A response that finds the instance destroyed or
   * no longer fetching changes nothing.
   */
  function AfterSuccess(s: Snapshot, now: int): Snapshot {
    if !s.destroyed && s.state == Fetching
    then s.(state := Fetched, expireAt := Some(now + ExpireInMs), hasBeenFetched := true,
            notifications := s.notifications + 2)
    else s
  }

  /** `set('expireAt', t)`, also what `expireNow()` does with the current time. */
  function AfterSetExpireAt(s: Snapshot, t: Option<int>): Snapshot {
    if s.destroyed then s else s.(expireAt := t, notifications := s.notifications + 1)
  }

  /**
   * `set('resourceState', st)`. `hasBeenFetched` records that the state has
   * been FETCHED at least once, however it got there.
   */
  function AfterSetState(s: Snapshot, st: ResourceState): Snapshot {
    if s.destroyed then s
    else s.(state := st, hasBeenFetched := s.hasBeenFetched || st == Fetched,
            notifications := s.notifications + 1)
  }

  function AfterDestroy(s: Snapshot): Snapshot {
    s.(destroyed := true)
  }

  /**
   * The effect of `k` deferred `expire()` calls run in one turn at time `now`:
   * a live instance expires at `now` with one notification per call, and
   * nothing else about it changes; a destroyed one is left alone.
   */
  function RunExpiries(s: Snapshot, now: int, k: nat): (r: Snapshot)
    ensures s.destroyed || k == 0 ==> r == s
    ensures !s.destroyed && k > 0 ==>
      r == s.(expireAt := Some(now), notifications := s.notifications + k)
  {
    if k == 0 then s else AfterSetExpireAt(RunExpiries(s, now, k - 1), Some(now))
  }

  /** A virtual clock: the current time in milliseconds and the number of `tick` calls. */
  class Clock {
    var now: int
    var ticks: nat

    constructor (start: int)
      ensures now == start && ticks == 0
    {
      now := start;
      ticks := 0;
    }

    /** `tick`: advance virtual time. Nothing in the lifecycle calls it. */
    method Tick(ms: nat)
      modifies this
      ensures now == old(now) + ms && ticks == old(ticks) + 1
    {
      now := now + ms;
      ticks := ticks + 1;
    }
  }

  /** A resource instance, reading time from its clock. */
  class Resource {
    const clock: Clock
    var resourceState: ResourceState
    var expireAt: Option<int>
    var hasBeenFetched: bool
    var isDestroyed: bool
    var notifications: nat

    function Snap(): Snapshot
      reads this
    {
      Snapshot(resourceState, expireAt, hasBeenFetched, isDestroyed, notifications)
    }

    /** `isExpired`, against the clock's current time. */
    predicate Expired()
      reads this, clock
    {
      IsExpired(expireAt, clock.now)
    }

    /** `isFetchable`, against the clock's current time. */
    predicate IsFetchableNow()
      reads this, clock
    {
      IsFetchable(Snap(), clock.now)
    }

    /** `create()`: UNFETCHED, never fetched, with no expiry time. */
    constructor (clock: Clock)
      ensures this.clock == clock && Snap() == Initial()
    {
      this.clock := clock;
      resourceState := Unfetched;
      expireAt := None;
      hasBeenFetched := false;
      isDestroyed := false;
      notifications := 0;
    }

    /**
     * `fetch()`: issues a request (reported in `issued`) and moves to FETCHING
     * synchronously, before any response, exactly when the instance is live and
     * fetchable.
     */
    method Fetch() returns (issued: bool)
      modifies this
      ensures issued == Issues(old(Snap()), clock.now)
      ensures Snap() == AfterFetch(old(Snap()), clock.now)
    {
      issued := !isDestroyed && IsFetchableNow();
      if issued {
        resourceState := Fetching;
        notifications := notifications + 1;
      }
    }

    /** The transport reports success for the request in flight. */
    method RespondSuccess()
      modifies this
      ensures Snap() == AfterSuccess(old(Snap()), clock.now)
    {
      if !isDestroyed && resourceState == Fetching {
        resourceState := Fetched;
        notifications := notifications + 1;
        expireAt := Some(clock.now + ExpireInMs);
        notifications := notifications + 1;
        hasBeenFetched := true;
      }
    }

    /** `set('expireAt', t)`. */
    method SetExpireAt(t: Option<int>)
      modifies this
      ensures Snap() == AfterSetExpireAt(old(Snap()), t)
    {
      if !isDestroyed {
        expireAt := t;
        notifications := notifications + 1;
      }
    }

    /** `set('resourceState', st)`. */
    method SetResourceState(st: ResourceState)
      modifies this
      ensures Snap() == AfterSetState(old(Snap()), st)
    {
      if !isDestroyed {
        resourceState := st;
        hasBeenFetched := hasBeenFetched || st == Fetched;
        notifications := notifications + 1;
      }
    }

    /**
     * `expireNow()`: sets the expiry time to now synchronously, so `isExpired`
     * and `isFetchable` change within the call and their observers are notified
     * before it returns.
     */
    method ExpireNow()
      modifies this
      ensures Snap() == AfterSetExpireAt(old(Snap()), Some(clock.now))
    {
      SetExpireAt(Some(clock.now));
    }

    /**
     * `expire()`: defers `expireNow()` to the next run-loop turn. Nothing about
     * the instance changes now, it never fails, and it is safe on a destroyed
     * instance, which the deferred work then leaves alone.
     */
    method Expire(loop: RunLoop)
      modifies loop
      ensures loop.pending == old(loop.pending) + [this]
      ensures unchanged(this)
    {
      loop.pending := loop.pending + [this];
    }

    method Destroy()
      modifies this
      ensures Snap() == AfterDestroy(old(Snap()))
    {
      isDestroyed := true;
    }
  }

  /** How many times `r` occurs in `rs`. */
  function Count(rs: seq<Resource>, r: Resource): nat {
    if rs == [] then 0 else Count(rs[..|rs| - 1], r) + (if rs[|rs| - 1] == r then 1 else 0)
  }

  /** Queueing `x` adds one occurrence of `r` exactly when `x` is `r`. */
  lemma CountSnoc(q: seq<Resource>, x: Resource, r: Resource)
    ensures Count(q + [x], r) == Count(q, r) + (if x == r then 1 else 0)
  {
    assert (q + [x])[..|q|] == q;
  }

  /** A queue holding only `r` counts it once. */
  lemma CountOne(r: Resource)
    ensures Count([r], r) == 1
  {
    CountSnoc([], r, r);
    assert [] + [r] == [r];
  }

  /** The run loop: work deferred with `next`, to be run on the next turn. */
  class RunLoop {
    var pending: seq<Resource>

    constructor ()
      ensures pending == []
    {
      pending := [];
    }

    /**
     * Runs the next turn: every deferred `expire()` runs `expireNow()` on its
     * instance, in order. An instance expired `k` times in the turn ends as
     * `RunExpiries` says; no clock is read differently or ticked.
     */
    method NextTurn()
      modifies this, pending
      ensures pending == []
      ensures forall r :: r in old(pending) ==>
        r.Snap() == RunExpiries(old(r.Snap()), r.clock.now, Count(old(pending), r))
      ensures forall r :: r in old(pending) ==> r.clock.now == old(r.clock.now) && r.clock.ticks == old(r.clock.ticks)
    {
      var tasks := pending;
      pending := [];
      var i := 0;
      while i < |tasks|
        invariant 0 <= i <= |tasks| && pending == []
        invariant forall r :: r in tasks ==>
          r.Snap() == RunExpiries(old(r.Snap()), r.clock.now, Count(tasks[..i], r))
      {
        assert tasks[..i + 1][..i] == tasks[..i];
        tasks[i].ExpireNow();
        i := i + 1;
      }
      assert tasks[..|tasks|] == tasks;
    }
  }

  // ---------------------------------------------------------------------------
  // One instance over a sequence of events: the properties that relate calls.

  datatype Event =
    | FetchCall
    | Respond
    | SetExpireAtCall(t: Option<int>)
    | SetStateCall(st: ResourceState)
    | ExpireCall
    | ExpireNowCall
    | Turn
    | DestroyCall
    | Tick(ms: nat)

  /**
   * An instance together with the time, the number of its `expire()` calls
   * waiting for the next turn, the number of transport requests it has in
   * flight, and the number of clock ticks.
   */
  datatype Config = Config(s: Snapshot, now: int, pending: nat, inFlight: nat, ticks: nat)

  function Start(now: int): Config {
    Config(Initial(), now, 0, 0, 0)
  }

  function Step(c: Config, e: Event): Config {
    match e
    case FetchCall =>
      if Issues(c.s, c.now) then c.(s := AfterFetch(c.s, c.now), inFlight := c.inFlight + 1) else c
    case Respond =>
      if c.inFlight == 0 then c else c.(s := AfterSuccess(c.s, c.now), inFlight := c.inFlight - 1)
    case SetExpireAtCall(t) => c.(s := AfterSetExpireAt(c.s, t))
    case SetStateCall(st) => c.(s := AfterSetState(c.s, st))
    case ExpireCall => c.(pending := c.pending + 1)
    case ExpireNowCall => c.(s := AfterSetExpireAt(c.s, Some(c.now)))
    case Turn => c.(s := RunExpiries(c.s, c.now, c.pending), pending := 0)
    case DestroyCall => c.(s := AfterDestroy(c.s))
    case Tick(ms) => c.(now := c.now + ms, ticks := c.ticks + 1)
  }

  function Run(c: Config, es: seq<Event>): Config
    decreases |es|
  {
    if es == [] then c else Run(Step(c, es[0]), es[1..])
  }

  /** No event of `es` ticks the clock. */
  predicate NoTicks(es: seq<Event>) {
    forall i :: 0 <= i < |es| ==> !es[i].Tick?
  }

  /** No event of `es` writes `resourceState` from outside the lifecycle. */
  predicate NoDirectStateWrites(es: seq<Event>) {
    forall i :: 0 <= i < |es| ==> !es[i].SetStateCall?
  }

  /** Once fetched, an instance stays marked as fetched whatever happens next. */
  lemma {:induction false} HasBeenFetchedPersists(c: Config, es: seq<Event>)
    requires c.s.hasBeenFetched
    ensures Run(c, es).s.hasBeenFetched
    decreases |es|
  {
    if es != [] {
      HasBeenFetchedPersists(Step(c, es[0]), es[1..]);
    }
  }

  /** FETCHED only ever holds of an instance marked as fetched. */
  predicate FetchedMarked(s: Snapshot) {
    s.state == Fetched ==> s.hasBeenFetched
  }

  lemma {:induction false} FetchedMarkedInvariant(c: Config, es: seq<Event>)
    requires FetchedMarked(c.s)
    ensures FetchedMarked(Run(c, es).s)
    decreases |es|
  {
    if es != [] {
      FetchedMarkedInvariant(Step(c, es[0]), es[1..]);
    }
  }

  /**
   * At most one request in flight: a live instance has one exactly when it is
   * FETCHING, and a destroyed one never more than the one it had.
   */
  predicate OneInFlight(c: Config) {
    c.inFlight <= 1 && (!c.s.destroyed ==> (c.s.state == Fetching <==> c.inFlight == 1))
  }

  lemma {:induction false} OneInFlightInvariant(c: Config, es: seq<Event>)
    requires OneInFlight(c) && NoDirectStateWrites(es)
    ensures OneInFlight(Run(c, es))
    decreases |es|
  {
    if es != [] {
      assert !es[0].SetStateCall?;
      OneInFlightInvariant(Step(c, es[0]), es[1..]);
    }
  }

  /** A second `fetch()` while one is in flight issues nothing and changes nothing. */
  lemma NoDuplicateFetch(c: Config)
    requires OneInFlight(c) && c.inFlight == 1
    ensures !Issues(c.s, c.now) && Step(c, FetchCall) == c
  {
  }

  /** `fetch()` and FETCHING exclude each other: a fetching instance is never fetchable. */
  lemma FetchingNotFetchable(s: Snapshot, now: int)
    requires s.state == Fetching
    ensures !IsFetchable(s, now) && AfterFetch(s, now) == s
  {
  }

  /** A destroyed instance never changes again, whatever is called on it. */
  lemma {:induction false} DestroyedIsFinal(c: Config, es: seq<Event>)
    requires c.s.destroyed
    ensures Run(c, es).s == c.s
    decreases |es|
  {
    if es != [] {
      DestroyedIsFinal(Step(c, es[0]), es[1..]);
    }
  }

  /** `expire()`, called any number of times, only queues work: the instance is untouched until the turn. */
  lemma {:induction false} ExpireDeferred(c: Config, k: nat)
    ensures Run(c, Repeat(ExpireCall, k)) == c.(pending := c.pending + k)
    decreases k
  {
    if k > 0 {
      assert Repeat(ExpireCall, k)[1..] == Repeat(ExpireCall, k - 1);
      ExpireDeferred(Step(c, ExpireCall), k - 1);
    }
  }

  function Repeat(e: Event, k: nat): (es: seq<Event>)
    ensures |es| == k && forall i :: 0 <= i < k ==> es[i] == e
  {
    if k == 0 then [] else [e] + Repeat(e, k - 1)
  }

  /**
   * The next turn after `expire()` leaves a live FETCHED instance expired at
   * the turn's time and fetchable, one notification per queued call, with the
   * clock neither moved nor ticked.
   */
  lemma ExpireThenTurn(c: Config, k: nat)
    requires k > 0 && !c.s.destroyed && c.s.state == Fetched
    ensures Run(c, Repeat(ExpireCall, k) + [Turn]).s
         == c.s.(expireAt := Some(c.now), notifications := c.s.notifications + c.pending + k)
    ensures IsExpired(Run(c, Repeat(ExpireCall, k) + [Turn]).s.expireAt, c.now)
    ensures IsFetchable(Run(c, Repeat(ExpireCall, k) + [Turn]).s, c.now)
    ensures Run(c, Repeat(ExpireCall, k) + [Turn]).now == c.now
    ensures Run(c, Repeat(ExpireCall, k) + [Turn]).ticks == c.ticks
  {
    RunAppend(c, Repeat(ExpireCall, k), [Turn]);
    ExpireDeferred(c, k);
  }

  lemma {:induction false} RunAppend(c: Config, xs: seq<Event>, ys: seq<Event>)
    ensures Run(c, xs + ys) == Run(Run(c, xs), ys)
    decreases |xs|
  {
    if xs != [] {
      assert (xs + ys)[0] == xs[0] && (xs + ys)[1..] == xs[1..] + ys;
      RunAppend(Step(c, xs[0]), xs[1..], ys);
    } else {
      assert xs + ys == ys;
    }
  }

  /** An expiry time that has passed stays passed as the clock advances. */
  lemma ExpiryIsMonotone(expireAt: Option<int>, now: int, later: int)
    requires now <= later && IsExpired(expireAt, now)
    ensures IsExpired(expireAt, later)
  {
  }

  /** Only `tick` moves the clock: the lifecycle's own transitions never do. */
  lemma {:induction false} OnlyTicksMoveTime(c: Config, es: seq<Event>)
    requires NoTicks(es)
    ensures Run(c, es).now == c.now && Run(c, es).ticks == c.ticks
    decreases |es|
  {
    if es != [] {
      assert !es[0].Tick?;
      OnlyTicksMoveTime(Step(c, es[0]), es[1..]);
    }
  }

  /**
   * Every instance reached from creation through the lifecycle's own
   * transitions has at most one request in flight and is marked as fetched
   * whenever it is FETCHED.
   */
  lemma Reachable(now: int, es: seq<Event>)
    requires NoDirectStateWrites(es)
    ensures OneInFlight(Run(Start(now), es)) && FetchedMarked(Run(Start(now), es).s)
  {
    OneInFlightInvariant(Start(now), es);
    FetchedMarkedInvariant(Start(now), es);
  }

  // ---------------------------------------------------------------------------
  // The scenarios of the lifecycle's tests, run on the objects.

  /** A new object: UNFETCHED, not fetched, not expired, no expiry time, fetchable. */
  method NewObject(now: int)
    returns (state: ResourceState, hasBeenFetched: bool, expired: bool, expireAt: Option<int>, fetchable: bool)
    ensures state == Unfetched && !hasBeenFetched && !expired && expireAt == None && fetchable
  {
    var clock := new Clock(now);
    var person := new Resource(clock);
    state, hasBeenFetched, expireAt := person.resourceState, person.hasBeenFetched, person.expireAt;
    expired, fetchable := person.Expired(), person.IsFetchableNow();
  }

  /**
   * Fetching: FETCHING as soon as `fetch()` returns; after the response,
   * FETCHED, marked as fetched and expiring five minutes after the response.
   */
  method FetchThenRespond(now: int)
    returns (issued: bool, fetching: ResourceState, done: ResourceState, hasBeenFetched: bool, expireAt: Option<int>)
    ensures issued && fetching == Fetching && done == Fetched && hasBeenFetched
    ensures expireAt == Some(now + 5 * 60 * 1000)
  {
    var clock := new Clock(now);
    var person := new Resource(clock);
    issued := person.Fetch();
    fetching := person.resourceState;
    person.RespondSuccess();
    done, hasBeenFetched, expireAt := person.resourceState, person.hasBeenFetched, person.expireAt;
  }

  /** Expiry: an expiry time in the past expires, one in the future does not, and the state stays UNFETCHED. */
  method SetExpiry(now: int, expiry: int) returns (expired: bool, state: ResourceState)
    ensures expired <==> expiry <= now
    ensures state == Unfetched
  {
    var clock := new Clock(now);
    var person := new Resource(clock);
    person.SetExpireAt(Some(expiry));
    expired, state := person.Expired(), person.resourceState;
  }

  /**
   * `expire()` on a FETCHED, unexpired object: not fetchable before the call,
   * still unexpired once it returns, expired and fetchable after the next
   * turn, and the clock is never ticked.
   */
  method ExpireOnNextTurn(now: int)
    returns (fetchableBefore: bool, expiredSameTurn: bool, expiredAfter: bool, fetchableAfter: bool, ticks: nat)
    ensures !fetchableBefore && !expiredSameTurn && expiredAfter && fetchableAfter && ticks == 0
  {
    var clock := new Clock(now);
    var person := new Resource(clock);
    var loop := new RunLoop();
    person.SetResourceState(Fetched);
    fetchableBefore := person.IsFetchableNow();
    person.Expire(loop);
    expiredSameTurn := person.Expired();
    assert loop.pending == [person];
    CountOne(person);
    loop.NextTurn();
    expiredAfter, fetchableAfter, ticks := person.Expired(), person.IsFetchableNow(), clock.ticks;
  }

  /** `expire()` on a destroyed object succeeds, and its deferred work changes nothing. */
  method ExpireDestroyed(now: int) returns (before: Snapshot, after: Snapshot)
    ensures before.destroyed && after == before
  {
    var clock := new Clock(now);
    var person := new Resource(clock);
    var loop := new RunLoop();
    person.Destroy();
    before := person.Snap();
    person.Expire(loop);
    CountOne(person);
    loop.NextTurn();
    after := person.Snap();
  }

  /**
   * An observer of `isFetchable` is called from within `expireNow()`: the
   * notification has been sent by the time the call returns, with no turn of
   * the run loop in between.
   */
  method ExpireNowNotifies(now: int) returns (called: bool, expired: bool)
    ensures called && expired
  {
    var clock := new Clock(now);
    var person := new Resource(clock);
    var seen := person.notifications;
    person.ExpireNow();
    called, expired := person.notifications > seen, person.Expired();
  }

  /**
   * The same observer on a FETCHED person: `isFetchable` is false before
   * `expireNow()` and true after it, and the notification has been sent
   * within the call.
   */
  method ExpireNowFlipsFetchable(now: int)
    returns (fetchableBefore: bool, called: bool, fetchableAfter: bool)
    ensures !fetchableBefore && called && fetchableAfter
  {
    var clock := new Clock(now);
    var person := new Resource(clock);
    person.SetResourceState(Fetched);
    fetchableBefore := person.IsFetchableNow();
    var seen := person.notifications;
    person.ExpireNow();
    called, fetchableAfter := person.notifications > seen, person.IsFetchableNow();
  }
}
