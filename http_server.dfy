/**
 * The HTTP server component of the older schema revision: the configuration
 * POST handler (receive loop, unit scaling, store writes, timer restart), the
 * store read at the end of WiFi set-up, and the WiFi reconnect counter. Here the
 * interval is kept in microseconds in a `uint64_t` and the duration in
 * milliseconds in a `uint16_t`.
 */
module HttpServer {
  import opened Machine
  import opened Nvs
  import WaterTimer

  const INTERVAL_MULTIPLIER: int := 1000000
  const WATERING_DURATION_MULTIPLIER: int := 1000
  /** The size of the handler's receive buffer `buf`. */
  const RECV_BUF_SIZE: int := 100
  /** HTTPD_SOCK_ERR_TIMEOUT: the receive timed out and may be retried. */
  const HTTPD_SOCK_ERR_TIMEOUT: int := -3

  const INTERVAL_KEY: string := "waterIntrv"
  const DURATION_KEY: string := "waterDurat"

  // ---------------------------------------------------------------------------
  // Units

  /** `watering_interval` (µs) and `watering_duration` (ms). */
  datatype Config = Config(interval: u64, duration: u16)

  /** Their initial values: 20 s and 5 s. */
  const DEFAULT_CONFIG: Config := Config(20 * INTERVAL_MULTIPLIER, 5 * WATERING_DURATION_MULTIPLIER)

  /** Seconds to µs: a 32-bit signed product, widened to `uint64_t`. */
  function IntervalMicros(seconds: int): u64
  {
    ToU64(ToI32(seconds * INTERVAL_MULTIPLIER))
  }

  /** Seconds to ms: a 32-bit signed product, narrowed to `uint16_t`. */
  function DurationMillis(seconds: int): u16
  {
    ToU16(ToI32(seconds * WATERING_DURATION_MULTIPLIER))
  }

  /** Up to 2147 s the interval is the exact number of microseconds. */
  lemma IntervalScaling(seconds: int)
    requires 0 <= seconds <= 2147
    ensures IntervalMicros(seconds) == seconds * INTERVAL_MULTIPLIER
  {
  }

  /**
   * From 2148 s to 4294 s the 32-bit product overflows to a negative value, which
   * widens to a period of more than 2^64 - 2^32 µs.
   */
  lemma IntervalOverflow(seconds: int)
    requires 2147 < seconds <= 4294
    ensures IntervalMicros(seconds) == U64_MOD - U32_MOD + seconds * INTERVAL_MULTIPLIER
    ensures IntervalMicros(seconds) > U64_MOD - U32_MOD
  {
  }

  /**
   * For any number of seconds the period is the product modulo 2^32, read as a
   * signed 32-bit value and widened: below 2^31 it is kept, from 2^31 it lands
   * within 2^32 of 2^64. So 4295 s gives a period of 32704 µs and 8590 s one of
   * 65408 µs.
   */
  lemma IntervalWraps(seconds: int)
    ensures var m := (seconds * INTERVAL_MULTIPLIER) % U32_MOD;
      IntervalMicros(seconds) == if m < 0x8000_0000 then m else U64_MOD - U32_MOD + m
    ensures seconds == 4295 ==> IntervalMicros(seconds) == 32704
    ensures seconds == 8590 ==> IntervalMicros(seconds) == 65408
  {
  }

  /** The duration is the product modulo 2^16: exact up to 65 s, wrapped above. */
  lemma DurationScaling(seconds: int)
    ensures DurationMillis(seconds) == ToU16(seconds * WATERING_DURATION_MULTIPLIER)
    ensures 0 <= seconds <= 65 ==> DurationMillis(seconds) == seconds * WATERING_DURATION_MULTIPLIER
    ensures seconds == 66 ==> DurationMillis(seconds) == 464
  {
    LowBitsSurviveI32(seconds * WATERING_DURATION_MULTIPLIER);
  }

  // ---------------------------------------------------------------------------
  // The receive loop

  /** How the receive loop ends: the body arrived after `calls` receives, or one failed, or the socket's answers ran out. */
  datatype RecvOutcome = Complete(calls: nat) | RecvFailed(calls: nat) | Exhausted

  /**
   * The loop from the `i`-th receive on, with `remaining` bytes still expected;
   * `replies` are the values successive receives return.
   */
  function ReceiveFrom(remaining: int, replies: seq<int>, i: nat): RecvOutcome
    requires i <= |replies|
    decreases |replies| - i
  {
    if remaining <= 0 then Complete(i)
    else if i == |replies| then Exhausted
    else if replies[i] > 0 then ReceiveFrom(remaining - replies[i], replies, i + 1)
    else if replies[i] == HTTPD_SOCK_ERR_TIMEOUT then ReceiveFrom(remaining, replies, i + 1)
    else RecvFailed(i + 1)
  }

  /** The bytes the receives in `replies` delivered. */
  function BytesIn(replies: seq<int>): int
  {
    if replies == [] then 0
    else BytesIn(replies[..|replies| - 1]) + (if replies[|replies| - 1] > 0 then replies[|replies| - 1] else 0)
  }

  /** A receive that delivered bytes or timed out; the loop goes on after it. */
  predicate Continues(reply: int)
  {
    reply > 0 || reply == HTTPD_SOCK_ERR_TIMEOUT
  }

  function Min(a: int, b: int): int
  {
    if a < b then a else b
  }

  lemma BytesInStep(replies: seq<int>, i: nat)
    requires i < |replies|
    ensures BytesIn(replies[..i + 1]) == BytesIn(replies[..i]) + (if replies[i] > 0 then replies[i] else 0)
  {
    assert replies[..i + 1][..i] == replies[..i];
  }

  /**
   * The loop completes exactly at the first receive that brings the delivered
   * bytes up to the content length, every earlier receive having delivered or
   * timed out; it fails at the first receive that returns another non-positive
   * value; a timeout leaves the count unchanged.
   */
  lemma {:induction false} ReceiveVerdict(contentLen: int, replies: seq<int>, i: nat, remaining: int)
    requires i <= |replies| && remaining == contentLen - BytesIn(replies[..i])
    ensures match ReceiveFrom(remaining, replies, i)
      case Complete(k) =>
        && i <= k <= |replies| && BytesIn(replies[..k]) >= contentLen
        && (i < k ==> BytesIn(replies[..k - 1]) < contentLen)
        && forall j :: i <= j < k ==> Continues(replies[j])
      case RecvFailed(k) =>
        && i < k <= |replies| && !Continues(replies[k - 1]) && BytesIn(replies[..k - 1]) < contentLen
        && forall j :: i <= j < k - 1 ==> Continues(replies[j])
      case Exhausted =>
        && BytesIn(replies) < contentLen
        && forall j :: i <= j < |replies| ==> Continues(replies[j])
    decreases |replies| - i
  {
    if remaining > 0 && i < |replies| {
      BytesInStep(replies, i);
      var next := if replies[i] > 0 then remaining - replies[i] else remaining;
      if Continues(replies[i]) {
        ReceiveVerdict(contentLen, replies, i + 1, next);
      }
    } else if remaining > 0 {
      assert replies[..i] == replies;
    }
  }

  /**
   * The receive loop of `post_update_data_handler`. `asked` are the lengths passed
   * to the successive receives: never more than the buffer, never more than the
   * bytes still expected.
   */
  method Receive(contentLen: int, replies: seq<int>) returns (outcome: RecvOutcome, asked: seq<int>)
    ensures outcome == ReceiveFrom(contentLen, replies, 0)
    ensures |asked| == match outcome case Complete(k) => k case RecvFailed(k) => k case Exhausted => |replies|
    ensures |asked| <= |replies|
    ensures forall j :: 0 <= j < |asked| ==>
      && asked[j] == Min(contentLen - BytesIn(replies[..j]), RECV_BUF_SIZE)
      && 0 < asked[j] <= RECV_BUF_SIZE
  {
    var remaining := contentLen;
    var i := 0;
    asked := [];
    while remaining > 0
      invariant 0 <= i <= |replies|
      invariant remaining == contentLen - BytesIn(replies[..i])
      invariant ReceiveFrom(remaining, replies, i) == ReceiveFrom(contentLen, replies, 0)
      invariant |asked| == i
      invariant forall j :: 0 <= j < i ==>
        && asked[j] == Min(contentLen - BytesIn(replies[..j]), RECV_BUF_SIZE)
        && 0 < asked[j] <= RECV_BUF_SIZE
      decreases |replies| - i
    {
      if i == |replies| {
        return Exhausted, asked;
      }
      asked := asked + [Min(remaining, RECV_BUF_SIZE)];
      var ret := replies[i];
      BytesInStep(replies, i);
      i := i + 1;
      if ret <= 0 {
        if ret == HTTPD_SOCK_ERR_TIMEOUT {
          continue;
        }
        return RecvFailed(i), asked;
      }
      remaining := remaining - ret;
    }
    outcome := Complete(i);
  }

  // ---------------------------------------------------------------------------
  // Store writes and reads

  /** Every store call of the POST handler succeeds. */
  predicate PostSucceeds(faults: Faults)
  {
    !faults.openFails && INTERVAL_KEY !in faults.writeFails && DURATION_KEY !in faults.writeFails && !faults.commitFails
  }

  /** The two writes of the POST handler: both unscaled values as `uint16_t`. */
  function PostWrites(interval: int, duration: int): seq<Write>
  {
    [Write(INTERVAL_KEY, U16(ToU16(interval))), Write(DURATION_KEY, U16(ToU16(duration)))]
  }

  /** The durable store after the POST handler. */
  function Posted(kv: map<string, Item>, faults: Faults, writeThrough: bool, interval: int, duration: int): map<string, Item>
  {
    Durable(kv, faults, writeThrough, PostWrites(interval, duration))
  }

  /**
   * The POST handler's writes written out: a write-through store keeps the
   * interval even when the duration write fails; a transactional store both
   * values or neither.
   */
  lemma PostedCases(kv: map<string, Item>, faults: Faults, writeThrough: bool, interval: int, duration: int)
    ensures Posted(kv, faults, writeThrough, interval, duration) ==
      if faults.openFails || INTERVAL_KEY in faults.writeFails then kv
      else if writeThrough && DURATION_KEY in faults.writeFails then kv[INTERVAL_KEY := U16(ToU16(interval))]
      else if writeThrough || PostSucceeds(faults) then kv[INTERVAL_KEY := U16(ToU16(interval))][DURATION_KEY := U16(ToU16(duration))]
      else kv
  {
    var w := PostWrites(interval, duration);
    var i := kv[INTERVAL_KEY := U16(ToU16(interval))];
    assert w[1..] == [w[1]] && w[1..][1..] == [];
    assert w[..2] == w && w[..1] == [w[0]] && w[..2][..1] == w[..1] && w[..1][..0] == [];
    assert Applied(kv, w[..1]) == i;
    assert Applied(kv, w[..2]) == i[DURATION_KEY := U16(ToU16(duration))];
  }

  /** The store read at the end of `setup_wifi`: a value read scales its global; anything else keeps it. */
  function Loaded(prior: Config, kv: map<string, Item>, faults: Faults): Config
  {
    if faults.openFails then prior
    else
      var interval := ReadU16(kv, faults, INTERVAL_KEY);
      var duration := ReadU16(kv, faults, DURATION_KEY);
      Config(
        if interval.status == Ok then IntervalMicros(interval.value) else prior.interval,
        if duration.status == Ok then DurationMillis(duration.value) else prior.duration)
  }

  /** A missing key, an entry of the wrong width, a failing read or a failing open keeps the defaults. */
  lemma LoadKeepsDefaults(kv: map<string, Item>, faults: Faults)
    ensures INTERVAL_KEY !in kv || INTERVAL_KEY in faults.readFails || faults.openFails ==>
              Loaded(DEFAULT_CONFIG, kv, faults).interval == 20 * INTERVAL_MULTIPLIER
    ensures DURATION_KEY !in kv || DURATION_KEY in faults.readFails || faults.openFails ==>
              Loaded(DEFAULT_CONFIG, kv, faults).duration == 5 * WATERING_DURATION_MULTIPLIER
    ensures INTERVAL_KEY in kv && kv[INTERVAL_KEY].U64? ==>
              Loaded(DEFAULT_CONFIG, kv, faults).interval == 20 * INTERVAL_MULTIPLIER
    ensures DURATION_KEY in kv && kv[DURATION_KEY].U64? ==>
              Loaded(DEFAULT_CONFIG, kv, faults).duration == 5 * WATERING_DURATION_MULTIPLIER
  {
  }

  /**
   * POST then reboot: the duration always comes back as the handler set it, the
   * interval whenever the number of seconds fits in 16 bits.
   */
  lemma PostThenLoad(booted: Config, kv: map<string, Item>, faults: Faults, writeThrough: bool,
                     newInterval: i32, newDuration: i32)
    requires !faults.openFails && INTERVAL_KEY !in faults.writeFails && DURATION_KEY !in faults.writeFails
    requires writeThrough || !faults.commitFails
    requires INTERVAL_KEY !in faults.readFails && DURATION_KEY !in faults.readFails
    ensures var loaded := Loaded(booted, Posted(kv, faults, writeThrough, newInterval, newDuration), faults);
      && loaded.duration == DurationMillis(newDuration)
      && (0 <= newInterval < U16_MOD ==> loaded.interval == IntervalMicros(newInterval))
  {
    PostedCases(kv, faults, writeThrough, newInterval, newDuration);
    LowBitsSurviveI32(ToU16(newDuration) * WATERING_DURATION_MULTIPLIER);
    LowBitsOfProduct(newDuration, WATERING_DURATION_MULTIPLIER);
    LowBitsSurviveI32(newDuration * WATERING_DURATION_MULTIPLIER);
  }

  /** An interval of 65536 s is stored as 0 and comes back as 0 µs. */
  lemma IntervalAboveU16IsNotRestored(booted: Config, kv: map<string, Item>, faults: Faults, writeThrough: bool,
                                      newDuration: i32)
    requires !faults.openFails && INTERVAL_KEY !in faults.writeFails && INTERVAL_KEY !in faults.readFails
    requires writeThrough || PostSucceeds(faults)
    ensures Loaded(booted, Posted(kv, faults, writeThrough, 65536, newDuration), faults).interval == 0
    ensures IntervalMicros(65536) == 1111490560
  {
    PostedCases(kv, faults, writeThrough, 65536, newDuration);
  }

  /**
   * The store sequence of the POST handler: open, the two writes, commit, close.
   * The first failure ends it, closing the handle if it was opened.
   */
  method WriteConfig(store: Store, interval: int, duration: int) returns (st: Status)
    modifies store
    ensures st == (if PostSucceeds(store.faults) then Ok else Failed)
    ensures store.committed == Posted(old(store.committed), store.faults, store.writeThrough, interval, duration)
    ensures !store.isOpen
  {
    PostedCases(store.committed, store.faults, store.writeThrough, interval, duration);
    st := store.Open();
    if st != Ok {
      return Failed;
    }
    st := store.Set(INTERVAL_KEY, U16(ToU16(interval)));
    if st != Ok {
      store.Close();
      return Failed;
    }
    st := store.Set(DURATION_KEY, U16(ToU16(duration)));
    if st != Ok {
      store.Close();
      return Failed;
    }
    st := store.Commit();
    if st != Ok {
      store.Close();
      return Failed;
    }
    store.Close();
  }

  // ---------------------------------------------------------------------------
  // The WiFi reconnect counter

  datatype WifiEvent = StaStart | StaDisconnected | GotIp

  /** `s_retry_num` and the two bits of the WiFi event group. */
  datatype Wifi = Wifi(retryNum: int, failBit: bool, connectedBit: bool)

  /** `wifi_event_handler` on one event. */
  function WifiStep(w: Wifi, maxRetry: int, e: WifiEvent): Wifi
  {
    match e
    case StaStart => w
    case StaDisconnected =>
      if w.retryNum < maxRetry then w.(retryNum := w.retryNum + 1) else w.(failBit := true)
    case GotIp => w.(retryNum := 0, connectedBit := true)
  }

  function WifiRun(w: Wifi, maxRetry: int, events: seq<WifiEvent>): Wifi
  {
    if events == [] then w
    else WifiStep(WifiRun(w, maxRetry, events[..|events| - 1]), maxRetry, events[|events| - 1])
  }

  /** Whatever the events, the counter stays between 0 and the limit. */
  lemma {:induction false} RetryStaysWithinLimit(w: Wifi, maxRetry: int, events: seq<WifiEvent>)
    requires 0 <= w.retryNum <= maxRetry
    ensures 0 <= WifiRun(w, maxRetry, events).retryNum <= maxRetry
    ensures w.failBit ==> WifiRun(w, maxRetry, events).failBit
  {
    if events != [] {
      RetryStaysWithinLimit(w, maxRetry, events[..|events| - 1]);
    }
  }

  function Disconnects(n: nat): seq<WifiEvent>
  {
    if n == 0 then [] else Disconnects(n - 1) + [StaDisconnected]
  }

  /**
   * From a fresh start or a got-IP, `n` disconnects in a row cause min(n, limit)
   * reconnect attempts, and the FAIL bit is set exactly when they exceed the limit.
   */
  lemma {:induction false} DisconnectsThenFail(maxRetry: nat, n: nat, connected: bool)
    ensures var w := WifiRun(Wifi(0, false, connected), maxRetry, Disconnects(n));
      && w.retryNum == Min(n, maxRetry)
      && w.failBit == (n > maxRetry)
      && w.connectedBit == connected
  {
    if n > 0 {
      DisconnectsThenFail(maxRetry, n - 1, connected);
      var events := Disconnects(n);
      assert events[..|events| - 1] == Disconnects(n - 1);
    }
  }

  // ---------------------------------------------------------------------------
  // The component's state and its operations

  class Server {
    var interval: u64
    var duration: u16
    var retryNum: int
    var failBit: bool
    var connectedBit: bool
    /** WIFI_MAX_RETRY, a build-time setting. */
    const maxRetry: nat

    ghost predicate Valid()
      reads this
    {
      0 <= retryNum <= maxRetry
    }

    ghost function Globals(): Config
      reads this
    {
      Config(interval, duration)
    }

    ghost function Link(): Wifi
      reads this
    {
      Wifi(retryNum, failBit, connectedBit)
    }

    constructor (maxRetry: nat)
      ensures Valid() && this.maxRetry == maxRetry
      ensures Globals() == DEFAULT_CONFIG && Link() == Wifi(0, false, false)
    {
      interval, duration := 20 * INTERVAL_MULTIPLIER, 5 * WATERING_DURATION_MULTIPLIER;
      retryNum, failBit, connectedBit := 0, false, false;
      this.maxRetry := maxRetry;
    }

    /** `wifi_event_handler`; `connect` says whether it asks the driver to (re)connect. */
    method OnWifiEvent(e: WifiEvent) returns (connect: bool)
      requires Valid()
      modifies this
      ensures Valid()
      ensures Link() == WifiStep(old(Link()), maxRetry, e)
      ensures connect == (e.StaStart? || (e.StaDisconnected? && old(retryNum) < maxRetry))
      ensures Globals() == old(Globals())
    {
      connect := false;
      match e {
        case StaStart =>
          connect := true;
        case StaDisconnected =>
          if retryNum < maxRetry {
            connect := true;
            retryNum := retryNum + 1;
          } else {
            failBit := true;
          }
        case GotIp =>
          retryNum := 0;
          connectedBit := true;
      }
    }

    /**
     * `post_update_data_handler` on a request of `contentLen` bytes whose fields
     * parse to `newInterval` and `newDuration` seconds: the timers are stopped
     * first; a failed receive or a failed store call returns ESP_FAIL and leaves
     * them stopped.
     */
    method PostUpdateData(contentLen: int, replies: seq<int>, newInterval: i32, newDuration: i32,
                          store: Store, timer: WaterTimer.Timer, now: u64) returns (st: Status)
      requires !ReceiveFrom(contentLen, replies, 0).Exhausted?
      modifies this, store, timer
      ensures Link() == old(Link())
      ensures st == Ok || st == Failed
      ensures !ReceiveFrom(contentLen, replies, 0).Complete? ==>
        && st == Failed && Globals() == old(Globals()) && store.committed == old(store.committed)
      ensures ReceiveFrom(contentLen, replies, 0).Complete? ==>
        && Globals() == Config(IntervalMicros(newInterval), DurationMillis(newDuration))
        && store.committed == Posted(old(store.committed), store.faults, store.writeThrough, newInterval, newDuration)
        && (st == Ok <==> PostSucceeds(store.faults))
      ensures timer.State() == if st == Ok then WaterTimer.Initialized(WaterTimer.Stopped(old(timer.State())), now, interval)
                               else WaterTimer.Stopped(old(timer.State()))
    {
      timer.StopTimers();
      var outcome, _ := Receive(contentLen, replies);
      if !outcome.Complete? {
        return Failed;
      }
      interval := IntervalMicros(newInterval);
      duration := DurationMillis(newDuration);
      st := WriteConfig(store, newInterval, newDuration);
      if st != Ok {
        return;
      }
      timer.Initialize(now, interval);
    }

    /** The store read at the end of `setup_wifi`. */
    method LoadStoredConfig(store: Store)
      modifies this, store
      ensures Globals() == Loaded(old(Globals()), old(store.committed), store.faults)
      ensures Link() == old(Link())
      ensures store.committed == old(store.committed) && !store.isOpen
    {
      var st := store.Open();
      if st != Ok {
        return;
      }
      assert store.Visible() == store.committed;
      var i := store.GetU16(INTERVAL_KEY);
      if i.status == Ok {
        interval := IntervalMicros(i.value);
      }
      var d := store.GetU16(DURATION_KEY);
      if d.status == Ok {
        duration := DurationMillis(d.value);
      }
      store.Close();
    }
  }
}
