/**
 * The data storage component: the response buffer shared by the two HTTP client
 * handlers, the schedule globals (`days_interval`, `hours_interval`,
 * `watering_duration`, `incr_time`) with their load from and save to the store,
 * and the loop that advances `incr_time` through the remote time service.
 */
module DataStorage {
  import opened Machine
  import opened Nvs
  import opened Wrappers
  import WaterTimer

  const MAX_HTTP_OUTPUT_BUFFER: int := 2048
  const WATERING_DURATION_MULTIPLIER: int := 1000

  const DAYS_KEY: string := "daysIntrv"
  const HOURS_KEY: string := "hoursIntrv"
  const DURATION_KEY: string := "waterDurat"
  const INCR_KEY: string := "incrTime"

  /** The span sent with every increment request, as days:hours:minutes:seconds. */
  const INCREMENT_SPAN: string := "00:00:01:00"

  const OPEN_FAILED: string := "Failed to open NVS handle"
  const SET_FAILED: string := "Failed to set NVS value"
  const COMMIT_FAILED: string := "Failed to commit NVS"

  // ---------------------------------------------------------------------------
  // The response buffer

  /** The contents of `output_buffer` and the counter `output_len`, as a value. */
  datatype Accumulator = Accumulator(bytes: seq<bv8>, len: int)

  /** The buffer has its fixed size and the counter leaves room for the terminator. */
  predicate WellFormed(a: Accumulator)
  {
    |a.bytes| == MAX_HTTP_OUTPUT_BUFFER && 0 <= a.len < MAX_HTTP_OUTPUT_BUFFER
  }

  function Zeros(n: nat): (z: seq<bv8>)
    ensures |z| == n && forall i :: 0 <= i < n ==> z[i] == 0
  {
    seq(n, i => 0)
  }

  /** The part of the response gathered so far. */
  function Received(a: Accumulator): seq<bv8>
    requires WellFormed(a)
  {
    a.bytes[..a.len]
  }

  /**
   * HTTP_EVENT_ON_DATA with the chunk `data`: the first chunk of a response clears
   * the buffer; a chunk is copied in only when it leaves room for the terminator,
   * otherwise it is dropped.
   */
  function Appended(a: Accumulator, data: seq<bv8>): (b: Accumulator)
    requires WellFormed(a)
    ensures WellFormed(b)
    ensures b.len == if |data| + a.len < MAX_HTTP_OUTPUT_BUFFER then a.len + |data| else a.len
    ensures Received(b) == if |data| + a.len < MAX_HTTP_OUTPUT_BUFFER then Received(a) + data else Received(a)
    ensures a.len > 0 ==> b.bytes[..a.len] == a.bytes[..a.len] && b.bytes[b.len..] == a.bytes[b.len..]
    ensures a.len == 0 ==> forall i :: b.len <= i < MAX_HTTP_OUTPUT_BUFFER ==> b.bytes[i] == 0
  {
    var cleared := if a.len == 0 then Zeros(MAX_HTTP_OUTPUT_BUFFER) else a.bytes;
    if |data| + a.len < MAX_HTTP_OUTPUT_BUFFER then
      Accumulator(cleared[..a.len] + data + cleared[a.len + |data|..], a.len + |data|)
    else
      Accumulator(cleared, a.len)
  }

  /** What HTTP_EVENT_ON_FINISH leaves behind and the text it hands to the JSON parser. */
  datatype Completion = Completion(next: Accumulator, response: seq<bv8>)

  /** HTTP_EVENT_ON_FINISH: terminate the text at the counter, pass it on, reset the counter. */
  function Finished(a: Accumulator): (c: Completion)
    requires WellFormed(a)
    ensures WellFormed(c.next) && c.next.len == 0
    ensures c.response == Received(a) && c.next.bytes[..a.len] == a.bytes[..a.len]
    ensures c.next.bytes[a.len] == 0
  {
    Completion(Accumulator(a.bytes[a.len := 0], 0), a.bytes[..a.len])
  }

  /** HTTP_EVENT_DISCONNECTED: the counter is reset, the bytes stay. */
  function Disconnected(a: Accumulator): Accumulator
  {
    Accumulator(a.bytes, 0)
  }

  /** A response that arrives as `chunks`, one ON_DATA event each. */
  function Feed(a: Accumulator, chunks: seq<seq<bv8>>): (b: Accumulator)
    requires WellFormed(a)
    ensures WellFormed(b)
    decreases |chunks|
  {
    if chunks == [] then a else Feed(Appended(a, chunks[0]), chunks[1..])
  }

  /** The chunks that find room when the buffer already holds `len` bytes. */
  function Kept(len: int, chunks: seq<seq<bv8>>): seq<seq<bv8>>
    decreases |chunks|
  {
    if chunks == [] then []
    else if |chunks[0]| + len < MAX_HTTP_OUTPUT_BUFFER then [chunks[0]] + Kept(len + |chunks[0]|, chunks[1..])
    else Kept(len, chunks[1..])
  }

  function Concat(chunks: seq<seq<bv8>>): seq<bv8>
  {
    if chunks == [] then [] else chunks[0] + Concat(chunks[1..])
  }

  /** The buffer ends up holding what it held, followed by exactly the chunks that found room, in order. */
  lemma {:induction false} FeedKeepsWhatFits(a: Accumulator, chunks: seq<seq<bv8>>)
    requires WellFormed(a)
    ensures Received(Feed(a, chunks)) == Received(a) + Concat(Kept(a.len, chunks))
    decreases |chunks|
  {
    if chunks == [] {
      assert Received(a) + [] == Received(a);
    } else {
      var b := Appended(a, chunks[0]);
      FeedKeepsWhatFits(b, chunks[1..]);
      KeptStep(Received(a), a.len, chunks);
    }
  }

  /** One chunk: what an append adds is what `Kept` keeps of it. */
  lemma KeptStep(received: seq<bv8>, len: int, chunks: seq<seq<bv8>>)
    requires chunks != []
    ensures var c := chunks[0];
      if |c| + len < MAX_HTTP_OUTPUT_BUFFER
      then (received + c) + Concat(Kept(len + |c|, chunks[1..])) == received + Concat(Kept(len, chunks))
      else received + Concat(Kept(len, chunks[1..])) == received + Concat(Kept(len, chunks))
  {
    var c, rest := chunks[0], chunks[1..];
    if |c| + len < MAX_HTTP_OUTPUT_BUFFER {
      var later := Concat(Kept(len + |c|, rest));
      assert Kept(len, chunks) == [c] + Kept(len + |c|, rest);
      ConcatCons(c, Kept(len + |c|, rest));
      assert (received + c) + later == received + (c + later);
    }
  }

  lemma ConcatCons(c: seq<bv8>, chunks: seq<seq<bv8>>)
    ensures Concat([c] + chunks) == c + Concat(chunks)
  {
    assert ([c] + chunks)[0] == c;
    assert ([c] + chunks)[1..] == chunks;
  }

  lemma {:induction false} AllKeptWhenTheyFit(len: int, chunks: seq<seq<bv8>>)
    requires len + |Concat(chunks)| < MAX_HTTP_OUTPUT_BUFFER
    ensures Kept(len, chunks) == chunks
    decreases |chunks|
  {
    if chunks != [] {
      assert |Concat(chunks)| == |chunks[0]| + |Concat(chunks[1..])|;
      AllKeptWhenTheyFit(len + |chunks[0]|, chunks[1..]);
    }
  }

  /**
   * A response shorter than the buffer that starts on a reset counter reaches the
   * parser whole, and the terminator lands inside the buffer.
   */
  lemma ResponseIsReassembled(a: Accumulator, chunks: seq<seq<bv8>>)
    requires WellFormed(a) && a.len == 0
    requires |Concat(chunks)| < MAX_HTTP_OUTPUT_BUFFER
    ensures Finished(Feed(a, chunks)).response == Concat(chunks)
    ensures Feed(a, chunks).len == |Concat(chunks)|
  {
    FeedKeepsWhatFits(a, chunks);
    AllKeptWhenTheyFit(0, chunks);
  }

  /** After ON_FINISH or DISCONNECTED nothing of the previous response leaks into the next one. */
  lemma NextResponseStartsEmpty(a: Accumulator, chunks: seq<seq<bv8>>)
    requires WellFormed(a)
    ensures Received(Feed(Finished(a).next, chunks)) == Concat(Kept(0, chunks))
    ensures Received(Feed(Disconnected(a), chunks)) == Concat(Kept(0, chunks))
  {
    FeedKeepsWhatFits(Finished(a).next, chunks);
    FeedKeepsWhatFits(Disconnected(a), chunks);
  }

  /**
   * A chunk that does not fit is dropped, but a later one that fits is still
   * appended: the parser then sees a response with a gap, not a truncated prefix.
   */
  lemma OversizedChunkLeavesGap(a: Accumulator, big: seq<bv8>, small: seq<bv8>)
    requires WellFormed(a) && a.len == 0
    requires |big| >= MAX_HTTP_OUTPUT_BUFFER && |small| < MAX_HTTP_OUTPUT_BUFFER
    ensures Received(Feed(a, [big, small])) == small
  {
    FeedKeepsWhatFits(a, [big, small]);
    assert [big, small][1..] == [small];
    assert Kept(0, [small]) == [small] + Kept(|small|, []);
  }

  /** The static `output_buffer` and `output_len`. */
  class ResponseBuffer {
    var bytes: array<bv8>
    var len: int

    ghost predicate Valid()
      reads this
    {
      bytes.Length == MAX_HTTP_OUTPUT_BUFFER && 0 <= len < MAX_HTTP_OUTPUT_BUFFER
    }

    ghost function State(): Accumulator
      reads this, bytes
    {
      Accumulator(bytes[..], len)
    }

    /** Static storage starts zeroed. */
    constructor ()
      ensures Valid() && fresh(bytes)
      ensures State() == Accumulator(Zeros(MAX_HTTP_OUTPUT_BUFFER), 0)
    {
      bytes := new bv8[MAX_HTTP_OUTPUT_BUFFER](i => 0);
      len := 0;
    }

    /** HTTP_EVENT_ON_DATA: `memset` on a new response, then `memcpy` when the chunk fits. */
    method OnData(data: seq<bv8>)
      requires Valid()
      modifies this, bytes
      ensures Valid() && bytes == old(bytes)
      ensures State() == Appended(old(State()), data)
    {
      if len == 0 {
        forall i | 0 <= i < bytes.Length {
          bytes[i] := 0;
        }
      }
      ghost var cleared := bytes[..];
      assert cleared == if old(len) == 0 then Zeros(MAX_HTTP_OUTPUT_BUFFER) else old(bytes[..]);
      if |data| + len < MAX_HTTP_OUTPUT_BUFFER {
        var start, buf := len, bytes;
        var k := 0;
        while k < |data|
          invariant 0 <= k <= |data|
          invariant len == start && bytes == buf
          invariant forall i :: 0 <= i < start ==> buf[i] == cleared[i]
          invariant forall i :: 0 <= i < k ==> buf[start + i] == data[i]
          invariant forall i :: start + k <= i < buf.Length ==> buf[i] == cleared[i]
        {
          buf[start + k] := data[k];
          k := k + 1;
        }
        len := start + |data|;
        assert bytes[..] == cleared[..start] + data + cleared[start + |data|..];
      }
    }

    /** HTTP_EVENT_ON_FINISH: the terminator write, then the reset; returns the text parsed next. */
    method OnFinish() returns (response: seq<bv8>)
      requires Valid()
      modifies this, bytes
      ensures Valid() && bytes == old(bytes)
      ensures Completion(State(), response) == Finished(old(State()))
    {
      bytes[len] := 0;
      response := bytes[..len];
      len := 0;
    }

    /** HTTP_EVENT_DISCONNECTED. */
    method OnDisconnected()
      requires Valid()
      modifies this
      ensures Valid() && bytes == old(bytes)
      ensures State() == Disconnected(old(State()))
    {
      len := 0;
    }
  }

  // ---------------------------------------------------------------------------
  // The schedule globals and the store

  /** The globals `days_interval`, `hours_interval`, `watering_duration` (ms) and `incr_time`. */
  datatype Settings = Settings(days: u16, hours: u16, duration: u64, incrTime: i64)

  /** Their initial values. */
  const DEFAULT_SETTINGS: Settings := Settings(0, 0, 5 * WATERING_DURATION_MULTIPLIER, 0)

  /** `get_data_values`: each key read that succeeds sets its global; anything else keeps it. */
  function Load(prior: Settings, kv: map<string, Item>, faults: Faults): Settings
  {
    if faults.openFails then prior
    else
      var days := ReadU16(kv, faults, DAYS_KEY);
      var hours := ReadU16(kv, faults, HOURS_KEY);
      var duration := ReadU64(kv, faults, DURATION_KEY);
      var incr := ReadU64(kv, faults, INCR_KEY);
      Settings(
        if days.status == Ok then days.value else prior.days,
        if hours.status == Ok then hours.value else prior.hours,
        if duration.status == Ok then ToU64(duration.value * WATERING_DURATION_MULTIPLIER) else prior.duration,
        if incr.status == Ok then ToI64(incr.value) else prior.incrTime)
  }

  /**
   * A global changes only when its own key was read; a missing key, a failing
   * read or a failing open keeps the value it had, so a store without entries
   * leaves the defaults in place.
   */
  lemma LoadChangesOnlyWhatItReads(prior: Settings, kv: map<string, Item>, faults: Faults)
    ensures var s := Load(prior, kv, faults);
      && (faults.openFails ==> s == prior)
      && (s.days != prior.days ==> DAYS_KEY !in faults.readFails && DAYS_KEY in kv && kv[DAYS_KEY] == U16(s.days))
      && (s.hours != prior.hours ==> HOURS_KEY !in faults.readFails && HOURS_KEY in kv && kv[HOURS_KEY] == U16(s.hours))
      && (s.duration != prior.duration ==> DURATION_KEY !in faults.readFails && DURATION_KEY in kv && kv[DURATION_KEY].U64?)
      && (s.incrTime != prior.incrTime ==> INCR_KEY !in faults.readFails && INCR_KEY in kv && kv[INCR_KEY].U64?)
    ensures Load(DEFAULT_SETTINGS, map[], faults) == DEFAULT_SETTINGS
  {
  }

  /** A duration written as 16 bits by the older firmware is not found by the 64-bit read. */
  lemma OlderDurationEntryIsIgnored(prior: Settings, kv: map<string, Item>, faults: Faults)
    requires DURATION_KEY in kv && kv[DURATION_KEY].U16?
    ensures Load(prior, kv, faults).duration == prior.duration
  {
  }

  /** Loading twice from an unchanged store gives what loading once gave. */
  lemma LoadIsIdempotent(prior: Settings, kv: map<string, Item>, faults: Faults)
    ensures Load(Load(prior, kv, faults), kv, faults) == Load(prior, kv, faults)
  {
  }

  /** The globals after `save_new_time_data` has converted its three parsed fields. */
  function Parsed(prior: Settings, daysIn: i32, hoursIn: i32, durationIn: u64): Settings
  {
    Settings(ToU16(daysIn), ToU16(hoursIn), ToU64(durationIn * WATERING_DURATION_MULTIPLIER), prior.incrTime)
  }

  /** Every store call of a save succeeds. */
  predicate SaveSucceeds(faults: Faults)
  {
    && !faults.openFails
    && DAYS_KEY !in faults.writeFails && HOURS_KEY !in faults.writeFails && DURATION_KEY !in faults.writeFails
    && !faults.commitFails
  }

  /** The three writes of a save, in the order they are issued. */
  function SaveWrites(s: Settings): seq<Write>
  {
    [Write(DAYS_KEY, U16(s.days)), Write(HOURS_KEY, U16(s.hours)), Write(DURATION_KEY, U64(s.duration))]
  }

  /** The durable store after a save of `s`. */
  function Saved(kv: map<string, Item>, faults: Faults, writeThrough: bool, s: Settings): map<string, Item>
  {
    Durable(kv, faults, writeThrough, SaveWrites(s))
  }

  /**
   * A save written out: a write-through store keeps the entries written before
   * the first failing key; a transactional store all three or none.
   */
  lemma SavedCases(kv: map<string, Item>, faults: Faults, writeThrough: bool, s: Settings)
    ensures Saved(kv, faults, writeThrough, s) ==
      if faults.openFails then kv
      else if writeThrough then
        if DAYS_KEY in faults.writeFails then kv
        else if HOURS_KEY in faults.writeFails then kv[DAYS_KEY := U16(s.days)]
        else if DURATION_KEY in faults.writeFails then kv[DAYS_KEY := U16(s.days)][HOURS_KEY := U16(s.hours)]
        else kv[DAYS_KEY := U16(s.days)][HOURS_KEY := U16(s.hours)][DURATION_KEY := U64(s.duration)]
      else if SaveSucceeds(faults) then kv[DAYS_KEY := U16(s.days)][HOURS_KEY := U16(s.hours)][DURATION_KEY := U64(s.duration)]
      else kv
  {
    var w := SaveWrites(s);
    var d := kv[DAYS_KEY := U16(s.days)];
    var dh := d[HOURS_KEY := U16(s.hours)];
    assert w[1..] == [w[1], w[2]] && w[1..][1..] == [w[2]] && w[1..][1..][1..] == [];
    assert w[..3] == w && w[..2] == [w[0], w[1]] && w[..1] == [w[0]];
    assert w[..1][..0] == [] && w[..2][..1] == w[..1] && w[..3][..2] == w[..2];
    assert Applied(kv, w[..1]) == d;
    assert Applied(kv, w[..2]) == dh;
    assert Applied(kv, w[..3]) == dh[DURATION_KEY := U64(s.duration)];
  }

  /**
   * Save then load: days and hours come back as saved, but the duration, already
   * in milliseconds when saved, is multiplied by 1000 once more on load, which
   * gives the saved value back only when that value is 0.
   */
  lemma SaveThenLoad(prior: Settings, booted: Settings, kv: map<string, Item>, faults: Faults, writeThrough: bool,
                     daysIn: i32, hoursIn: i32, durationIn: u64)
    requires StagingSucceeds(faults) && (writeThrough || !faults.commitFails)
    requires DAYS_KEY !in faults.readFails && HOURS_KEY !in faults.readFails && DURATION_KEY !in faults.readFails
    ensures var saved := Parsed(prior, daysIn, hoursIn, durationIn);
            var loaded := Load(booted, Saved(kv, faults, writeThrough, saved), faults);
            && loaded.days == saved.days == ToU16(daysIn)
            && loaded.hours == saved.hours == ToU16(hoursIn)
            && loaded.duration == ToU64(saved.duration * WATERING_DURATION_MULTIPLIER)
            && (loaded.duration == saved.duration <==> saved.duration == 0)
            && (0 < durationIn && durationIn * 1000000 < U64_MOD ==>
                  loaded.duration == 1000 * saved.duration != saved.duration)
  {
    var saved := Parsed(prior, daysIn, hoursIn, durationIn);
    SavedCases(kv, faults, writeThrough, saved);
    ScaleByThousandFixesOnlyZero(saved.duration);
  }

  /**
   * On a write-through store a save whose hours write fails leaves the new days
   * next to the old hours, which the next boot loads together; a transactional
   * store keeps the old schedule whole.
   */
  lemma InterruptedSaveMixesSchedules(booted: Settings, kv: map<string, Item>, faults: Faults, s: Settings)
    requires !faults.openFails && DAYS_KEY !in faults.writeFails && HOURS_KEY in faults.writeFails
    requires DAYS_KEY !in faults.readFails && HOURS_KEY !in faults.readFails
    requires HOURS_KEY in kv && kv[HOURS_KEY].U16?
    ensures var loaded := Load(booted, Saved(kv, faults, true, s), faults);
      loaded.days == s.days && loaded.hours == kv[HOURS_KEY].u16Value
    ensures Saved(kv, faults, false, s) == kv
  {
    SavedCases(kv, faults, true, s);
    SavedCases(kv, faults, false, s);
  }

  /** `incr_time` persisted by the increment handler is read back unchanged. */
  lemma IncrementThenLoad(booted: Settings, kv: map<string, Item>, faults: Faults, writeThrough: bool, t: i64)
    requires IncrementPersists(faults, writeThrough) && INCR_KEY !in faults.readFails
    ensures Load(booted, Persisted(kv, faults, writeThrough, t), faults).incrTime == t
  {
    PersistedCases(kv, faults, writeThrough, t);
    SignedThroughUnsigned(t);
  }

  /** The store calls of the increment handler that decide whether `incr_time` is durable succeed. */
  predicate IncrementPersists(faults: Faults, writeThrough: bool)
  {
    !faults.openFails && INCR_KEY !in faults.writeFails && (writeThrough || !faults.commitFails)
  }

  /** The durable store after the increment handler persisted `t`. */
  function Persisted(kv: map<string, Item>, faults: Faults, writeThrough: bool, t: i64): map<string, Item>
  {
    Durable(kv, faults, writeThrough, [Write(INCR_KEY, U64(ToU64(t)))])
  }

  /** The increment handler's one write either lands whole or leaves the store as it was. */
  lemma PersistedCases(kv: map<string, Item>, faults: Faults, writeThrough: bool, t: i64)
    ensures Persisted(kv, faults, writeThrough, t) ==
      if IncrementPersists(faults, writeThrough) then kv[INCR_KEY := U64(ToU64(t))] else kv
  {
    var w := [Write(INCR_KEY, U64(ToU64(t)))];
    assert w[..1] == w && w[..|w| - 1] == [] && w[1..] == [];
    assert Applied(kv, w) == kv[INCR_KEY := U64(ToU64(t))];
    assert INCR_KEY !in faults.writeFails ==> Succeeding(faults, w) == 1;
  }

  /** Of two increments persisted in turn only the later one remains. */
  lemma PersistedOverwrites(kv: map<string, Item>, faults: Faults, writeThrough: bool, t1: i64, t2: i64)
    ensures Persisted(Persisted(kv, faults, writeThrough, t1), faults, writeThrough, t2)
         == Persisted(kv, faults, writeThrough, t2)
  {
    PersistedCases(kv, faults, writeThrough, t1);
    PersistedCases(kv, faults, writeThrough, t2);
    PersistedCases(Persisted(kv, faults, writeThrough, t1), faults, writeThrough, t2);
  }

  // ---------------------------------------------------------------------------
  // The catch-up loop

  /** The body of one POST to the increment service: the current `incr_time` and the fixed span. */
  datatype IncrementRequest = IncrementRequest(dateTime: i64, timeSpan: string)

  /**
   * One pass of the loop body from `incr_time == t`: the time the service
   * answers with, which the handler stores, or `t` itself when no time comes back.
   */
  function Round(t: i64, increment: IncrementRequest -> Option<i64>): i64
  {
    var reply := increment(IncrementRequest(t, INCREMENT_SPAN));
    if reply.Some? then reply.value else t
  }

  /** `k` passes of the loop body from `t`, whatever `now` is. */
  function Rounds(t: i64, increment: IncrementRequest -> Option<i64>, k: nat): i64
    decreases k
  {
    if k == 0 then t else Rounds(Round(t, increment), increment, k - 1)
  }

  /**
   * A pass from `t` that brings no new time (the service does not answer the
   * request for `t`, or answers with `t`) is repeated for ever: `incr_time` stays
   * behind `now`. The service answers a request the same way on every attempt,
   * so a failure here is one that persists.
   */
  lemma {:induction false} StalledServiceNeverCatchesUp(t: i64, now: i64, increment: IncrementRequest -> Option<i64>, k: nat)
    requires t < now && Round(t, increment) == t
    ensures Rounds(t, increment, k) == t < now
  {
    if k > 0 {
      StalledServiceNeverCatchesUp(t, now, increment, k - 1);
    }
  }

  /** The service answers the request for `t` with a strictly later time. */
  predicate Advances(increment: IncrementRequest -> Option<i64>, t: i64)
  {
    Round(t, increment) > t
  }

  /** Every time behind `now` is advanced: what the loop needs to end. */
  predicate CatchesUp(increment: IncrementRequest -> Option<i64>, now: i64)
  {
    forall t: i64 :: t < now ==> Advances(increment, t)
  }

  /** Where `update_incr_time` leaves `incr_time`, starting from `t`. */
  function CatchUp(t: i64, now: i64, increment: IncrementRequest -> Option<i64>): (r: i64)
    requires CatchesUp(increment, now)
    ensures now <= r
    ensures t < now ==> t < r
    ensures now <= t ==> r == t
    decreases now - t
  {
    if now <= t then t
    else
      assert Advances(increment, t);
      CatchUp(Round(t, increment), now, increment)
  }

  /** The number of requests the loop sends. */
  function Requests(t: i64, now: i64, increment: IncrementRequest -> Option<i64>): nat
    requires CatchesUp(increment, now)
    decreases now - t
  {
    if now <= t then 0
    else
      assert Advances(increment, t);
      1 + Requests(Round(t, increment), now, increment)
  }

  /**
   * With a service that adds a fixed span, the loop stops at the first
   * `t + k * span` that is not behind `now`, after `k` requests.
   */
  lemma {:induction false} CatchUpWithFixedSpan(t: i64, now: i64, increment: IncrementRequest -> Option<i64>, span: int)
    requires span > 0
    requires forall u: i64 :: u < now ==>
      increment(IncrementRequest(u, INCREMENT_SPAN)).Some? && increment(IncrementRequest(u, INCREMENT_SPAN)).value == u + span
    ensures CatchesUp(increment, now)
    ensures CatchUp(t, now, increment) == t + Requests(t, now, increment) * span
    ensures t < now ==> CatchUp(t, now, increment) < now + span
    decreases now - t
  {
    assert CatchesUp(increment, now) by {
      forall u: i64 | u < now ensures Advances(increment, u) {
      }
    }
    if t < now {
      var next := Round(t, increment);
      CatchUpWithFixedSpan(next, now, increment, span);
      var k := Requests(next, now, increment);
      assert (k + 1) * span == k * span + span;
    }
  }

  // ---------------------------------------------------------------------------
  // The component's state and its operations

  /** The HTTP client events the two handlers react to; the others only log. */
  datatype HttpEvent = OnData(chunk: seq<bv8>) | OnFinish | OnDisconnected | OtherEvent

  /** The response buffer after one event. */
  function AfterEvent(a: Accumulator, evt: HttpEvent): (b: Accumulator)
    requires WellFormed(a)
  {
    match evt
    case OnData(chunk) => Appended(a, chunk)
    case OnFinish => Finished(a).next
    case OnDisconnected => Disconnected(a)
    case OtherEvent => a
  }

  /**
   * One write of `save_new_time_data`: on failure the handle is closed and the
   * failure reported, and the function carries on.
   */
  method SetOrReport(store: Store, key: string, item: Item, messages: seq<string>) returns (out: seq<string>)
    modifies store
    ensures var ok := old(store.isOpen) && key !in store.faults.writeFails;
      && store.isOpen == ok
      && store.committed == (if ok && store.writeThrough then old(store.committed)[key := item] else old(store.committed))
      && store.staged == (if !ok then map[] else if store.writeThrough then old(store.staged) else old(store.staged)[key := item])
      && out == (if ok then messages else messages + [SET_FAILED])
  {
    var st := store.Set(key, item);
    out := messages;
    if st != Ok {
      store.Close();
      out := out + [SET_FAILED];
    }
  }

  /** The three writes succeed; the handle is then still open. */
  predicate StagingSucceeds(faults: Faults)
  {
    !faults.openFails && DAYS_KEY !in faults.writeFails && HOURS_KEY !in faults.writeFails && DURATION_KEY !in faults.writeFails
  }

  /**
   * The open and the three writes of `save_new_time_data`: a failure is reported
   * and the sequence goes on, on a handle that is no longer valid.
   */
  method StageSettings(store: Store, s: Settings) returns (messages: seq<string>)
    modifies store
    ensures store.isOpen == StagingSucceeds(store.faults)
    ensures store.writeThrough ==> store.committed == Saved(old(store.committed), store.faults, true, s) && store.staged == map[]
    ensures !store.writeThrough ==> store.committed == old(store.committed)
    ensures !store.writeThrough ==> store.staged == if StagingSucceeds(store.faults)
      then map[DAYS_KEY := U16(s.days)][HOURS_KEY := U16(s.hours)][DURATION_KEY := U64(s.duration)]
      else map[]
    ensures messages == [] <==> StagingSucceeds(store.faults)
    ensures store.faults.openFails ==> messages == [OPEN_FAILED, SET_FAILED, SET_FAILED, SET_FAILED]
  {
    ghost var f, wt, c0 := store.faults, store.writeThrough, store.committed;
    messages := [];
    var st := store.Open();
    if st != Ok {
      messages := messages + [OPEN_FAILED];
    }
    ghost var ok0 := !f.openFails;
    assert store.isOpen == ok0 && store.staged == map[] && store.committed == c0 && (messages == [] <==> ok0);
    messages := SetOrReport(store, DAYS_KEY, U16(s.days), messages);
    ghost var ok1 := ok0 && DAYS_KEY !in f.writeFails;
    ghost var m1 := map[DAYS_KEY := U16(s.days)];
    assert store.isOpen == ok1 && (messages == [] <==> ok1);
    assert wt ==> store.staged == map[] && store.committed == if ok1 then c0 + m1 else c0;
    assert !wt ==> store.committed == c0 && store.staged == if ok1 then m1 else map[];
    messages := SetOrReport(store, HOURS_KEY, U16(s.hours), messages);
    ghost var ok2 := ok1 && HOURS_KEY !in f.writeFails;
    ghost var m2 := m1[HOURS_KEY := U16(s.hours)];
    assert store.isOpen == ok2 && (messages == [] <==> ok2);
    assert wt ==> store.staged == map[] && store.committed == if ok2 then c0 + m2 else if ok1 then c0 + m1 else c0;
    assert !wt ==> store.committed == c0 && store.staged == if ok2 then m2 else map[];
    messages := SetOrReport(store, DURATION_KEY, U64(s.duration), messages);
    SavedCases(c0, f, true, s);
  }

  /** The store sequence of `save_new_time_data`: the three writes, the commit and the close. */
  method WriteSettings(store: Store, s: Settings) returns (messages: seq<string>)
    modifies store
    ensures store.committed == Saved(old(store.committed), store.faults, store.writeThrough, s)
    ensures !store.isOpen
    ensures messages == [] <==> SaveSucceeds(store.faults)
    ensures messages != [] ==> messages[|messages| - 1] == COMMIT_FAILED
    ensures store.faults.openFails ==> messages == [OPEN_FAILED, SET_FAILED, SET_FAILED, SET_FAILED, COMMIT_FAILED]
  {
    SavedCases(store.committed, store.faults, store.writeThrough, s);
    messages := StageSettings(store, s);
    var st := store.Commit();
    if st != Ok {
      store.Close();
      messages := messages + [COMMIT_FAILED];
    }
    store.Close();
  }

  class Storage {
    var days: u16
    var hours: u16
    var duration: u64
    var incrTime: i64
    const buffer: ResponseBuffer

    ghost predicate Valid()
      reads this, buffer
    {
      buffer.Valid()
    }

    ghost function Schedule(): Settings
      reads this
    {
      Settings(days, hours, duration, incrTime)
    }

    constructor ()
      ensures Valid() && fresh(buffer) && fresh(buffer.bytes)
      ensures Schedule() == DEFAULT_SETTINGS
      ensures buffer.State() == Accumulator(Zeros(MAX_HTTP_OUTPUT_BUFFER), 0)
    {
      days, hours, duration, incrTime := 0, 0, 5 * WATERING_DURATION_MULTIPLIER, 0;
      buffer := new ResponseBuffer();
    }

    /** The buffer handling both client handlers share; returns the text on ON_FINISH. */
    method BufferEvent(evt: HttpEvent) returns (response: Option<seq<bv8>>)
      requires Valid()
      modifies buffer, buffer.bytes
      ensures Valid() && buffer.bytes == old(buffer.bytes)
      ensures buffer.State() == AfterEvent(old(buffer.State()), evt)
      ensures response == if evt.OnFinish? then Some(Received(old(buffer.State()))) else None
    {
      response := None;
      match evt {
        case OnData(chunk) =>
          buffer.OnData(chunk);
        case OnFinish =>
          var text := buffer.OnFinish();
          response := Some(text);
        case OnDisconnected =>
          buffer.OnDisconnected();
        case OtherEvent =>
      }
    }

    /**
     * `curr_time_http_handler`: on ON_FINISH the parsed date-time, if any, is what
     * the clock is set to; the schedule globals are not touched.
     */
    method CurrTimeHandler(evt: HttpEvent, parse: seq<bv8> -> Option<i64>) returns (clock: Option<i64>)
      requires Valid()
      modifies buffer, buffer.bytes
      ensures Valid() && buffer.bytes == old(buffer.bytes)
      ensures buffer.State() == AfterEvent(old(buffer.State()), evt)
      ensures clock == if evt.OnFinish? then parse(Received(old(buffer.State()))) else None
    {
      var response := BufferEvent(evt);
      clock := if response.Some? then parse(response.value) else None;
    }

    /** The tail of `incr_time_http_handler` once a time `t` was parsed: set `incr_time`, persist it. */
    method ApplyIncrement(t: i64, store: Store) returns (st: Status)
      modifies this, store
      ensures Schedule() == old(Schedule()).(incrTime := t)
      ensures store.committed == Persisted(old(store.committed), store.faults, store.writeThrough, t)
      ensures !store.isOpen
      ensures st == if store.faults.openFails || INCR_KEY in store.faults.writeFails then Failed else Ok
    {
      PersistedCases(store.committed, store.faults, store.writeThrough, t);
      incrTime := t;
      var s := store.Open();
      if s != Ok {
        return Failed;
      }
      s := store.Set(INCR_KEY, U64(ToU64(t)));
      if s != Ok {
        store.Close();
        return Failed;
      }
      s := store.Commit();
      store.Close();
      st := Ok;
    }

    /** `incr_time_http_handler`. */
    method IncrTimeHandler(evt: HttpEvent, parse: seq<bv8> -> Option<i64>, store: Store) returns (st: Status)
      requires Valid()
      modifies this, buffer, buffer.bytes, store
      ensures Valid() && buffer.bytes == old(buffer.bytes)
      ensures buffer.State() == AfterEvent(old(buffer.State()), evt)
      ensures var parsed := if evt.OnFinish? then parse(Received(old(buffer.State()))) else None;
        && Schedule() == (if parsed.Some? then old(Schedule()).(incrTime := parsed.value) else old(Schedule()))
        && store.committed == (if parsed.Some? then Persisted(old(store.committed), store.faults, store.writeThrough, parsed.value)
                               else old(store.committed))
        && (st == Failed <==> parsed.Some? && (store.faults.openFails || INCR_KEY in store.faults.writeFails))
    {
      var response := BufferEvent(evt);
      st := Ok;
      if response.Some? {
        var parsed := parse(response.value);
        if parsed.Some? {
          st := ApplyIncrement(parsed.value, store);
        }
      }
    }

    /**
     * `update_incr_time`: while `incr_time` is behind `now`, ask the service to
     * advance it; each answer goes through the handler, which persists it.
     */
    method UpdateIncrTime(now: i64, increment: IncrementRequest -> Option<i64>, store: Store)
      requires CatchesUp(increment, now)
      modifies this, store
      ensures Schedule() == old(Schedule()).(incrTime := CatchUp(old(incrTime), now, increment))
      ensures store.committed == if old(incrTime) < now then Persisted(old(store.committed), store.faults, store.writeThrough, incrTime)
                                 else old(store.committed)
    {
      while now > incrTime
        invariant old(incrTime) <= incrTime
        invariant days == old(days) && hours == old(hours) && duration == old(duration)
        invariant CatchUp(incrTime, now, increment) == CatchUp(old(incrTime), now, increment)
        invariant store.committed == if incrTime == old(incrTime) then old(store.committed)
                                     else Persisted(old(store.committed), store.faults, store.writeThrough, incrTime)
        decreases now - incrTime
      {
        assert Advances(increment, incrTime);
        var reply := increment(IncrementRequest(incrTime, INCREMENT_SPAN));
        if reply.Some? {
          ghost var prev := incrTime;
          var _ := ApplyIncrement(reply.value, store);
          if prev != old(incrTime) {
            PersistedOverwrites(old(store.committed), store.faults, store.writeThrough, prev, incrTime);
          }
        }
      }
    }

    /**
     * `save_new_time_data` once the three fields were parsed: the globals are set
     * first; a failing store call is reported and the sequence goes on; the timer
     * is restarted in every case.
     */
    method SaveNewTimeData(daysIn: i32, hoursIn: i32, durationIn: u64, store: Store,
                           timer: WaterTimer.Timer, interval: u64, now: u64)
      returns (messages: seq<string>)
      modifies this, store, timer
      ensures Schedule() == Parsed(old(Schedule()), daysIn, hoursIn, durationIn)
      ensures store.committed == Saved(old(store.committed), store.faults, store.writeThrough, Schedule())
      ensures !store.isOpen
      ensures messages == [] <==> SaveSucceeds(store.faults)
      ensures messages != [] ==> messages[|messages| - 1] == COMMIT_FAILED
      ensures store.faults.openFails ==> messages == [OPEN_FAILED, SET_FAILED, SET_FAILED, SET_FAILED, COMMIT_FAILED]
      ensures timer.State() == WaterTimer.Initialized(old(timer.State()), now, interval)
    {
      days := ToU16(daysIn);
      hours := ToU16(hoursIn);
      duration := ToU64(durationIn * WATERING_DURATION_MULTIPLIER);
      messages := WriteSettings(store, Settings(days, hours, duration, incrTime));
      timer.Initialize(now, interval);
    }

    /** `get_data_values`. */
    method GetDataValues(store: Store)
      modifies this, store
      ensures Schedule() == Load(old(Schedule()), old(store.committed), store.faults)
      ensures store.committed == old(store.committed) && !store.isOpen
    {
      var st := store.Open();
      if st != Ok {
        return;
      }
      assert store.Visible() == store.committed;
      var d := store.GetU16(DAYS_KEY);
      if d.status == Ok {
        days := d.value;
      }
      var h := store.GetU16(HOURS_KEY);
      if h.status == Ok {
        hours := h.value;
      }
      var w := store.GetU64(DURATION_KEY);
      if w.status == Ok {
        duration := ToU64(w.value * WATERING_DURATION_MULTIPLIER);
      }
      var t := store.GetU64(INCR_KEY);
      if t.status == Ok {
        incrTime := ToI64(t.value);
      }
      store.Close();
    }
  }
}
