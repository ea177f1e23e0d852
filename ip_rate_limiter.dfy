/**
 * The fixed-window limiter of src/middlewares/ipRateLimitter.ts, which guards both OTP
 * routes: each request increments a per-IP counter that expires 60 s after the first
 * request of its window, and requests beyond the 15th in a window are answered with 429.
 */
module IpRateLimiter {
  import opened Wrappers
  import opened ApiErrors
  import opened ApiResponses
  import opened Json
  import opened KvStore

  const Window: nat := 60
  const MaxRequests: nat := 15
  const TooManyMessage := "Too many requests. Please try again later."

  /** The counter's key; an absent `req.ip` reaches it as the text "undefined". */
  function RateKey(ip: string): string {
    "rl:ip:" + ip
  }

  /** What the middleware does with a request: pass it to `next`, answer it, or let the
      store's error propagate. */
  datatype Decision =
    | Forward
    | Reply(status: int, body: ApiResponse<Json>)
    | Raise(err: Err)

  const TooManyReply := Reply(429, NewApiResponse(429, JObj(map[]), TooManyMessage))

  /** `ipRateLimiter` on the store's state. */
  function LimitSpec(st: KvState, ip: string): (Decision, KvState) {
    var key := RateKey(ip);
    var (count, st1) := IncrSpec(st, key);
    if count.Failure? then (Raise(PlainError(count.error)), st1)
    else
      var st2 := if count.value == 1 then ExpireSpec(st1, key, Window) else st1;
      if count.value > MaxRequests then (TooManyReply, st2) else (Forward, st2)
  }

  method Limit(store: Store, ip: string) returns (d: Decision)
    modifies store
    ensures (d, store.State()) == LimitSpec(old(store.State()), ip)
  {
    var key := RateKey(ip);
    var count := store.Incr(key);
    if count.Failure? {
      return Raise(PlainError(count.error));
    }
    if count.value == 1 {
      store.Expire(key, Window);
    }
    if count.value > MaxRequests {
      return TooManyReply;
    }
    d := Forward;
  }

  /** Every request, rejected or not, adds exactly one to its IP's counter; the window's
      60 s expiry is set only by the increment that makes the count 1. */
  lemma CountsEveryRequest(st: KvState, ip: string)
    requires CounterOrAbsent(st, RateKey(ip))
    ensures var k := RateKey(ip);
      var st' := LimitSpec(st, ip).1;
      && st'.now == st.now
      && Live(st', k) && CounterOrAbsent(st', k)
      && CountOf(st', k) == CountOf(st, k) + 1
      && st'.data[k].expiresAt == (if CountOf(st, k) == 0 then Some(st.now + Window) else st.data[k].expiresAt)
  {
  }

  /** A request is answered with 429 (and not forwarded) exactly when the count after its
      increment exceeds 15; otherwise it is forwarded. */
  lemma RejectIffOverLimit(st: KvState, ip: string)
    requires CounterOrAbsent(st, RateKey(ip))
    ensures var (d, st') := LimitSpec(st, ip);
      && (d.Reply? <==> CountOf(st', RateKey(ip)) > MaxRequests)
      && (d.Forward? <==> CountOf(st', RateKey(ip)) <= MaxRequests)
      && (d.Reply? ==> d.status == 429 && d.body.statusCode == 429 && !d.body.success && d.body.message == TooManyMessage)
  {
    CountsEveryRequest(st, ip);
  }

  /** A request changes no key but its own IP's counter, so IPs never affect each other, and
      distinct IPs have distinct counters. */
  lemma PerIpIsolation(st: KvState, ip: string, other: string)
    ensures forall k :: k != RateKey(ip) ==> SameAt(st, LimitSpec(st, ip).1, k)
    ensures other != ip ==> RateKey(other) != RateKey(ip) && SameAt(st, LimitSpec(st, ip).1, RateKey(other))
  {
    if RateKey(other) == RateKey(ip) {
      assert other == RateKey(other)[6..];
      assert ip == RateKey(ip)[6..];
    }
  }

  /** Requests from one IP, each preceded by a wait of `gaps[i]` seconds. */
  function Requests(st: KvState, ip: string, gaps: seq<nat>): (KvState, seq<Decision>)
    decreases |gaps|
  {
    if gaps == [] then (st, [])
    else
      var (d, st1) := LimitSpec(AdvanceSpec(st, gaps[0]), ip);
      var (st2, ds) := Requests(st1, ip, gaps[1..]);
      (st2, [d] + ds)
  }

  function Total(gaps: seq<nat>): nat
    decreases |gaps|
  {
    if gaps == [] then 0 else gaps[0] + Total(gaps[1..])
  }

  /** Inside a window that has been opened (counter at least 1, expiring at `e`), every
      request before `e` is counted against it: the i-th further request passes iff the
      count it brings the counter to is at most 15. */
  lemma {:induction false} RequestsInWindow(st: KvState, ip: string, gaps: seq<nat>, e: int)
    requires CounterOrAbsent(st, RateKey(ip)) && Live(st, RateKey(ip))
    requires st.data[RateKey(ip)].expiresAt == Some(e)
    requires CountOf(st, RateKey(ip)) >= 1
    requires st.now + Total(gaps) < e
    ensures var (st', ds) := Requests(st, ip, gaps);
      && |ds| == |gaps|
      && (forall i :: 0 <= i < |ds| ==>
            (ds[i].Forward? <==> CountOf(st, RateKey(ip)) + i + 1 <= MaxRequests)
            && (ds[i] == TooManyReply <==> CountOf(st, RateKey(ip)) + i + 1 > MaxRequests))
      && CounterOrAbsent(st', RateKey(ip)) && Live(st', RateKey(ip))
      && CountOf(st', RateKey(ip)) == CountOf(st, RateKey(ip)) + |gaps|
      && st'.data[RateKey(ip)].expiresAt == Some(e)
    decreases |gaps|
  {
    if gaps != [] {
      var k := RateKey(ip);
      var st0 := AdvanceSpec(st, gaps[0]);
      CountsEveryRequest(st0, ip);
      RejectIffOverLimit(st0, ip);
      var (d, st1) := LimitSpec(st0, ip);
      assert CountOf(st1, k) == CountOf(st, k) + 1;
      RequestsInWindow(st1, ip, gaps[1..], e);
      var (st2, ds) := Requests(st1, ip, gaps[1..]);
      assert Requests(st, ip, gaps) == (st2, [d] + ds);
      forall i | 0 <= i < |[d] + ds|
        ensures (([d] + ds)[i].Forward? <==> CountOf(st, k) + i + 1 <= MaxRequests)
          && (([d] + ds)[i] == TooManyReply <==> CountOf(st, k) + i + 1 > MaxRequests)
      {
        if i > 0 {
          assert ([d] + ds)[i] == ds[i - 1];
        }
      }
    }
  }

  /** From an IP with no open window, of any requests made within 60 s of the first, the
      first 15 pass, every later one is answered with 429, and the window closes 60 s after
      the first request. */
  lemma FirstFifteenPass(st: KvState, ip: string, gaps: seq<nat>)
    requires !Live(st, RateKey(ip))
    requires gaps != [] && Total(gaps[1..]) < Window
    ensures var (st', ds) := Requests(st, ip, gaps);
      && |ds| == |gaps|
      && (forall i :: 0 <= i < |ds| ==> (ds[i].Forward? <==> i < MaxRequests) && (ds[i] == TooManyReply <==> i >= MaxRequests))
      && RateKey(ip) in st'.data && st'.data[RateKey(ip)].expiresAt == Some(st.now + gaps[0] + Window)
  {
    var k := RateKey(ip);
    var st0 := AdvanceSpec(st, gaps[0]);
    assert !Live(st0, k);
    CountsEveryRequest(st0, ip);
    RejectIffOverLimit(st0, ip);
    var (d, st1) := LimitSpec(st0, ip);
    RequestsInWindow(st1, ip, gaps[1..], st0.now + Window);
    var (st2, ds) := Requests(st1, ip, gaps[1..]);
    assert Requests(st, ip, gaps) == (st2, [d] + ds);
    forall i | 0 <= i < |[d] + ds|
      ensures (([d] + ds)[i].Forward? <==> i < MaxRequests) && (([d] + ds)[i] == TooManyReply <==> i >= MaxRequests)
    {
      if i > 0 {
        assert ([d] + ds)[i] == ds[i - 1];
      }
    }
  }

  /** Once the window's key has expired, the next request starts a new window: the count
      is 1, the request passes, and the new window ends 60 s later. */
  lemma NewWindowAfterExpiry(st: KvState, ip: string, dt: nat)
    requires RateKey(ip) in st.data && st.data[RateKey(ip)].expiresAt.Some?
    requires st.now + dt >= st.data[RateKey(ip)].expiresAt.value
    ensures var (d, st') := LimitSpec(AdvanceSpec(st, dt), ip);
      && d == Forward
      && CountOf(st', RateKey(ip)) == 1
      && st'.data[RateKey(ip)].expiresAt == Some(st.now + dt + Window)
  {
    ExpiredAfter(st, RateKey(ip), dt);
    CountsEveryRequest(AdvanceSpec(st, dt), ip);
  }
}
