/**
 * The Redis instance of src/lib/redis.ts, reduced to the commands the OTP engine and the
 * rate limiter use (EXISTS, GET, INCR, EXPIRE, SET ... EX, DEL) over a map from key to
 * value and expiry time, plus a logical clock in seconds. A key whose expiry time has been
 * reached is absent for every command, as Redis's lazy expiry makes it.
 */
module KvStore {
  import opened Wrappers
  import opened Strings

  /** A stored value: a string written by SET, or the integer INCR maintains. */
  datatype Value = Text(text: string) | Counter(count: nat)

  /** A value and its absolute expiry time (None: no TTL). */
  datatype Entry = Entry(value: Value, expiresAt: Option<int>)

  datatype KvState = KvState(data: map<string, Entry>, now: int)

  /** Redis's reply to INCR on a value that is not an integer. */
  const NotAnInteger := "ERR value is not an integer or out of range"

  /** The key exists and has not expired. */
  predicate Live(st: KvState, k: string) {
    k in st.data && (st.data[k].expiresAt.None? || st.now < st.data[k].expiresAt.value)
  }

  /** The counter at `k`, 0 when `k` is absent or expired (what INCR starts from). */
  function CountOf(st: KvState, k: string): nat {
    if Live(st, k) && st.data[k].value.Counter? then st.data[k].value.count else 0
  }

  /** `k` holds a counter or nothing, as every key written only by INCR does. */
  predicate CounterOrAbsent(st: KvState, k: string) {
    Live(st, k) ==> st.data[k].value.Counter?
  }

  /** The two states hold the same entry (or none) at `k`. */
  predicate SameAt(a: KvState, b: KvState, k: string) {
    (k in a.data <==> k in b.data) && (k in a.data ==> a.data[k] == b.data[k])
  }

  /** GET: the string at `k`, the decimal form of a counter, or nil. */
  function GetSpec(st: KvState, k: string): (r: Option<string>)
    ensures r.Some? <==> Live(st, k)
    ensures Live(st, k) && st.data[k].value.Text? ==> r == Some(st.data[k].value.text)
  {
    if !Live(st, k) then None
    else match st.data[k].value
      case Text(s) => Some(s)
      case Counter(n) => Some(NatToString(n))
  }

  /** INCR: adds one to the counter (an absent key counts as 0 and gets no TTL), keeps the
      key's TTL, fails on a string value, and touches no other key. */
  function IncrSpec(st: KvState, k: string): (r: (Result<nat, string>, KvState))
    ensures r.1.now == st.now
    ensures forall k2 :: k2 != k ==> SameAt(st, r.1, k2)
    ensures CounterOrAbsent(st, k) ==>
      && r.0 == Success(CountOf(st, k) + 1)
      && Live(r.1, k) && r.1.data[k].value == Counter(CountOf(st, k) + 1)
      && CountOf(r.1, k) == CountOf(st, k) + 1
      && r.1.data[k].expiresAt == (if Live(st, k) then st.data[k].expiresAt else None)
    ensures !CounterOrAbsent(st, k) ==> r == (Failure(NotAnInteger), st)
  {
    if Live(st, k) then
      match st.data[k].value
      case Counter(n) => (Success(n + 1), st.(data := st.data[k := Entry(Counter(n + 1), st.data[k].expiresAt)]))
      case Text(_) => (Failure(NotAnInteger), st)
    else
      (Success(1), st.(data := st.data[k := Entry(Counter(1), None)]))
  }

  /** EXPIRE: a live key now expires `secs` seconds from the current time; an absent key is
      left absent. No other key changes. */
  function ExpireSpec(st: KvState, k: string, secs: nat): (r: KvState)
    ensures r.now == st.now
    ensures forall k2 :: k2 != k ==> SameAt(st, r, k2)
    ensures Live(st, k) ==> k in r.data && r.data[k] == st.data[k].(expiresAt := Some(st.now + secs))
    ensures !Live(st, k) ==> r == st
  {
    if Live(st, k) then st.(data := st.data[k := st.data[k].(expiresAt := Some(st.now + secs))]) else st
  }

  /** SET k v EX secs: `k` holds the string `v` for `secs` seconds, whatever it held. */
  function SetExSpec(st: KvState, k: string, v: string, secs: nat): (r: KvState)
    ensures r.now == st.now
    ensures forall k2 :: k2 != k ==> SameAt(st, r, k2)
    ensures k in r.data && r.data[k] == Entry(Text(v), Some(st.now + secs))
  {
    st.(data := st.data[k := Entry(Text(v), Some(st.now + secs))])
  }

  /** DEL: `k` is gone; nothing else changes. */
  function DelSpec(st: KvState, k: string): (r: KvState)
    ensures r.now == st.now && k !in r.data && !Live(r, k)
    ensures forall k2 :: k2 != k ==> SameAt(st, r, k2)
  {
    st.(data := st.data - {k})
  }

  /** The passage of `dt` seconds. */
  function AdvanceSpec(st: KvState, dt: nat): (r: KvState)
    ensures r.data == st.data && r.now == st.now + dt
  {
    st.(now := st.now + dt)
  }

  /** A key with a TTL is gone once its expiry time is reached, whatever else happens to the
      clock. */
  lemma ExpiredAfter(st: KvState, k: string, dt: nat)
    requires k in st.data && st.data[k].expiresAt.Some?
    requires st.now + dt >= st.data[k].expiresAt.value
    ensures !Live(AdvanceSpec(st, dt), k)
    ensures CountOf(AdvanceSpec(st, dt), k) == 0
  {
  }

  /** The shared Redis connection. */
  class Store {
    var data: map<string, Entry>
    var now: int

    function State(): KvState
      reads this
    {
      KvState(data, now)
    }

    constructor ()
      ensures State() == KvState(map[], 0)
    {
      data := map[];
      now := 0;
    }

    method Exists(k: string) returns (b: bool)
      ensures b == Live(State(), k)
    {
      b := k in data && (data[k].expiresAt.None? || now < data[k].expiresAt.value);
    }

    method Get(k: string) returns (r: Option<string>)
      ensures r == GetSpec(State(), k)
    {
      var live := Exists(k);
      if !live {
        r := None;
      } else {
        match data[k].value
        case Text(s) => r := Some(s);
        case Counter(n) => r := Some(NatToString(n));
      }
    }

    method Incr(k: string) returns (r: Result<nat, string>)
      modifies this
      ensures (r, State()) == IncrSpec(old(State()), k)
    {
      var live := Exists(k);
      if live {
        match data[k].value
        case Counter(n) =>
          data := data[k := Entry(Counter(n + 1), data[k].expiresAt)];
          r := Success(n + 1);
        case Text(_) =>
          r := Failure(NotAnInteger);
      } else {
        data := data[k := Entry(Counter(1), None)];
        r := Success(1);
      }
    }

    method Expire(k: string, secs: nat)
      modifies this
      ensures State() == ExpireSpec(old(State()), k, secs)
    {
      var live := Exists(k);
      if live {
        data := data[k := data[k].(expiresAt := Some(now + secs))];
      }
    }

    method SetEx(k: string, v: string, secs: nat)
      modifies this
      ensures State() == SetExSpec(old(State()), k, v, secs)
    {
      data := data[k := Entry(Text(v), Some(now + secs))];
    }

    method Del(k: string)
      modifies this
      ensures State() == DelSpec(old(State()), k)
    {
      data := data - {k};
    }

    /** Lets time pass; nothing else in the source does this, the clock is the world's. */
    method Advance(dt: nat)
      modifies this
      ensures State() == AdvanceSpec(old(State()), dt)
    {
      now := now + dt;
    }
  }
}
