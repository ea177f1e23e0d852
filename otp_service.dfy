/**
 * The OTP engine of src/services/otp.service.ts. Per email address it keeps three
 * independently expiring Redis keys besides the code itself: a resend cooldown flag, a
 * resend counter over a 15-minute window, and a counter of verification attempts.
 *
 * Each operation is a method over the shared store whose new state and result are those of
 * a pure function of the old state (GenerateSpec, VerifySpec); the lemmas below state what
 * the source promises about those functions.
 */
module OtpService {
  import opened Wrappers
  import opened Strings
  import opened ApiErrors
  import opened KvStore
  import opened OtpTemplate

  const OtpExpirationTime: nat := 5 * 60
  const OtpCooldownTime: nat := 60
  const OtpResendWindow: nat := 15 * 60
  const MaxOtpAttempts: nat := 5

  /** `crypto.randomInt(100000, 999999)`: the upper bound is exclusive. */
  const RandomLow: nat := 100000
  const RandomHigh: nat := 999999

  const CooldownError := NewApiError(429, "OTP resend is on cooldown. Please wait before requesting a new OTP.")
  const ResendLimitError := NewApiError(429, "Maximum OTP resend attempts exceeded. Please try again later.")
  const OtpMissingError := NewApiError(400, "OTP has expired or does not exist. Please request a new OTP.")
  const VerifyLimitError := NewApiError(429, "Maximum OTP verification attempts exceeded. Please request a new OTP.")
  const OtpMismatchError := NewApiError(400, "Invalid OTP. Please try again.")

  const OtpSubject := "Your Fugal Labs OTP Code"

  function OtpKey(email: string): string {
    "otp:email:" + email
  }

  function ResendCooldownKey(email: string): string {
    "otp:resend:cooldown:email:" + email
  }

  function ResendCountKey(email: string): string {
    "otp:resend:count:email:" + email
  }

  function VerifyAttemptsKey(email: string): string {
    "otp:verify:attempts:email:" + email
  }

  lemma PrefixedInjective(p: string, a: string, b: string)
    requires p + a == p + b
    ensures a == b
  {
    assert a == (p + a)[|p|..];
    assert b == (p + b)[|p|..];
  }

  /** The four key builders never collide with one another, whatever the emails, and each
      one is injective, so no two emails share a key. */
  lemma KeyBuildersDistinct(a: string, b: string)
    ensures OtpKey(a) != ResendCooldownKey(b) && OtpKey(a) != ResendCountKey(b)
    ensures OtpKey(a) != VerifyAttemptsKey(b)
    ensures ResendCooldownKey(a) != ResendCountKey(b) && ResendCooldownKey(a) != VerifyAttemptsKey(b)
    ensures ResendCountKey(a) != VerifyAttemptsKey(b)
    ensures OtpKey(a) == OtpKey(b) ==> a == b
    ensures ResendCooldownKey(a) == ResendCooldownKey(b) ==> a == b
    ensures ResendCountKey(a) == ResendCountKey(b) ==> a == b
    ensures VerifyAttemptsKey(a) == VerifyAttemptsKey(b) ==> a == b
  {
    assert OtpKey(a)[4] == 'e' && ResendCooldownKey(b)[4] == 'r' && ResendCountKey(b)[4] == 'r';
    assert VerifyAttemptsKey(b)[4] == 'v' && ResendCooldownKey(a)[4] == 'r' && ResendCountKey(a)[4] == 'r';
    assert ResendCooldownKey(a)[13] == 'o' && ResendCountKey(b)[13] == 'u';
    if OtpKey(a) == OtpKey(b) { PrefixedInjective("otp:email:", a, b); }
    if ResendCooldownKey(a) == ResendCooldownKey(b) { PrefixedInjective("otp:resend:cooldown:email:", a, b); }
    if ResendCountKey(a) == ResendCountKey(b) { PrefixedInjective("otp:resend:count:email:", a, b); }
    if VerifyAttemptsKey(a) == VerifyAttemptsKey(b) { PrefixedInjective("otp:verify:attempts:email:", a, b); }
  }

  predicate InOtpRange(n: nat) {
    RandomLow <= n < RandomHigh
  }

  /** Stores a fresh code for 5 minutes, then the cooldown flag for 60 seconds. */
  function IssueSpec(st: KvState, email: string, n: nat): (Result<string, Err>, KvState) {
    var otp := NatToString(n);
    var st1 := SetExSpec(st, OtpKey(email), otp, OtpExpirationTime);
    (Success(otp), SetExSpec(st1, ResendCooldownKey(email), "1", OtpCooldownTime))
  }

  /** `generateOtp(email)` with `n` the number randomInt drew. */
  function GenerateSpec(st: KvState, email: string, n: nat): (Result<string, Err>, KvState) {
    var countKey := ResendCountKey(email);
    if Live(st, ResendCooldownKey(email)) then (Failure(CooldownError), st)
    else
      var (count, st1) := IncrSpec(st, countKey);
      if count.Failure? then (Failure(PlainError(count.error)), st1)
      else if count.value == 1 then IssueSpec(ExpireSpec(st1, countKey, OtpResendWindow), email, n)
      else if count.value > MaxOtpAttempts then (Failure(ResendLimitError), st1)
      else IssueSpec(st1, email, n)
  }

  /** The comparison at the end of `verifyOtp`: a match deletes the code and the attempts key. */
  function CompareSpec(st: KvState, email: string, stored: string, otp: string): (Result<(), Err>, KvState) {
    if stored != otp then (Failure(OtpMismatchError), st)
    else (Success(()), DelSpec(DelSpec(st, OtpKey(email)), VerifyAttemptsKey(email)))
  }

  /** `verifyOtp(email, otp)`. */
  function VerifySpec(st: KvState, email: string, otp: string): (Result<(), Err>, KvState) {
    var attemptsKey := VerifyAttemptsKey(email);
    var stored := GetSpec(st, OtpKey(email));
    if stored.None? || stored.value == "" then (Failure(OtpMissingError), st)
    else
      var (attempts, st1) := IncrSpec(st, attemptsKey);
      if attempts.Failure? then (Failure(PlainError(attempts.error)), st1)
      else if attempts.value == 1 then CompareSpec(ExpireSpec(st1, attemptsKey, OtpExpirationTime), email, stored.value, otp)
      else if attempts.value > MaxOtpAttempts then (Failure(VerifyLimitError), st1)
      else CompareSpec(st1, email, stored.value, otp)
  }

  /** The message handed to the mail provider. */
  datatype OutgoingEmail = OutgoingEmail(to: string, subject: string, text: string, html: string)

  /** `crypto.randomInt(low, high)`: any integer of [low, high). */
  method RandomInt(low: nat, high: nat) returns (n: nat)
    requires low < high
    ensures low <= n < high
  {
    n :| low <= n < high;
  }

  /** `generateOtp`; `draw` is the number randomInt returned (any in range). */
  method GenerateOtp(store: Store, email: string) returns (r: Result<string, Err>, ghost draw: nat)
    modifies store
    ensures InOtpRange(draw)
    ensures (r, store.State()) == GenerateSpec(old(store.State()), email, draw)
  {
    var cooldownKey := ResendCooldownKey(email);
    var countKey := ResendCountKey(email);
    var otpRedisKey := OtpKey(email);
    draw := RandomLow;

    var cooling := store.Exists(cooldownKey);
    if cooling {
      return Failure(CooldownError), draw;
    }

    var resendCount := store.Incr(countKey);
    if resendCount.Failure? {
      return Failure(PlainError(resendCount.error)), draw;
    }
    if resendCount.value == 1 {
      store.Expire(countKey, OtpResendWindow);
    } else if resendCount.value > MaxOtpAttempts {
      return Failure(ResendLimitError), draw;
    }

    var n := RandomInt(RandomLow, RandomHigh);
    draw := n;
    var otp := NatToString(n);
    store.SetEx(otpRedisKey, otp, OtpExpirationTime);
    store.SetEx(cooldownKey, "1", OtpCooldownTime);
    r := Success(otp);
  }

  /** `sendOtpEmail`: issue a code, then hand its email to the provider, whose outcome is
      `sendFailure` (None: delivered). A failed delivery does not undo the issued code.
      `sent` is the message handed to the provider, if one was. */
  method SendOtpEmail(store: Store, email: string, sendFailure: Option<Err>)
    returns (r: Result<(), Err>, sent: Option<OutgoingEmail>, ghost draw: nat)
    modifies store
    ensures InOtpRange(draw)
    ensures var (g, st) := GenerateSpec(old(store.State()), email, draw);
      && store.State() == st
      && (g.Failure? ==> r == Failure(g.error) && sent == None)
      && (g.Success? ==>
            && sent == Some(OutgoingEmail(email, OtpSubject, OtpTemplate.OtpTemplate(g.value).text, OtpTemplate.OtpTemplate(g.value).html))
            && r == (if sendFailure.Some? then Failure(sendFailure.value) else Success(())))
  {
    var otp;
    otp, draw := GenerateOtp(store, email);
    if otp.Failure? {
      return Failure(otp.error), None, draw;
    }
    var template := OtpTemplate.OtpTemplate(otp.value);
    var message := OutgoingEmail(email, OtpSubject, template.text, template.html);
    sent := Some(message);
    if sendFailure.Some? {
      r := Failure(sendFailure.value);
    } else {
      r := Success(());
    }
  }

  /** `verifyOtp`. */
  method VerifyOtp(store: Store, email: string, otp: string) returns (r: Result<(), Err>)
    modifies store
    ensures (r, store.State()) == VerifySpec(old(store.State()), email, otp)
  {
    var otpRedisKey := OtpKey(email);
    var attemptsKey := VerifyAttemptsKey(email);

    var storedOtp := store.Get(otpRedisKey);
    if storedOtp.None? || storedOtp.value == "" {
      return Failure(OtpMissingError);
    }

    var attempts := store.Incr(attemptsKey);
    if attempts.Failure? {
      return Failure(PlainError(attempts.error));
    }
    if attempts.value == 1 {
      store.Expire(attemptsKey, OtpExpirationTime);
    } else if attempts.value > MaxOtpAttempts {
      return Failure(VerifyLimitError);
    }

    if storedOtp.value != otp {
      return Failure(OtpMismatchError);
    }

    store.Del(otpRedisKey);
    store.Del(attemptsKey);
    r := Success(());
  }

  // ---------------------------------------------------------------------------------------
  // Issuing codes

  /** While the cooldown key exists the request is refused with 429 and no key changes. */
  lemma CooldownRefuses(st: KvState, email: string, n: nat)
    requires Live(st, ResendCooldownKey(email))
    ensures GenerateSpec(st, email, n) == (Failure(CooldownError), st)
    ensures CooldownError.statusCode == 429
  {
  }

  /** Past the cooldown check the resend counter goes up by one whether or not the request
      is then refused, and its 15-minute expiry is set only when the count becomes 1. */
  lemma ResendCountedEvenWhenRefused(st: KvState, email: string, n: nat)
    requires !Live(st, ResendCooldownKey(email))
    requires CounterOrAbsent(st, ResendCountKey(email))
    ensures var k := ResendCountKey(email);
      var st' := GenerateSpec(st, email, n).1;
      && Live(st', k)
      && CountOf(st', k) == CountOf(st, k) + 1
      && st'.data[k].expiresAt == (if CountOf(st, k) == 0 then Some(st.now + OtpResendWindow) else st.data[k].expiresAt)
  {
    KeyBuildersDistinct(email, email);
  }

  /** A sixth request in the window (the counter already at 5) is refused with 429, and
      neither the code nor the cooldown key is written. */
  lemma ResendLimitRefuses(st: KvState, email: string, n: nat)
    requires !Live(st, ResendCooldownKey(email))
    requires CounterOrAbsent(st, ResendCountKey(email))
    requires CountOf(st, ResendCountKey(email)) >= MaxOtpAttempts
    ensures var (r, st') := GenerateSpec(st, email, n);
      && r == Failure(ResendLimitError)
      && SameAt(st, st', OtpKey(email)) && SameAt(st, st', ResendCooldownKey(email))
  {
    KeyBuildersDistinct(email, email);
  }

  /** A request succeeds exactly when the cooldown key is absent and fewer than 5 codes
      were issued in the window. Then the code is the decimal form of the drawn number,
      stored for 300 s, and the cooldown flag is set for 60 s, so an immediate second
      request is refused. */
  lemma IssueOutcome(st: KvState, email: string, n: nat)
    requires CounterOrAbsent(st, ResendCountKey(email))
    ensures var (r, st') := GenerateSpec(st, email, n);
      && (r.Success? <==> !Live(st, ResendCooldownKey(email)) && CountOf(st, ResendCountKey(email)) < MaxOtpAttempts)
      && (r.Success? ==>
            && r.value == NatToString(n)
            && st'.now == st.now
            && OtpKey(email) in st'.data
            && st'.data[OtpKey(email)] == Entry(Text(r.value), Some(st.now + OtpExpirationTime))
            && GetSpec(st', OtpKey(email)) == Some(r.value)
            && ResendCooldownKey(email) in st'.data
            && st'.data[ResendCooldownKey(email)] == Entry(Text("1"), Some(st.now + OtpCooldownTime))
            && forall m: nat :: GenerateSpec(st', email, m) == (Failure(CooldownError), st'))
  {
    KeyBuildersDistinct(email, email);
    var (r, st') := GenerateSpec(st, email, n);
    if r.Success? {
      assert Live(st', ResendCooldownKey(email));
      forall m: nat ensures GenerateSpec(st', email, m) == (Failure(CooldownError), st') {
        CooldownRefuses(st', email, m);
      }
    }
  }

  /** Every code randomInt can produce is six digits long with no leading zero (the range
      starts at 100000), and 999999 is never issued because randomInt's bound is exclusive. */
  lemma OtpCodeShape(n: nat)
    requires InOtpRange(n)
    ensures |NatToString(n)| == 6 && NatToString(n)[0] != '0'
    ensures forall i :: 0 <= i < 6 ==> IsDigit(NatToString(n)[i])
    ensures NatToString(n) != NatToString(999999)
  {
    assert Pow10(5) == 100000 && Pow10(6) == 1000000;
    NatToStringLength(n, 6);
    if NatToString(n) == NatToString(999999) {
      NatToStringInjective(n, 999999);
    }
  }

  /** Issuing a code writes only the email's cooldown, resend-count and code keys; in
      particular it never touches the verify-attempts key, so a new code does not reset
      the guess budget, and other emails' keys are untouched. */
  lemma GenerateFrame(st: KvState, email: string, n: nat)
    ensures var st' := GenerateSpec(st, email, n).1;
      && st'.now == st.now
      && SameAt(st, st', VerifyAttemptsKey(email))
      && forall k :: k != ResendCooldownKey(email) && k != ResendCountKey(email) && k != OtpKey(email)
           ==> SameAt(st, st', k)
  {
    KeyBuildersDistinct(email, email);
  }

  /** The counter keys keep holding counters under both operations, which is what the
      lemmas above assume of them. */
  lemma CountersStayCounters(st: KvState, email: string, n: nat, otp: string)
    requires CounterOrAbsent(st, ResendCountKey(email)) && CounterOrAbsent(st, VerifyAttemptsKey(email))
    ensures CounterOrAbsent(GenerateSpec(st, email, n).1, ResendCountKey(email))
    ensures CounterOrAbsent(GenerateSpec(st, email, n).1, VerifyAttemptsKey(email))
    ensures CounterOrAbsent(VerifySpec(st, email, otp).1, ResendCountKey(email))
    ensures CounterOrAbsent(VerifySpec(st, email, otp).1, VerifyAttemptsKey(email))
  {
    KeyBuildersDistinct(email, email);
  }

  // ---------------------------------------------------------------------------------------
  // Verifying codes

  /** With no stored code verification fails with 400 and changes nothing, in particular
      not the attempts counter. */
  lemma VerifyWithoutCode(st: KvState, email: string, otp: string)
    requires !Live(st, OtpKey(email))
    ensures VerifySpec(st, email, otp) == (Failure(OtpMissingError), st)
    ensures OtpMissingError.statusCode == 400
  {
  }

  /** Against a stored code every attempt that fails is counted: the attempts counter goes
      up by one before the comparison, with its 300 s expiry set on the first attempt. */
  lemma VerifyCountsAttempt(st: KvState, email: string, otp: string, code: string)
    requires GetSpec(st, OtpKey(email)) == Some(code) && code != ""
    requires CounterOrAbsent(st, VerifyAttemptsKey(email))
    ensures var (r, st') := VerifySpec(st, email, otp);
      var k := VerifyAttemptsKey(email);
      r.Failure? ==>
        && Live(st', k) && CountOf(st', k) == CountOf(st, k) + 1
        && st'.data[k].expiresAt == (if CountOf(st, k) == 0 then Some(st.now + OtpExpirationTime) else st.data[k].expiresAt)
  {
    KeyBuildersDistinct(email, email);
  }

  /** Once five attempts were made, the next one is refused with 429 even if it is right,
      and the code stays stored. */
  lemma VerifyLimitRefusesEvenCorrect(st: KvState, email: string, otp: string)
    requires GetSpec(st, OtpKey(email)).Some? && GetSpec(st, OtpKey(email)).value != ""
    requires CounterOrAbsent(st, VerifyAttemptsKey(email))
    requires CountOf(st, VerifyAttemptsKey(email)) >= MaxOtpAttempts
    ensures var (r, st') := VerifySpec(st, email, otp);
      r == Failure(VerifyLimitError) && SameAt(st, st', OtpKey(email)) && st'.now == st.now
  {
    KeyBuildersDistinct(email, email);
  }

  /** Within the budget, a wrong code fails with 400 and keeps the code; the right code
      succeeds, deletes both the code and the attempts key, and so cannot verify twice. */
  lemma VerifyWithinBudget(st: KvState, email: string, otp: string, code: string)
    requires GetSpec(st, OtpKey(email)) == Some(code) && code != ""
    requires CounterOrAbsent(st, VerifyAttemptsKey(email))
    requires CountOf(st, VerifyAttemptsKey(email)) < MaxOtpAttempts
    ensures var (r, st') := VerifySpec(st, email, otp);
      && (code != otp ==> r == Failure(OtpMismatchError) && SameAt(st, st', OtpKey(email)) && st'.now == st.now)
      && (code == otp ==>
            && r == Success(())
            && !Live(st', OtpKey(email)) && !Live(st', VerifyAttemptsKey(email))
            && VerifySpec(st', email, otp) == (Failure(OtpMissingError), st'))
  {
    KeyBuildersDistinct(email, email);
  }

  /** Verification writes only the email's code and attempts keys; the resend counters and
      every other email's keys are untouched. */
  lemma VerifyFrame(st: KvState, email: string, otp: string)
    ensures var st' := VerifySpec(st, email, otp).1;
      && st'.now == st.now
      && forall k :: k != OtpKey(email) && k != VerifyAttemptsKey(email) ==> SameAt(st, st', k)
  {
    KeyBuildersDistinct(email, email);
  }

  /** A code verified 300 s or more after it was issued is reported as expired. */
  lemma ExpiredCodeRejected(st: KvState, email: string, n: nat, dt: nat, otp: string)
    requires CounterOrAbsent(st, ResendCountKey(email))
    requires GenerateSpec(st, email, n).0.Success?
    requires dt >= OtpExpirationTime
    ensures VerifySpec(AdvanceSpec(GenerateSpec(st, email, n).1, dt), email, otp).0 == Failure(OtpMissingError)
  {
    IssueOutcome(st, email, n);
    var st' := GenerateSpec(st, email, n).1;
    ExpiredAfter(st', OtpKey(email), dt);
    VerifyWithoutCode(AdvanceSpec(st', dt), email, otp);
  }

  // ---------------------------------------------------------------------------------------
  // Sequences of requests

  /** Successive verification attempts, all at the same instant. */
  function VerifyAll(st: KvState, email: string, guesses: seq<string>): (KvState, seq<Result<(), Err>>)
    decreases |guesses|
  {
    if guesses == [] then (st, [])
    else
      var (r, st1) := VerifySpec(st, email, guesses[0]);
      var (st2, rs) := VerifyAll(st1, email, guesses[1..]);
      (st2, [r] + rs)
  }

  /** Wrong guesses within the budget each fail with 400, keep the code, and use up one
      attempt apiece. */
  lemma {:induction false} WrongGuessesSpendBudget(st: KvState, email: string, code: string, guesses: seq<string>)
    requires GetSpec(st, OtpKey(email)) == Some(code) && code != ""
    requires CounterOrAbsent(st, VerifyAttemptsKey(email))
    requires CountOf(st, VerifyAttemptsKey(email)) + |guesses| <= MaxOtpAttempts
    requires forall i :: 0 <= i < |guesses| ==> guesses[i] != code
    ensures var (st', rs) := VerifyAll(st, email, guesses);
      && GetSpec(st', OtpKey(email)) == Some(code)
      && CounterOrAbsent(st', VerifyAttemptsKey(email))
      && CountOf(st', VerifyAttemptsKey(email)) == CountOf(st, VerifyAttemptsKey(email)) + |guesses|
      && |rs| == |guesses|
      && forall i :: 0 <= i < |rs| ==> rs[i] == Failure(OtpMismatchError)
    decreases |guesses|
  {
    if guesses != [] {
      var (r, st1) := VerifySpec(st, email, guesses[0]);
      VerifyWithinBudget(st, email, guesses[0], code);
      VerifyCountsAttempt(st, email, guesses[0], code);
      assert GetSpec(st1, OtpKey(email)) == Some(code);
      WrongGuessesSpendBudget(st1, email, code, guesses[1..]);
      var (st2, rs) := VerifyAll(st1, email, guesses[1..]);
      assert VerifyAll(st, email, guesses) == (st2, [r] + rs);
    }
  }

  /** Five wrong guesses against a fresh code lock it: the sixth attempt is refused with
      429 even when it is the right code. */
  lemma SixthGuessRefused(st: KvState, email: string, code: string, guesses: seq<string>, last: string)
    requires GetSpec(st, OtpKey(email)) == Some(code) && code != ""
    requires !Live(st, VerifyAttemptsKey(email))
    requires |guesses| == MaxOtpAttempts
    requires forall i :: 0 <= i < |guesses| ==> guesses[i] != code
    ensures VerifySpec(VerifyAll(st, email, guesses).0, email, last).0 == Failure(VerifyLimitError)
  {
    WrongGuessesSpendBudget(st, email, code, guesses);
    var st' := VerifyAll(st, email, guesses).0;
    VerifyLimitRefusesEvenCorrect(st', email, last);
  }

  /** `rounds` requests for a code, each followed by a one-minute wait. */
  function RequestEveryMinute(st: KvState, email: string, n: nat, rounds: nat): KvState
    decreases rounds
  {
    if rounds == 0 then st
    else RequestEveryMinute(AdvanceSpec(GenerateSpec(st, email, n).1, OtpCooldownTime), email, n, rounds - 1)
  }

  /** Starting with no keys for the email, requests one minute apart keep succeeding, and
      after `rounds` of them (at most five, so still within the 15-minute window) the
      counter stands at `rounds` and still expires 900 s after the first request. */
  lemma {:induction false} RequestsOneMinuteApart(st: KvState, email: string, n: nat, done: nat, rounds: nat, t0: int)
    requires done + rounds <= MaxOtpAttempts
    requires !Live(st, ResendCooldownKey(email))
    requires CounterOrAbsent(st, ResendCountKey(email))
    requires CountOf(st, ResendCountKey(email)) == done
    requires st.now == t0 + done * OtpCooldownTime
    requires done > 0 ==> Live(st, ResendCountKey(email)) && st.data[ResendCountKey(email)].expiresAt == Some(t0 + OtpResendWindow)
    ensures var st' := RequestEveryMinute(st, email, n, rounds);
      && !Live(st', ResendCooldownKey(email))
      && CounterOrAbsent(st', ResendCountKey(email))
      && CountOf(st', ResendCountKey(email)) == done + rounds
      && st'.now == t0 + (done + rounds) * OtpCooldownTime
      && (done + rounds > 0 ==> Live(st', ResendCountKey(email)) && st'.data[ResendCountKey(email)].expiresAt == Some(t0 + OtpResendWindow))
    decreases rounds
  {
    if rounds > 0 {
      var k := ResendCountKey(email);
      KeyBuildersDistinct(email, email);
      IssueOutcome(st, email, n);
      ResendCountedEvenWhenRefused(st, email, n);
      var st1 := GenerateSpec(st, email, n).1;
      var st2 := AdvanceSpec(st1, OtpCooldownTime);
      assert !Live(st2, ResendCooldownKey(email));
      assert st1.data[k].expiresAt == Some(t0 + OtpResendWindow);
      assert Live(st2, k);
      RequestsOneMinuteApart(st2, email, n, done + 1, rounds - 1, t0);
    }
  }

  /** Five requests a minute apart all succeed; the sixth, still inside the window, is
      refused because the resend limit is reached, not because of the cooldown. */
  lemma SixthResendInWindowRefused(st: KvState, email: string, n: nat)
    requires !Live(st, ResendCooldownKey(email)) && !Live(st, ResendCountKey(email))
    ensures GenerateSpec(RequestEveryMinute(st, email, n, MaxOtpAttempts), email, n).0 == Failure(ResendLimitError)
  {
    RequestsOneMinuteApart(st, email, n, 0, MaxOtpAttempts, st.now);
    ResendLimitRefuses(RequestEveryMinute(st, email, n, MaxOtpAttempts), email, n);
  }

  /** Once the resend window has expired (and the cooldown with it), a request succeeds
      again whatever the old count was. */
  lemma ResendAfterWindow(st: KvState, email: string, n: nat, dt: nat)
    requires CounterOrAbsent(st, ResendCountKey(email))
    requires ResendCountKey(email) in st.data && st.data[ResendCountKey(email)].expiresAt.Some?
    requires st.now + dt >= st.data[ResendCountKey(email)].expiresAt.value
    requires !Live(AdvanceSpec(st, dt), ResendCooldownKey(email))
    ensures GenerateSpec(AdvanceSpec(st, dt), email, n).0 == Success(NatToString(n))
  {
    ExpiredAfter(st, ResendCountKey(email), dt);
    IssueOutcome(AdvanceSpec(st, dt), email, n);
  }

  /** The email announces the same 5 minutes the code is stored for. */
  lemma TemplateValidityMatchesExpiry()
    ensures ValidityPhrase == NatToString(OtpExpirationTime / 60) + " minutes"
  {
  }
}
