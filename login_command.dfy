/**
 * The login command of src/Console/CodexLoginCommand.php.  The device flow
 * polls the identity provider a bounded number of times; the browser flow
 * receives one HTTP request on a local port and takes the authorization code
 * from its query string.  Sockets, `sleep`, the browser launch and console
 * output are left out: what the socket reads is a parameter, as are the
 * responses of the identity provider at each attempt and the time.
 */
module LoginCommand {
  import opened Wrappers
  import opened PhpArray
  import opened Strings
  import opened Jwt
  import opened Pkce
  import opened TokenStore
  import opened OAuthService

  /** How the command ends: its exit code, or an exception it does not catch. */
  datatype Exit = Success | Failure | Uncaught(message: string)

  const PollWindowSeconds := 300
  const SafetyMarginSeconds := 3

  /** `$device['interval'] + 3`: null counts as 0 and a boolean as 0 or 1; any
      other non-integer raises. */
  function PollInterval(interval: Value): (r: Result<int>)
    ensures interval.Int? ==> r == Ok(interval.i + SafetyMarginSeconds)
    ensures interval == Null ==> r == Ok(SafetyMarginSeconds)
    ensures r.Err? <==> interval.Str? || interval.Arr?
  {
    match interval
    case Int(i) => Ok(i + SafetyMarginSeconds)
    case Null => Ok(SafetyMarginSeconds)
    case Bool(b) => Ok((if b then 1 else 0) + SafetyMarginSeconds)
    case _ => Err("unsupported operand types")
  }

  /** `(int) ceil(300 / $interval)`: a zero interval divides by zero; a
      negative one gives a non-positive bound.  (Dafny's division rounds a
      positive dividend over a negative divisor up, as `ceil` does.) */
  function MaxAttempts(interval: int): (r: Result<int>)
    ensures r.Err? <==> interval == 0
    ensures interval > 0 ==> r.Ok? && (r.value - 1) * interval < PollWindowSeconds <= r.value * interval
    ensures interval < 0 ==> r.Ok? && r.value <= 0
  {
    if interval == 0 then Err("Division by zero")
    else if interval > 0 then Ok((PollWindowSeconds + interval - 1) / interval)
    else Ok(PollWindowSeconds / interval)
  }

  /** The attempt bound is the least number of intervals covering the window. */
  lemma MaxAttemptsIsCeiling(interval: int, k: int)
    requires interval > 0 && k * interval >= PollWindowSeconds
    ensures MaxAttempts(interval).value <= k
  {
  }

  /** The identity provider's answers, attempt by attempt, and the clock. */
  datatype DeviceWorld = DeviceWorld(
    initResp: HttpResponse,
    pollAt: nat -> HttpResponse,
    exchangeAt: nat -> HttpResponse,
    nowAt: nat -> int,
    dec: Decoders)

  /** One attempt of the poll loop. */
  datatype Attempt = Pending | Finished(exit: Exit, row: Option<Record>)

  /** The poll of attempt `i`: none when the session's device auth id or user
      code is not a string (the call raises before any request). */
  function DevicePoll(device: Value, i: nat, w: DeviceWorld): (r: Option<PollResult>)
    ensures r.Some? <==> Coalesce(Get(device, StrKey("device_auth_id")), Null).Str?
                         && Coalesce(Get(device, StrKey("user_code")), Null).Str?
  {
    var id := Coalesce(Get(device, StrKey("device_auth_id")), Null);
    var code := Coalesce(Get(device, StrKey("user_code")), Null);
    if !id.Str? || !code.Str? then None
    else Some(PollDeviceAuth(id.s, code.s, w.pollAt(i), w.exchangeAt(i)))
  }

  /** Attempt `i`: the poll (and possible exchange) inside the `try`; a pending
      answer continues; a token payload is stored and ends the command; any
      exception ends it with FAILURE. */
  function DeviceAttempt(row: Option<Record>, device: Value, i: nat, w: DeviceWorld): (r: (Attempt, seq<HttpRequest>))
    ensures r.0.Finished? && r.0.exit == Success ==> r.0.row.Some?
    ensures r.0.Finished? && r.0.exit != Success ==> r.0.row == row && r.0.exit == Failure
    ensures |r.1| <= 2
  {
    var polled := DevicePoll(device, i, w);
    if polled.None? then (Finished(Failure, row), [])
    else
      match polled.value.outcome
      case Err(_) => (Finished(Failure, row), polled.value.sent)
      case Ok(tokens) =>
        if tokens.None? then (Pending, polled.value.sent)
        else
          var stored := StoreTokensOutcome(row, tokens.value, w.nowAt(i), w.dec);
          if stored.Err? then (Finished(Failure, row), polled.value.sent)
          else (Finished(Success, Some(stored.value)), polled.value.sent)
  }

  /** An attempt follows its poll: no poll, no request and FAILURE; otherwise
      the poll's requests, pending exactly when the poll is, and a polled
      payload ends the command with SUCCESS and the stored row when it
      stores, with FAILURE when it does not.  A pending attempt sent one poll. */
  lemma AttemptFollowsPoll(row: Option<Record>, device: Value, i: nat, w: DeviceWorld)
    ensures var r := DeviceAttempt(row, device, i, w);
            DevicePoll(device, i, w).None? ==> r == (Finished(Failure, row), [])
    ensures var r := DeviceAttempt(row, device, i, w);
            DevicePoll(device, i, w).Some? ==>
              var p := DevicePoll(device, i, w).value;
              r.1 == p.sent
              && (r.0 == Pending <==> p.outcome == Ok(None))
              && (p.outcome.Ok? && p.outcome.value.Some? ==>
                    var stored := StoreTokensOutcome(row, p.outcome.value.value, w.nowAt(i), w.dec);
                    (stored.Ok? ==> r.0 == Finished(Success, Some(stored.value)))
                    && (stored.Err? ==> r.0 == Finished(Failure, row)))
    ensures var r := DeviceAttempt(row, device, i, w);
            r.0 == Pending ==> Polls(r.1) == 1
  {
    var p := DevicePoll(device, i, w);
    if p.Some? {
      PollSendsOnePoll(p.value.sent);
    }
  }

  /** The `for` loop of the device flow from attempt `i` to `max`, over the
      attempts `attempts` gives: a finished attempt ends it, a pending one
      goes on to the next; when the attempts run out, FAILURE. */
  function Loop(row: Option<Record>, attempts: nat -> (Attempt, seq<HttpRequest>), i: nat, max: int)
    : (r: (Exit, Option<Record>, seq<HttpRequest>))
    ensures i >= max ==> r == (Failure, row, [])
    decreases max - i
  {
    if i >= max then (Failure, row, [])
    else if attempts(i).0.Finished? then (attempts(i).0.exit, attempts(i).0.row, attempts(i).1)
    else
      var rest := Loop(row, attempts, i + 1, max);
      (rest.0, rest.1, attempts(i).1 + rest.2)
  }

  /** An attempt that fails keeps the row; one that succeeds has stored one. */
  predicate KeepsRowUnlessStored(row: Option<Record>, a: Attempt) {
    a.Finished? ==> (a.exit == Success ==> a.row.Some?) && (a.exit != Success ==> a.row == row && a.exit == Failure)
  }

  /** The loop never raises, and keeps the row unless an attempt stored one. */
  lemma {:induction false} LoopKeepsRow(row: Option<Record>, attempts: nat -> (Attempt, seq<HttpRequest>), i: nat, max: int)
    requires forall k :: KeepsRowUnlessStored(row, attempts(k).0)
    ensures var r := Loop(row, attempts, i, max);
            (r.0 != Success ==> r.1 == row) && (r.0 == Success ==> r.1.Some?) && !r.0.Uncaught?
    decreases max - i
  {
    if i < max && attempts(i).0.Pending? {
      LoopKeepsRow(row, attempts, i + 1, max);
    }
  }

  /** The attempts of the device flow, for a session and the row it starts from. */
  function DeviceAttempts(row: Option<Record>, device: Value, w: DeviceWorld): nat -> (Attempt, seq<HttpRequest>) {
    (k: nat) => DeviceAttempt(row, device, k, w)
  }

  /** The poll loop of the device flow. */
  function DeviceLoop(row: Option<Record>, device: Value, i: nat, max: int, w: DeviceWorld)
    : (r: (Exit, Option<Record>, seq<HttpRequest>))
    ensures r.0 != Success ==> r.1 == row
    ensures r.0 == Success ==> r.1.Some?
    ensures !r.0.Uncaught?
  {
    var attempts := DeviceAttempts(row, device, w);
    assert forall k :: KeepsRowUnlessStored(row, attempts(k).0) by {
      forall k ensures KeepsRowUnlessStored(row, attempts(k).0) {
        assert attempts(k) == DeviceAttempt(row, device, k, w);
      }
    }
    LoopKeepsRow(row, attempts, i, max);
    Loop(row, attempts, i, max)
  }

  /** The poll interval of a device session, read where the command prints
      the user code and adds the safety margin; both reads are outside the
      `try`.  A missing `user_code` or `interval` key, and an array user code
      printed as text, are warnings the framework raises as exceptions. */
  function SessionPollInterval(device: Value): (r: Result<int>)
    ensures Get(device, StrKey("user_code")).None? ==> r.Err?
    ensures (Get(device, StrKey("user_code")).Some? && Get(device, StrKey("user_code")).value.Arr?)
              ==> r == Err(ArrayToString)
    ensures Get(device, StrKey("user_code")).Some? && !Get(device, StrKey("user_code")).value.Arr? ==>
              (Get(device, StrKey("interval")).None? ==> r.Err?)
              && (Get(device, StrKey("interval")).Some? ==> r == PollInterval(Get(device, StrKey("interval")).value))
  {
    var userCode := Get(device, StrKey("user_code"));
    var interval := Get(device, StrKey("interval"));
    if userCode.None? then Err("Undefined array key \"user_code\"")
    else if userCode.value.Arr? then Err(ArrayToString)
    else if interval.None? then Err("Undefined array key \"interval\"")
    else PollInterval(interval.value)
  }

  /** `deviceFlow`: a failing initiation fails; a session without a usable
      user code or interval, or one whose interval makes the attempt count
      divide by zero, raises; otherwise the poll loop runs from attempt 0. */
  function DeviceFlow(row: Option<Record>, w: DeviceWorld): (r: (Exit, Option<Record>, seq<HttpRequest>))
    ensures r.0 != Success ==> r.1 == row
    ensures r.2 != [] && r.2[0] == UserCodeRequest()
    ensures InitiateDeviceAuth(w.initResp).Err? ==> r == (Failure, row, [UserCodeRequest()])
    ensures (InitiateDeviceAuth(w.initResp).Ok? && SessionPollInterval(w.initResp.json).Err?)
              ==> r == (Uncaught(SessionPollInterval(w.initResp.json).error), row, [UserCodeRequest()])
    ensures (InitiateDeviceAuth(w.initResp).Ok? && SessionPollInterval(w.initResp.json).Ok?
             && MaxAttempts(SessionPollInterval(w.initResp.json).value).Err?)
              ==> r == (Uncaught(MaxAttempts(SessionPollInterval(w.initResp.json).value).error), row, [UserCodeRequest()])
    ensures InitiateDeviceAuth(w.initResp).Ok? && SessionPollInterval(w.initResp.json).Ok?
            && MaxAttempts(SessionPollInterval(w.initResp.json).value).Ok? ==>
              var loop := DeviceLoop(row, w.initResp.json, 0, MaxAttempts(SessionPollInterval(w.initResp.json).value).value, w);
              r == (loop.0, loop.1, [UserCodeRequest()] + loop.2)
  {
    var device := InitiateDeviceAuth(w.initResp);
    if device.Err? then (Failure, row, [UserCodeRequest()])
    else
      var interval := SessionPollInterval(device.value);
      if interval.Err? then (Uncaught(interval.error), row, [UserCodeRequest()])
      else
        var max := MaxAttempts(interval.value);
        if max.Err? then (Uncaught(max.error), row, [UserCodeRequest()])
        else
          var (exit, row', sent) := DeviceLoop(row, device.value, 0, max.value, w);
          (exit, row', [UserCodeRequest()] + sent)
  }

  /** One turn of the loop: a finished attempt ends it with its outcome and
      requests; a pending one adds its requests to the rest of the loop's. */
  lemma LoopStep(row: Option<Record>, attempts: nat -> (Attempt, seq<HttpRequest>), i: nat, max: int)
    requires i < max
    ensures attempts(i).0.Finished? ==>
              Loop(row, attempts, i, max) == (attempts(i).0.exit, attempts(i).0.row, attempts(i).1)
    ensures attempts(i).0.Pending? ==>
              Loop(row, attempts, i, max) == (Loop(row, attempts, i + 1, max).0, Loop(row, attempts, i + 1, max).1,
                                                  attempts(i).1 + Loop(row, attempts, i + 1, max).2)
  {
  }

  /** The first attempt from `i` on that finishes, or `i` itself once the
      attempts are used up. */
  function FirstFinished(attempts: nat -> (Attempt, seq<HttpRequest>), i: nat, max: int): (j: nat)
    ensures i <= j
    decreases max - i
  {
    if i >= max || attempts(i).0.Finished? then i
    else FirstFinished(attempts, i + 1, max)
  }

  /** The loop ends as its first finished attempt says, every attempt before
      that one being pending; when none finishes, it fails keeping the row. */
  lemma {:induction false} LoopIsFirstFinished(row: Option<Record>, attempts: nat -> (Attempt, seq<HttpRequest>), i: nat, max: int)
    ensures var j := FirstFinished(attempts, i, max);
            var r := Loop(row, attempts, i, max);
            (forall k :: i <= k < j ==> attempts(k).0 == Pending)
            && (j < max ==> attempts(j).0.Finished? && r.0 == attempts(j).0.exit && r.1 == attempts(j).0.row)
            && (j >= max ==> r.0 == Failure && r.1 == row)
    decreases max - i
  {
    if i < max && attempts(i).0.Pending? {
      LoopIsFirstFinished(row, attempts, i + 1, max);
    }
  }

  /** The number of poll requests in a request log. */
  function Polls(sent: seq<HttpRequest>): nat {
    if sent == [] then 0 else (if sent[0].url == DeviceTokenUrl then 1 else 0) + Polls(sent[1..])
  }

  lemma {:induction false} PollsAppend(a: seq<HttpRequest>, b: seq<HttpRequest>)
    ensures Polls(a + b) == Polls(a) + Polls(b)
  {
    if a != [] {
      assert (a + b)[1..] == a[1..] + b;
      PollsAppend(a[1..], b);
    } else {
      assert a + b == b;
    }
  }

  /** An attempt sends at most one poll: the poll, then perhaps an exchange. */
  lemma AttemptPollsOnce(row: Option<Record>, device: Value, i: nat, w: DeviceWorld)
    ensures Polls(DeviceAttempt(row, device, i, w).1) <= 1
  {
    AttemptFollowsPoll(row, device, i, w);
    var p := DevicePoll(device, i, w);
    if p.Some? {
      PollSendsOnePoll(p.value.sent);
    }
  }

  /** The requests of one `pollDeviceAuth` call hold exactly one poll. */
  lemma PollSendsOnePoll(sent: seq<HttpRequest>)
    requires 1 <= |sent| <= 2 && sent[0].url == DeviceTokenUrl
    requires |sent| == 2 ==> sent[1].url == TokenUrl
    ensures Polls(sent) == 1
  {
    assert TokenUrl != DeviceTokenUrl;
    if |sent| == 2 {
      assert sent[1..][1..] == [];
    } else {
      assert sent[1..] == [];
    }
  }

  /** Never more polls than attempts, when each attempt polls at most once. */
  lemma {:induction false} LoopPollsBounded(row: Option<Record>, attempts: nat -> (Attempt, seq<HttpRequest>), i: nat, max: int)
    requires forall k :: Polls(attempts(k).1) <= 1
    ensures Polls(Loop(row, attempts, i, max).2) <= if i >= max then 0 else max - i
    decreases max - i
  {
    if i < max && attempts(i).0.Pending? {
      LoopPollsBounded(row, attempts, i + 1, max);
      PollsAppend(attempts(i).1, Loop(row, attempts, i + 1, max).2);
    }
  }

  lemma DevicePollsBounded(row: Option<Record>, w: DeviceWorld)
    requires InitiateDeviceAuth(w.initResp).Ok?
    requires SessionPollInterval(w.initResp.json).Ok?
    requires MaxAttempts(SessionPollInterval(w.initResp.json).value).Ok?
    ensures var max := MaxAttempts(SessionPollInterval(w.initResp.json).value).value;
            Polls(DeviceFlow(row, w).2) <= if max > 0 then max else 0
  {
    var device := InitiateDeviceAuth(w.initResp).value;
    var max := MaxAttempts(SessionPollInterval(device).value).value;
    var attempts := DeviceAttempts(row, device, w);
    forall k ensures Polls(attempts(k).1) <= 1 {
      AttemptPollsOnce(row, device, k, w);
    }
    LoopPollsBounded(row, attempts, 0, max);
    var loopSent := DeviceLoop(row, device, 0, max, w).2;
    assert DeviceFlow(row, w).2 == [UserCodeRequest()] + loopSent;
    PollsAppend([UserCodeRequest()], loopSent);
    assert UserCodeUrl != DeviceTokenUrl;
    assert [UserCodeRequest()][1..] == [];
    assert Polls([UserCodeRequest()]) == 0;
  }

  /** If every attempt is pending and polls once, the loop fails after exactly
      `max - i` polls and stores nothing. */
  lemma {:induction false} AllPendingTimesOut(row: Option<Record>, attempts: nat -> (Attempt, seq<HttpRequest>), i: nat, max: int)
    requires forall j :: i <= j < max ==> attempts(j).0 == Pending && Polls(attempts(j).1) == 1
    ensures Loop(row, attempts, i, max).0 == Failure
    ensures Loop(row, attempts, i, max).1 == row
    ensures Polls(Loop(row, attempts, i, max).2) == if i >= max then 0 else max - i
    decreases max - i
  {
    if i < max {
      AllPendingTimesOut(row, attempts, i + 1, max);
      PollsAppend(attempts(i).1, Loop(row, attempts, i + 1, max).2);
    }
  }

  /** If every device attempt is pending, the command polls once per attempt,
      fails and stores nothing. */
  lemma DeviceAllPendingTimesOut(row: Option<Record>, device: Value, i: nat, max: int, w: DeviceWorld)
    requires forall j :: i <= j < max ==> DeviceAttempt(row, device, j, w).0 == Pending
    ensures DeviceLoop(row, device, i, max, w).0 == Failure
    ensures DeviceLoop(row, device, i, max, w).1 == row
    ensures Polls(DeviceLoop(row, device, i, max, w).2) == if i >= max then 0 else max - i
  {
    var attempts := DeviceAttempts(row, device, w);
    forall j | i <= j < max ensures attempts(j).0 == Pending && Polls(attempts(j).1) == 1 {
      AttemptFollowsPoll(row, device, j, w);
    }
    AllPendingTimesOut(row, attempts, i, max);
  }

  /** The first device attempt that yields tokens ends the command with them stored. */
  lemma FirstTokensWin(row: Option<Record>, device: Value, i: nat, max: int, w: DeviceWorld)
    requires i < max
    requires DeviceAttempt(row, device, i, w).0.Finished? && DeviceAttempt(row, device, i, w).0.exit == Success
    ensures DeviceLoop(row, device, i, max, w).0 == Success
    ensures DeviceLoop(row, device, i, max, w).1 == DeviceAttempt(row, device, i, w).0.row
  {
    assert DeviceAttempts(row, device, w)(i) == DeviceAttempt(row, device, i, w);
  }

  /** The command object, writing through the token service. */
  class Command {
    const service: Service

    constructor (service: Service)
      ensures this.service == service
    {
      this.service := service;
    }

    /** One turn of the `for` loop: the poll inside the `try` and, for a token
        payload, the store. */
    method PollAttempt(device: Value, i: nat, w: DeviceWorld) returns (attempt: Attempt, sent: seq<HttpRequest>)
      requires service.store.Valid()
      modifies service.store
      ensures service.store.Valid()
      ensures (attempt, sent) == DeviceAttempt(old(service.store.Current()), device, i, w)
      ensures attempt.Finished? ==> service.store.Current() == attempt.row
      ensures attempt.Pending? ==> service.store.Current() == old(service.store.Current())
    {
      var id := Coalesce(Get(device, StrKey("device_auth_id")), Null);
      var code := Coalesce(Get(device, StrKey("user_code")), Null);
      if !id.Str? || !code.Str? {
        return Finished(Failure, service.store.Current()), [];
      }
      var polled := PollDeviceAuth(id.s, code.s, w.pollAt(i), w.exchangeAt(i));
      sent := polled.sent;
      if polled.outcome.Err? {
        return Finished(Failure, service.store.Current()), sent;
      }
      if polled.outcome.value.None? {
        return Pending, sent;
      }
      var stored := service.StoreTokens(polled.outcome.value.value, w.nowAt(i), w.dec);
      attempt := Finished(if stored.Err? then Failure else Success, service.store.Current());
    }

    /** `deviceFlow`, with its counted `for` loop and early returns. */
    method DeviceFlowLoop(w: DeviceWorld) returns (exit: Exit, sent: seq<HttpRequest>)
      requires service.store.Valid()
      modifies service.store
      ensures service.store.Valid()
      ensures (exit, service.store.Current(), sent) == DeviceFlow(old(service.store.Current()), w)
    {
      sent := [UserCodeRequest()];
      var device := InitiateDeviceAuth(w.initResp);
      if device.Err? {
        return Failure, sent;
      }
      var interval := SessionPollInterval(device.value);
      if interval.Err? {
        return Uncaught(interval.error), sent;
      }
      var maxAttempts := MaxAttempts(interval.value);
      if maxAttempts.Err? {
        return Uncaught(maxAttempts.error), sent;
      }
      var loopSent;
      exit, loopSent := PollLoop(device.value, maxAttempts.value, w);
      sent := sent + loopSent;
    }

    /** The counted `for` loop of `deviceFlow`, with its early returns. */
    method PollLoop(device: Value, max: int, w: DeviceWorld) returns (exit: Exit, sent: seq<HttpRequest>)
      requires service.store.Valid()
      modifies service.store
      ensures service.store.Valid()
      ensures (exit, service.store.Current(), sent) == DeviceLoop(old(service.store.Current()), device, 0, max, w)
    {
      var row0 := service.store.Current();
      ghost var attempts := DeviceAttempts(row0, device, w);
      ghost var whole := Loop(row0, attempts, 0, max);
      sent := [];
      assert sent + whole.2 == whole.2;
      var i: nat := 0;
      while i < max
        invariant service.store.Valid() && service.store.Current() == row0
        invariant whole == (Loop(row0, attempts, i, max).0, Loop(row0, attempts, i, max).1, sent + Loop(row0, attempts, i, max).2)
        decreases max - i
      {
        LoopStep(row0, attempts, i, max);
        var attempt, polled := PollAttempt(device, i, w);
        assert attempts(i) == (attempt, polled);
        if attempt.Finished? {
          return attempt.exit, sent + polled;
        }
        ghost var later := Loop(row0, attempts, i + 1, max).2;
        assert sent + (polled + later) == (sent + polled) + later;
        sent := sent + polled;
        i := i + 1;
      }
      exit := Failure;
      assert sent + [] == sent;
    }
  }

  // ---------------------------------------------------------------------
  // The browser flow's callback

  /** PCRE's `\s`: space, tab, line feed, vertical tab, form feed, carriage return. */
  predicate IsSpace(ch: char) {
    ch == ' ' || ch == '\t' || ch == '\n' || ch == '\U{000B}' || ch == '\U{000C}' || ch == '\r'
  }

  /** The length of the run of characters from `i` on that are spaces (or are not, if `spaces` is false). */
  function RunLength(s: string, i: nat, spaces: bool): (n: nat)
    requires i <= |s|
    ensures i + n <= |s|
    ensures forall j :: i <= j < i + n ==> IsSpace(s[j]) == spaces
    ensures i + n < |s| ==> IsSpace(s[i + n]) != spaces
    decreases |s| - i
  {
    if i == |s| || IsSpace(s[i]) != spaces then 0 else 1 + RunLength(s, i + 1, spaces)
  }

  /** `/GET\s+([^\s]+)/` tried at position `p`: its group, when it matches there. */
  function MatchAt(s: string, p: nat): (r: Option<string>)
    requires p <= |s|
    ensures r.Some? ==> r.value != "" && forall c :: c in r.value ==> !IsSpace(c)
  {
    if p + 3 > |s| || s[p..p + 3] != "GET" then None
    else
      var ws := RunLength(s, p + 3, true);
      if ws == 0 then None
      else
        var n := RunLength(s, p + 3 + ws, false);
        if n == 0 then None else Some(s[p + 3 + ws..p + 3 + ws + n])
  }

  /** The leftmost match from position `p` on. */
  function FirstMatch(s: string, p: nat): (r: Option<string>)
    requires p <= |s|
    ensures r.Some? ==> exists q :: p <= q <= |s| && MatchAt(s, q) == r
    ensures r.None? ==> forall q :: p <= q <= |s| ==> MatchAt(s, q).None?
    decreases |s| - p
  {
    if MatchAt(s, p).Some? then MatchAt(s, p)
    else if p == |s| then None
    else FirstMatch(s, p + 1)
  }

  /** The request target: the first token after `GET`, or empty without a match. */
  function RequestPath(request: string): (r: string)
    ensures forall c :: c in r ==> !IsSpace(c)
    ensures (forall q :: 0 <= q <= |request| ==> MatchAt(request, q).None?) ==> r == ""
  {
    var m := FirstMatch(request, 0);
    if m.Some? then m.value else ""
  }

  /** What follows the first `c` in `s`, or nothing when there is none. */
  function AfterFirst(s: string, c: char): (r: string)
    ensures c !in s ==> r == ""
    ensures |r| <= |s| && r == s[|s| - |r|..]
  {
    if s == [] then "" else if s[0] == c then s[1..] else AfterFirst(s[1..], c)
  }

  /** `parse_url($path, PHP_URL_QUERY) ?? ''`: the fragment is cut at the first
      `#`, and the query is what follows the first `?` before it. */
  function QueryOf(path: string): (r: string)
    ensures '?' !in path ==> r == ""
    ensures '#' !in r
  {
    var beforeFragment := Split(path, '#')[0];
    assert forall ch :: ch in beforeFragment ==> ch in path by {
      JoinSplit(path, '#');
    }
    AfterFirst(beforeFragment, '?')
  }

  /** The result of `waitForCallback`: no request read, a state mismatch, a
      denial with the reported error, a denial whose error is an array (which
      raises when it is written into the error page), a code, or a code that
      is not a string (which the `?string` return type rejects). */
  datatype Callback = NoRequest | BadState | Denied(error: Value) | DeniedWithArray | Code(code: string) | CodeNotString

  /** The decision `waitForCallback` takes on the parameters of the request. */
  function Decide(params: Entries, expectedState: string): (r: Callback)
    ensures r != NoRequest
    ensures r.Code? <==> (Lookup(params, StrKey("state")) == Some(Str(expectedState))
                          && Coalesce(Lookup(params, StrKey("code")), Null).Str?
                          && Truthy(Coalesce(Lookup(params, StrKey("code")), Null)))
    ensures r.Code? ==> Lookup(params, StrKey("code")) == Some(Str(r.code)) && Truthy(Str(r.code))
    ensures r.Denied? || r.DeniedWithArray? <==> (Lookup(params, StrKey("state")) == Some(Str(expectedState))
                                                  && !Truthy(Coalesce(Lookup(params, StrKey("code")), Null)))
    ensures r.Denied? ==> r.error == Coalesce(Lookup(params, StrKey("error")), Str("unknown_error")) && !r.error.Arr?
    ensures r.DeniedWithArray? ==> Lookup(params, StrKey("error")).Some? && Lookup(params, StrKey("error")).value.Arr?
  {
    var code := Coalesce(Lookup(params, StrKey("code")), Null);
    var state := Coalesce(Lookup(params, StrKey("state")), Null);
    if state != Str(expectedState) then BadState
    else if !Truthy(code) then
      var error := Coalesce(Lookup(params, StrKey("error")), Str("unknown_error"));
      if error.Arr? then DeniedWithArray else Denied(error)
    else if code.Str? then Code(code.s)
    else CodeNotString
  }

  /** The decision `waitForCallback` takes on the request it read: nothing
      read, or the decision on the parameters of its query. */
  function CallbackDecision(request: Option<string>, expectedState: string, parseStr: string -> Entries): (r: Callback)
    ensures request.None? || !Truthy(Str(request.value)) <==> r == NoRequest
  {
    if request.None? || !Truthy(Str(request.value)) then NoRequest
    else Decide(parseStr(QueryOf(RequestPath(request.value))), expectedState)
  }

  /** A missing or different state never yields a code. */
  lemma WrongStateNoCode(params: Entries, expectedState: string)
    requires Coalesce(Lookup(params, StrKey("state")), Null) != Str(expectedState)
    ensures Decide(params, expectedState) == BadState
  {
  }

  /** With the right state but no code, the reported error defaults to `unknown_error`. */
  lemma DeniedDefaultsToUnknown(params: Entries, expectedState: string)
    requires Lookup(params, StrKey("state")) == Some(Str(expectedState))
    requires Lookup(params, StrKey("code")).None? && Lookup(params, StrKey("error")).None?
    ensures Decide(params, expectedState) == Denied(Str("unknown_error"))
  {
  }

  /** What the browser flow needs from outside: the PKCE material, the state,
      the port, the request the socket reads, and the identity provider's
      answer to the exchange. */
  datatype BrowserWorld = BrowserWorld(
    pkce: PkceMaterial,
    state: string,
    port: int,
    request: Option<string>,
    parseStr: string -> Entries,
    exchangeResp: HttpResponse,
    now: int,
    dec: Decoders)

  function RedirectUri(port: int): string {
    "http://127.0.0.1:" + IntToString(port) + "/auth/callback"
  }

  /** `browserFlow`: without a code it fails with no exchange (a code that is
      not a string, or an array error in a denial, raises); with one it exchanges it once, fails when the
      exchange or the store fails, and otherwise succeeds with the tokens stored. */
  function BrowserFlow(row: Option<Record>, w: BrowserWorld): (r: (Exit, Option<Record>, seq<HttpRequest>))
    ensures r.0 != Success ==> r.1 == row
    ensures !CallbackDecision(w.request, w.state, w.parseStr).Code? ==> r.2 == [] && r.0 != Success
    ensures var d := CallbackDecision(w.request, w.state, w.parseStr);
            (d.NoRequest? || d.BadState? || d.Denied?) ==> r == (Failure, row, [])
    ensures CallbackDecision(w.request, w.state, w.parseStr).CodeNotString? ==> r.0.Uncaught? && r.1 == row
    ensures CallbackDecision(w.request, w.state, w.parseStr).DeniedWithArray? ==> r == (Uncaught(ArrayToString), row, [])
    ensures CallbackDecision(w.request, w.state, w.parseStr).Code? ==>
              var code := CallbackDecision(w.request, w.state, w.parseStr).code;
              var tokens := ExchangeCode(code, w.pkce.verifier, RedirectUri(w.port), w.exchangeResp);
              r.2 == [ExchangeRequest(code, w.pkce.verifier, RedirectUri(w.port))]
              && (tokens.Err? ==> r.0 == Failure)
              && (tokens.Ok? && StoreTokensOutcome(row, tokens.value, w.now, w.dec).Err? ==> r.0 == Failure)
              && ((tokens.Ok? && StoreTokensOutcome(row, tokens.value, w.now, w.dec).Ok?)
                    ==> r.0 == Success && r.1 == Some(StoreTokensOutcome(row, tokens.value, w.now, w.dec).value))
    ensures r.0 == Success ==> (var code := CallbackDecision(w.request, w.state, w.parseStr).code;
                               r.2 == [ExchangeRequest(code, w.pkce.verifier, RedirectUri(w.port))]
                               && r.1.Some? && StoreTokensOutcome(row, w.exchangeResp.json, w.now, w.dec) == Ok(r.1.value))
  {
    var decision := CallbackDecision(w.request, w.state, w.parseStr);
    match decision
    case CodeNotString => (Uncaught("return value must be of type ?string"), row, [])
    case DeniedWithArray => (Uncaught(ArrayToString), row, [])
    case Code(code) =>
      var sent := [ExchangeRequest(code, w.pkce.verifier, RedirectUri(w.port))];
      var tokens := ExchangeCode(code, w.pkce.verifier, RedirectUri(w.port), w.exchangeResp);
      if tokens.Err? then (Failure, row, sent)
      else
        var stored := StoreTokensOutcome(row, tokens.value, w.now, w.dec);
        if stored.Err? then (Failure, row, sent) else (Success, Some(stored.value), sent)
    case _ => (Failure, row, [])
  }
}
