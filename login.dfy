/**
 * The login page's failed-attempt lockout. The count of failed logins and
 * the time of the last failure live in two localStorage entries; on mount
 * a count older than 24 hours is discarded, a fresher one is restored, and
 * five or more failures send the user to the forgot-password page. Each
 * failed login adds one and restamps the time, so the window slides.
 */
module Login {
  import opened Common
  import opened Parse

  const AttemptsKey: string := "loginFailedAttempts"
  const TimestampKey: string := "loginFailedAttemptsTimestamp"
  /** 24 * 60 * 60 * 1000 milliseconds. */
  const DayMillis: int := 86400000
  const MaxAttempts: int := 5

  /** A number produced by parseInt: an integer, or NaN for a string without digits. */
  datatype Count = Int(v: int) | NaN

  /** parseInt(s, 10). */
  function Parsed(s: string): Count {
    match ParseInt(s)
    case Some(v) => Int(v)
    case None => NaN
  }

  /** n.toString(). */
  function Shown(c: Count): string {
    match c
    case Int(v) => IntToString(v)
    case NaN => "NaN"
  }

  /** What the page writes to localStorage it reads back unchanged. */
  lemma ParsedOfShown(c: Count)
    ensures Parsed(Shown(c)) == c
  {
    match c
    case Int(v) => ParseIntOfIntToString(v);
    case NaN => ParseIntOfNaN();
  }

  /** failedAttempts + 1; NaN stays NaN. */
  function Increment(c: Count): (r: Count)
    ensures c.Int? <==> r.Int?
    ensures c.Int? ==> r.v == c.v + 1
  {
    match c
    case Int(v) => Int(v + 1)
    case NaN => NaN
  }

  /** `c >= n`, false for NaN. */
  predicate AtLeast(c: Count, n: int) {
    c.Int? && c.v >= n
  }

  /** A localStorage value that is present and not the empty string. */
  predicate Stored(storage: map<string, string>, key: string) {
    key in storage && storage[key] != ""
  }

  /** `now - timestamp > twentyFourHours`; a NaN timestamp makes the comparison false. */
  predicate Expired(timestamp: Count, now: int) {
    timestamp.Int? && now - timestamp.v > DayMillis
  }

  /** What the mount effect does with the stored entries. */
  datatype MountAction = Keep | Clear | Restore(count: Count)

  function OnMount(storage: map<string, string>, now: int): (r: MountAction)
    ensures r == Keep <==> !(Stored(storage, AttemptsKey) && Stored(storage, TimestampKey))
    ensures r == Clear <==> Stored(storage, AttemptsKey) && Stored(storage, TimestampKey)
                            && Expired(Parsed(storage[TimestampKey]), now)
    ensures r.Restore? ==> r.count == Parsed(storage[AttemptsKey])
  {
    if Stored(storage, AttemptsKey) && Stored(storage, TimestampKey) then
      if Expired(Parsed(storage[TimestampKey]), now) then Clear
      else Restore(Parsed(storage[AttemptsKey]))
    else Keep
  }

  /** The two entries a failed login writes. */
  function AfterFailure(storage: map<string, string>, count: Count, now: nat): (r: map<string, string>)
    ensures r.Keys == storage.Keys + {AttemptsKey, TimestampKey}
    ensures r[AttemptsKey] == Shown(count) && r[TimestampKey] == NatToString(now)
    ensures forall k :: k in storage && k != AttemptsKey && k != TimestampKey ==> r[k] == storage[k]
  {
    storage[AttemptsKey := Shown(count)][TimestampKey := NatToString(now)]
  }

  /** Both entries removed, as on success and on expiry. */
  function Cleared(storage: map<string, string>): (r: map<string, string>)
    ensures AttemptsKey !in r && TimestampKey !in r
    ensures forall k :: k in storage && k != AttemptsKey && k != TimestampKey <==> k in r
    ensures forall k :: k in r ==> r[k] == storage[k]
  {
    storage - {AttemptsKey, TimestampKey}
  }

  /** Removing the two entries one after the other, as the page does, clears them. */
  lemma RemoveBoth(storage: map<string, string>)
    ensures storage - {AttemptsKey} - {TimestampKey} == Cleared(storage)
  {
  }

  /**
   * The sliding window: a count written at `t` is restored by a mount up to
   * and including exactly 24 hours later, and cleared by any later mount.
   */
  lemma FailureWindow(storage: map<string, string>, count: Count, t: nat, now: int)
    requires t <= now
    ensures now <= t + DayMillis ==> OnMount(AfterFailure(storage, count, t), now) == Restore(count)
    ensures now > t + DayMillis ==> OnMount(AfterFailure(storage, count, t), now) == Clear
  {
    var s := AfterFailure(storage, count, t);
    assert Shown(count) != [] by {
      match count
      case Int(v) =>
      case NaN =>
    }
    ParsedOfShown(count);
    ParseIntOfNatToString(t);
    assert Parsed(s[TimestampKey]) == Int(t);
  }

  /** After a success, or after an expiry, the next mount finds nothing to restore. */
  lemma ClearedMountKeeps(storage: map<string, string>, now: int)
    ensures OnMount(Cleared(storage), now) == Keep
  {
  }

  /** The banner above the form: shown iff 0 < n < 5. */
  predicate Banner(n: Count) {
    n.Int? && 0 < n.v < MaxAttempts
  }

  /** The hint inside the banner: shown iff the banner is and n >= 3. */
  predicate Hint(n: Count) {
    Banner(n) && n.v >= 3
  }

  /** `5 - newFailedAttempts`. */
  function Remaining(n: Count): (r: Count)
    ensures n.Int? <==> r.Int?
    ensures n.Int? ==> r.v == MaxAttempts - n.v
  {
    match n
    case Int(v) => Int(MaxAttempts - v)
    case NaN => NaN
  }

  function InvalidMessage(n: Count): string {
    "Invalid email or password. " + Shown(Remaining(n)) + " attempts remaining."
  }

  const FailedMessage: string := "Login failed. Please try again."

  /** What the awaited login call did: succeeded, failed, or threw. */
  datatype LoginResult = Success | Failure | Threw

  /**
   * From a count below 5, a failure shows the banner with 1..4 attempts
   * remaining and the hint from the third failure on; the fifth redirects.
   */
  lemma FailureCountdown(k: int)
    requires 0 <= k
    ensures k + 1 < MaxAttempts ==> Banner(Increment(Int(k))) && 1 <= Remaining(Increment(Int(k))).v <= 4
    ensures Hint(Increment(Int(k))) <==> 2 <= k < 4
    ensures AtLeast(Increment(Int(k)), MaxAttempts) <==> k >= 4
  {
  }

  class LoginPage {
    /** The browser's localStorage. */
    var storage: map<string, string>
    var failedAttempts: Count
    var error: string
    var isLoading: bool
    var formData: map<string, string>
    /** The routes navigated to, in order. */
    var navigations: seq<string>

    constructor(saved: map<string, string>)
      ensures storage == saved && failedAttempts == Int(0) && error == "" && !isLoading
      ensures formData == map["email" := "", "password" := ""] && navigations == []
    {
      storage := saved;
      failedAttempts := Int(0);
      error := "";
      isLoading := false;
      formData := map["email" := "", "password" := ""];
      navigations := [];
    }

    /** The mount effect, at time `now` (Date.now()). */
    method Mount(now: int)
      modifies this`storage, this`failedAttempts, this`navigations
      ensures OnMount(old(storage), now) == Keep ==>
        storage == old(storage) && failedAttempts == old(failedAttempts) && navigations == old(navigations)
      ensures OnMount(old(storage), now) == Clear ==>
        storage == Cleared(old(storage)) && failedAttempts == Int(0) && navigations == old(navigations)
      ensures OnMount(old(storage), now).Restore? ==>
        storage == old(storage) && failedAttempts == OnMount(old(storage), now).count
        && navigations == old(navigations) + (if AtLeast(failedAttempts, MaxAttempts) then ["/forgot-password"] else [])
    {
      ghost var action := OnMount(storage, now);
      if Stored(storage, AttemptsKey) && Stored(storage, TimestampKey) {
        var attempts := Parsed(storage[AttemptsKey]);
        var timestamp := Parsed(storage[TimestampKey]);
        if timestamp.Int? && now - timestamp.v > DayMillis {
          assert action == Clear;
          RemoveBoth(storage);
          storage := storage - {AttemptsKey};
          storage := storage - {TimestampKey};
          failedAttempts := Int(0);
        } else {
          assert action == Restore(attempts);
          failedAttempts := attempts;
          if attempts.Int? && attempts.v >= MaxAttempts {
            navigations := navigations + ["/forgot-password"];
          }
        }
      } else {
        assert action == Keep;
      }
    }

    /** An input's onChange: stores the value and clears any error. */
    method HandleInputChange(name: string, value: string)
      modifies this`formData, this`error
      ensures formData == old(formData)[name := value]
      ensures error == ""
    {
      formData := formData[name := value];
      if error != "" {
        error := "";
      }
    }

    /** The failure branch of handleSubmit: count the attempt, store it, then lock out or warn. */
    method RecordFailure(now: nat)
      modifies this`error, this`failedAttempts, this`storage, this`navigations
      ensures failedAttempts == Increment(old(failedAttempts))
      ensures storage == AfterFailure(old(storage), failedAttempts, now)
      ensures AtLeast(failedAttempts, MaxAttempts) ==>
        navigations == old(navigations) + ["/forgot-password"] && error == old(error)
      ensures !AtLeast(failedAttempts, MaxAttempts) ==>
        navigations == old(navigations) && error == InvalidMessage(failedAttempts)
    {
      var newFailedAttempts := Increment(failedAttempts);
      failedAttempts := newFailedAttempts;
      storage := storage[AttemptsKey := Shown(newFailedAttempts)];
      storage := storage[TimestampKey := NatToString(now)];
      if AtLeast(newFailedAttempts, MaxAttempts) {
        navigations := navigations + ["/forgot-password"];
      } else {
        error := InvalidMessage(newFailedAttempts);
      }
    }

    /** handleSubmit, once the login call has produced `result` at time `now`. */
    method HandleSubmit(result: LoginResult, now: nat)
      modifies this`isLoading, this`error, this`failedAttempts, this`storage, this`navigations
      ensures !isLoading
      ensures result == Success ==>
        failedAttempts == Int(0) && storage == Cleared(old(storage))
        && navigations == old(navigations) + ["/dashboard"] && error == ""
      ensures result == Failure ==>
        failedAttempts == Increment(old(failedAttempts))
        && storage == AfterFailure(old(storage), failedAttempts, now)
        && (AtLeast(failedAttempts, MaxAttempts) ==>
              navigations == old(navigations) + ["/forgot-password"] && error == "")
        && (!AtLeast(failedAttempts, MaxAttempts) ==>
              navigations == old(navigations) && error == InvalidMessage(failedAttempts))
      ensures result == Threw ==>
        failedAttempts == old(failedAttempts) && storage == old(storage)
        && navigations == old(navigations) && error == FailedMessage
    {
      isLoading := true;
      error := "";
      match result {
        case Success =>
          failedAttempts := Int(0);
          RemoveBoth(storage);
          storage := storage - {AttemptsKey};
          storage := storage - {TimestampKey};
          navigations := navigations + ["/dashboard"];
        case Failure =>
          RecordFailure(now);
        case Threw =>
          error := FailedMessage;
      }
      isLoading := false;
    }
  }
}
