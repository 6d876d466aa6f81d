/** `ThrottlingMiddleware`: a message from a user who sent one less than `throttle_time` seconds
    ago is answered with the remaining wait and dropped. Times are the seconds of `time.time()`. */
module Throttling {
  import Settings

  datatype Verdict = Pass | Throttled(wait: real)

  /** `user_timings.get(user_id, 0)`. */
  function LastTime(timings: map<int, real>, user: int): real
  {
    if user in timings then timings[user] else 0.0
  }

  /** The accept/reject rule for a message at `now` after the user's last accepted one at `last`. */
  function Decide(throttle: real, last: real, now: real): (v: Verdict)
    ensures v.Throttled? <==> now - last < throttle
    ensures v.Throttled? ==> v.wait > 0.0 && now + v.wait == last + throttle
  {
    if now - last < throttle then Throttled(throttle - (now - last)) else Pass
  }

  class ThrottlingMiddleware {
    var throttleTime: real
    var userTimings: map<int, real>

    constructor (throttleTime: real)
      ensures this.throttleTime == throttleTime && userTimings == map[]
    {
      this.throttleTime := throttleTime;
      userTimings := map[];
    }

    /** `__call__` for a message from `user` at `now`: a dropped message leaves the timings as
        they were; a passed one records `now` for that user only. */
    method Call(user: int, now: real) returns (v: Verdict)
      modifies this
      ensures throttleTime == old(throttleTime)
      ensures v == Decide(throttleTime, LastTime(old(userTimings), user), now)
      ensures v.Throttled? ==> userTimings == old(userTimings)
      ensures v.Pass? ==> userTimings == old(userTimings)[user := now]
    {
      var last := if user in userTimings then userTimings[user] else 0.0;
      if now - last < throttleTime {
        v := Throttled(throttleTime - (now - last));
        return;
      }
      userTimings := userTimings[user := now];
      v := Pass;
    }
  }

  /** After a message accepted at `t`, the same user is dropped before `t + throttle` and let
      through from then on. */
  lemma ThrottleWindow(timings: map<int, real>, throttle: real, user: int, t: real, later: real)
    ensures Decide(throttle, LastTime(timings[user := t], user), later).Throttled? <==> later < t + throttle
  {
  }

  /** A message accepted for one user does not change another user's verdicts. */
  lemma OtherUsersUnaffected(timings: map<int, real>, throttle: real, user: int, other: int, t: real, now: real)
    requires other != user
    ensures LastTime(timings[user := t], other) == LastTime(timings, other)
    ensures Decide(throttle, LastTime(timings[user := t], other), now) == Decide(throttle, LastTime(timings, other), now)
  {
  }

  /** A user never seen before counts as last seen at time 0. */
  lemma UnseenUser(timings: map<int, real>, throttle: real, user: int, now: real)
    requires user !in timings
    ensures Decide(throttle, LastTime(timings, user), now).Pass? <==> now >= throttle
  {
  }

  /** With the default setting, two messages a second or more apart both pass. */
  lemma DefaultSpacing(timings: map<int, real>, user: int, t: real, later: real)
    requires later >= t + Settings.ThrottleTime
    ensures Decide(Settings.ThrottleTime, LastTime(timings[user := t], user), later) == Pass
  {
  }
}
