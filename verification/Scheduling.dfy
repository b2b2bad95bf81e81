/** When a scheduled message may be accepted, when the dispatcher may select it, and whether it ever does. */
module Scheduling {
  import opened Entities
  import opened Snowflake

  const TWO64: int := 0x1_0000_0000_0000_0000

  /** Two's complement on 64 bits. */
  function Wrap64(x: int): int { (x - INT64_MIN) % TWO64 + INT64_MIN }

  /** The validator's and the dispatcher's products, in int64 nanoseconds. */
  function LimitAhead(days: int): int { Wrap64(days * DAY) }

  function LimitBack(days: int): int { Wrap64(-days * DAY) }

  const MAX_LIMIT_DAYS: int := 106_751

  /** The products are exact from 0 to 106751 limit days, and for no larger number. */
  lemma LimitExact(days: int)
    requires days >= 0
    ensures LimitAhead(days) == days * DAY <==> days <= MAX_LIMIT_DAYS
    ensures LimitBack(days) == -days * DAY <==> days <= MAX_LIMIT_DAYS
  {
  }

  datatype Check = Accepted | NotInFuture | BeyondLimit

  /** What the validator lets through. */
  predicate InReach(s: Time, now: Time, limitDays: int) { now < s <= now + LimitAhead(limitDays) }

  /** A message with nothing but what the dispatcher looks at. */
  function Waiting(s: Time, createdAt: Time): Message { Message(Sms, [], Some(s), Scheduled, createdAt, false) }

  /**
    Accepted is what lies ahead and, created at once, would still be eligible when its instant comes; the two
    refusals say on which side the instant lies.
   */
  method CheckScheduledAt(scheduledAt: Option<Time>, now: Time, limitDays: int) returns (r: Check)
    ensures r.Accepted? <==> scheduledAt.None? || InReach(scheduledAt.value, now, limitDays)
    ensures r.NotInFuture? <==> scheduledAt.Some? && scheduledAt.value <= now
    ensures 0 <= limitDays <= MAX_LIMIT_DAYS && scheduledAt.Some? ==>
              var s := scheduledAt.value;
              && (r.Accepted? <==> now < s && EligibleAt(Waiting(s, now), s, limitDays))
              && (r.BeyondLimit? <==> now < s && !EligibleAt(Waiting(s, now), s, limitDays))
  {
    if 0 <= limitDays { LimitExact(limitDays); }
    if scheduledAt.None? {
      return Accepted;
    }
    if !(scheduledAt.value > now) {
      return NotInFuture;
    }
    var maxAllowedTime := now + LimitAhead(limitDays);
    if scheduledAt.value > maxAllowedTime {
      return BeyondLimit;
    }
    r := Accepted;
  }

  /** The dispatcher's query on one message. */
  predicate EligibleAt(m: Message, now: Time, limitDays: int) {
    && m.status == Scheduled && !m.deleted
    && m.scheduledAt.Some? && m.scheduledAt.value <= now
    && m.createdAt >= now + LimitBack(limitDays)
  }

  /**
    What was accepted and then created can be dispatched: from its scheduled instant to `limitDays` after
    its creation, an interval that is never empty.
   */
  lemma AcceptedHasWindow(m: Message, checkedAt: Time, limitDays: int)
    requires 0 <= limitDays <= MAX_LIMIT_DAYS
    requires m.scheduledAt.Some? && InReach(m.scheduledAt.value, checkedAt, limitDays)
    requires checkedAt <= m.createdAt && m.status == Scheduled && !m.deleted
    ensures m.scheduledAt.value <= m.createdAt + limitDays * DAY
    ensures forall now :: EligibleAt(m, now, limitDays) <==> m.scheduledAt.value <= now <= m.createdAt + limitDays * DAY
  {
  }

  /** A limit whose product wraps to a negative duration refuses every scheduled request. */
  lemma OverflowRejects(limitDays: int, s: Time, now: Time)
    requires INT64_MAX < limitDays * DAY <= INT64_MAX + TWO64 / 2
    ensures !InReach(s, now, limitDays)
  {
  }

  /******* The dispatcher's instants *******/

  /** Instants that start no later than `s`, are at most `gap` apart and go on without bound. */
  ghost predicate Cadence(t: nat -> Time, s: Time, gap: int) {
    && t(0) <= s
    && (forall i: nat :: t(i) < t(i + 1) <= t(i) + gap)
  }

  ghost predicate Hits(t: nat -> Time, s: Time, end: Time) { exists i: nat :: s <= t(i) <= end }

  /** The first instant not before `s` comes less than one gap after it. */
  lemma FirstAfter(t: nat -> Time, s: Time, gap: int) returns (i: nat)
    requires Cadence(t, s, gap) && gap >= 1
    ensures s <= t(i) <= s + gap - 1
  {
    i := 0;
    while t(i) < s
      invariant i == 0 ==> t(i) <= s
      invariant i > 0 ==> t(i) <= s + gap - 1
      decreases s - t(i)
    {
      assert t(i) < t(i + 1) <= t(i) + gap;
      i := i + 1;
    }
  }

  /** The instants one nanosecond too early and then every `gap`. */
  function Miss(s: Time, gap: int): nat -> Time { (i: nat) => s - 1 + i * gap }

  lemma MissIsCadence(s: Time, gap: int)
    requires gap >= 1
    ensures Cadence(Miss(s, gap), s, gap)
  {
    forall i: nat ensures Miss(s, gap)(i) < Miss(s, gap)(i + 1) <= Miss(s, gap)(i) + gap {
      assert (i + 1) * gap == i * gap + gap;
    }
  }

  lemma MissMisses(s: Time, end: Time, gap: int)
    requires gap >= 1 && s + gap - 1 > end
    ensures !Hits(Miss(s, gap), s, end)
  {
  }

  /**
    Every cadence of instants at most `gap` apart hits the window if and only if the window is long
    enough: scheduled instant plus one gap, to the nanosecond, must not pass its end.
   */
  lemma DispatchHits(s: Time, end: Time, gap: int)
    requires gap >= 1
    ensures (forall t: nat -> Time :: Cadence(t, s, gap) ==> Hits(t, s, end)) <==> s + gap - 1 <= end
  {
    if s + gap - 1 <= end {
      forall t: nat -> Time | Cadence(t, s, gap) ensures Hits(t, s, end) {
        var i := FirstAfter(t, s, gap);
      }
    } else {
      MissIsCadence(s, gap);
      MissMisses(s, end, gap);
    }
  }

  /**
    From the validator to the dispatcher: every cadence that starts in time finds the accepted message
    eligible at some instant, if and only if its window is at least one gap long.
   */
  lemma AcceptedIsFound(m: Message, checkedAt: Time, limitDays: int, gap: int)
    requires 0 <= limitDays <= MAX_LIMIT_DAYS && gap >= 1
    requires m.scheduledAt.Some? && InReach(m.scheduledAt.value, checkedAt, limitDays)
    requires checkedAt <= m.createdAt && m.status == Scheduled && !m.deleted
    ensures (forall t: nat -> Time :: Cadence(t, m.scheduledAt.value, gap) ==> Finds(t, m, limitDays)) <==>
              m.scheduledAt.value + gap - 1 <= m.createdAt + limitDays * DAY
  {
    var s, end := m.scheduledAt.value, m.createdAt + limitDays * DAY;
    AcceptedHasWindow(m, checkedAt, limitDays);
    DispatchHits(s, end, gap);
    forall t: nat -> Time ensures Finds(t, m, limitDays) <==> Hits(t, s, end) {
      if Finds(t, m, limitDays) {
        var i: nat :| EligibleAt(m, t(i), limitDays);
      }
      if Hits(t, s, end) {
        var i: nat :| s <= t(i) <= end;
        assert EligibleAt(m, t(i), limitDays);
      }
    }
  }

  ghost predicate Finds(t: nat -> Time, m: Message, limitDays: int) { exists i: nat :: EligibleAt(m, t(i), limitDays) }
}
