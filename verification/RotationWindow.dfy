/** When a certificate is renewed: rotation_window_error, days_remaining and the
    decision they feed.  Times are microseconds. */
module RotationWindow {

  const SECOND := 1_000_000
  const DAY := 86_400 * SECOND

  datatype Verdict = Accepted | TooShort | NotInside

  /** rotation_window_error */
  function WindowVerdict(validity: int, renewAt: int): Verdict {
    if validity < 1 then TooShort
    else if !(0 < renewAt < validity) then NotInside
    else Accepted
  }

  /** The --renew-at used when none is given. */
  function DefaultRenewAt(validity: int): int {
    validity / 2
  }

  /** A certificate's expiry is written in whole seconds. */
  function WholeSecond(t: int): int {
    t - t % SECOND
  }

  function NotAfter(issued: int, validity: int): int {
    WholeSecond(issued) + validity * DAY
  }

  /** days_remaining: whole days, rounded down. */
  function DaysRemaining(notAfter: int, now: int): int {
    (notAfter - now) / DAY
  }

  datatype Decision = NotDue | Expired | Renew

  function Decide(remaining: int, renewAt: int, force: bool): Decision {
    if remaining > renewAt && !force then NotDue
    else if remaining <= 0 then Expired
    else Renew
  }

  lemma DayIs()
    ensures DAY == 24 * 60 * 60 * 1_000_000
  {
  }

  /** The default is half the validity, rounded down, and is accepted for exactly the
      validities of at least two days. */
  lemma DefaultFits(validity: int)
    ensures 2 * DefaultRenewAt(validity) <= validity <= 2 * DefaultRenewAt(validity) + 1
    ensures WindowVerdict(validity, DefaultRenewAt(validity)) == Accepted <==> validity >= 2
  {
  }

  /** Without --force, a check renews within exactly renewAt days: from one day less
      than (validity - renewAt) days after issue until one day before expiry. */
  lemma RenewalWindow(issued: int, validity: int, renewAt: int, now: int)
    requires WindowVerdict(validity, renewAt) == Accepted
    ensures var d := Decide(DaysRemaining(NotAfter(issued, validity), now), renewAt, false);
            && (d == NotDue <==> now - WholeSecond(issued) <= (validity - 1 - renewAt) * DAY)
            && (d == Renew <==> (validity - 1 - renewAt) * DAY < now - WholeSecond(issued) <= (validity - 1) * DAY)
            && (d == Expired <==> now - WholeSecond(issued) > (validity - 1) * DAY)
  {
    var left := NotAfter(issued, validity) - now;
    AtLeast(left, renewAt + 1);
    AtLeast(left, 1);
    assert left - (renewAt + 1) * DAY == (validity - 1 - renewAt) * DAY - (now - WholeSecond(issued));
    assert left - DAY == (validity - 1) * DAY - (now - WholeSecond(issued));
  }

  /** --force renews whenever there is a day left to sign with, and never after. */
  lemma ForceRenews(issued: int, validity: int, renewAt: int, now: int)
    ensures var d := Decide(DaysRemaining(NotAfter(issued, validity), now), renewAt, true);
            && (d == Renew <==> now - WholeSecond(issued) <= (validity - 1) * DAY)
            && (d == Expired <==> now - WholeSecond(issued) > (validity - 1) * DAY)
  {
    var left := NotAfter(issued, validity) - now;
    AtLeast(left, 1);
    assert left - DAY == (validity - 1) * DAY - (now - WholeSecond(issued));
  }

  lemma AtLeast(span: int, days: int)
    ensures span / DAY >= days <==> span >= days * DAY
  {
    assert span == span / DAY * DAY + span % DAY;
  }

  /** The widest accepted window leaves no quiet time: such a certificate is due as
      soon as the clock moves. */
  lemma DueAtOnce(issued: int, validity: int, now: int)
    requires validity >= 2 && WholeSecond(issued) < now <= WholeSecond(issued) + DAY
    ensures Decide(DaysRemaining(NotAfter(issued, validity), now), validity - 1, false) == Renew
  {
    RenewalWindow(issued, validity, validity - 1, now);
    assert 1 * DAY <= (validity - 1) * DAY;
  }

  /** Checks that never leave more than a day between them. */
  predicate Daily(ts: seq<int>) {
    forall k | 1 <= k < |ts| :: ts[k - 1] <= ts[k] <= ts[k - 1] + DAY
  }

  lemma {:induction false} FirstAfter(ts: seq<int>, x: int) returns (k: nat)
    requires ts != [] && ts[0] <= x < ts[|ts| - 1]
    ensures 1 <= k < |ts| && ts[k - 1] <= x < ts[k]
    decreases |ts|
  {
    var n := |ts| - 1;
    if ts[n - 1] <= x {
      k := n;
    } else {
      k := FirstAfter(ts[..n], x);
    }
  }

  predicate Rising(picks: seq<nat>, ts: seq<int>) {
    && (forall j | 0 <= j < |picks| :: picks[j] < |ts|)
    && (forall i, j | 0 <= i < j < |picks| :: picks[i] < picks[j])
  }

  lemma {:induction false} DailyOrder(ts: seq<int>, i: nat, j: nat)
    requires Daily(ts) && i <= j < |ts|
    ensures ts[i] <= ts[j]
    decreases j - i
  {
    if i < j {
      DailyOrder(ts, i, j - 1);
    }
  }

  /** One check in each of n consecutive days. */
  lemma {:induction false} OnePerDay(ts: seq<int>, from: int, n: nat) returns (picks: seq<nat>)
    requires Daily(ts) && ts != [] && ts[0] <= from && from + n * DAY <= ts[|ts| - 1]
    ensures |picks| == n && Rising(picks, ts)
    ensures forall j | 0 <= j < n :: from < ts[picks[j]] <= from + n * DAY
    decreases n
  {
    if n == 0 {
      picks := [];
    } else {
      var before := OnePerDay(ts, from, n - 1);
      var k := FirstAfter(ts, from + (n - 1) * DAY);
      assert ts[k] <= ts[k - 1] + DAY;
      forall j | 0 <= j < n - 1 ensures before[j] < k {
        if before[j] >= k {
          DailyOrder(ts, k, before[j]);
        }
      }
      picks := before + [k];
    }
  }

  /** Checks at most a day apart, from before the window until its end, get at least
      renewAt chances to renew, each while the certificate still has a day to live. */
  lemma EnoughChances(issued: int, validity: int, renewAt: int, ts: seq<int>) returns (picks: seq<nat>)
    requires WindowVerdict(validity, renewAt) == Accepted && Daily(ts) && ts != []
    requires ts[0] - WholeSecond(issued) <= (validity - 1 - renewAt) * DAY
    requires ts[|ts| - 1] - WholeSecond(issued) >= (validity - 1) * DAY
    ensures |picks| == renewAt && Rising(picks, ts)
    ensures forall j | 0 <= j < renewAt ::
              Decide(DaysRemaining(NotAfter(issued, validity), ts[picks[j]]), renewAt, false) == Renew
  {
    var from := WholeSecond(issued) + (validity - 1 - renewAt) * DAY;
    assert from + renewAt * DAY == WholeSecond(issued) + (validity - 1) * DAY;
    picks := OnePerDay(ts, from, renewAt);
    forall j | 0 <= j < renewAt
      ensures Decide(DaysRemaining(NotAfter(issued, validity), ts[picks[j]]), renewAt, false) == Renew
    {
      RenewalWindow(issued, validity, renewAt, ts[picks[j]]);
    }
  }
}
