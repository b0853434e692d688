/** Which warning a subscription gets, and who gets one in a pass. */
module ExpiryWarnings {
  import opened SubscriptionPayments

  function WarnRows(s: State, rows: seq<int>, ext: Calendar): State {
    if rows == [] then s
    else
      var before, r := WarnRows(s, rows[..|rows| - 1], ext), rows[|rows| - 1];
      if r in before.subs then Write(before, Warn(r, before.subs[r].expiry), ext) else before
  }

  predicate ExpiresSoon(s: State, r: int) { r in s.subs && Usable(s.subs[r].status) && s.now < s.subs[r].expiry <= s.now + 7 * DAY }

  /** The bucket covers the days left rounded up: the last day, two to three, four to
      seven; nothing once expired or further away. */
  lemma WarningLevelMeans(expiry: int, now: int)
    ensures var left := expiry - now;
            && (WarningLevel(expiry, now) == 1 <==> 0 < left <= DAY)
            && (WarningLevel(expiry, now) == 3 <==> DAY < left <= 3 * DAY)
            && (WarningLevel(expiry, now) == 7 <==> 3 * DAY < left <= 7 * DAY)
            && (WarningLevel(expiry, now) == 0 <==> left <= 0 || 7 * DAY < left)
  {
    var left := expiry - now;
    assert CeilDays(left) * DAY >= left > (CeilDays(left) - 1) * DAY;
  }

  lemma {:induction false} WarnedRows(s: State, rows: seq<int>, ext: Calendar)
    ensures WarnRows(s, rows, ext) == s.(notices := WarnRows(s, rows, ext).notices)
  {
    if rows != [] { WarnedRows(s, rows[..|rows| - 1], ext); }
  }

  function LevelOf(s: State, r: int): int { if r in s.subs then WarningLevel(s.subs[r].expiry, s.now) else 0 }

  /** Every selected restaurant ends a pass with the warning of its bucket, and every
      notice is an old one or such a warning. */
  lemma {:induction false} EveryoneWarned(s: State, rows: seq<int>, ext: Calendar)
    requires forall k :: 0 <= k < |rows| ==> ExpiresSoon(s, rows[k])
    ensures var end := WarnRows(s, rows, ext);
            && (forall r :: r in rows ==> LevelOf(s, r) in {1, 3, 7} && Warning(r, LevelOf(s, r)) in end.notices)
            && (forall n :: n in end.notices && n !in s.notices ==>
                  n.Warning? && n.restaurant in rows && n.level == LevelOf(s, n.restaurant))
            && (forall n :: n in s.notices ==> n in end.notices)
  {
    if rows != [] {
      var init, r := rows[..|rows| - 1], rows[|rows| - 1];
      EveryoneWarned(s, init, ext);
      WarnedRows(s, init, ext);
      WarningLevelMeans(s.subs[r].expiry, s.now);
      assert ExpiresSoon(s, r);
      assert forall q :: q in rows <==> q in init || q == r;
      var before, end := WarnRows(s, init, ext), WarnRows(s, rows, ext);
      var n := Warning(r, LevelOf(s, r));
      assert end.notices == if n in before.notices then before.notices else before.notices + [n];
    }
  }

  /** An ACTIVE or TRIAL subscription with one, three or seven days left, in milliseconds. */
  predicate EndsSoon(s: State, r: int, level: int) {
    && r in s.subs && (s.subs[r].status == ACTIVE || s.subs[r].status == TRIAL)
    && var left := s.subs[r].expiry - s.now;
    0 < left <= 604800000 && level == if left <= 86400000 then 1 else if left <= 259200000 then 3 else 7
  }

  ghost predicate WarnedInTime(s: State, notices: seq<Notice>, r: int) {
    forall level :: EndsSoon(s, r, level) ==> Warning(r, level) in notices
  }

  /** Whoever has a subscription like that ends the pass with its warning. */
  lemma EveryoneInTimeWarned(s: State, rows: seq<int>, ext: Calendar)
    requires forall r :: r in rows <==> ExpiresSoon(s, r)
    ensures forall r :: r in s.subs ==> WarnedInTime(s, WarnRows(s, rows, ext).notices, r)
  {
    EveryoneWarned(s, rows, ext);
    forall r | r in s.subs ensures WarnedInTime(s, WarnRows(s, rows, ext).notices, r) {
      WarningLevelMeans(s.subs[r].expiry, s.now);
      assert ExpiresSoon(s, r) ==> r in rows;
    }
  }

  /** And no warning goes to anybody else. */
  lemma OnlyInTimeWarned(s: State, rows: seq<int>, ext: Calendar, n: Notice)
    requires forall r :: r in rows <==> ExpiresSoon(s, r)
    requires n in WarnRows(s, rows, ext).notices && n !in s.notices
    ensures n.Warning? && EndsSoon(s, n.restaurant, n.level)
  {
    EveryoneWarned(s, rows, ext);
    assert ExpiresSoon(s, n.restaurant);
    WarningLevelMeans(s.subs[n.restaurant].expiry, s.now);
  }
}
