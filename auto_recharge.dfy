/**
 * The periodic auto-recharge task: one pass over the enabled users that
 * tops up every user whose quota is at or below a threshold, subject to an
 * optional weekly and monthly cap on earlier automatic recharges.
 *
 * Days are numbered consecutively (day 0 is Thursday 1 January 1970); the
 * "start of the week" and "start of the month" passed to the recharge-log
 * count are day numbers. The user table is a `UserStore` whose reads and
 * writes fail for fixed sets of users; the log count is a function.
 */
module AutoRecharge {

  /** The operator's settings; a cap of 0 (or less) means "no cap". */
  datatype AutoRechargeSetting = AutoRechargeSetting(
    enabled: bool,
    interval: int,     // minutes between passes
    threshold: int,    // trigger level, in dollars
    amount: int,       // amount given, in dollars
    weeklyLimit: int,  // automatic recharges allowed per week
    monthlyLimit: int  // automatic recharges allowed per month
  )

  const DefaultSetting := AutoRechargeSetting(true, 30, 50, 200, 0, 0)

  /** The result of a database read that may fail. */
  datatype Lookup<T> = Found(value: T) | Failed

  datatype User = User(id: int, username: string)

  // ---------------------------------------------------------------- calendar

  /** Go's `time.Weekday` of a day: 0 is Sunday, 6 is Saturday. */
  function Weekday(day: int): (w: int)
    ensures 0 <= w < 7
  {
    (day + 4) % 7
  }

  /** The weekday counted from Monday = 1 to Sunday = 7. */
  function MondayBasedWeekday(weekday: int): (r: int)
    requires 0 <= weekday < 7
    ensures 1 <= r <= 7
    ensures r == 7 <==> weekday == 0
    ensures weekday != 0 ==> r == weekday
  {
    if weekday == 0 then 7 else weekday
  }

  /** Today's date: its day number and its day of the month (1 to 31). */
  datatype Today = Today(day: int, dayOfMonth: int)

  /** The Monday of the current week. */
  function WeekStart(today: int): (r: int)
    ensures today - 6 <= r <= today
    ensures Weekday(r) == 1
  {
    var w := Weekday(today);
    assert (today + 4) == 7 * ((today + 4) / 7) + w;
    today - MondayBasedWeekday(w) + 1
  }

  /** The week start is the one Monday in the seven days ending today. */
  lemma WeekStartIsLatestMonday(today: int, d: int)
    requires today - 6 <= d <= today && Weekday(d) == 1
    ensures d == WeekStart(today)
  {
    var ws := WeekStart(today);
    var q, q' := (d + 4) / 7, (ws + 4) / 7;
    assert d + 4 == 7 * q + 1 && ws + 4 == 7 * q' + 1;
    assert -6 <= d - ws <= 6;
    assert d - ws == 7 * (q - q');
  }

  /** The first day of the current month. */
  function MonthStart(today: Today): (r: int)
    requires 1 <= today.dayOfMonth <= 31
    ensures today.day - 30 <= r <= today.day
    ensures today.day - r + 1 == today.dayOfMonth
  {
    today.day - today.dayOfMonth + 1
  }

  // ---------------------------------------------------------------- one user

  /** Everything one pass decides with, besides the user table. */
  datatype Run = Run(
    cfg: AutoRechargeSetting,
    thresholdQuota: int,
    amountQuota: int,
    weekStart: int,
    monthStart: int,
    countLogs: (int, int) -> Lookup<int>  // earlier automatic recharges of a user since a day
  )

  /** Why a user is, or is not, recharged. */
  datatype Decision =
    | Recharge
    | SkipQuotaError
    | SkipAboveThreshold
    | SkipWeeklyError
    | SkipWeeklyLimit
    | SkipMonthlyError
    | SkipMonthlyLimit

  /** A cap of `limit` lets one more recharge through after `count` earlier ones. */
  predicate UnderCap(limit: int, count: Lookup<int>)
    ensures limit <= 0 ==> UnderCap(limit, count)
    ensures limit > 0 && count.Failed? ==> !UnderCap(limit, count)
    ensures limit > 0 && count.Found? && count.value >= limit ==> !UnderCap(limit, count)
  {
    limit <= 0 || (count.Found? && count.value < limit)
  }

  /** The guards of the loop body, in source order. */
  function Decide(run: Run, id: int, quota: Lookup<int>): (d: Decision)
    ensures d == Recharge <==>
      quota.Found? && quota.value <= run.thresholdQuota
      && UnderCap(run.cfg.weeklyLimit, run.countLogs(id, run.weekStart))
      && UnderCap(run.cfg.monthlyLimit, run.countLogs(id, run.monthStart))
    ensures d == SkipQuotaError <==> quota.Failed?
    ensures d == SkipAboveThreshold <==> quota.Found? && quota.value > run.thresholdQuota
    ensures d in {SkipWeeklyError, SkipWeeklyLimit} ==> run.cfg.weeklyLimit > 0
    ensures d in {SkipMonthlyError, SkipMonthlyLimit} ==> run.cfg.monthlyLimit > 0
  {
    if quota.Failed? then SkipQuotaError
    else if quota.value > run.thresholdQuota then SkipAboveThreshold
    else if run.cfg.weeklyLimit > 0 && run.countLogs(id, run.weekStart).Failed? then SkipWeeklyError
    else if run.cfg.weeklyLimit > 0 && run.countLogs(id, run.weekStart).value >= run.cfg.weeklyLimit then SkipWeeklyLimit
    else if run.cfg.monthlyLimit > 0 && run.countLogs(id, run.monthStart).Failed? then SkipMonthlyError
    else if run.cfg.monthlyLimit > 0 && run.countLogs(id, run.monthStart).value >= run.cfg.monthlyLimit then SkipMonthlyLimit
    else Recharge
  }

  /** With both caps off (0 or less), exactly the users at or below the threshold qualify. */
  lemma NoCapsMeansThresholdOnly(run: Run, id: int, quota: int)
    requires run.cfg.weeklyLimit <= 0 && run.cfg.monthlyLimit <= 0
    ensures Decide(run, id, Found(quota)) == Recharge <==> quota <= run.thresholdQuota
  {
  }

  /** The built-in setting is switched on and has neither cap, so only the threshold decides. */
  lemma DefaultSettingThresholdOnly(run: Run, id: int, quota: int)
    requires run.cfg == DefaultSetting
    ensures run.cfg.enabled && run.cfg.interval == 30
    ensures run.cfg.threshold == 50 && run.cfg.amount == 200
    ensures Decide(run, id, Found(quota)) == Recharge <==> quota <= run.thresholdQuota
  {
    NoCapsMeansThresholdOnly(run, id, quota);
  }

  // ---------------------------------------------------------------- user table

  /** The users whose quota read fails and those whose quota write fails. */
  datatype Faults = Faults(readFails: set<int>, writeFails: set<int>)

  /** `GetUserQuota`: the stored quota, or a failure. */
  function QuotaLookup(quota: map<int, int>, faults: Faults, id: int): (r: Lookup<int>)
    ensures r.Found? <==> id in quota && id !in faults.readFails
    ensures r.Found? ==> r.value == quota[id]
  {
    if id in quota && id !in faults.readFails then Found(quota[id]) else Failed
  }

  /** `IncreaseUserQuota`: adds `amount` to one user, unless that write fails. */
  function Increased(quota: map<int, int>, faults: Faults, id: int, amount: int): (q: map<int, int>)
    ensures q.Keys == quota.Keys
    ensures forall k :: k in q && k != id ==> q[k] == quota[k]
    ensures id in quota ==> q[id] == if id in faults.writeFails then quota[id] else quota[id] + amount
  {
    if id in quota && id !in faults.writeFails then quota[id := quota[id] + amount] else quota
  }

  class UserStore {
    var quota: map<int, int>
    const faults: Faults

    constructor (quota: map<int, int>, faults: Faults)
      ensures this.quota == quota && this.faults == faults
    {
      this.quota := quota;
      this.faults := faults;
    }

    method GetUserQuota(id: int) returns (r: Lookup<int>)
      ensures r == QuotaLookup(quota, faults, id)
    {
      if id in quota && id !in faults.readFails {
        r := Found(quota[id]);
      } else {
        r := Failed;
      }
    }

    method IncreaseUserQuota(id: int, amount: int)
      modifies this`quota
      ensures quota == Increased(old(quota), faults, id, amount)
    {
      if id in quota && id !in faults.writeFails {
        quota := quota[id := quota[id] + amount];
      }
    }
  }

  // ---------------------------------------------------------------- the pass

  /** The table's quotas and the number of users recharged so far. */
  datatype PassState = PassState(quota: map<int, int>, recharged: nat)

  /** One iteration of the loop, on the quotas as they are at that point. */
  function Step(run: Run, faults: Faults, s: PassState, u: User): (r: PassState)
    ensures r.quota.Keys == s.quota.Keys
    ensures r.recharged == s.recharged || r.recharged == s.recharged + 1
    ensures r.recharged == s.recharged ==> r == s
  {
    if Decide(run, u.id, QuotaLookup(s.quota, faults, u.id)) == Recharge then
      PassState(Increased(s.quota, faults, u.id, run.amountQuota), s.recharged + 1)
    else s
  }

  /** The loop over `users`, in order, from the quotas `quota` and a zero counter. */
  function Pass(run: Run, faults: Faults, quota: map<int, int>, users: seq<User>): PassState
    decreases |users|
  {
    if users == [] then PassState(quota, 0)
    else Step(run, faults, Pass(run, faults, quota, users[..|users| - 1]), users[|users| - 1])
  }

  /** Whether the pass recharges `u`, judged on the quotas before the pass. */
  predicate Eligible(run: Run, faults: Faults, quota: map<int, int>, u: User) {
    Decide(run, u.id, QuotaLookup(quota, faults, u.id)) == Recharge
  }

  /** The users the pass recharges, in order (a reference definition). */
  function RechargedUsers(run: Run, faults: Faults, quota: map<int, int>, users: seq<User>): (r: seq<User>)
    ensures |r| <= |users|
    ensures forall u :: u in r <==> u in users && Eligible(run, faults, quota, u)
  {
    if users == [] then []
    else
      RechargedUsers(run, faults, quota, users[..|users| - 1])
      + (if Eligible(run, faults, quota, users[|users| - 1]) then [users[|users| - 1]] else [])
  }

  predicate DistinctIds(users: seq<User>) {
    forall i, j :: 0 <= i < j < |users| ==> users[i].id != users[j].id
  }

  predicate HasId(users: seq<User>, id: int) {
    exists i :: 0 <= i < |users| && users[i].id == id
  }

  /** The counter never exceeds the number of users, and the table keeps its users. */
  lemma {:induction false} PassBounds(run: Run, faults: Faults, quota: map<int, int>, users: seq<User>)
    ensures Pass(run, faults, quota, users).recharged <= |users|
    ensures Pass(run, faults, quota, users).quota.Keys == quota.Keys
  {
    if users != [] {
      PassBounds(run, faults, quota, users[..|users| - 1]);
    }
  }

  /** A user the pass does not visit keeps its quota. */
  lemma {:induction false} PassLeavesOthers(run: Run, faults: Faults, quota: map<int, int>, users: seq<User>, id: int)
    requires id in quota && !HasId(users, id)
    ensures id in Pass(run, faults, quota, users).quota
    ensures Pass(run, faults, quota, users).quota[id] == quota[id]
  {
    if users != [] {
      var prefix := users[..|users| - 1];
      PassLeavesOthers(run, faults, quota, prefix, id);
    }
  }

  /**
   * With distinct user ids: the counter is the number of users recharged;
   * each of them gains exactly `amountQuota` (unless the write fails, which
   * the source ignores), and every other user keeps its quota.
   */
  lemma {:induction false} PassEffect(run: Run, faults: Faults, quota: map<int, int>, users: seq<User>)
    requires DistinctIds(users)
    ensures Pass(run, faults, quota, users).recharged == |RechargedUsers(run, faults, quota, users)|
    ensures Pass(run, faults, quota, users).quota.Keys == quota.Keys
    ensures forall i :: 0 <= i < |users| && users[i].id in quota ==>
      Pass(run, faults, quota, users).quota[users[i].id]
        == if Eligible(run, faults, quota, users[i]) && users[i].id !in faults.writeFails
           then quota[users[i].id] + run.amountQuota
           else quota[users[i].id]
  {
    PassBounds(run, faults, quota, users);
    if users != [] {
      var n := |users| - 1;
      var prefix, last := users[..n], users[n];
      var before := Pass(run, faults, quota, prefix);
      assert DistinctIds(prefix);
      PassEffect(run, faults, quota, prefix);
      PassBounds(run, faults, quota, prefix);
      assert !HasId(prefix, last.id);
      if last.id in quota {
        PassLeavesOthers(run, faults, quota, prefix, last.id);
      }
      assert QuotaLookup(before.quota, faults, last.id) == QuotaLookup(quota, faults, last.id);
      forall i | 0 <= i < |users| && users[i].id in quota
        ensures Pass(run, faults, quota, users).quota[users[i].id]
          == if Eligible(run, faults, quota, users[i]) && users[i].id !in faults.writeFails
             then quota[users[i].id] + run.amountQuota
             else quota[users[i].id]
      {
        if i < n {
          assert prefix[i] == users[i];
          assert users[i].id != last.id;
        }
      }
    }
  }

  /**
   * A user above the threshold is never recharged, whatever the caps say,
   * at any of its occurrences in the list, and keeps its quota.
   */
  lemma {:induction false} AboveThresholdUntouched(run: Run, faults: Faults, quota: map<int, int>, users: seq<User>, id: int)
    requires id in quota && quota[id] > run.thresholdQuota
    ensures id in Pass(run, faults, quota, users).quota
    ensures Pass(run, faults, quota, users).quota[id] == quota[id]
    ensures forall u :: u in RechargedUsers(run, faults, quota, users) ==> u.id != id
  {
    if users != [] {
      var prefix := users[..|users| - 1];
      AboveThresholdUntouched(run, faults, quota, prefix, id);
      PassBounds(run, faults, quota, prefix);
    }
  }

  /**
   * The pass itself skips every occurrence of a user above the threshold:
   * the loop iteration at position `k` leaves the state as it found it.
   */
  lemma AboveThresholdSkipped(run: Run, faults: Faults, quota: map<int, int>, users: seq<User>, k: int)
    requires 0 <= k < |users|
    requires users[k].id in quota && quota[users[k].id] > run.thresholdQuota
    ensures Step(run, faults, Pass(run, faults, quota, users[..k]), users[k]) == Pass(run, faults, quota, users[..k])
  {
    AboveThresholdUntouched(run, faults, quota, users[..k], users[k].id);
  }

  /**
   * `checkAndRechargeUsers`: a failed user listing recharges no one;
   * otherwise the table and the counter end as `Pass` says.
   */
  method CheckAndRechargeUsers(
    store: UserStore, users: Lookup<seq<User>>, cfg: AutoRechargeSetting,
    thresholdQuota: int, amountQuota: int, today: Today, countLogs: (int, int) -> Lookup<int>)
    returns (rechargedCount: nat)
    requires 1 <= today.dayOfMonth <= 31
    modifies store`quota
    ensures users.Failed? ==> store.quota == old(store.quota) && rechargedCount == 0
    ensures users.Found? ==>
      var run := Run(cfg, thresholdQuota, amountQuota, WeekStart(today.day), MonthStart(today), countLogs);
      PassState(store.quota, rechargedCount) == Pass(run, store.faults, old(store.quota), users.value)
  {
    if users.Failed? {
      return 0;
    }
    var weekday := Weekday(today.day);
    if weekday == 0 {
      weekday := 7;
    }
    var weekStart := today.day - weekday + 1;
    var monthStart := today.day - today.dayOfMonth + 1;
    ghost var run := Run(cfg, thresholdQuota, amountQuota, weekStart, monthStart, countLogs);
    assert weekStart == WeekStart(today.day);

    var us := users.value;
    rechargedCount := 0;
    var i := 0;
    while i < |us|
      invariant 0 <= i <= |us|
      invariant PassState(store.quota, rechargedCount) == Pass(run, store.faults, old(store.quota), us[..i])
    {
      var user := us[i];
      i := i + 1;
      assert us[..i][..i - 1] == us[..i - 1];
      var quota := store.GetUserQuota(user.id);
      if quota.Failed? {
        continue;
      }
      if quota.value > thresholdQuota {
        continue;
      }
      if cfg.weeklyLimit > 0 {
        var weekCount := countLogs(user.id, weekStart);
        if weekCount.Failed? {
          continue;
        }
        if weekCount.value >= cfg.weeklyLimit {
          continue;
        }
      }
      if cfg.monthlyLimit > 0 {
        var monthCount := countLogs(user.id, monthStart);
        if monthCount.Failed? {
          continue;
        }
        if monthCount.value >= cfg.monthlyLimit {
          continue;
        }
      }
      store.IncreaseUserQuota(user.id, amountQuota);
      rechargedCount := rechargedCount + 1;
    }
    assert us[..|us|] == us;
  }

  /**
   * One iteration of `AutoRechargeTask` (the sleep between iterations is
   * not modelled): when disabled nothing is checked and nothing changes.
   */
  method RunIteration(
    store: UserStore, users: Lookup<seq<User>>, cfg: AutoRechargeSetting,
    thresholdQuota: int, amountQuota: int, today: Today, countLogs: (int, int) -> Lookup<int>)
    returns (checked: bool, rechargedCount: nat)
    requires 1 <= today.dayOfMonth <= 31
    modifies store`quota
    ensures checked == cfg.enabled
    ensures !cfg.enabled ==> store.quota == old(store.quota) && rechargedCount == 0
    ensures cfg.enabled && users.Failed? ==> store.quota == old(store.quota) && rechargedCount == 0
    ensures cfg.enabled && users.Found? ==>
      var run := Run(cfg, thresholdQuota, amountQuota, WeekStart(today.day), MonthStart(today), countLogs);
      PassState(store.quota, rechargedCount) == Pass(run, store.faults, old(store.quota), users.value)
  {
    if !cfg.enabled {
      return false, 0;
    }
    checked := true;
    rechargedCount := CheckAndRechargeUsers(store, users, cfg, thresholdQuota, amountQuota, today, countLogs);
  }
}
