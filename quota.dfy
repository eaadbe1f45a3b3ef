/**
 * includes/quota_manager.php: the analysis allowance of each user in `planwise_user_quotas`, the
 * daily allowance of guests, the price of an analysis by depth, upgrades and the monthly reset.
 * The table is a map keyed by its primary key; the clock, the start of the month and the count of
 * today's guest sessions are parameters.
 */
module Quota {
  import opened Wrappers
  import opened Text

  /** A row of planwise_user_quotas; timestamps are seconds. */
  datatype QuotaRow = QuotaRow(remaining: int, total: int, membership: string, lastReset: int, lastUsed: Option<int>)

  /** The table, keyed by user_id. */
  type QuotaTable = map<int, QuotaRow>

  /** `!$user_id`: nobody is logged in, or the id is 0. */
  predicate IsGuest(user: Option<int>) {
    user.None? || user.value == 0
  }

  /** getConfig: the stored text cast with `(int)`, or the default when no row holds the key. */
  function ConfigInt(config: map<string, string>, key: string, default: int): int {
    if key in config then IntCast(config[key]) else default
  }

  /** getAnalysisCost: basic 1, standard 2, deep 3, anything else 1. */
  function AnalysisCost(depth: string): (c: int)
    ensures 1 <= c <= 3
    ensures depth == "basic" ==> c == 1
    ensures c == 2 <==> depth == "standard"
    ensures c == 3 <==> depth == "deep"
  {
    if depth == "standard" then 2 else if depth == "deep" then 3 else 1
  }

  // ---------------------------------------------------------------- what getUserQuota returns

  /** The quota a caller sees: a user's row as read, or the guest figures of the day. */
  datatype Quota = Member(row: QuotaRow) | Guest(remaining: int, total: int)

  function Remaining(q: Quota): int {
    if q.Member? then q.row.remaining else q.remaining
  }

  /** `max(0, $guest_limit - $used_today)`. */
  function GuestRemaining(limit: int, usedToday: int): (r: int)
    ensures r >= 0
    ensures r >= limit - usedToday
    ensures r == 0 || r == limit - usedToday
  {
    if limit - usedToday > 0 then limit - usedToday else 0
  }

  /** getGuestQuota: the configured daily limit (3 by default) less today's guest sessions. */
  function GuestQuota(config: map<string, string>, usedToday: int): (q: Quota)
    ensures q.Guest? && q.total == ConfigInt(config, "guest_daily_limit", 3)
    ensures 0 <= q.remaining && (usedToday >= 0 ==> q.remaining <= q.total || q.remaining == 0)
  {
    var limit := ConfigInt(config, "guest_daily_limit", 3);
    Guest(GuestRemaining(limit, usedToday), limit)
  }

  /** The monthly allowance of a new user: free_user_monthly_quota, 10 by default. */
  function FreeQuota(config: map<string, string>): int {
    ConfigInt(config, "free_user_monthly_quota", 10)
  }

  /** createDefaultQuota's row. */
  function DefaultRow(quota: int, now: int): QuotaRow {
    QuotaRow(quota, quota, "free", now, None)
  }

  // ---------------------------------------------------------------- the UPDATE statements

  /**
   * checkQuotaReset: when the row read was last reset before the start of the month, the row is
   * refilled to its total and stamped now; otherwise nothing changes.
   */
  function ResetIfStale(t: QuotaTable, u: int, lastReset: int, now: int, monthStart: int): (r: QuotaTable)
    ensures r.Keys == t.Keys
    ensures forall v :: v in t && v != u ==> r[v] == t[v]
    ensures (lastReset >= monthStart || u !in t) ==> r == t
    ensures lastReset < monthStart && u in t ==>
      r[u].remaining == r[u].total == t[u].total && r[u].lastReset == now &&
      r[u].membership == t[u].membership && r[u].lastUsed == t[u].lastUsed
  {
    if lastReset < monthStart && u in t then t[u := t[u].(remaining := t[u].total, lastReset := now)] else t
  }

  const QuotaExhausted: string := "配额不足，无法完成分析"

  /**
   * `UPDATE … SET remaining_quota = remaining_quota - cost WHERE user_id = ? AND remaining_quota
   * >= cost`, and the exception when no row matched.
   */
  function Deducted(t: QuotaTable, u: int, cost: int, now: int): (r: Result<QuotaTable, string>)
    ensures r.Err? <==> u !in t || t[u].remaining < cost
    ensures r.Err? ==> r.error == QuotaExhausted
    ensures r.Ok? ==>
      r.value.Keys == t.Keys && r.value[u].remaining == t[u].remaining - cost && r.value[u].remaining >= 0 &&
      r.value[u] == t[u].(remaining := t[u].remaining - cost, lastUsed := Some(now)) &&
      forall v :: v in t && v != u ==> r.value[v] == t[v]
  {
    if u in t && t[u].remaining >= cost then Ok(t[u := t[u].(remaining := t[u].remaining - cost, lastUsed := Some(now))])
    else Err(QuotaExhausted)
  }

  /** The deduction as the callers see it: nothing for a guest, the conditional UPDATE otherwise. */
  function Deduction(t: QuotaTable, user: Option<int>, depth: string, now: int): (r: Result<QuotaTable, string>)
    ensures IsGuest(user) ==> r == Ok(t)
    ensures !IsGuest(user) ==> r == Deducted(t, user.value, AnalysisCost(depth), now)
  {
    if IsGuest(user) then Ok(t) else Deducted(t, user.value, AnalysisCost(depth), now)
  }

  /** The four tiers of getMembershipQuotas, each read from the configuration with its default. */
  function TierQuota(config: map<string, string>, tier: string): (r: Option<int>)
    ensures r.Some? <==> tier == "free" || tier == "basic" || tier == "premium" || tier == "enterprise"
    ensures tier == "free" ==> r == Some(FreeQuota(config))
    ensures tier == "basic" ==> r == Some(ConfigInt(config, "basic_user_monthly_quota", 50))
    ensures tier == "premium" ==> r == Some(ConfigInt(config, "premium_user_monthly_quota", 200))
    ensures tier == "enterprise" ==> r == Some(ConfigInt(config, "enterprise_user_monthly_quota", 1000))
  {
    if tier == "free" then Some(FreeQuota(config))
    else if tier == "basic" then Some(ConfigInt(config, "basic_user_monthly_quota", 50))
    else if tier == "premium" then Some(ConfigInt(config, "premium_user_monthly_quota", 200))
    else if tier == "enterprise" then Some(ConfigInt(config, "enterprise_user_monthly_quota", 1000))
    else None
  }

  /**
   * upgradeMembership's upsert: a new row is inserted full; an existing row takes the tier and its
   * total, and keeps the larger of its remaining allowance and the tier's.
   */
  function Upgraded(t: QuotaTable, u: int, tier: string, quota: int, now: int): (r: QuotaTable)
    ensures r.Keys == t.Keys + {u}
    ensures forall v :: v in t && v != u ==> r[v] == t[v]
    ensures r[u].total == quota && r[u].membership == tier && r[u].remaining >= quota
    ensures u in t ==>
      r[u].remaining >= t[u].remaining && (r[u].remaining == quota || r[u].remaining == t[u].remaining) &&
      r[u].lastReset == t[u].lastReset && r[u].lastUsed == t[u].lastUsed
    ensures u !in t ==> r[u] == QuotaRow(quota, quota, tier, now, None)
  {
    if u in t then
      t[u := t[u].(total := quota, membership := tier, remaining := if t[u].remaining >= quota then t[u].remaining else quota)]
    else t[u := QuotaRow(quota, quota, tier, now, None)]
  }

  /**
   * getUserQuota for a user: the row as read (a missing one is first created as a free row and
   * read back), and the table after checkQuotaReset. The row returned is the one read before the
   * reset.
   */
  function UserQuota(t: QuotaTable, freeQuota: int, u: int, now: int, monthStart: int): (r: (QuotaRow, QuotaTable))
    ensures u in t ==> r.0 == t[u]
    ensures u !in t ==> r.0 == DefaultRow(freeQuota, now)
    ensures r.1.Keys == t.Keys + {u}
    ensures forall v :: v in t && v != u ==> r.1[v] == t[v]
  {
    var t1 := if u in t then t else t[u := DefaultRow(freeQuota, now)];
    (t1[u], ResetIfStale(t1, u, t1[u].lastReset, now, monthStart))
  }

  /** getUserQuota for anyone: guests get the day's figures and touch nothing. */
  function QuotaLookup(t: QuotaTable, config: map<string, string>, guestUsed: int, user: Option<int>,
                       now: int, monthStart: int): (r: (Quota, QuotaTable))
    ensures IsGuest(user) ==> r == (GuestQuota(config, guestUsed), t)
    ensures !IsGuest(user) ==> r.0 == Member(UserQuota(t, FreeQuota(config), user.value, now, monthStart).0)
    ensures !IsGuest(user) ==> r.1 == UserQuota(t, FreeQuota(config), user.value, now, monthStart).1
  {
    if IsGuest(user) then (GuestQuota(config, guestUsed), t)
    else
      var p := UserQuota(t, FreeQuota(config), user.value, now, monthStart);
      (Member(p.0), p.1)
  }

  const GuestRefusal: string := "游客每日分析次数已达上限，请注册后继续使用"
  const MemberRefusal: string := "您的分析次数已用完，请升级会员或等待配额重置"
  const InvalidTier: string := "无效的会员类型"

  // ---------------------------------------------------------------- the manager object

  class QuotaManager {
    /** planwise_user_quotas. */
    var quotas: QuotaTable
    /** planwise_config. */
    const config: map<string, string>
    /** `COUNT(*)` of today's sessions with no user in planwise_sessions. */
    const guestUsedToday: int

    constructor(quotas: QuotaTable, config: map<string, string>, guestUsedToday: int)
      ensures this.quotas == quotas && this.config == config && this.guestUsedToday == guestUsedToday
    {
      this.quotas := quotas;
      this.config := config;
      this.guestUsedToday := guestUsedToday;
    }

    /** createDefaultQuota: called only for a user without a row. */
    method CreateDefaultQuota(u: int, now: int)
      requires u !in quotas
      modifies this
      ensures quotas == old(quotas)[u := DefaultRow(FreeQuota(config), now)]
    {
      quotas := quotas[u := DefaultRow(FreeQuota(config), now)];
    }

    /** checkQuotaReset for the row just read. */
    method CheckQuotaReset(u: int, row: QuotaRow, now: int, monthStart: int)
      modifies this
      ensures quotas == ResetIfStale(old(quotas), u, row.lastReset, now, monthStart)
    {
      if row.lastReset < monthStart && u in quotas {
        quotas := quotas[u := quotas[u].(remaining := quotas[u].total, lastReset := now)];
      }
    }

    method GetUserQuota(user: Option<int>, now: int, monthStart: int) returns (q: Quota)
      modifies this
      ensures (q, quotas) == QuotaLookup(old(quotas), config, guestUsedToday, user, now, monthStart)
    {
      if IsGuest(user) {
        return GuestQuota(config, guestUsedToday);
      }
      var u := user.value;
      if u !in quotas {
        CreateDefaultQuota(u, now);
      }
      var row := quotas[u];
      CheckQuotaReset(u, row, now, monthStart);
      q := Member(row);
    }

    /** canCreateReport: allowed exactly when the remaining allowance covers the price. */
    method CanCreateReport(user: Option<int>, depth: string, now: int, monthStart: int)
      returns (allowed: bool, q: Quota, message: Option<string>)
      modifies this
      ensures (q, quotas) == QuotaLookup(old(quotas), config, guestUsedToday, user, now, monthStart)
      ensures allowed <==> Remaining(q) >= AnalysisCost(depth)
      ensures allowed <==> message.None?
      ensures !allowed ==> message == Some(if IsGuest(user) then GuestRefusal else MemberRefusal)
    {
      q := GetUserQuota(user, now, monthStart);
      allowed := Remaining(q) >= AnalysisCost(depth);
      message := if allowed then None else Some(if IsGuest(user) then GuestRefusal else MemberRefusal);
    }

    /** deductQuota: a no-op for guests; otherwise the conditional UPDATE, or the exception. */
    method DeductQuota(user: Option<int>, depth: string, now: int) returns (err: Option<string>)
      modifies this
      ensures match Deduction(old(quotas), user, depth, now)
        case Ok(t) => err.None? && quotas == t
        case Err(e) => err == Some(e) && quotas == old(quotas)
    {
      if IsGuest(user) {
        return None;
      }
      var u := user.value;
      var cost := AnalysisCost(depth);
      if u in quotas && quotas[u].remaining >= cost {
        quotas := quotas[u := quotas[u].(remaining := quotas[u].remaining - cost, lastUsed := Some(now))];
        err := None;
      } else {
        err := Some(QuotaExhausted);
      }
    }

    /** upgradeMembership: an unknown tier throws and writes nothing. */
    method UpgradeMembership(u: int, tier: string, now: int) returns (err: Option<string>)
      modifies this
      ensures err.Some? <==> TierQuota(config, tier).None?
      ensures err.Some? ==> err.value == InvalidTier && quotas == old(quotas)
      ensures err.None? ==> quotas == Upgraded(old(quotas), u, tier, TierQuota(config, tier).value, now)
    {
      var quota := TierQuota(config, tier);
      if quota.None? {
        return Some(InvalidTier);
      }
      quotas := Upgraded(quotas, u, tier, quota.value, now);
      err := None;
    }
  }

  // ---------------------------------------------------------------- properties

  /** Upgrading twice to the same tier is upgrading once. */
  lemma UpgradeIdempotent(t: QuotaTable, u: int, tier: string, quota: int, now: int, later: int)
    ensures Upgraded(Upgraded(t, u, tier, quota, now), u, tier, quota, later) == Upgraded(t, u, tier, quota, now)
  {
    var once := Upgraded(t, u, tier, quota, now);
    var twice := Upgraded(once, u, tier, quota, later);
    assert twice[u] == once[u];
  }

  /** Once reset this month, the row is not reset again this month. */
  lemma ResetOncePerMonth(t: QuotaTable, u: int, now: int, later: int, monthStart: int)
    requires u in t && monthStart <= now
    ensures var r := ResetIfStale(t, u, t[u].lastReset, now, monthStart);
      ResetIfStale(r, u, r[u].lastReset, later, monthStart) == r
  {
  }

  /**
   * A row last reset before this month is returned as read, while the table is refilled to the
   * row's total.
   */
  lemma StaleRowReturnedBeforeReset(t: QuotaTable, freeQuota: int, u: int, now: int, monthStart: int)
    requires u in t && t[u].lastReset < monthStart
    ensures var r := UserQuota(t, freeQuota, u, now, monthStart);
      r.0 == t[u] && r.1[u].remaining == t[u].total && r.1[u].lastReset == now
  {
  }

  /** A user without a row sees a full free allowance, and the new row is not reset again. */
  lemma NewUserGetsFreeRow(t: QuotaTable, freeQuota: int, u: int, now: int, monthStart: int)
    requires u !in t && monthStart <= now
    ensures var r := UserQuota(t, freeQuota, u, now, monthStart);
      r.0.remaining == r.0.total == freeQuota && r.0.membership == "free" && r.1[u] == r.0
  {
  }

  /**
   * The check and the deduction agree: after getUserQuota, the deduction of price c succeeds
   * exactly when the allowance as read covers c, unless the read triggered a reset, in which case
   * it succeeds exactly when the total covers c.
   */
  lemma CheckThenDeduct(t: QuotaTable, freeQuota: int, u: int, cost: int, now: int, later: int, monthStart: int)
    ensures var r := UserQuota(t, freeQuota, u, now, monthStart);
      Deducted(r.1, u, cost, later).Ok? <==>
        if r.0.lastReset < monthStart then r.0.total >= cost else r.0.remaining >= cost
  {
    var r := UserQuota(t, freeQuota, u, now, monthStart);
    var t1 := if u in t then t else t[u := DefaultRow(freeQuota, now)];
    assert r.1 == ResetIfStale(t1, u, t1[u].lastReset, now, monthStart);
  }
}
