/**
 * The announcement endpoint api/announcements.php: the list of active announcements a visitor
 * sees, with a per-user "viewed" flag, and the INSERT IGNORE that records a view. The tables are
 * a sequence of announcement rows, a set of (user id, announcement id) view records, the set of
 * registered user ids and the quota table that holds each user's membership type.
 */
module Announcements {
  import opened Wrappers
  import opened Text
  import opened Sorting
  import opened Quota
  import TaskStore

  /** A row of planwise_announcements. */
  datatype Announcement = Announcement(
    id: int,
    title: string,
    content: string,
    kind: string,
    showPopup: bool,
    priority: int,
    audience: string,
    createdAt: int,
    isActive: bool,
    endDate: Option<int>)

  /** An announcement as sent to the browser, with its is_viewed flag. */
  datatype Listed = Listed(announcement: Announcement, isViewed: bool)

  datatype ActiveReply = ActiveReply(announcements: seq<Listed>, userLoggedIn: bool)

  datatype MarkReply = Rejected(error: string) | Marked(success: bool, message: string)

  const Limit: nat := 10
  const InvalidParams := "无效的参数"
  const MarkSucceeded := "标记成功"
  const MarkFailed := "标记失败"

  // ---------------------------------------------------------------- the listing query

  /**
   * The membership type the audience filter compares with: 'all' for a guest; for a user, the
   * membership type of the quota row, 'free' when there is no quota row or no user row.
   */
  function MembershipOf(user: Option<int>, users: set<int>, quotas: QuotaTable): string {
    if IsGuest(user) then "all"
    else if user.value in users && user.value in quotas then quotas[user.value].membership
    else "free"
  }

  /** The WHERE clause: active, not past its end date, and aimed at everyone or at this membership. */
  predicate Visible(a: Announcement, membership: string, now: int) {
    a.isActive && (a.endDate.None? || a.endDate.value > now)
    && (a.audience == "all" || a.audience == membership)
  }

  /** ORDER BY priority DESC, created_at DESC. */
  function Order(a: Announcement): (int, int) {
    (a.priority, a.createdAt)
  }

  /** The rows the WHERE clause selects, in table order. */
  function Selected(table: seq<Announcement>, membership: string, now: int): (r: seq<Announcement>)
    ensures forall k :: 0 <= k < |r| ==> r[k] in table && Visible(r[k], membership, now)
    ensures forall k :: 0 <= k < |table| && Visible(table[k], membership, now) ==> table[k] in r
  {
    TaskStore.Filter(table, a => Visible(a, membership, now))
  }

  /** The whole query: selected, sorted, at most ten rows. */
  function Active(table: seq<Announcement>, membership: string, now: int): seq<Announcement> {
    Take(SortDesc(Selected(table, membership, now), Order), Limit)
  }

  /** Only visible rows of the table, at most ten of them, in the query's order. */
  lemma ActiveSound(table: seq<Announcement>, membership: string, now: int)
    ensures var r := Active(table, membership, now);
      |r| <= Limit
      && (forall k :: 0 <= k < |r| ==> r[k] in table && Visible(r[k], membership, now))
      && SortedBy(r, Order)
  {
    var sel := Selected(table, membership, now);
    var s := SortDesc(sel, Order);
    var r := Active(table, membership, now);
    assert r == s[..|r|];
    forall k | 0 <= k < |r|
      ensures r[k] in table && Visible(r[k], membership, now)
    {
      assert r[k] == s[k];
      SortDescMembers(sel, Order, s[k]);
    }
  }

  /**
   * LIMIT keeps the top of the order: a visible row that is left out means the result is full
   * and every row in it comes before the one left out.
   */
  lemma ActiveIsTop(table: seq<Announcement>, membership: string, now: int, a: Announcement)
    requires a in table && Visible(a, membership, now)
    requires a !in Active(table, membership, now)
    ensures |Active(table, membership, now)| == Limit
    ensures forall k :: 0 <= k < Limit ==> Before(Order(Active(table, membership, now)[k]), Order(a))
  {
    var sel := Selected(table, membership, now);
    var s := SortDesc(sel, Order);
    var r := Active(table, membership, now);
    assert r == s[..|r|];
    var i :| 0 <= i < |table| && table[i] == a;
    assert a in sel;
    SortDescMembers(sel, Order, a);
    var j :| 0 <= j < |s| && s[j] == a;
    forall k | 0 <= k < Limit
      ensures Before(Order(r[k]), Order(a))
    {
      assert r[k] == s[k];
    }
  }

  /** A guest sees only announcements aimed at everyone. */
  lemma GuestSeesOnlyPublic(table: seq<Announcement>, users: set<int>, quotas: QuotaTable, now: int)
    ensures var r := Active(table, MembershipOf(None, users, quotas), now);
      forall k :: 0 <= k < |r| ==> r[k].audience == "all"
  {
    ActiveSound(table, "all", now);
  }

  /** A user without a quota row is treated as a free member. */
  lemma NoQuotaRowIsFree(user: int, users: set<int>, quotas: QuotaTable)
    requires user != 0 && user !in quotas
    ensures MembershipOf(Some(user), users, quotas) == "free"
  {
  }

  // ---------------------------------------------------------------- is_viewed

  /** The view records of `user` among the listed ids: the second query's result. */
  function ViewedAmong(views: set<(int, int)>, user: int, ids: seq<int>): set<int> {
    set v | v in views && v.0 == user && v.1 in ids :: v.1
  }

  /** a is flagged viewed: the visitor is a user with a view record for it. */
  predicate Flagged(views: set<(int, int)>, user: Option<int>, a: Announcement) {
    !IsGuest(user) && (user.value, a.id) in views
  }

  /**
   * The by-reference foreach loops: each row keeps its data and gets is_viewed set from the
   * user's view records, or false for a guest.
   */
  method FlagViewed(anns: seq<Announcement>, user: Option<int>, views: set<(int, int)>)
    returns (r: seq<Listed>)
    ensures |r| == |anns|
    ensures forall k :: 0 <= k < |r| ==> r[k].announcement == anns[k]
    ensures forall k :: 0 <= k < |r| ==> (r[k].isViewed <==> Flagged(views, user, anns[k]))
  {
    r := [];
    if !IsGuest(user) {
      var ids := seq(|anns|, k requires 0 <= k < |anns| => anns[k].id);
      var viewed := ViewedAmong(views, user.value, ids);
      var i := 0;
      while i < |anns|
        invariant 0 <= i <= |anns|
        invariant |r| == i
        invariant forall k :: 0 <= k < i ==> r[k].announcement == anns[k]
        invariant forall k :: 0 <= k < i ==> (r[k].isViewed <==> Flagged(views, user, anns[k]))
      {
        assert ids[i] == anns[i].id;
        var seen := anns[i].id in viewed;
        assert seen <==> (user.value, anns[i].id) in views by {
          if (user.value, anns[i].id) in views {
            assert (user.value, anns[i].id).1 in viewed;
          }
        }
        r := r + [Listed(anns[i], seen)];
        i := i + 1;
      }
    } else {
      var i := 0;
      while i < |anns|
        invariant 0 <= i <= |anns|
        invariant |r| == i
        invariant forall k :: 0 <= k < i ==> r[k].announcement == anns[k] && !r[k].isViewed
      {
        r := r + [Listed(anns[i], false)];
        i := i + 1;
      }
    }
  }

  // ---------------------------------------------------------------- recording a view

  /** `(int)($_POST['announcement_id'] ?? 0)`. */
  function IdOf(idParam: Option<string>): int {
    if idParam.None? then 0 else IntCast(idParam.value)
  }

  /**
   * markAnnouncementAsViewed: the reply and the new set of view records. `executed` is whether
   * the database ran the INSERT IGNORE.
   */
  function MarkView(views: set<(int, int)>, user: Option<int>, idParam: Option<string>, executed: bool)
    : (r: (MarkReply, set<(int, int)>))
    ensures r.0.Rejected? <==> IsGuest(user) || IdOf(idParam) <= 0
    ensures r.0.Rejected? ==> r.0.error == InvalidParams && r.1 == views
    ensures r.0.Marked? ==> r.0.success == executed
    ensures r.0.Marked? ==> r.0.message == (if executed then MarkSucceeded else MarkFailed)
    ensures r.0.Marked? && executed ==> r.1 == views + {(user.value, IdOf(idParam))}
    ensures r.0.Marked? && !executed ==> r.1 == views
  {
    var id := IdOf(idParam);
    if IsGuest(user) || id <= 0 then (Rejected(InvalidParams), views)
    else if executed then (Marked(true, MarkSucceeded), views + {(user.value, id)})
    else (Marked(false, MarkFailed), views)
  }

  /** Marking the same announcement again changes nothing: one record per (user, announcement). */
  lemma MarkIdempotent(views: set<(int, int)>, user: Option<int>, idParam: Option<string>)
    ensures var once := MarkView(views, user, idParam, true).1;
      MarkView(once, user, idParam, true).1 == once
  {
    var once := MarkView(views, user, idParam, true).1;
    if !IsGuest(user) && IdOf(idParam) > 0 {
      assert once + {(user.value, IdOf(idParam))} == once;
    }
  }

  /**
   * After a recorded view the announcement lists as viewed for that user, and the flags of every
   * other (user, announcement) pair are as before.
   */
  lemma MarkThenFlagged(views: set<(int, int)>, user: Option<int>, idParam: Option<string>,
                        other: Option<int>, a: Announcement)
    requires MarkView(views, user, idParam, true).0.Marked?
    ensures var after := MarkView(views, user, idParam, true).1;
      (a.id == IdOf(idParam) && other == user ==> Flagged(after, other, a))
      && (!(a.id == IdOf(idParam) && !IsGuest(other) && other.value == user.value)
          ==> (Flagged(after, other, a) <==> Flagged(views, other, a)))
  {
  }

  // ---------------------------------------------------------------- the endpoint's tables

  class AnnouncementBoard {
    var announcements: seq<Announcement>
    var views: set<(int, int)>
    const users: set<int>
    const quotas: QuotaTable

    constructor(announcements: seq<Announcement>, views: set<(int, int)>, users: set<int>, quotas: QuotaTable)
      ensures this.announcements == announcements && this.views == views
      ensures this.users == users && this.quotas == quotas
    {
      this.announcements := announcements;
      this.views := views;
      this.users := users;
      this.quotas := quotas;
    }

    /** getActiveAnnouncements for the session's user at time `now`. */
    method GetActiveAnnouncements(user: Option<int>, now: int) returns (reply: ActiveReply)
      ensures reply.userLoggedIn <==> !IsGuest(user)
      ensures var active := Active(announcements, MembershipOf(user, users, quotas), now);
        |reply.announcements| == |active|
        && (forall k :: 0 <= k < |active| ==>
              reply.announcements[k].announcement == active[k]
              && (reply.announcements[k].isViewed <==> Flagged(views, user, active[k])))
    {
      var membership := MembershipOf(user, users, quotas);
      var rows := Active(announcements, membership, now);
      var flagged := FlagViewed(rows, user, views);
      reply := ActiveReply(flagged, !IsGuest(user));
    }

    /** markAnnouncementAsViewed; `executed` is whether the database ran the insert. */
    method MarkAsViewed(user: Option<int>, idParam: Option<string>, executed: bool) returns (reply: MarkReply)
      modifies this
      ensures (reply, views) == MarkView(old(views), user, idParam, executed)
      ensures announcements == old(announcements)
    {
      var id := IdOf(idParam);
      if IsGuest(user) || id <= 0 {
        return Rejected(InvalidParams);
      }
      if executed {
        views := views + {(user.value, id)};
        reply := Marked(true, MarkSucceeded);
      } else {
        reply := Marked(false, MarkFailed);
      }
    }
  }
}
