/**
 * The Community page (src/pages/Community.jsx): the leaderboard computed
 * from every registered user's logs, the post feed, posting, liking and the
 * page's own relative-time text.
 */
module Community {
  import opened Values
  import opened Seqs
  import opened Logs
  import opened Helpers
  import Store

  // ---------------------------------------------------------------------------
  // Leaderboard

  /** The leaderboard score: a tenth of a point per liter saved, two per kg reduced, rounded and clamped. */
  function LeaderScore(waterSaved: real, carbonReduced: real): (r: int)
    ensures 0 <= r <= 100
  {
    Clamp(Round(waterSaved / 10.0 + carbonReduced * 2.0), 0, 100)
  }

  /** A user without logs saves both targets in full: 105 + 140 points, clamped to 100. */
  lemma LeaderScoreWithoutLogs()
    ensures LeaderScore(WaterSaved(Total([], "liters")), CarbonReduced(Total([], "co2kg"))) == 100
  {
    RoundOfInt(245);
  }

  /** Saving more never lowers the leaderboard score. */
  lemma LeaderScoreMonotone(w1: real, c1: real, w2: real, c2: real)
    requires w1 <= w2 && c1 <= c2
    ensures LeaderScore(w1, c1) <= LeaderScore(w2, c2)
  {
    RoundMonotone(w1 / 10.0 + c1 * 2.0, w2 / 10.0 + c2 * 2.0);
  }

  /** The leaderboard's badges: the profile's first three, without Consistent Tracker. */
  function LeaderBadges(waterSaved: real, carbonReduced: real, ecoScore: int): (r: seq<Badge>)
    ensures InBadgeOrder(r)
    ensures WaterSaver in r <==> waterSaved > 200.0
    ensures CarbonNeutral in r <==> carbonReduced > 15.0
    ensures EcoHero in r <==> ecoScore > 80
    ensures ConsistentTracker !in r
  {
    (if waterSaved > 200.0 then [WaterSaver] else [])
    + (if carbonReduced > 15.0 then [CarbonNeutral] else [])
    + (if ecoScore > 80 then [EcoHero] else [])
  }

  /** A leaderboard row: `{ ...user, ecoScore, waterSaved, carbonReduced, badges }`. */
  datatype Row = Row(user: Record, ecoScore: int, waterSaved: int, carbonReduced: int, badges: seq<Badge>)
  {
    /** The row as the object the page renders: the computed fields override the user's. */
    function AsRecord(): (r: Record)
      ensures r.Keys == user.Keys + {"ecoScore", "waterSaved", "carbonReduced", "badges"}
      ensures r["ecoScore"] == FNum(ecoScore as real)
      ensures r["waterSaved"] == FNum(waterSaved as real) && r["carbonReduced"] == FNum(carbonReduced as real)
      ensures r["badges"].FList? && |r["badges"].elems| == |badges|
      ensures forall i :: 0 <= i < |badges| ==> r["badges"].elems[i] == FStr(badges[i].Name())
      ensures forall k :: k in user && k !in {"ecoScore", "waterSaved", "carbonReduced", "badges"} ==> r[k] == user[k]
    {
      user + map[
        "ecoScore" := FNum(ecoScore as real),
        "waterSaved" := FNum(waterSaved as real),
        "carbonReduced" := FNum(carbonReduced as real),
        "badges" := FList(seq(|badges|, i requires 0 <= i < |badges| => FStr(badges[i].Name())))]
    }
  }

  /** The row for one user, from all of their logs (no time window). */
  function RowOf(user: Record, waterLogs: seq<Record>, carbonLogs: seq<Record>): (r: Row)
    ensures r.user == user
    ensures 0 <= r.ecoScore <= 100 && r.waterSaved >= 0 && r.carbonReduced >= 0
    ensures
      var saved := WaterSaved(Total(ForUser(waterLogs, Prop(user, "uid")), "liters"));
      var reduced := CarbonReduced(Total(ForUser(carbonLogs, Prop(user, "uid")), "co2kg"));
      r.ecoScore == LeaderScore(saved, reduced) &&
      r.waterSaved == Round(saved) && r.carbonReduced == Round(reduced) &&
      r.badges == LeaderBadges(saved, reduced, r.ecoScore)
  {
    var uid := Prop(user, "uid");
    var saved := WaterSaved(Total(ForUser(waterLogs, uid), "liters"));
    var reduced := CarbonReduced(Total(ForUser(carbonLogs, uid), "co2kg"));
    RoundMonotone(0.0, saved);
    RoundMonotone(0.0, reduced);
    RoundOfInt(0);
    var score := LeaderScore(saved, reduced);
    Row(user, score, Round(saved), Round(reduced), LeaderBadges(saved, reduced, score))
  }

  /** `u => !u.isGuest` */
  function NotGuest(): Record -> bool {
    (u: Record) => !PropTruthy(u, "isGuest")
  }

  /** `users.filter(u => !u.isGuest).map(...)`: one row per registered user, in storage order. */
  function Standings(users: seq<Record>, waterLogs: seq<Record>, carbonLogs: seq<Record>): (r: seq<Row>)
    ensures |r| == |Filter(users, NotGuest())|
    ensures forall i :: 0 <= i < |r| ==> r[i] == RowOf(Filter(users, NotGuest())[i], waterLogs, carbonLogs)
  {
    var members := Filter(users, NotGuest());
    seq(|members|, i requires 0 <= i < |members| => RowOf(members[i], waterLogs, carbonLogs))
  }

  /** `row => row.ecoScore`, the sort key. */
  function RowScore(): Row -> int {
    (row: Row) => row.ecoScore
  }

  /** The rows sorted by score, highest first, cut to the top 10. */
  function Leaderboard(users: seq<Record>, waterLogs: seq<Record>, carbonLogs: seq<Record>): (r: seq<Row>)
    ensures |r| <= 10
    ensures |r| == if |Filter(users, NotGuest())| < 10 then |Filter(users, NotGuest())| else 10
    ensures Descending(r, RowScore())
    ensures r <= SortDescending(Standings(users, waterLogs, carbonLogs), RowScore())
  {
    var sorted := SortDescending(Standings(users, waterLogs, carbonLogs), RowScore());
    TakeDescending(sorted, 10, RowScore());
    Take(sorted, 10)
  }

  /** Every row on the leaderboard is the row of a registered (non-guest) user. */
  lemma LeaderboardRowsAreMembers(users: seq<Record>, waterLogs: seq<Record>, carbonLogs: seq<Record>, row: Row)
    requires row in Leaderboard(users, waterLogs, carbonLogs)
    ensures row.user in users && !PropTruthy(row.user, "isGuest")
    ensures row == RowOf(row.user, waterLogs, carbonLogs)
  {
    var all := Standings(users, waterLogs, carbonLogs);
    var sorted := SortDescending(all, RowScore());
    PrefixMember(Leaderboard(users, waterLogs, carbonLogs), sorted, row);
    PermutationMember(sorted, all, row);
    var i :| 0 <= i < |all| && all[i] == row;
    var members := Filter(users, NotGuest());
    FilterMembers(users, NotGuest(), members[i]);
  }

  /**
   * What the page renders for a leaderboard row: a stored registered user's
   * own fields, overridden by the score, the rounded savings and the badges
   * computed from that user's logs.
   */
  lemma LeaderboardEntry(users: seq<Record>, waterLogs: seq<Record>, carbonLogs: seq<Record>, row: Row)
    requires row in Leaderboard(users, waterLogs, carbonLogs)
    ensures row.user in users && !PropTruthy(row.user, "isGuest")
    ensures
      var saved := WaterSaved(Total(ForUser(waterLogs, Prop(row.user, "uid")), "liters"));
      var reduced := CarbonReduced(Total(ForUser(carbonLogs, Prop(row.user, "uid")), "co2kg"));
      var shown := row.AsRecord();
      shown["ecoScore"] == FNum(LeaderScore(saved, reduced) as real) &&
      shown["waterSaved"] == FNum(Round(saved) as real) &&
      shown["carbonReduced"] == FNum(Round(reduced) as real) &&
      |shown["badges"].elems| == |LeaderBadges(saved, reduced, LeaderScore(saved, reduced))|
    ensures forall k :: k in row.user && k !in {"ecoScore", "waterSaved", "carbonReduced", "badges"} ==>
      row.AsRecord()[k] == row.user[k]
  {
    LeaderboardRowsAreMembers(users, waterLogs, carbonLogs, row);
  }

  /** No row left off the leaderboard scores more than any row on it. */
  lemma LeaderboardIsTop(users: seq<Record>, waterLogs: seq<Record>, carbonLogs: seq<Record>, row: Row)
    requires row in Standings(users, waterLogs, carbonLogs) && row !in Leaderboard(users, waterLogs, carbonLogs)
    ensures forall i :: 0 <= i < |Leaderboard(users, waterLogs, carbonLogs)| ==>
      row.ecoScore <= Leaderboard(users, waterLogs, carbonLogs)[i].ecoScore
  {
    var all := Standings(users, waterLogs, carbonLogs);
    var top := Leaderboard(users, waterLogs, carbonLogs);
    AbsentFromSortedPrefixIsBelow(all, SortDescending(all, RowScore()), top, row, RowScore());
  }

  // ---------------------------------------------------------------------------
  // Posts

  /** `(a, b) => new Date(b.createdAt) - new Date(a.createdAt)`, with postTime the parse of a valid date. */
  function PostKey(postTime: string -> int): Record -> int {
    (p: Record) => postTime(CreatedAt(p))
  }

  /** The feed, newest first: the same posts, ordered by creation time. */
  function NewestFirst(posts: seq<Record>, postTime: string -> int): (r: seq<Record>)
    ensures multiset(r) == multiset(posts)
    ensures forall i, j :: 0 <= i < j < |r| ==> postTime(CreatedAt(r[i])) >= postTime(CreatedAt(r[j]))
  {
    var r := SortDescending(posts, PostKey(postTime));
    assert forall i, j :: 0 <= i < j < |r| ==> PostKey(postTime)(r[i]) >= PostKey(postTime)(r[j]);
    r
  }

  /** The characters String.prototype.trim removes: white space and line terminators. */
  predicate IsJsWhitespace(c: char) {
    c == ' ' || c == '\t' || c == '\n' || c == '\r' || c == '\U{000B}' || c == '\U{000C}'
    || c == '\U{00A0}' || c == '\U{1680}' || ('\U{2000}' <= c <= '\U{200A}')
    || c == '\U{2028}' || c == '\U{2029}' || c == '\U{202F}' || c == '\U{205F}'
    || c == '\U{3000}' || c == '\U{FEFF}'
  }

  /** `!text.trim()`: the text is empty or white space only. */
  predicate Blank(text: string) {
    forall i :: 0 <= i < |text| ==> IsJsWhitespace(text[i])
  }

  /** `a || b` on two properties of a record; None when the result is `undefined`. */
  function Either(rec: Record, a: string, b: string): (r: Option<Field>)
    ensures PropTruthy(rec, a) ==> r == Some(rec[a])
    ensures !PropTruthy(rec, a) ==> r == Prop(rec, b)
  {
    if PropTruthy(rec, a) then Some(rec[a]) else Prop(rec, b)
  }

  /** The record with key k set to v, or without k when v is `undefined` (JSON.stringify drops it). */
  function WithOptional(rec: Record, k: string, v: Option<Field>): (r: Record)
    ensures v.Some? ==> r == rec[k := v.value]
    ensures v.None? ==> r == rec - {k}
  {
    if v.Some? then rec[k := v.value] else rec - {k}
  }

  /** The post handlePostSubmit builds; the text is kept untrimmed. */
  function NewPost(user: Record, content: string, stamp: string): (p: Record)
    ensures {"content", "avatar", "likes", "comments", "timestamp"} <= p.Keys
    ensures p["content"] == FStr(content) && p["avatar"] == FStr("🌱")
    ensures p["likes"] == FNum(0.0) && p["comments"] == FNum(0.0) && p["timestamp"] == FStr(stamp)
    ensures Prop(p, "author") == Either(user, "displayName", "email")
    ensures Prop(p, "userId") == Prop(user, "uid")
    ensures p.Keys <= {"author", "content", "avatar", "likes", "comments", "userId", "timestamp"}
  {
    var fixed := map["content" := FStr(content), "avatar" := FStr("🌱"), "likes" := FNum(0.0),
                     "comments" := FNum(0.0), "timestamp" := FStr(stamp)];
    WithOptional(WithOptional(fixed, "author", Either(user, "displayName", "email")), "userId", Prop(user, "uid"))
  }

  /**
   * `(post.likes || 0) + 1` for a numeric or falsy like count. A stored
   * non-numeric count is taken as 0.
   */
  function Liked(post: Record): (r: Record)
    ensures r.Keys == post.Keys + {"likes"}
    ensures r["likes"] == FNum(Amount(post, "likes") + 1.0)
    ensures forall k :: k in post && k != "likes" ==> r[k] == post[k]
  {
    post["likes" := FNum(Amount(post, "likes") + 1.0)]
  }

  // ---------------------------------------------------------------------------
  // Relative time on posts

  /** The page's own formatTimeAgo: minutes under an hour, hours under a day, days from then on. */
  function PostTimeAgo(diffMs: int): (r: Ago)
    ensures r.MinutesAgo? <==> diffMs < HourMs
    ensures r.HoursAgo? <==> HourMs <= diffMs < DayMs
    ensures r.DaysAgo? <==> diffMs >= DayMs
    ensures r.MinutesAgo? ==> r.n * MinuteMs <= diffMs < (r.n + 1) * MinuteMs
    ensures r.HoursAgo? ==> r.n * HourMs <= diffMs < (r.n + 1) * HourMs && 1 <= r.n < 24
    ensures r.DaysAgo? ==> r.n * DayMs <= diffMs < (r.n + 1) * DayMs && r.n >= 1
  {
    var diffMins := diffMs / MinuteMs;
    var diffHours := diffMs / HourMs;
    var diffDays := diffMs / DayMs;
    if diffMins < 60 then MinutesAgo(diffMins)
    else if diffHours < 24 then HoursAgo(diffHours)
    else DaysAgo(diffDays)
  }

  /** From a minute to a week, the page's text agrees with the shared helper's. */
  lemma PostTimeAgoAgrees(diffMs: int)
    requires MinuteMs <= diffMs < WeekMs
    ensures PostTimeAgo(diffMs) == TimeAgo(diffMs)
  {
  }

  /** Under a minute the page shows "0m ago" where the shared helper says "just now". */
  lemma PostTimeAgoUnderAMinute(diffMs: int)
    requires 0 <= diffMs < MinuteMs
    ensures PostTimeAgo(diffMs) == MinutesAgo(0)
    ensures AgoText(PostTimeAgo(diffMs)) == Some("0m ago")
    ensures AgoText(TimeAgo(diffMs)) == Some("just now")
  {
    assert IntText(0) == "0";
    assert CountText(0, "m ago") == "0m ago";
  }

  // ---------------------------------------------------------------------------
  // The page

  /** The page state: the rendered leaderboard and feed, and the text being composed. */
  class CommunityPage {
    var leaderboard: seq<Row>
    var posts: seq<Record>
    var newPost: string

    constructor ()
      ensures leaderboard == [] && posts == [] && newPost == ""
    {
      leaderboard, posts, newPost := [], [], "";
    }

    /** Typing in the composer. */
    method SetNewPost(text: string)
      modifies this
      ensures newPost == text
      ensures leaderboard == old(leaderboard) && posts == old(posts)
    {
      newPost := text;
    }

    /**
     * `loadCommunityData()`. The stored leaderboard collection it reads is
     * discarded. The leaderboard is set once users and logs read as arrays;
     * the feed is then set if the posts do. A value that is not an array
     * makes the call reject at that point, leaving the rest as it was.
     */
    method Load(store: Store.LocalStorageService, postTime: string -> int)
      modifies this
      ensures newPost == old(newPost)
      ensures
        var users := store.Docs("users");
        var water := store.Docs("waterLogs");
        var carbon := store.Docs("carbonLogs");
        var stored := store.Docs("communityPosts");
        (users.Some? && water.Some? && carbon.Some? ==>
          leaderboard == Leaderboard(users.value, water.value, carbon.value) &&
          (stored.Some? ==> posts == NewestFirst(stored.value, postTime)) &&
          (stored.None? ==> posts == old(posts))) &&
        (!(users.Some? && water.Some? && carbon.Some?) ==>
          leaderboard == old(leaderboard) && posts == old(posts))
    {
      var users := store.Docs("users");
      var water := store.Docs("waterLogs");
      var carbon := store.Docs("carbonLogs");
      if users.None? || water.None? || carbon.None? {
        return;
      }
      leaderboard := Leaderboard(users.value, water.value, carbon.value);
      var stored := store.Docs("communityPosts");
      if stored.None? {
        return;
      }
      posts := NewestFirst(stored.value, postTime);
    }

    /**
     * `handlePostSubmit()`: with a non-blank text and a signed-in user,
     * appends the post to communityPosts and clears the composer. The page
     * then reloads, which is the separate Load call. The post's own
     * timestamp (`postStamp`) and addDoc's creation stamp (`stamp`) are two
     * clock readings, so they may differ.
     */
    method HandlePostSubmit(store: Store.LocalStorageService, currentUser: Option<Record>, freshId: string,
                            postStamp: string, stamp: string)
      returns (r: Option<Store.Result<Record>>, ghost written: bool)
      modifies this, store
      ensures leaderboard == old(leaderboard) && posts == old(posts)
      ensures Blank(old(newPost)) || currentUser.None? ==>
        r.None? && newPost == old(newPost) && store.storage == old(store.storage)
      ensures !Blank(old(newPost)) && currentUser.Some? && old(store.Docs("communityPosts")).None? ==>
        r == Some(Store.Err(Store.TypeError)) && newPost == old(newPost) && store.storage == old(store.storage)
      ensures !Blank(old(newPost)) && currentUser.Some? && old(store.Docs("communityPosts")).Some? ==>
        var post := Store.NewDoc(NewPost(currentUser.value, old(newPost), postStamp), freshId, stamp);
        r == Some(Store.Ok(post)) && newPost == "" &&
        store.storage == Store.Written(old(store.storage), Store.Prefix + "communityPosts",
                                       Store.Encode(old(store.Docs("communityPosts")).value + [post]), written)
    {
      if Blank(newPost) || currentUser.None? {
        r, written := None, false;
        return;
      }
      var post := NewPost(currentUser.value, newPost, postStamp);
      var added;
      added, written := store.AddDoc("communityPosts", post, freshId, stamp);
      r := Some(added);
      if added.Ok? {
        newPost := "";
      }
    }

    /**
     * `handleLike(index)`: writes the shown post back with one more like,
     * through updateDoc on its id. The page then reloads (Load).
     */
    method HandleLike(store: Store.LocalStorageService, index: nat, stamp: string)
      returns (r: Store.Result<Option<Record>>, ghost written: bool)
      requires index < |posts|
      modifies store
      ensures
        var items := old(store.Docs("communityPosts"));
        var id := Prop(posts[index], "id");
        (items.None? ==> r == Store.Err(Store.TypeError) && store.storage == old(store.storage)) &&
        (items.Some? && FirstIndex(items.value, Store.IdIs(id)).None? ==>
          r == Store.Ok(None) && store.storage == old(store.storage)) &&
        (items.Some? && FirstIndex(items.value, Store.IdIs(id)).Some? ==>
          var i := FirstIndex(items.value, Store.IdIs(id)).value;
          var updated := Store.Overlay(items.value[i], Liked(posts[index]), stamp);
          r == Store.Ok(Some(updated)) &&
          store.storage == Store.Written(old(store.storage), Store.Prefix + "communityPosts",
                                         Store.Encode(items.value[i := updated]), written))
    {
      var post := posts[index];
      r, written := store.UpdateDoc("communityPosts", Prop(post, "id"), Liked(post), stamp);
    }
  }

  /** A like written back over the stored post it was shown from raises its count by exactly one. */
  lemma LikeAddsOne(stored: Record, stamp: string)
    ensures Store.Overlay(stored, Liked(stored), stamp)["likes"] == FNum(Amount(stored, "likes") + 1.0)
    ensures forall k :: k in stored && k != "likes" && k != "updatedAt" ==>
      Store.Overlay(stored, Liked(stored), stamp)[k] == stored[k]
  {
  }
}
