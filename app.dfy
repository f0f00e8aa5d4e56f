/** The application state container of App.tsx: the profile, history, feed and water state the
    component keeps, the mapping of fetched rows into that state when the session changes, and
    the handlers that update it optimistically before (or without waiting for) the backend.
    Every backend call is returned by the handler that issues it as a `RemoteCall` value; an
    answer the handler waits for is a parameter, and an answer that arrives later (the id of a
    shared post) is a separate method, so other handlers can run in between. */
module App {
  import opened Types
  import opened DailyLog

  // ================================================================ rows and calls

  datatype Session = Session(userId: string)

  datatype Tab = DashboardTab | ScanTab | PlannerTab | CommunityTab | InsightsTab

  /** A `profiles` row; a column the backend did not fill is `None`. */
  datatype ProfileRow = ProfileRow(
    id: string,
    name: Option<string>,
    scan_count: Option<int>,
    daily_scan_count: Option<int>,
    last_scan_date: Option<string>,
    is_pro: Option<bool>,
    dietary_preference: Option<string>,
    activity_level: Option<string>,
    calories_goal: Option<int>,
    primary_objective: Option<string>,
    weight: Option<int>,
    height: Option<int>,
    age: Option<int>)

  /** A `nutrition_history` row; `created_at` is already parsed to milliseconds. */
  datatype HistoryRow = HistoryRow(
    calories: int,
    protein: int,
    carbs: int,
    fat: int,
    verdict: string,
    health_score: int,
    scanned_image: Option<string>,
    motivation: string,
    nutrients: Option<seq<string>>,
    created_at: int,
    health_benefits: Option<seq<string>>,
    harmful_warnings: Option<seq<string>>,
    nova_score: Option<int>,
    is_ultra_processed: Option<bool>)

  /** A `community_posts` row. */
  datatype PostRow = PostRow(
    id: string,
    user_id: string,
    user_name: string,
    user_avatar: string,
    image_url: string,
    caption: string,
    likes: Option<int>,
    created_at: int,
    nutrition_summary: Option<NutritionSummary>)

  /** A `water_logs` row. */
  datatype WaterRow = WaterRow(log_date: string, amount: int)

  /** The columns a meal log inserts into `nutrition_history`. */
  datatype HistoryInsert = HistoryInsert(
    user_id: string,
    calories: int,
    protein: int,
    carbs: int,
    fat: int,
    verdict: string,
    health_score: int,
    scanned_image: Option<string>,
    motivation: string,
    nutrients: seq<string>)

  /** The columns a share inserts into `community_posts`. */
  datatype PostInsert = PostInsert(
    user_id: string,
    user_name: string,
    user_avatar: string,
    image_url: Option<string>,
    caption: string,
    likes: int,
    nutrition_summary: NutritionSummary)

  /** A request a handler sends to the backend. */
  datatype RemoteCall =
    | InsertWaterLog(userId: string, amount: int)
    | UpdateScanCounters(userId: string, scanCount: int, dailyScanCount: int, lastScanDate: string)
    | InsertHistory(historyRow: HistoryInsert)
    | InsertPost(postRow: PostInsert)
    | UpdateLikes(postId: string, likes: int)
    | DeletePostRow(postId: string)
    | UpsertProfile(profileRow: ProfileRow)

  /** The answer to a post insert: the row the server created, or an error (for instance a
      missing `community_posts` table). */
  datatype InsertOutcome = Confirmed(serverId: string) | Failed

  /** A share whose insert is still in flight. */
  datatype PendingShare = PendingShare(tempId: string, insert: RemoteCall)

  /** What the four fetches of the sync returned (`None` is a null `data`), and how many of the
      four stages (profile, history, posts, water) completed before an exception, if any. */
  datatype SyncFetch = SyncFetch(
    profile: Option<ProfileRow>,
    history: Option<seq<HistoryRow>>,
    posts: Option<seq<PostRow>>,
    water: Option<seq<WaterRow>>,
    stagesBeforeThrow: nat)

  // ================================================================ profile mapping

  const DefaultDiet := "No Preference"
  const DefaultActivity := "Moderately Active"
  const DefaultCaloriesGoal := 2000
  const ProteinGoal := 150
  const CarbsGoal := 200
  const FatGoal := 70
  const WaterGoalMl := 2500
  const DefaultObjective := "Weight Loss"
  const DefaultWeight := 70
  const DefaultHeight := 175
  const DefaultAge := 25

  /** The profile the sync builds from a `profiles` row (App.tsx:79-97). */
  function ProfileFromRow(row: ProfileRow, today: string): (p: UserProfile)
    ensures p.id == row.id
    ensures p.onboarded <==> p.name != ""
    ensures p.onboarded <==> row.name.Some? && row.name.value != ""
    ensures row.last_scan_date != Some(today) ==> p.daily_scan_count == 0
    ensures row.last_scan_date == Some(today) && row.daily_scan_count.None? ==> p.daily_scan_count == 0
    ensures forall n :: row.last_scan_date == Some(today) && row.daily_scan_count == Some(n) ==> p.daily_scan_count == n
    ensures row.last_scan_date.None? ==> p.last_scan_date == today
    ensures p.goals.protein == ProteinGoal && p.goals.carbs == CarbsGoal && p.goals.fat == FatGoal
    ensures p.goals.water_ml == WaterGoalMl
    ensures row.calories_goal.None? ==> p.goals.calories == DefaultCaloriesGoal
    ensures p.goals.calories != 0
    ensures forall c :: row.calories_goal == Some(c) && c != 0 ==> p.goals.calories == c
    ensures row.weight.None? ==> p.stats.weight == DefaultWeight
    ensures row.height.None? ==> p.stats.height == DefaultHeight
    ensures row.age.None? ==> p.stats.age == DefaultAge
    ensures row.is_pro.None? ==> !p.is_pro
  {
    var isNewDay := row.last_scan_date != Some(today);
    UserProfile(
      id := row.id,
      name := StringOr(row.name, ""),
      onboarded := row.name.Some? && row.name.value != "",
      scan_count := IntOr(row.scan_count, 0),
      daily_scan_count := if isNewDay then 0 else IntOr(row.daily_scan_count, 0),
      last_scan_date := StringOr(row.last_scan_date, today),
      is_pro := BoolOr(row.is_pro, false),
      dietary_preference := StringOr(row.dietary_preference, DefaultDiet),
      activity_level := StringOr(row.activity_level, DefaultActivity),
      goals := Goals(
        calories := IntOr(row.calories_goal, DefaultCaloriesGoal),
        protein := ProteinGoal, carbs := CarbsGoal, fat := FatGoal, water_ml := WaterGoalMl,
        primary_objective := StringOr(row.primary_objective, DefaultObjective)),
      stats := Stats(
        weight := IntOr(row.weight, DefaultWeight),
        height := IntOr(row.height, DefaultHeight),
        age := IntOr(row.age, DefaultAge)))
  }

  /** A history entry from a `nutrition_history` row (App.tsx:108-118): missing lists become
      empty, a missing NOVA score 0, and the creation time becomes the timestamp. */
  function HistoryFromRow(h: HistoryRow): (d: NutritionData)
    ensures d.timestamp == Some(h.created_at)
    ensures d.calories == h.calories && d.protein == h.protein && d.carbs == h.carbs && d.fat == h.fat
    ensures h.nutrients.None? ==> d.key_nutrients == []
    ensures h.health_benefits.None? ==> d.health_benefits == []
    ensures h.harmful_warnings.None? ==> d.harmful_warnings == []
    ensures h.nova_score.None? ==> d.nova_score == 0
    ensures d.better_alternatives.None?
  {
    NutritionData(
      calories := h.calories, protein := h.protein, carbs := h.carbs, fat := h.fat,
      health_benefits := if h.health_benefits.Some? then h.health_benefits.value else [],
      harmful_warnings := if h.harmful_warnings.Some? then h.harmful_warnings.value else [],
      nova_score := IntOr(h.nova_score, 0),
      is_ultra_processed := BoolOr(h.is_ultra_processed, false),
      motivation := h.motivation,
      scanned_image := h.scanned_image,
      verdict := h.verdict,
      health_score := h.health_score,
      key_nutrients := if h.nutrients.Some? then h.nutrients.value else [],
      better_alternatives := None,
      timestamp := Some(h.created_at))
  }

  /** A feed post from a `community_posts` row (App.tsx:128-133). */
  function PostFromRow(p: PostRow): (post: Post)
    ensures post.id == p.id && post.timestamp == CreatedAt(p.created_at)
    ensures p.likes.None? ==> post.likes == 0
    ensures post.likes == IntOr(p.likes, 0)
  {
    Post(p.id, p.user_id, p.user_name, p.user_avatar, p.image_url, p.caption,
         IntOr(p.likes, 0), CreatedAt(p.created_at), p.nutrition_summary)
  }

  function MapHistory(rows: seq<HistoryRow>): (h: seq<NutritionData>)
    ensures |h| == |rows| && forall i :: 0 <= i < |rows| ==> h[i] == HistoryFromRow(rows[i])
  {
    seq(|rows|, i requires 0 <= i < |rows| => HistoryFromRow(rows[i]))
  }

  function MapPosts(rows: seq<PostRow>): (p: seq<Post>)
    ensures |p| == |rows| && forall i :: 0 <= i < |rows| ==> p[i] == PostFromRow(rows[i])
  {
    seq(|rows|, i requires 0 <= i < |rows| => PostFromRow(rows[i]))
  }

  // ================================================================ water

  /** The number of rows dated `todayISO`. */
  function CountToday(rows: seq<WaterRow>, todayISO: string): nat
  {
    if rows == [] then 0
    else (if rows[0].log_date == todayISO then 1 else 0) + CountToday(rows[1..], todayISO)
  }

  /** The rows the water query selects: those logged on `todayISO`, each once and in order. */
  function TodayRows(rows: seq<WaterRow>, todayISO: string): (t: seq<WaterRow>)
    ensures |t| == CountToday(rows, todayISO)
    ensures IsSubsequence(t, rows)
    ensures forall w :: w in t <==> w in rows && w.log_date == todayISO
  {
    if rows == [] then []
    else if rows[0].log_date == todayISO then [rows[0]] + TodayRows(rows[1..], todayISO)
    else TodayRows(rows[1..], todayISO)
  }

  /** `water.reduce((sum, w) => sum + w.amount, 0)`. */
  function WaterTotal(rows: seq<WaterRow>): int
  {
    if rows == [] then 0 else rows[0].amount + WaterTotal(rows[1..])
  }

  /** Logging `amount` today raises the total a later sync reads by exactly `amount`, the same
      step `handleAddWater` applies optimistically; a row of another day changes nothing. */
  lemma {:induction false} WaterTotalAppend(rows: seq<WaterRow>, w: WaterRow, todayISO: string)
    ensures WaterTotal(TodayRows(rows + [w], todayISO)) ==
            WaterTotal(TodayRows(rows, todayISO)) + (if w.log_date == todayISO then w.amount else 0)
    decreases |rows|
  {
    if rows == [] {
      assert rows + [w] == [w];
    } else {
      assert (rows + [w])[0] == rows[0];
      assert (rows + [w])[1..] == rows[1..] + [w];
      WaterTotalAppend(rows[1..], w, todayISO);
    }
  }

  // ================================================================ scan gate and counters

  const FreeDailyScans := 3

  /** `canUserScan` (App.tsx:210-215); with no user loaded, `user?.last_scan_date` is
      undefined, which differs from today. */
  function CanUserScan(user: Option<UserProfile>, today: string): bool
  {
    if user.Some? && user.value.is_pro then true
    else if user.None? || user.value.last_scan_date != today then true
    else user.value.daily_scan_count < FreeDailyScans
  }

  /** The counters `handleScanComplete` stores after a scan (App.tsx:224-235). */
  function RecordScan(p: UserProfile, today: string): (q: UserProfile)
    ensures q.scan_count == p.scan_count + 1
    ensures q.last_scan_date == today
    ensures p.last_scan_date != today ==> q.daily_scan_count == 1
    ensures p.last_scan_date == today ==> q.daily_scan_count == p.daily_scan_count + 1
    ensures q.(scan_count := p.scan_count, daily_scan_count := p.daily_scan_count,
               last_scan_date := p.last_scan_date) == p
  {
    var currentDaily := if p.last_scan_date == today then p.daily_scan_count else 0;
    p.(scan_count := p.scan_count + 1, daily_scan_count := currentDaily + 1, last_scan_date := today)
  }

  /** `n` completed scans on the same day. */
  function ScanTimes(p: UserProfile, today: string, n: nat): UserProfile
  {
    if n == 0 then p else RecordScan(ScanTimes(p, today, n - 1), today)
  }

  /** After `n >= 1` scans today the daily counter counts them on top of today's earlier
      scans, or from zero on a new day; the lifetime counter always grows by `n`. */
  lemma {:induction false} ScanTimesCounters(p: UserProfile, today: string, n: nat)
    ensures ScanTimes(p, today, n).scan_count == p.scan_count + n
    ensures n >= 1 ==> ScanTimes(p, today, n).last_scan_date == today
    ensures n >= 1 ==> ScanTimes(p, today, n).daily_scan_count ==
                       (if p.last_scan_date == today then p.daily_scan_count else 0) + n
    ensures ScanTimes(p, today, n).is_pro == p.is_pro
  {
    if n > 0 {
      ScanTimesCounters(p, today, n - 1);
    }
  }

  /** The free tier: a free user who has scanned `k` times today may scan again iff `k < 3`;
      on a new day the gate is open whatever the stored count, and after `n` scans that day
      it is open iff `n < 3`. Pro users are never stopped. */
  lemma {:induction false} FreeTierGate(p: UserProfile, today: string, n: nat)
    ensures p.is_pro ==> CanUserScan(Some(ScanTimes(p, today, n)), today)
    ensures !p.is_pro && p.last_scan_date == today ==>
              (CanUserScan(Some(ScanTimes(p, today, n)), today) <==> p.daily_scan_count + n < FreeDailyScans)
    ensures !p.is_pro && p.last_scan_date != today ==>
              (CanUserScan(Some(ScanTimes(p, today, n)), today) <==> n < FreeDailyScans)
  {
    ScanTimesCounters(p, today, n);
  }

  /** A profile loaded on a day other than its last scan day may always scan. */
  lemma LoadedProfileMayScanOnNewDay(row: ProfileRow, today: string)
    requires row.last_scan_date != Some(today)
    ensures CanUserScan(Some(ProfileFromRow(row, today)), today)
  {
  }

  // ================================================================ history

  /** `currentCals`: calories logged on `today` (App.tsx:159-164). */
  function CurrentCals(history: seq<NutritionData>, today: int, dayOf: int -> int): int
  {
    DayTotal(history, today, dayOf, Calories)
  }

  /** The row a meal log inserts: the scan's values, its nutrients or an empty list. */
  function HistoryInsertOf(userId: string, d: NutritionData): (h: HistoryInsert)
    ensures h.user_id == userId && h.calories == d.calories && h.verdict == d.verdict
    ensures h.protein == d.protein && h.carbs == d.carbs && h.fat == d.fat
    ensures h.health_score == d.health_score && h.scanned_image == d.scanned_image
    ensures h.motivation == d.motivation && h.nutrients == d.key_nutrients
  {
    HistoryInsert(userId, d.calories, d.protein, d.carbs, d.fat, d.verdict, d.health_score,
                  d.scanned_image, d.motivation, d.key_nutrients)
  }

  /** Logging a meal at `now`, a non-zero time on day `today`, raises `currentCals` by exactly
      the meal's calories; a meal logged on another day leaves it unchanged. */
  lemma LoggedMealCounts(meal: NutritionData, now: int, history: seq<NutritionData>, today: int, dayOf: int -> int)
    requires now != 0
    ensures CurrentCals([meal.(timestamp := Some(now))] + history, today, dayOf) ==
            CurrentCals(history, today, dayOf) + (if dayOf(now) == today then meal.calories else 0)
  {
    DayTotalPrepend(meal.(timestamp := Some(now)), history, today, dayOf, Calories);
  }

  // ================================================================ community feed

  const TempPrefix := "temp-"

  /** An id not yet confirmed by the server. */
  predicate IsTempId(id: string)
  {
    TempPrefix <= id
  }

  /** `'temp-' + Date.now()`. */
  function TempId(now: nat): (id: string)
    ensures IsTempId(id) && |id| > |TempPrefix|
  {
    TempPrefix + DecimalString(now)
  }

  /** Shares made at different times get different temporary ids. */
  lemma TempIdInjective(t1: nat, t2: nat)
    requires TempId(t1) == TempId(t2)
    ensures t1 == t2
  {
    assert TempId(t1)[|TempPrefix|..] == DecimalString(t1);
    assert TempId(t2)[|TempPrefix|..] == DecimalString(t2);
    DecimalStringInjective(t1, t2);
  }

  function AvatarUrl(userId: string): string
  {
    "https://picsum.photos/seed/" + userId + "/100/100"
  }

  const FallbackAuthor := "Architect"

  /** The optimistic post of a share: a temporary id, no likes, posted "just now", with a
      summary copied from the scan. */
  function OptimisticPost(tempId: string, userId: string, user: UserProfile, scan: NutritionData, caption: string): (p: Post)
    ensures p.id == tempId && p.likes == 0 && p.timestamp == JustNow
    ensures p.nutrition_summary == Some(SummaryOf(scan))
    ensures p.user_id == userId && p.user_name != ""
  {
    Post(tempId, userId, StringOr(Some(user.name), FallbackAuthor), AvatarUrl(userId),
         StringOr(scan.scanned_image, ""), caption, 0, JustNow, Some(SummaryOf(scan)))
  }

  /** The row a share inserts; unlike the local post, a missing image stays missing. */
  function PostInsertOf(userId: string, user: UserProfile, scan: NutritionData, caption: string): PostInsert
  {
    PostInsert(userId, StringOr(Some(user.name), FallbackAuthor), AvatarUrl(userId),
               scan.scanned_image, caption, 0, SummaryOf(scan))
  }

  function ShareCaption(verdict: string): string
  {
    "Biometric scan complete: " + verdict + "! \U{1F957}"
  }

  function LogAndShareCaption(verdict: string): string
  {
    "Logged and shared! Verdict: " + verdict + " \U{1F9EC}"
  }

  /** How many posts carry `id`. */
  function CountId(posts: seq<Post>, id: string): nat
  {
    if posts == [] then 0 else (if posts[0].id == id then 1 else 0) + CountId(posts[1..], id)
  }

  lemma {:induction false} CountIdZero(posts: seq<Post>, id: string)
    ensures CountId(posts, id) == 0 <==> forall i :: 0 <= i < |posts| ==> posts[i].id != id
    decreases |posts|
  {
    if posts != [] {
      CountIdZero(posts[1..], id);
      assert forall i :: 1 <= i < |posts| ==> posts[i] == posts[1..][i - 1];
    }
  }

  /** `communityPosts.find(p => p.id === id)`. */
  function FindPost(posts: seq<Post>, id: string): (r: Option<Post>)
    ensures r.Some? ==> r.value.id == id
  {
    if posts == [] then None
    else if posts[0].id == id then Some(posts[0])
    else FindPost(posts[1..], id)
  }

  /** Nothing is found exactly when no post has the id; otherwise the post found is the
      first one with it. */
  lemma {:induction false} FindPostFirst(posts: seq<Post>, id: string)
    ensures FindPost(posts, id).None? <==> forall i :: 0 <= i < |posts| ==> posts[i].id != id
    ensures FindPost(posts, id).Some? ==>
              exists i :: 0 <= i < |posts| && posts[i] == FindPost(posts, id).value &&
                          forall j :: 0 <= j < i ==> posts[j].id != id
    decreases |posts|
  {
    if posts != [] && posts[0].id != id {
      FindPostFirst(posts[1..], id);
      assert forall i :: 1 <= i < |posts| ==> posts[i] == posts[1..][i - 1];
      if FindPost(posts, id).Some? {
        var i :| 0 <= i < |posts[1..]| && posts[1..][i] == FindPost(posts[1..], id).value &&
                 forall j :: 0 <= j < i ==> posts[1..][j].id != id;
        assert posts[i + 1] == FindPost(posts, id).value;
        assert forall j :: 0 <= j < i + 1 ==> posts[j].id != id by {
          forall j | 0 <= j < i + 1 ensures posts[j].id != id {
            if j > 0 { assert posts[j] == posts[1..][j - 1]; }
          }
        }
      }
    } else if posts != [] {
      assert posts[0] == FindPost(posts, id).value;
    }
  }

  /** The like update: every post with `id` gets `likes`, the rest stay as they were. */
  function SetLikes(posts: seq<Post>, id: string, likes: int): (r: seq<Post>)
    ensures |r| == |posts|
    ensures forall i :: 0 <= i < |posts| ==>
              r[i] == if posts[i].id == id then posts[i].(likes := likes) else posts[i]
  {
    if posts == [] then []
    else [if posts[0].id == id then posts[0].(likes := likes) else posts[0]] + SetLikes(posts[1..], id, likes)
  }

  /** The reconciliation: every post with the temporary id takes the server id and keeps all
      its other fields, likes included; the rest stay as they were. */
  function Reconcile(posts: seq<Post>, tempId: string, serverId: string): (r: seq<Post>)
    ensures |r| == |posts|
    ensures forall i :: 0 <= i < |posts| ==>
              r[i] == if posts[i].id == tempId then posts[i].(id := serverId) else posts[i]
  {
    if posts == [] then []
    else [if posts[0].id == tempId then posts[0].(id := serverId) else posts[0]] + Reconcile(posts[1..], tempId, serverId)
  }

  /** Two shares pending at once have different times, so the confirmation of one renames
      none of the other's posts. */
  lemma ReconcileSparesOtherShare(posts: seq<Post>, t1: nat, t2: nat, serverId: string)
    requires t1 != t2
    ensures forall i :: 0 <= i < |posts| && posts[i].id == TempId(t2) ==>
              Reconcile(posts, TempId(t1), serverId)[i] == posts[i]
  {
    if TempId(t1) == TempId(t2) {
      TempIdInjective(t1, t2);
    }
  }

  /** The delete: exactly the posts with `id` leave, the others keep their order. */
  function RemoveId(posts: seq<Post>, id: string): (r: seq<Post>)
    ensures forall p :: p in r <==> p in posts && p.id != id
    ensures |r| == |posts| - CountId(posts, id)
    ensures IsSubsequence(r, posts)
    ensures CountId(r, id) == 0
  {
    if posts == [] then []
    else if posts[0].id == id then RemoveId(posts[1..], id)
    else [posts[0]] + RemoveId(posts[1..], id)
  }

  /** After a confirmed insert no post keeps the temporary id, and the posts that had it are
      now counted under the server id. */
  lemma {:induction false} ReconcileCounts(posts: seq<Post>, tempId: string, serverId: string)
    requires tempId != serverId
    ensures CountId(Reconcile(posts, tempId, serverId), tempId) == 0
    ensures CountId(Reconcile(posts, tempId, serverId), serverId) == CountId(posts, serverId) + CountId(posts, tempId)
    decreases |posts|
  {
    if posts != [] {
      var r := Reconcile(posts, tempId, serverId);
      assert r[1..] == Reconcile(posts[1..], tempId, serverId);
      ReconcileCounts(posts[1..], tempId, serverId);
    }
  }

  /** A like given to the optimistic post before confirmation is found on the confirmed post
      afterwards: liking then reconciling equals reconciling then liking the server id. */
  lemma LikesSurviveReconcile(posts: seq<Post>, tempId: string, serverId: string, likes: int)
    requires CountId(posts, serverId) == 0
    ensures Reconcile(SetLikes(posts, tempId, likes), tempId, serverId) ==
            SetLikes(Reconcile(posts, tempId, serverId), serverId, likes)
  {
    CountIdZero(posts, serverId);
    var a := Reconcile(SetLikes(posts, tempId, likes), tempId, serverId);
    var b := SetLikes(Reconcile(posts, tempId, serverId), serverId, likes);
    assert forall i :: 0 <= i < |posts| ==> a[i] == b[i];
  }

  /** A confirmation that arrives after the optimistic post was deleted changes nothing. */
  lemma ReconcileAfterDelete(posts: seq<Post>, tempId: string, serverId: string)
    ensures Reconcile(RemoveId(posts, tempId), tempId, serverId) == RemoveId(posts, tempId)
  {
    var r := RemoveId(posts, tempId);
    CountIdZero(r, tempId);
  }

  /** The whole share protocol on one feed: the optimistic post is prepended, liked once
      while pending, then confirmed. Exactly one post carries the server id, it kept the like,
      no post keeps the temporary id and the older posts are untouched. */
  lemma ShareLikeConfirm(feed: seq<Post>, post: Post, serverId: string)
    requires post.likes == 0 && IsTempId(post.id) && !IsTempId(serverId)
    requires CountId(feed, post.id) == 0 && CountId(feed, serverId) == 0
    ensures var liked := SetLikes([post] + feed, post.id, 1);
            var confirmed := Reconcile(liked, post.id, serverId);
            && confirmed == [post.(id := serverId, likes := 1)] + feed
            && CountId(confirmed, serverId) == 1
            && CountId(confirmed, post.id) == 0
  {
    var liked := SetLikes([post] + feed, post.id, 1);
    var confirmed := Reconcile(liked, post.id, serverId);
    CountIdZero(feed, post.id);
    CountIdZero(feed, serverId);
    assert liked == [post.(likes := 1)] + feed;
    assert confirmed == [post.(id := serverId, likes := 1)] + feed;
    assert confirmed[1..] == feed;
  }

  // ================================================================ the state container

  class AppState {
    var session: Option<Session>
    var user: Option<UserProfile>
    var scanHistory: seq<NutritionData>
    var communityPosts: seq<Post>
    var waterIntake: int
    var isSyncing: bool
    var lastScanResult: Option<NutritionData>
    var showResultModal: bool
    var isScanningGlobal: bool
    var activeTab: Tab

    /** Signed out means no derived data is kept. */
    ghost predicate Valid()
      reads this
    {
      session.None? ==> user.None? && scanHistory == [] && communityPosts == [] && waterIntake == 0
    }

    /** The initial `useState` values; the sync is pending until the first session check. */
    constructor ()
      ensures Valid()
      ensures session.None? && user.None? && scanHistory == [] && communityPosts == []
      ensures waterIntake == 0 && isSyncing && lastScanResult.None?
      ensures !showResultModal && !isScanningGlobal && activeTab == DashboardTab
    {
      session := None;
      user := None;
      scanHistory := [];
      communityPosts := [];
      waterIntake := 0;
      isSyncing := true;
      lastScanResult := None;
      showResultModal := false;
      isScanningGlobal := false;
      activeTab := DashboardTab;
    }

    /** The session effect (App.tsx:57-157). Without a session all derived state is cleared.
        With one, each of the four stages that completes before an exception and returns data
        replaces its part of the state; a stage without data leaves it as it was. In every
        case the sync ends with `isSyncing` false. */
    method SessionChanged(s: Option<Session>, today: string, todayISO: string, fetched: SyncFetch)
      requires Valid()
      modifies this`session, this`user, this`scanHistory, this`communityPosts, this`waterIntake, this`isSyncing
      ensures Valid()
      ensures session == s && !isSyncing
      ensures s.None? ==> user.None? && scanHistory == [] && communityPosts == [] && waterIntake == 0
      ensures s.Some? ==>
        user == (if fetched.stagesBeforeThrow > 0 && fetched.profile.Some?
                 then Some(ProfileFromRow(fetched.profile.value, today)) else old(user))
      ensures s.Some? ==>
        scanHistory == (if fetched.stagesBeforeThrow > 1 && fetched.history.Some?
                        then MapHistory(fetched.history.value) else old(scanHistory))
      ensures s.Some? ==>
        communityPosts == (if fetched.stagesBeforeThrow > 2 && fetched.posts.Some?
                           then MapPosts(fetched.posts.value) else old(communityPosts))
      ensures s.Some? ==>
        waterIntake == (if fetched.stagesBeforeThrow > 3 && fetched.water.Some?
                        then WaterTotal(TodayRows(fetched.water.value, todayISO)) else old(waterIntake))
    {
      session := s;
      if s.None? {
        user := None;
        scanHistory := [];
        waterIntake := 0;
        communityPosts := [];
        isSyncing := false;
        return;
      }
      isSyncing := true;
      if fetched.stagesBeforeThrow > 0 && fetched.profile.Some? {
        user := Some(ProfileFromRow(fetched.profile.value, today));
      }
      if fetched.stagesBeforeThrow > 1 && fetched.history.Some? {
        scanHistory := MapHistory(fetched.history.value);
      }
      if fetched.stagesBeforeThrow > 2 && fetched.posts.Some? {
        communityPosts := MapPosts(fetched.posts.value);
      }
      if fetched.stagesBeforeThrow > 3 && fetched.water.Some? {
        waterIntake := WaterTotal(TodayRows(fetched.water.value, todayISO));
      }
      isSyncing := false;
    }

    /** `handleAddWater`: with a session, the total grows by exactly `amt` and a log row is
        inserted; without one nothing happens. */
    method AddWater(amt: int) returns (call: Option<RemoteCall>)
      requires Valid()
      modifies this`waterIntake
      ensures Valid()
      ensures session.None? ==> waterIntake == old(waterIntake) && call.None?
      ensures session.Some? ==> waterIntake == old(waterIntake) + amt
      ensures session.Some? ==> call == Some(InsertWaterLog(session.value.userId, amt))
    {
      if session.None? {
        return None;
      }
      waterIntake := waterIntake + amt;
      call := Some(InsertWaterLog(session.value.userId, amt));
    }

    /** `handleScanComplete`: shows the result and advances the scan counters locally whatever
        the backend update returns. Needs a session and a loaded profile. */
    method ScanComplete(data: NutritionData, today: string) returns (call: Option<RemoteCall>)
      requires Valid()
      modifies this`user, this`lastScanResult, this`isScanningGlobal, this`showResultModal
      ensures Valid()
      ensures (old(session).None? || old(user).None?) ==>
                call.None? && user == old(user) && lastScanResult == old(lastScanResult) &&
                isScanningGlobal == old(isScanningGlobal) && showResultModal == old(showResultModal)
      ensures session.Some? && old(user).Some? ==>
                && user == Some(RecordScan(old(user).value, today))
                && lastScanResult == Some(data) && !isScanningGlobal && showResultModal
                && call == Some(UpdateScanCounters(session.value.userId, user.value.scan_count,
                                                   user.value.daily_scan_count, today))
    {
      if session.None? || user.None? {
        return None;
      }
      lastScanResult := Some(data);
      isScanningGlobal := false;
      showResultModal := true;
      var next := RecordScan(user.value, today);
      call := Some(UpdateScanCounters(session.value.userId, next.scan_count, next.daily_scan_count, today));
      user := Some(next);
    }

    /** `logMeal`: the pending scan, stamped `now`, goes in front of the history; the rest of
        the history is kept in order. The insert's answer is only logged by the source, so no
        answer can take the entry back out. Without a pending scan or a session nothing
        changes. */
    method LogMeal(now: int) returns (call: Option<RemoteCall>)
      requires Valid()
      modifies this`scanHistory, this`lastScanResult, this`showResultModal, this`activeTab
      ensures Valid()
      ensures (old(lastScanResult).None? || session.None?) ==>
                call.None? && scanHistory == old(scanHistory) && lastScanResult == old(lastScanResult) &&
                showResultModal == old(showResultModal) && activeTab == old(activeTab)
      ensures old(lastScanResult).Some? && session.Some? ==>
                && scanHistory == [old(lastScanResult).value.(timestamp := Some(now))] + old(scanHistory)
                && lastScanResult.None? && !showResultModal && activeTab == DashboardTab
                && call == Some(InsertHistory(HistoryInsertOf(session.value.userId, old(lastScanResult).value)))
    {
      if lastScanResult.None? || session.None? {
        return None;
      }
      var scan := lastScanResult.value;
      scanHistory := [scan.(timestamp := Some(now))] + scanHistory;
      lastScanResult := None;
      showResultModal := false;
      activeTab := DashboardTab;
      call := Some(InsertHistory(HistoryInsertOf(session.value.userId, scan)));
    }

    /** `shareToCommunity`, up to the insert: one optimistic post with id `'temp-' + now` and
        no likes is prepended. The insert's answer is `ConfirmShare`. */
    method ShareToCommunity(now: nat) returns (pending: Option<PendingShare>)
      requires Valid()
      modifies this`communityPosts, this`lastScanResult, this`showResultModal, this`activeTab
      ensures Valid()
      ensures (old(lastScanResult).None? || user.None? || session.None?) ==>
                pending.None? && communityPosts == old(communityPosts) && lastScanResult == old(lastScanResult) &&
                showResultModal == old(showResultModal) && activeTab == old(activeTab)
      ensures old(lastScanResult).Some? && user.Some? && session.Some? ==>
                var scan := old(lastScanResult).value;
                var caption := ShareCaption(scan.verdict);
                && pending == Some(PendingShare(TempId(now),
                     InsertPost(PostInsertOf(session.value.userId, user.value, scan, caption))))
                && communityPosts == [OptimisticPost(TempId(now), session.value.userId, user.value, scan, caption)]
                                     + old(communityPosts)
                && lastScanResult.None? && !showResultModal && activeTab == CommunityTab
    {
      if lastScanResult.None? || user.None? || session.None? {
        return None;
      }
      var scan := lastScanResult.value;
      var tempId := TempId(now);
      var caption := ShareCaption(scan.verdict);
      var post := OptimisticPost(tempId, session.value.userId, user.value, scan, caption);
      communityPosts := [post] + communityPosts;
      lastScanResult := None;
      showResultModal := false;
      activeTab := CommunityTab;
      pending := Some(PendingShare(tempId, InsertPost(PostInsertOf(session.value.userId, user.value, scan, caption))));
    }

    /** The answer to a share's insert: on success every post still carrying the temporary id
        takes the server id and keeps everything else; on error the feed is left as it is. */
    method ConfirmShare(tempId: string, outcome: InsertOutcome)
      requires Valid()
      modifies this`communityPosts
      ensures Valid()
      ensures outcome.Failed? ==> communityPosts == old(communityPosts)
      ensures outcome.Confirmed? ==> communityPosts == Reconcile(old(communityPosts), tempId, outcome.serverId)
      ensures outcome.Confirmed? && tempId != outcome.serverId ==> CountId(communityPosts, tempId) == 0
    {
      if outcome.Confirmed? {
        communityPosts := Reconcile(communityPosts, tempId, outcome.serverId);
        if tempId != outcome.serverId {
          ReconcileCounts(old(communityPosts), tempId, outcome.serverId);
        }
      }
    }

    /** `logAndShareMeal`: the scan is logged and shared at once, both stamped `now`; the
        history insert and the post insert are sent without waiting. */
    method LogAndShareMeal(now: nat) returns (logCall: Option<RemoteCall>, pending: Option<PendingShare>)
      requires Valid()
      modifies this`scanHistory, this`communityPosts, this`lastScanResult, this`showResultModal, this`activeTab
      ensures Valid()
      ensures (old(lastScanResult).None? || user.None? || session.None?) ==>
                logCall.None? && pending.None? && scanHistory == old(scanHistory) &&
                communityPosts == old(communityPosts) && lastScanResult == old(lastScanResult) &&
                showResultModal == old(showResultModal) && activeTab == old(activeTab)
      ensures old(lastScanResult).Some? && user.Some? && session.Some? ==>
                var scan := old(lastScanResult).value;
                var caption := LogAndShareCaption(scan.verdict);
                && scanHistory == [scan.(timestamp := Some(now))] + old(scanHistory)
                && communityPosts == [OptimisticPost(TempId(now), session.value.userId, user.value, scan, caption)]
                                     + old(communityPosts)
                && logCall == Some(InsertHistory(HistoryInsertOf(session.value.userId, scan)))
                && pending == Some(PendingShare(TempId(now),
                     InsertPost(PostInsertOf(session.value.userId, user.value, scan, caption))))
                && lastScanResult.None? && !showResultModal && activeTab == CommunityTab
    {
      if lastScanResult.None? || user.None? || session.None? {
        return None, None;
      }
      var scan := lastScanResult.value;
      scanHistory := [scan.(timestamp := Some(now))] + scanHistory;
      var caption := LogAndShareCaption(scan.verdict);
      var tempId := TempId(now);
      communityPosts := [OptimisticPost(tempId, session.value.userId, user.value, scan, caption)] + communityPosts;
      logCall := Some(InsertHistory(HistoryInsertOf(session.value.userId, scan)));
      pending := Some(PendingShare(tempId, InsertPost(PostInsertOf(session.value.userId, user.value, scan, caption))));
      lastScanResult := None;
      showResultModal := false;
      activeTab := CommunityTab;
    }

    /** `handleLikePost`: an unknown id changes nothing. Otherwise every post with the id gets
        the first such post's likes plus one, and the backend is told only for a confirmed id. */
    method LikePost(postId: string) returns (call: Option<RemoteCall>)
      requires Valid()
      modifies this`communityPosts
      ensures Valid()
      ensures FindPost(old(communityPosts), postId).None? ==> communityPosts == old(communityPosts) && call.None?
      ensures FindPost(old(communityPosts), postId).Some? ==>
                var newLikes := FindPost(old(communityPosts), postId).value.likes + 1;
                && communityPosts == SetLikes(old(communityPosts), postId, newLikes)
                && call == (if IsTempId(postId) then None else Some(UpdateLikes(postId, newLikes)))
    {
      var posts := communityPosts;
      var post := FindPost(posts, postId);
      if post.None? {
        return None;
      }
      var newLikes := post.value.likes + 1;
      var liked := SetLikes(posts, postId, newLikes);
      communityPosts := liked;
      call := if IsTempId(postId) then None else Some(UpdateLikes(postId, newLikes));
    }

    /** `handleDeletePost`: once the user confirms, exactly the posts with the id leave the
        feed; the backend delete is sent only for a confirmed id. */
    method DeletePost(postId: string, userConfirms: bool) returns (call: Option<RemoteCall>)
      requires Valid()
      modifies this`communityPosts
      ensures Valid()
      ensures !userConfirms ==> communityPosts == old(communityPosts) && call.None?
      ensures userConfirms ==> communityPosts == RemoveId(old(communityPosts), postId)
      ensures userConfirms ==> call == (if IsTempId(postId) then None else Some(DeletePostRow(postId)))
    {
      if !userConfirms {
        return None;
      }
      communityPosts := RemoveId(communityPosts, postId);
      call := if IsTempId(postId) then None else Some(DeletePostRow(postId));
    }

    /** `handleOnboardingComplete`: upserts the wizard's profile and, when the backend accepts
        it, keeps that profile (marked onboarded) as the local user. */
    method OnboardingComplete(profile: UserProfile, upsertFailed: bool) returns (call: Option<RemoteCall>)
      requires Valid()
      modifies this`user
      ensures Valid()
      ensures session.None? ==> user == old(user) && call.None?
      ensures session.Some? ==> call == Some(UpsertProfile(OnboardingUpsert(session.value.userId, profile)))
      ensures session.Some? ==> user == if upsertFailed then old(user) else Some(profile.(onboarded := true))
    {
      if session.None? {
        return None;
      }
      call := Some(UpsertProfile(OnboardingUpsert(session.value.userId, profile)));
      if !upsertFailed {
        user := Some(profile.(onboarded := true));
      }
    }
  }

  // ================================================================ onboarding upsert

  /** The columns `handleOnboardingComplete` upserts; the others are absent. */
  function OnboardingUpsert(userId: string, p: UserProfile): ProfileRow
  {
    ProfileRow(
      id := userId, name := Some(p.name), scan_count := None, daily_scan_count := None,
      last_scan_date := None, is_pro := Some(false), dietary_preference := Some(p.dietary_preference),
      activity_level := Some(p.activity_level), calories_goal := Some(p.goals.calories),
      primary_objective := None, weight := Some(p.stats.weight), height := Some(p.stats.height),
      age := Some(p.stats.age))
  }

  function Pick<T>(upserted: Option<T>, stored: Option<T>): Option<T>
  {
    if upserted.Some? then upserted else stored
  }

  /** The stored row after an upsert: upserted columns replace stored ones, the rest stay. */
  function ApplyUpsert(stored: ProfileRow, upsert: ProfileRow): ProfileRow
  {
    ProfileRow(
      id := upsert.id,
      name := Pick(upsert.name, stored.name),
      scan_count := Pick(upsert.scan_count, stored.scan_count),
      daily_scan_count := Pick(upsert.daily_scan_count, stored.daily_scan_count),
      last_scan_date := Pick(upsert.last_scan_date, stored.last_scan_date),
      is_pro := Pick(upsert.is_pro, stored.is_pro),
      dietary_preference := Pick(upsert.dietary_preference, stored.dietary_preference),
      activity_level := Pick(upsert.activity_level, stored.activity_level),
      calories_goal := Pick(upsert.calories_goal, stored.calories_goal),
      primary_objective := Pick(upsert.primary_objective, stored.primary_objective),
      weight := Pick(upsert.weight, stored.weight),
      height := Pick(upsert.height, stored.height),
      age := Pick(upsert.age, stored.age))
  }
}
