/**
 * The Profile page (src/pages/Profile.jsx): the all-time statistics of the
 * signed-in user, the score colour table and saving the edited profile.
 */
module Profile {
  import opened Values
  import opened Seqs
  import opened Logs
  import Store

  // ---------------------------------------------------------------------------
  // Statistics (loadUserStats)

  /** `Math.min(100, Math.max(0, Math.round(saved / target * 100)))`: the share of the target saved, in percent. */
  function PercentScore(saved: real, target: real): (r: int)
    requires target > 0.0
    ensures 0 <= r <= 100
    ensures saved >= target ==> r == 100
    ensures saved <= 0.0 ==> r == 0
  {
    var share := saved / target;
    assert saved >= target ==> share >= 1.0;
    assert saved <= 0.0 ==> share <= 0.0;
    Clamp(Round(share * 100.0), 0, 100)
  }

  /** The calendar days (None for an invalid date) on which the logs were created. */
  function DaySet(logs: seq<Record>, dayOf: string -> Option<int>): (r: set<Option<int>>)
    ensures forall i :: 0 <= i < |logs| ==> dayOf(CreatedAt(logs[i])) in r
    ensures forall d :: d in r ==> exists i :: 0 <= i < |logs| && dayOf(CreatedAt(logs[i])) == d
  {
    if logs == [] then {}
    else
      var rest := DaySet(logs[1..], dayOf);
      assert forall i :: 1 <= i < |logs| ==> logs[i] == logs[1..][i - 1];
      {dayOf(CreatedAt(logs[0]))} + rest
  }

  /** There are never more active days than logs. */
  lemma {:induction false} DaySetBound(logs: seq<Record>, dayOf: string -> Option<int>)
    ensures |DaySet(logs, dayOf)| <= |logs|
  {
    if logs != [] {
      DaySetBound(logs[1..], dayOf);
      assert DaySet(logs, dayOf) == {dayOf(CreatedAt(logs[0]))} + DaySet(logs[1..], dayOf);
    }
  }

  /** `new Set(logs.map(log => new Date(log.createdAt).toDateString())).size` */
  function DaysActive(logs: seq<Record>, dayOf: string -> Option<int>): (r: nat)
    ensures r <= |logs|
    ensures r == 0 <==> logs == []
  {
    DaySetBound(logs, dayOf);
    assert logs != [] ==> dayOf(CreatedAt(logs[0])) in DaySet(logs, dayOf);
    |DaySet(logs, dayOf)|
  }

  /** The profile's badges, in this order: Water Saver, Carbon Neutral, Eco Hero, Consistent Tracker. */
  function ProfileBadges(waterSaved: real, carbonReduced: real, ecoScore: int, daysActive: nat): (r: seq<Badge>)
    ensures InBadgeOrder(r)
    ensures WaterSaver in r <==> waterSaved > 200.0
    ensures CarbonNeutral in r <==> carbonReduced > 15.0
    ensures EcoHero in r <==> ecoScore > 80
    ensures ConsistentTracker in r <==> daysActive >= 7
  {
    (if waterSaved > 200.0 then [WaterSaver] else [])
    + (if carbonReduced > 15.0 then [CarbonNeutral] else [])
    + (if ecoScore > 80 then [EcoHero] else [])
    + (if daysActive >= 7 then [ConsistentTracker] else [])
  }

  datatype ProfileStats = ProfileStats(
    ecoScore: int, waterScore: int, carbonScore: int,
    totalWaterSaved: int, totalCarbonReduced: int,
    badges: seq<Badge>, daysActive: nat)

  /**
   * `loadUserStats()` for the user with this uid: savings against the
   * weekly targets over all of the user's logs, each as a percentage, the
   * eco score as their rounded mean, the distinct days of activity and the
   * badges. Badges test the unrounded savings.
   */
  function UserStats(waterLogs: seq<Record>, carbonLogs: seq<Record>, uid: Option<Field>, dayOf: string -> Option<int>): (s: ProfileStats)
    ensures 0 <= s.waterScore <= 100 && 0 <= s.carbonScore <= 100 && 0 <= s.ecoScore <= 100
    ensures s.totalWaterSaved >= 0 && s.totalCarbonReduced >= 0
    ensures
      var saved := WaterSaved(Total(ForUser(waterLogs, uid), "liters"));
      var reduced := CarbonReduced(Total(ForUser(carbonLogs, uid), "co2kg"));
      s.waterScore == PercentScore(saved, WeeklyWaterTarget) &&
      s.carbonScore == PercentScore(reduced, WeeklyCarbonTarget) &&
      s.totalWaterSaved == Round(saved) && s.totalCarbonReduced == Round(reduced) &&
      s.badges == ProfileBadges(saved, reduced, s.ecoScore, s.daysActive)
    ensures s.daysActive == DaysActive(ForUser(waterLogs, uid) + ForUser(carbonLogs, uid), dayOf)
    ensures s.daysActive <= |ForUser(waterLogs, uid)| + |ForUser(carbonLogs, uid)|
    ensures 2 * s.ecoScore - 1 <= s.waterScore + s.carbonScore < 2 * s.ecoScore + 1
  {
    var mine := ForUser(waterLogs, uid);
    var ours := ForUser(carbonLogs, uid);
    var saved := WaterSaved(Total(mine, "liters"));
    var reduced := CarbonReduced(Total(ours, "co2kg"));
    var waterScore := PercentScore(saved, WeeklyWaterTarget);
    var carbonScore := PercentScore(reduced, WeeklyCarbonTarget);
    var ecoScore := Round((waterScore + carbonScore) as real / 2.0);
    RoundWithin((waterScore + carbonScore) as real / 2.0, 0, 100);
    RoundMonotone(0.0, saved);
    RoundMonotone(0.0, reduced);
    RoundOfInt(0);
    var days := DaysActive(mine + ours, dayOf);
    ProfileStats(ecoScore, waterScore, carbonScore, Round(saved), Round(reduced),
                 ProfileBadges(saved, reduced, ecoScore, days), days)
  }

  /** A user without logs has full scores, no active days, and every badge but Consistent Tracker. */
  lemma StatsWithoutLogs(waterLogs: seq<Record>, carbonLogs: seq<Record>, uid: Option<Field>, dayOf: string -> Option<int>)
    requires ForUser(waterLogs, uid) == [] && ForUser(carbonLogs, uid) == []
    ensures UserStats(waterLogs, carbonLogs, uid, dayOf).waterScore == 100
    ensures UserStats(waterLogs, carbonLogs, uid, dayOf).carbonScore == 100
    ensures UserStats(waterLogs, carbonLogs, uid, dayOf).ecoScore == 100
    ensures UserStats(waterLogs, carbonLogs, uid, dayOf).daysActive == 0
    ensures UserStats(waterLogs, carbonLogs, uid, dayOf).badges == [WaterSaver, CarbonNeutral, EcoHero]
  {
    RoundOfInt(100);
  }

  /** Other users' logs, wherever they are stored, do not change anyone's statistics. */
  lemma StatsIgnoreOtherUsers(water: seq<Record>, carbon: seq<Record>, otherWater: seq<Record>, otherCarbon: seq<Record>,
                              uid: Option<Field>, dayOf: string -> Option<int>)
    requires forall i :: 0 <= i < |otherWater| ==> !OwnedBy(otherWater[i], uid)
    requires forall i :: 0 <= i < |otherCarbon| ==> !OwnedBy(otherCarbon[i], uid)
    ensures UserStats(water + otherWater, carbon + otherCarbon, uid, dayOf) == UserStats(water, carbon, uid, dayOf)
  {
    ForUserIgnoresOthers(water, otherWater, [], uid);
    ForUserIgnoresOthers(carbon, otherCarbon, [], uid);
    assert water + otherWater + [] == water + otherWater && water + [] == water;
    assert carbon + otherCarbon + [] == carbon + otherCarbon && carbon + [] == carbon;
    assert ForUser(water + otherWater, uid) == ForUser(water, uid);
    assert ForUser(carbon + otherCarbon, uid) == ForUser(carbon, uid);
  }

  /** Consistent Tracker takes at least seven of the user's logs. */
  lemma ConsistentTrackerNeedsSevenLogs(waterLogs: seq<Record>, carbonLogs: seq<Record>, uid: Option<Field>, dayOf: string -> Option<int>)
    requires ConsistentTracker in UserStats(waterLogs, carbonLogs, uid, dayOf).badges
    ensures |ForUser(waterLogs, uid)| + |ForUser(carbonLogs, uid)| >= 7
  {
  }

  // ---------------------------------------------------------------------------
  // Score colour (getScoreColor)

  datatype ScoreColor = Excellent | Good | NeedsImprovement
  {
    function Label(): string {
      match this
      case Excellent => "Excellent"
      case Good => "Good"
      case NeedsImprovement => "Needs Improvement"
    }

    function Color(): string {
      match this
      case Excellent => "text-green-600"
      case Good => "text-orange-600"
      case NeedsImprovement => "text-red-600"
    }
  }

  /** `getScoreColor(score)`: 70 and above Excellent, 40 to 70 Good, below 40 Needs Improvement. */
  function ScoreColorOf(score: real): (r: ScoreColor)
    ensures r == Excellent <==> score >= 70.0
    ensures r == Good <==> 40.0 <= score < 70.0
    ensures r == NeedsImprovement <==> score < 40.0
  {
    if score >= 70.0 then Excellent
    else if score >= 40.0 then Good
    else NeedsImprovement
  }

  // ---------------------------------------------------------------------------
  // Saving the profile (handleSave)

  const SavedMessage: string := "Profile updated successfully! ✓"
  const FailedMessage: string := "Failed to update profile. Please try again."

  /** `u => u.uid === uid` */
  function UidIs(uid: Option<Field>): Record -> bool {
    (u: Record) => StrictEquals(Prop(u, "uid"), uid)
  }

  /** `{ ...user, displayName, email, updatedAt }` */
  function Edited(user: Record, displayName: string, email: string, stamp: string): (r: Record)
    ensures r.Keys == user.Keys + {"displayName", "email", "updatedAt"}
    ensures r["displayName"] == FStr(displayName) && r["email"] == FStr(email) && r["updatedAt"] == FStr(stamp)
    ensures forall k :: k in user && k !in {"displayName", "email", "updatedAt"} ==> r[k] == user[k]
  {
    user["displayName" := FStr(displayName)]["email" := FStr(email)]["updatedAt" := FStr(stamp)]
  }

  /** The part of the page handleSave changes. */
  class ProfilePage {
    var isEditing: bool
    var saveMessage: string

    constructor ()
      ensures !isEditing && saveMessage == ""
    {
      isEditing, saveMessage := false, "";
    }

    /** `handleEdit()` */
    method HandleEdit()
      modifies this
      ensures isEditing && saveMessage == ""
    {
      isEditing, saveMessage := true, "";
    }

    /**
     * `handleSave()` with the form's displayName and email: rewrites the
     * first user with the signed-in uid, then the current user. When the
     * users value is not an array the error is caught and reported.
     */
    method HandleSave(store: Store.LocalStorageService, uid: Option<Field>, displayName: string, email: string, stamp: string)
      returns (ghost usersWritten: bool, ghost currentWritten: bool)
      modifies this, store
      ensures old(store.Docs("users")).None? ==>
        store.storage == old(store.storage) && saveMessage == FailedMessage && isEditing == old(isEditing)
      ensures old(store.Docs("users")).Some? && FirstIndex(old(store.Docs("users")).value, UidIs(uid)).None? ==>
        store.storage == old(store.storage) && saveMessage == old(saveMessage) && isEditing == old(isEditing)
      ensures old(store.Docs("users")).Some? && FirstIndex(old(store.Docs("users")).value, UidIs(uid)).Some? ==>
        var users := old(store.Docs("users")).value;
        var i := FirstIndex(users, UidIs(uid)).value;
        var user := Edited(users[i], displayName, email, stamp);
        store.storage == Store.Written(Store.Written(old(store.storage), Store.Prefix + "users", Store.Encode(users[i := user]), usersWritten),
                                       Store.Prefix + "currentUser", FObj(user), currentWritten) &&
        saveMessage == SavedMessage && !isEditing
    {
      var users := store.Docs("users");
      if users.None? {
        usersWritten, currentWritten := false, false;
        saveMessage := FailedMessage;
        return;
      }
      var index := FirstIndex(users.value, UidIs(uid));
      if index.None? {
        usersWritten, currentWritten := false, false;
        return;
      }
      var user := Edited(users.value[index.value], displayName, email, stamp);
      usersWritten := store.SetItem("users", Store.Encode(users.value[index.value := user]));
      currentWritten := store.SetItem("currentUser", FObj(user));
      saveMessage := SavedMessage;
      isEditing := false;
    }
  }
}
