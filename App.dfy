/** The application shell (App.tsx): the signed-in user, the current screen,
    the active lesson, the upgrade dialog, and the activity rule that turns a
    finished quiz into progress, a completed topic, a score and a streak. */
module App {
  import opened Types
  import opened Numbers
  import opened Seqs
  import opened FirebaseService
  import PlansView
  import UpgradeModal

  /** Whether an activity at `now` starts a new calendar day. `dayOf` stands for
      the local calendar day of a timestamp; a last activity of timestamp 0
      reads as no last activity at all. */
  predicate IsNewDay(lastActive: Option<int>, now: int, dayOf: int -> int): (b: bool)
    ensures lastActive == None || lastActive == Some(0) ==> b
    ensures lastActive.Some? && lastActive.value != 0 ==> (b <==> dayOf(lastActive.value) != dayOf(now))
    ensures lastActive == Some(now) && now != 0 ==> !b
  {
    match lastActive
    case None => true
    case Some(t) => t == 0 || dayOf(t) != dayOf(now)
  }

  /** The profile after an activity on `topic` scored `score` at `now`. */
  function UpdatedProfile(user: UserProfile, topic: string, difficulty: DifficultyLevel,
                          score: nat, masteryOnly: bool, now: int, dayOf: int -> int): (u: UserProfile)
    ensures u.learningProgress == Min(100, user.learningProgress + (if masteryOnly then 2 else 5))
    ensures u.learningProgress <= 100
    ensures NoDuplicates(u.completedTopics) && topic in u.completedTopics
    ensures forall t :: t in u.completedTopics <==> t in user.completedTopics || t == topic
    ensures NoDuplicates(user.completedTopics) ==>
      u.completedTopics ==
        if topic in user.completedTopics then user.completedTopics else user.completedTopics + [topic]
    ensures u.quizScores == user.quizScores + [QuizScoreRecord(topic, score, now, difficulty)]
    ensures IsNewDay(user.lastActiveDate, now, dayOf) ==> u.streak == user.streak + 1
    ensures !IsNewDay(user.lastActiveDate, now, dayOf) ==>
      u.streak == if user.streak == 0 then 1 else user.streak
    ensures u.lastActiveDate == Some(now)
    ensures u.email == user.email && u.tier == user.tier
  {
    DedupAppend(user.completedTopics, topic);
    var newDay := IsNewDay(user.lastActiveDate, now, dayOf);
    user.(
      learningProgress := Min(100, user.learningProgress + (if masteryOnly then 2 else 5)),
      completedTopics := Dedup(user.completedTopics + [topic]),
      quizScores := user.quizScores + [QuizScoreRecord(topic, score, now, difficulty)],
      streak := if newDay then user.streak + 1 else if user.streak == 0 then 1 else user.streak,
      lastActiveDate := Some(now))
  }

  /** A second activity on the same calendar day leaves the streak where the
      first one put it, and the streak is at least 1 after any activity. */
  lemma SameDayKeepsStreak(user: UserProfile, topic: string, topic2: string, difficulty: DifficultyLevel,
                           score: nat, score2: nat, mastery: bool, mastery2: bool,
                           now: int, later: int, dayOf: int -> int)
    requires now != 0 && dayOf(later) == dayOf(now)
    ensures var first := UpdatedProfile(user, topic, difficulty, score, mastery, now, dayOf);
      first.streak >= 1 &&
      UpdatedProfile(first, topic2, difficulty, score2, mastery2, later, dayOf).streak == first.streak
  {
  }

  /** Progress after `k` activities from `p` when each adds `step`, capped at
      100 after every one: the same as adding all steps at once and capping
      once, unless nothing happened. */
  function ProgressAfter(p: nat, step: nat, k: nat): (r: nat)
    ensures k == 0 ==> r == p
    ensures k > 0 ==> r == Min(100, p + k * step)
  {
    if k == 0 then p
    else
      assert (k - 1) * step + step == k * step;
      Min(100, ProgressAfter(p, step, k - 1) + step)
  }

  /** Twenty quizzes from no progress reach exactly 100, and more change nothing. */
  lemma {:induction false} ProgressSaturates(k: nat)
    ensures k <= 20 ==> ProgressAfter(0, 5, k) == 5 * k
    ensures k >= 20 ==> ProgressAfter(0, 5, k) == 100
  {
    if k > 0 {
      ProgressSaturates(k - 1);
    }
  }

  class AppState {
    var currentScreen: AppScreen
    var user: Option<UserProfile>
    var error: Option<string>
    var activeLesson: Option<LessonContent>
    var activeDifficulty: DifficultyLevel
    var showUpgrade: bool
    var targetTier: SubscriptionTier
    const auth: MockAuth

    /** The app's user, the service's signed-in user and the storage slot agree. */
    ghost predicate Synced()
      reads this, auth, auth.store
    {
      auth.currentUser == user && auth.store.user == user
    }

    constructor (auth: MockAuth)
      ensures this.auth == auth
      ensures currentScreen == Landing && user == None && error == None
      ensures activeLesson == None && activeDifficulty == Beginner
      ensures !showUpgrade && targetTier == Premium
    {
      this.auth := auth;
      currentScreen := Landing;
      user := None;
      error := None;
      activeLesson := None;
      activeDifficulty := Beginner;
      showUpgrade := false;
      targetTier := Premium;
    }

    /** Registers from the register and landing screens, signs in from any
        other, then shows the dashboard. */
    method HandleAuth(email: string, pass: string)
      modifies this, auth, auth.store
      ensures old(currentScreen) == Register || old(currentScreen) == Landing ==>
        user == Some(DefaultProfile(email))
      ensures old(currentScreen) != Register && old(currentScreen) != Landing ==>
        user == Some(if old(auth.store.user).Some? then old(auth.store.user).value else DefaultProfile(email))
      ensures currentScreen == Dashboard && error == None && Synced()
      ensures activeLesson == old(activeLesson) && activeDifficulty == old(activeDifficulty)
      ensures showUpgrade == old(showUpgrade) && targetTier == old(targetTier)
    {
      error := None;
      var loggedUser;
      if currentScreen == Register || currentScreen == Landing {
        loggedUser := auth.Register(email, pass);
      } else {
        loggedUser := auth.Login(email, pass);
      }
      user := Some(loggedUser);
      currentScreen := Dashboard;
    }

    method HandleLogout()
      modifies this, auth, auth.store
      ensures user == None && activeLesson == None && currentScreen == Landing && Synced()
      ensures error == old(error) && activeDifficulty == old(activeDifficulty)
      ensures showUpgrade == old(showUpgrade) && targetTier == old(targetTier)
    {
      auth.Logout();
      user := None;
      currentScreen := Landing;
      activeLesson := None;
    }

    /** `generated` is what the lesson generator returned, `None` when it failed. */
    method StartLearning(topic: string, level: DifficultyLevel, generated: Option<LessonContent>)
      modifies this
      ensures activeDifficulty == level
      ensures generated.Some? ==> activeLesson == generated && currentScreen == Learning
      ensures generated.None? ==> activeLesson == old(activeLesson) && currentScreen == old(currentScreen)
      ensures user == old(user) && error == old(error)
      ensures showUpgrade == old(showUpgrade) && targetTier == old(targetTier)
    {
      activeDifficulty := level;
      if generated.Some? {
        activeLesson := generated;
        currentScreen := Learning;
      }
    }

    /** Records an activity on the active lesson into the app's user and the
        storage slot; without a user or a lesson it does nothing. The service's
        `currentUser` is left as it was. */
    method RecordActivity(score: nat, isMasteryOnly: bool, now: int, dayOf: int -> int)
      modifies this, auth.store
      ensures old(user).None? || old(activeLesson).None? ==>
        user == old(user) && auth.store.user == old(auth.store.user)
      ensures old(user).Some? && old(activeLesson).Some? ==>
        user == Some(UpdatedProfile(old(user).value, old(activeLesson).value.topic, old(activeDifficulty),
                                    score, isMasteryOnly, now, dayOf)) &&
        auth.store.user == user
      ensures currentScreen == old(currentScreen) && error == old(error)
      ensures activeLesson == old(activeLesson) && activeDifficulty == old(activeDifficulty)
      ensures showUpgrade == old(showUpgrade) && targetTier == old(targetTier)
    {
      if user.None? || activeLesson.None? {
        return;
      }
      var updated := UpdatedProfile(user.value, activeLesson.value.topic, activeDifficulty,
                                    score, isMasteryOnly, now, dayOf);
      user := Some(updated);
      auth.store.user := Some(updated);
    }

    /** The quiz's final score, with the full progress step, recorded as the
        app does it: the service's signed-in user keeps the profile from
        before the quiz. */
    method CompleteLesson(score: nat, now: int, dayOf: int -> int)
      modifies this, auth.store
      ensures old(user).Some? && old(activeLesson).Some? ==>
        user == Some(UpdatedProfile(old(user).value, old(activeLesson).value.topic, old(activeDifficulty),
                                    score, false, now, dayOf)) &&
        auth.store.user == user
      ensures old(user).None? || old(activeLesson).None? ==>
        user == old(user) && auth.store.user == old(auth.store.user)
      ensures auth.currentUser == old(auth.currentUser)
      ensures currentScreen == old(currentScreen) && error == old(error)
      ensures activeLesson == old(activeLesson) && activeDifficulty == old(activeDifficulty)
      ensures showUpgrade == old(showUpgrade) && targetTier == old(targetTier)
    {
      RecordActivity(score, false, now, dayOf);
    }

    /** A mastery mark, recorded as the app does it: score 100 and the small
        progress step; the topic argument is ignored in favour of the active
        lesson's, and the service's signed-in user is left as it was. */
    method MarkMastery(topic: string, now: int, dayOf: int -> int)
      modifies this, auth.store
      ensures old(user).Some? && old(activeLesson).Some? ==>
        user == Some(UpdatedProfile(old(user).value, old(activeLesson).value.topic, old(activeDifficulty),
                                    100, true, now, dayOf)) &&
        auth.store.user == user
      ensures old(user).None? || old(activeLesson).None? ==>
        user == old(user) && auth.store.user == old(auth.store.user)
      ensures auth.currentUser == old(auth.currentUser)
      ensures currentScreen == old(currentScreen) && error == old(error)
      ensures activeLesson == old(activeLesson) && activeDifficulty == old(activeDifficulty)
      ensures showUpgrade == old(showUpgrade) && targetTier == old(targetTier)
    {
      RecordActivity(100, true, now, dayOf);
    }

    /** `CompleteLesson` through the corrected recording: app, service and
        storage keep agreeing. */
    method CompleteLessonSynced(score: nat, now: int, dayOf: int -> int)
      modifies this, auth, auth.store
      ensures old(user).Some? && old(activeLesson).Some? ==>
        user == Some(UpdatedProfile(old(user).value, old(activeLesson).value.topic, old(activeDifficulty),
                                    score, false, now, dayOf)) &&
        auth.store.user == user && auth.currentUser == user
      ensures old(user).None? || old(activeLesson).None? ==>
        user == old(user) && auth.currentUser == old(auth.currentUser) && auth.store.user == old(auth.store.user)
      ensures old(Synced()) ==> Synced()
      ensures currentScreen == old(currentScreen) && error == old(error)
      ensures activeLesson == old(activeLesson) && activeDifficulty == old(activeDifficulty)
      ensures showUpgrade == old(showUpgrade) && targetTier == old(targetTier)
    {
      RecordActivitySynced(score, false, now, dayOf);
    }

    /** `MarkMastery` through the corrected recording. */
    method MarkMasterySynced(topic: string, now: int, dayOf: int -> int)
      modifies this, auth, auth.store
      ensures old(user).Some? && old(activeLesson).Some? ==>
        user == Some(UpdatedProfile(old(user).value, old(activeLesson).value.topic, old(activeDifficulty),
                                    100, true, now, dayOf)) &&
        auth.store.user == user && auth.currentUser == user
      ensures old(user).None? || old(activeLesson).None? ==>
        user == old(user) && auth.currentUser == old(auth.currentUser) && auth.store.user == old(auth.store.user)
      ensures old(Synced()) ==> Synced()
      ensures currentScreen == old(currentScreen) && error == old(error)
      ensures activeLesson == old(activeLesson) && activeDifficulty == old(activeDifficulty)
      ensures showUpgrade == old(showUpgrade) && targetTier == old(targetTier)
    {
      RecordActivitySynced(100, true, now, dayOf);
    }

    /** The dialog's payment confirmation: the service upgrades its signed-in
        user, which becomes the app's user; on failure nothing changes. */
    method HandleUpgrade(tier: SubscriptionTier)
      modifies this, auth, auth.store
      ensures old(auth.currentUser).Some? ==>
        user == Some(old(auth.currentUser).value.(tier := tier)) && !showUpgrade && Synced()
      ensures old(auth.currentUser).None? ==>
        user == old(user) && showUpgrade == old(showUpgrade) &&
        auth.currentUser == None && auth.store.user == old(auth.store.user)
      ensures old(Synced()) ==> Synced()
      ensures old(Synced()) && old(user).Some? ==> user == Some(old(user).value.(tier := tier))
      ensures currentScreen == old(currentScreen) && activeLesson == old(activeLesson)
      ensures targetTier == old(targetTier) && error == old(error) && activeDifficulty == old(activeDifficulty)
    {
      var r := auth.UpgradeTier(tier);
      if r.Ok? {
        user := Some(r.value);
        showUpgrade := false;
      }
    }

    method TriggerUpgrade(tier: SubscriptionTier)
      modifies this
      ensures targetTier == tier && showUpgrade
      ensures user == old(user) && currentScreen == old(currentScreen) && activeLesson == old(activeLesson)
      ensures error == old(error) && activeDifficulty == old(activeDifficulty)
    {
      targetTier := tier;
      showUpgrade := true;
    }

    method CloseUpgrade()
      modifies this
      ensures !showUpgrade && targetTier == old(targetTier)
      ensures user == old(user) && currentScreen == old(currentScreen) && activeLesson == old(activeLesson)
      ensures error == old(error) && activeDifficulty == old(activeDifficulty)
    {
      showUpgrade := false;
    }

    /** RecordActivity as it evidently should be: the updated profile also
        becomes the service's signed-in user, so the three copies stay equal. */
    method RecordActivitySynced(score: nat, isMasteryOnly: bool, now: int, dayOf: int -> int)
      modifies this, auth, auth.store
      ensures old(user).None? || old(activeLesson).None? ==>
        user == old(user) && auth.currentUser == old(auth.currentUser) && auth.store.user == old(auth.store.user)
      ensures old(user).Some? && old(activeLesson).Some? ==>
        user == Some(UpdatedProfile(old(user).value, old(activeLesson).value.topic, old(activeDifficulty),
                                    score, isMasteryOnly, now, dayOf)) &&
        auth.store.user == user && auth.currentUser == user
      ensures old(Synced()) ==> Synced()
      ensures currentScreen == old(currentScreen) && error == old(error)
      ensures activeLesson == old(activeLesson) && activeDifficulty == old(activeDifficulty)
      ensures showUpgrade == old(showUpgrade) && targetTier == old(targetTier)
    {
      if user.None? || activeLesson.None? {
        return;
      }
      var updated := UpdatedProfile(user.value, activeLesson.value.topic, activeDifficulty,
                                    score, isMasteryOnly, now, dayOf);
      user := Some(updated);
      auth.store.user := Some(updated);
      auth.currentUser := Some(updated);
    }
  }

  function SampleLesson(): LessonContent
  {
    LessonContent("Jazz History", "# Origins", [], [QuizQuestion("Where?", ["New Orleans"], "New Orleans")], [])
  }

  /** Register, pay for PREMIUM (which opens the exam), finish the exam with
      80, then pay for PRO from the locked listen tab: the exam's score is gone
      from the profile the second upgrade leaves behind. */
  method UpgradeAfterQuizLosesScore() returns (scoresBefore: nat, scoresAfter: nat, tierAfter: SubscriptionTier)
    ensures scoresBefore == 1 && scoresAfter == 0 && tierAfter == Pro
  {
    var store := new LocalStore(None);
    var auth := new MockAuth(store);
    var app := new AppState(auth);
    app.HandleAuth("learner@example.com", "secret");
    app.TriggerUpgrade(Premium);
    app.HandleUpgrade(Premium);
    app.StartLearning("Jazz History", Beginner, Some(SampleLesson()));
    app.CompleteLesson(80, 1700000000000, t => t / 86400000);
    scoresBefore := |app.user.value.quizScores|;
    app.TriggerUpgrade(Pro);
    app.HandleUpgrade(Pro);
    scoresAfter := |app.user.value.quizScores|;
    tierAfter := app.user.value.tier;
  }

  /** The same steps with the exam recorded the synced way keep the score
      through the second upgrade. */
  method UpgradeAfterQuizKeepsScore() returns (scoresBefore: nat, scoresAfter: nat, tierAfter: SubscriptionTier)
    ensures scoresBefore == 1 && scoresAfter == 1 && tierAfter == Pro
  {
    var store := new LocalStore(None);
    var auth := new MockAuth(store);
    var app := new AppState(auth);
    app.HandleAuth("learner@example.com", "secret");
    app.TriggerUpgrade(Premium);
    app.HandleUpgrade(Premium);
    app.StartLearning("Jazz History", Beginner, Some(SampleLesson()));
    app.CompleteLessonSynced(80, 1700000000000, t => t / 86400000);
    scoresBefore := |app.user.value.quizScores|;
    app.TriggerUpgrade(Pro);
    app.HandleUpgrade(Pro);
    scoresAfter := |app.user.value.quizScores|;
    tierAfter := app.user.value.tier;
  }

  /** A PREMIUM learner whose FREE plan card opens the dialog, as the plans page
      would if it were rendered: confirming the dialog passes FREE to the
      payment handler, which sets the tier to FREE. */
  method DowngradeThroughDialogSetsFree() returns (tierBefore: SubscriptionTier, tierAfter: SubscriptionTier)
    ensures tierBefore == Premium && tierAfter == Free
  {
    var store := new LocalStore(None);
    var auth := new MockAuth(store);
    var app := new AppState(auth);
    app.HandleAuth("learner@example.com", "secret");
    app.TriggerUpgrade(Premium);
    app.HandleUpgrade(Premium);
    tierBefore := app.user.value.tier;
    var request := PlansView.Click(PlansView.Cards(tierBefore)[0]);
    app.TriggerUpgrade(request.value);
    var modal := new UpgradeModal.Modal(app.targetTier);
    var link := modal.HandlePlanSelection(UpgradeModal.Monthly);
    var upgrade := modal.ConfirmPayment();
    app.HandleUpgrade(upgrade.value);
    tierAfter := app.user.value.tier;
  }
}
