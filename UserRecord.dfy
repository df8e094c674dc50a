/** The user record shared by the auth store and the pages. */
module UserRecord {
  import opened Wrappers

  datatype Notifications = Notifications(
    studyReminders: bool,
    breakReminders: bool,
    goalDeadlines: bool,
    weeklyReports: bool)

  datatype Preferences = Preferences(theme: string, notifications: Notifications)

  datatype User = User(
    id: string,
    email: string,
    name: string,
    avatar: Option<string>,
    joinDate: string,
    studyGoal: int,
    favoriteSubject: string,
    studyStreak: int,
    totalStudyTime: int,
    preferences: Preferences)

  /** The notification settings a new account gets, and Settings falls back to: all on but weekly reports. */
  function DefaultNotifications(): Notifications {
    Notifications(true, true, true, false)
  }

  /**
   * `currentUser?.id || '1'`: the id the pages file records under. No user and
   * an empty (falsy) id both fall back to "1".
   */
  function EffectiveUserId(user: Option<User>): (id: string)
    ensures id != ""
    ensures user.Some? && user.value.id != "" ==> id == user.value.id
    ensures (user.None? || user.value.id == "") ==> id == "1"
  {
    if user.Some? && user.value.id != "" then user.value.id else "1"
  }
}
