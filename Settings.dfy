/**
 * Helpers of the Settings page (and the navigation bar): the initials shown in
 * the avatar, the notification switches, and the profile and notification
 * values the page starts from.
 */
module Settings {
  import opened Wrappers
  import opened Text
  import opened UserRecord

  // ---- Initials ----

  /**
   * `pieces.map(n => n[0]).join('')`: the first character of each piece. An
   * empty piece gives `undefined`, which `join` writes as nothing.
   */
  function Heads(pieces: seq<string>): string {
    if pieces == [] then ""
    else (if pieces[0] == [] then "" else [pieces[0][0]]) + Heads(pieces[1..])
  }

  /** `getInitials`. */
  function Initials(name: string): string {
    ToUpper(Heads(Split(name, ' ')))
  }

  /**
   * The characters of `s` that start a word: not a space, and either preceded by a
   * space or, when `atStart` holds, at position 0.
   */
  function WordStarts(s: string, atStart: bool): (r: string)
    ensures forall k :: 0 <= k < |r| ==> r[k] != ' ' && r[k] in s
  {
    if s == [] then ""
    else (if s[0] != ' ' && atStart then [s[0]] else []) + WordStarts(s[1..], s[0] == ' ')
  }

  /** Splitting on single spaces and taking first characters picks exactly the word starts. */
  lemma {:induction false} HeadsOfSplit(s: string)
    ensures Heads(Split(s, ' ')) == WordStarts(s, true)
    ensures Heads(Split(s, ' ')[1..]) == WordStarts(s, false)
  {
    if s != [] {
      var rest := Split(s[1..], ' ');
      HeadsOfSplit(s[1..]);
      if s[0] == ' ' {
        assert Split(s, ' ') == [""] + rest;
        assert ([""] + rest)[1..] == rest;
      } else {
        var r := [[s[0]] + rest[0]] + rest[1..];
        assert Split(s, ' ') == r;
        assert r[1..] == rest[1..];
      }
    }
  }

  /** The initials are the upper-cased word starts: runs of spaces add nothing, and an empty name gives "". */
  lemma InitialsAreWordStarts(name: string)
    ensures Initials(name) == ToUpper(WordStarts(name, true))
    ensures |Initials(name)| <= |name|
    ensures forall k :: 0 <= k < |Initials(name)| ==> Initials(name)[k] != ' ' && !('a' <= Initials(name)[k] <= 'z')
  {
    HeadsOfSplit(name);
    var w := WordStarts(name, true);
    WordStartsShorter(name, true);
    forall k | 0 <= k < |w| ensures UpperChar(w[k]) != ' ' { }
  }

  lemma {:induction false} WordStartsShorter(s: string, atStart: bool)
    ensures |WordStarts(s, atStart)| <= |s|
  {
    if s != [] {
      WordStartsShorter(s[1..], s[0] == ' ');
    }
  }

  /** A sample with runs of spaces: " x  y" gives "XY". */
  lemma InitialsSample()
    ensures Initials(" x  y") == "XY"
  {
    assert "y"[1..] == "" && Split("", ' ') == [""];
    assert ['y'] + "" == "y";
    assert Split("y", ' ') == ["y"];
    assert " y"[1..] == "y";
    assert Split(" y", ' ') == ["", "y"];
    assert "  y"[1..] == " y";
    assert Split("  y", ' ') == ["", "", "y"];
    assert "x  y"[1..] == "  y";
    assert ['x'] + "" == "x";
    assert Split("x  y", ' ') == ["x", "", "y"];
    assert " x  y"[1..] == "x  y";
    assert Split(" x  y", ' ') == ["", "x", "", "y"];
    assert Heads(["", "x", "", "y"]) == "xy";
  }

  /** An empty name gives no initials. */
  lemma InitialsOfEmpty()
    ensures Initials("") == ""
  {
  }

  // ---- Notifications ----

  datatype NotificationKey = StudyReminders | BreakReminders | GoalDeadlines | WeeklyReports

  function Get(n: Notifications, key: NotificationKey): bool {
    match key
    case StudyReminders => n.studyReminders
    case BreakReminders => n.breakReminders
    case GoalDeadlines => n.goalDeadlines
    case WeeklyReports => n.weeklyReports
  }

  /** A switch's click: `{ ...prev, [key]: !enabled }`. */
  function Toggled(n: Notifications, key: NotificationKey): Notifications {
    match key
    case StudyReminders => n.(studyReminders := !n.studyReminders)
    case BreakReminders => n.(breakReminders := !n.breakReminders)
    case GoalDeadlines => n.(goalDeadlines := !n.goalDeadlines)
    case WeeklyReports => n.(weeklyReports := !n.weeklyReports)
  }

  /** A click flips its own switch and no other. */
  lemma ToggleFlipsOnlyKey(n: Notifications, key: NotificationKey, other: NotificationKey)
    ensures Get(Toggled(n, key), key) == !Get(n, key)
    ensures other != key ==> Get(Toggled(n, key), other) == Get(n, other)
  {
  }

  /** Two clicks on the same switch restore the settings. */
  lemma ToggleTwice(n: Notifications, key: NotificationKey)
    ensures Toggled(Toggled(n, key), key) == n
  {
  }

  /** `currentUser?.preferences.notifications || defaults`: a user's record, always present, wins. */
  function InitialNotifications(user: Option<User>): Notifications {
    if user.Some? then user.value.preferences.notifications else DefaultNotifications()
  }

  lemma InitialNotificationsChoice(user: Option<User>)
    ensures user.None? ==> InitialNotifications(user) == Notifications(true, true, true, false)
    ensures user.Some? ==> InitialNotifications(user) == user.value.preferences.notifications
  {
  }

  // ---- Profile ----

  datatype Profile = Profile(name: string, email: string, studyGoal: int, favoriteSubject: string)

  const DefaultName: string := "Aesthetic Learner"
  const DefaultEmail: string := "hello@aestheticstudy.com"
  const DefaultGoal: int := 4
  const DefaultSubject: string := "Mathematics"

  /** The profile form's first values: each user field, unless missing or falsy ("" or 0). */
  function InitialProfile(user: Option<User>): Profile {
    Profile(
      if user.Some? && user.value.name != "" then user.value.name else DefaultName,
      if user.Some? && user.value.email != "" then user.value.email else DefaultEmail,
      if user.Some? && user.value.studyGoal != 0 then user.value.studyGoal else DefaultGoal,
      if user.Some? && user.value.favoriteSubject != "" then user.value.favoriteSubject else DefaultSubject)
  }

  /** Each field falls back exactly when the user's value is falsy; a goal of 0 shows as 4. */
  lemma ProfileFallbacks(u: User)
    ensures InitialProfile(Some(u)).name == (if u.name == "" then "Aesthetic Learner" else u.name)
    ensures InitialProfile(Some(u)).email == (if u.email == "" then "hello@aestheticstudy.com" else u.email)
    ensures InitialProfile(Some(u)).studyGoal == (if u.studyGoal == 0 then 4 else u.studyGoal)
    ensures InitialProfile(Some(u)).favoriteSubject == (if u.favoriteSubject == "" then "Mathematics" else u.favoriteSubject)
    ensures InitialProfile(Some(u)).studyGoal != 0
    ensures InitialProfile(None) == Profile("Aesthetic Learner", "hello@aestheticstudy.com", 4, "Mathematics")
  {
  }
}
