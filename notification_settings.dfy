/** The notification preferences (components/settings/notification-settings.tsx):
    six switches initialised from the stored profile with `??` defaults, each
    switch writing its own key, and a save whose backend part is a stub. */
module NotificationSettings {
  import opened Common
  import opened Backend

  /** `profile.notifications`, each preference possibly missing (null or
      undefined). */
  datatype StoredNotifications = StoredNotifications(
    assignmentDue: Option<bool>, gradePosted: Option<bool>, discussionReply: Option<bool>,
    courseAnnouncement: Option<bool>, newMessage: Option<bool>, weeklySummary: Option<bool>)

  datatype Profile = Profile(notifications: Option<StoredNotifications>)

  /** The `notifications` state record. */
  datatype Preferences = Preferences(
    assignmentDue: bool, gradePosted: bool, discussionReply: bool,
    courseAnnouncement: bool, newMessage: bool, weeklySummary: bool)

  datatype Key = AssignmentDue | GradePosted | DiscussionReply | CourseAnnouncement | NewMessage | WeeklySummary

  const SavedToast := Toast("Notification settings saved", "Your notification preferences have been updated.", false)

  /** `value ?? fallback` */
  function Coalesce(value: Option<bool>, fallback: bool): (r: bool)
    ensures value.Some? ==> r == value.value
    ensures value.None? ==> r == fallback
  {
    if value.Some? then value.value else fallback
  }

  /** `profile?.notifications?.key ?? default` */
  function Stored(profile: Option<Profile>, key: Key): Option<bool> {
    if profile.None? || profile.value.notifications.None? then None
    else
      var n := profile.value.notifications.value;
      match key
      case AssignmentDue => n.assignmentDue
      case GradePosted => n.gradePosted
      case DiscussionReply => n.discussionReply
      case CourseAnnouncement => n.courseAnnouncement
      case NewMessage => n.newMessage
      case WeeklySummary => n.weeklySummary
  }

  /** The default of each key: on, except the weekly summary. */
  function Default(key: Key): bool {
    key != WeeklySummary
  }

  function Get(p: Preferences, key: Key): bool {
    match key
    case AssignmentDue => p.assignmentDue
    case GradePosted => p.gradePosted
    case DiscussionReply => p.discussionReply
    case CourseAnnouncement => p.courseAnnouncement
    case NewMessage => p.newMessage
    case WeeklySummary => p.weeklySummary
  }

  /** The initial record: a stored value wins, including an explicit false;
      a missing one falls back to the default. */
  function InitialPreferences(profile: Option<Profile>): (p: Preferences)
    ensures forall key :: Get(p, key) == Coalesce(Stored(profile, key), Default(key))
    ensures profile.None? ==> forall key :: Get(p, key) == (key != WeeklySummary)
  {
    Preferences(
      Coalesce(Stored(profile, AssignmentDue), true),
      Coalesce(Stored(profile, GradePosted), true),
      Coalesce(Stored(profile, DiscussionReply), true),
      Coalesce(Stored(profile, CourseAnnouncement), true),
      Coalesce(Stored(profile, NewMessage), true),
      Coalesce(Stored(profile, WeeklySummary), false))
  }

  /** `{ ...notifications, [key]: checked }`: the key takes the new value and
      every other key keeps its own. */
  function Toggle(p: Preferences, key: Key, checked: bool): (q: Preferences)
    ensures Get(q, key) == checked
    ensures forall other :: other != key ==> Get(q, other) == Get(p, other)
  {
    match key
    case AssignmentDue => p.(assignmentDue := checked)
    case GradePosted => p.(gradePosted := checked)
    case DiscussionReply => p.(discussionReply := checked)
    case CourseAnnouncement => p.(courseAnnouncement := checked)
    case NewMessage => p.(newMessage := checked)
    case WeeklySummary => p.(weeklySummary := checked)
  }

  /** The state key a switch names. */
  function KeyName(key: Key): string {
    match key
    case AssignmentDue => "assignment_due"
    case GradePosted => "grade_posted"
    case DiscussionReply => "discussion_reply"
    case CourseAnnouncement => "course_announcement"
    case NewMessage => "new_message"
    case WeeklySummary => "weekly_summary"
  }

  /** The `key` of each entry of `notificationOptions`, in display order. */
  const OptionKeys: seq<string> :=
    ["assignment_due", "grade_posted", "discussion_reply", "course_announcement", "new_message", "weekly_summary"]

  /** The option list names the six keys of the record, each exactly once. */
  lemma OptionsCoverRecord()
    ensures |OptionKeys| == 6
    ensures forall key :: KeyName(key) in OptionKeys
    ensures forall i, j :: 0 <= i < j < |OptionKeys| ==> OptionKeys[i] != OptionKeys[j]
  {
    assert forall key :: KeyName(key) in OptionKeys by {
      forall key ensures KeyName(key) in OptionKeys {
        match key
        case AssignmentDue => assert OptionKeys[0] == KeyName(key);
        case GradePosted => assert OptionKeys[1] == KeyName(key);
        case DiscussionReply => assert OptionKeys[2] == KeyName(key);
        case CourseAnnouncement => assert OptionKeys[3] == KeyName(key);
        case NewMessage => assert OptionKeys[4] == KeyName(key);
        case WeeklySummary => assert OptionKeys[5] == KeyName(key);
      }
    }
  }

  /** Toggling a key twice to its old value restores the record. */
  lemma ToggleBack(p: Preferences, key: Key, checked: bool)
    ensures Toggle(Toggle(p, key, checked), key, Get(p, key)) == p
  {
  }

  class NotificationPanel {
    var isLoading: bool
    var notifications: Preferences
    var toasts: seq<Toast>

    constructor (profile: Option<Profile>)
      ensures !isLoading && notifications == InitialPreferences(profile) && toasts == []
    {
      isLoading, toasts := false, [];
      notifications := InitialPreferences(profile);
    }

    /** A switch's `onCheckedChange`. */
    method OnCheckedChange(key: Key, checked: bool)
      modifies this
      ensures notifications == Toggle(old(notifications), key, checked)
      ensures isLoading == old(isLoading) && toasts == old(toasts)
    {
      notifications := Toggle(notifications, key, checked);
    }

    /** `handleSave`: the preferences are left as they are. */
    method HandleSave()
      modifies this
      ensures notifications == old(notifications) && !isLoading
      ensures toasts == old(toasts) + [SavedToast]
    {
      isLoading := true;
      toasts := toasts + [SavedToast];
      isLoading := false;
    }
  }
}
