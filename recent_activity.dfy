/** The recent-activity card of the dashboard (components/dashboard/recent-activity.tsx):
    the icon and the message shown for each activity. */
module RecentActivity {
  import opened Common

  /** A metadata field as stored: absent, JSON `null`, or a string. */
  datatype Field = Missing | Null | Text(text: string)

  /** `activity.metadata`, whose fields may be missing or null. */
  datatype ActivityMetadata = ActivityMetadata(assignmentTitle: Field, discussionTitle: Field,
                                               courseTitle: Field)

  datatype Activity = Activity(kind: string, description: string, metadata: Option<ActivityMetadata>)

  const SubmittedIcon := "\U{1F4DD}"
  const GradeIcon := "\U{1F3AF}"
  const DiscussionIcon := "\U{1F4AC}"
  const EnrolledIcon := "\U{1F4DA}"
  const DefaultIcon := "\U{1F4CC}"

  predicate KnownKind(kind: string) {
    kind == "assignment_submitted" || kind == "grade_received" || kind == "discussion_posted" || kind == "course_enrolled"
  }

  /** `getActivityIcon` */
  function GetActivityIcon(kind: string): (icon: string)
    ensures kind == "assignment_submitted" <==> icon == SubmittedIcon
    ensures kind == "grade_received" <==> icon == GradeIcon
    ensures kind == "discussion_posted" <==> icon == DiscussionIcon
    ensures kind == "course_enrolled" <==> icon == EnrolledIcon
    ensures !KnownKind(kind) <==> icon == DefaultIcon
  {
    match kind
    case "assignment_submitted" => SubmittedIcon
    case "grade_received" => GradeIcon
    case "discussion_posted" => DiscussionIcon
    case "course_enrolled" => EnrolledIcon
    case _ => DefaultIcon
  }

  /** A template-literal interpolation of `metadata?.field`: the text,
      "null" for a null field, or "undefined" when the metadata (null or
      absent, through `?.`) or the field is missing. */
  function Interpolated(field: Field): string {
    match field
    case Missing => "undefined"
    case Null => "null"
    case Text(t) => t
  }

  function AssignmentTitle(a: Activity): string {
    Interpolated(if a.metadata.Some? then a.metadata.value.assignmentTitle else Missing)
  }

  function DiscussionTitle(a: Activity): string {
    Interpolated(if a.metadata.Some? then a.metadata.value.discussionTitle else Missing)
  }

  function CourseTitle(a: Activity): string {
    Interpolated(if a.metadata.Some? then a.metadata.value.courseTitle else Missing)
  }

  /** The text before the quoted title, for the four known kinds. */
  function Lead(kind: string): string {
    match kind
    case "assignment_submitted" => "Submitted assignment "
    case "grade_received" => "Received grade for "
    case "discussion_posted" => "Posted in discussion "
    case _ => "Enrolled in "
  }

  /** The metadata field a known kind quotes. */
  function QuotedField(a: Activity): string {
    match a.kind
    case "assignment_submitted" => AssignmentTitle(a)
    case "grade_received" => AssignmentTitle(a)
    case "discussion_posted" => DiscussionTitle(a)
    case _ => CourseTitle(a)
  }

  /** `getActivityMessage`: for a known kind, its lead text followed by the
      quoted title; for any other kind, the activity's own description. */
  function GetActivityMessage(a: Activity): (msg: string)
    ensures !KnownKind(a.kind) ==> msg == a.description
    ensures KnownKind(a.kind) ==>
      var lead := Lead(a.kind);
      && |msg| == |lead| + |QuotedField(a)| + 2
      && msg[..|lead|] == lead
      && msg[|lead|] == '"' && msg[|msg| - 1] == '"'
      && msg[|lead| + 1..|msg| - 1] == QuotedField(a)
  {
    match a.kind
    case "assignment_submitted" => "Submitted assignment \"" + AssignmentTitle(a) + "\""
    case "grade_received" => "Received grade for \"" + AssignmentTitle(a) + "\""
    case "discussion_posted" => "Posted in discussion \"" + DiscussionTitle(a) + "\""
    case "course_enrolled" => "Enrolled in \"" + CourseTitle(a) + "\""
    case _ => a.description
  }

  /** Submitting and grading quote the same field: the assignment title. */
  lemma AssignmentKindsQuoteSameTitle(a: Activity)
    requires a.kind == "assignment_submitted" || a.kind == "grade_received"
    ensures QuotedField(a) == AssignmentTitle(a)
  {
  }

  /** The four known kinds open their messages with four different leads,
      so the message tells which kind of activity it reports. */
  lemma LeadsDiffer(k1: string, k2: string)
    requires KnownKind(k1) && KnownKind(k2) && k1 != k2
    ensures Lead(k1) != Lead(k2)
  {
  }

  /** Activity without metadata still gets a message, with "undefined"
      where the title would be. */
  lemma MissingMetadataShowsUndefined(a: Activity)
    requires KnownKind(a.kind) && a.metadata.None?
    ensures QuotedField(a) == "undefined"
  {
  }

  /** A title stored as JSON null is interpolated as the text "null", unlike
      a missing one. */
  lemma NullTitleShowsNull(a: Activity)
    requires a.kind == "discussion_posted" && a.metadata.Some? && a.metadata.value.discussionTitle.Null?
    ensures GetActivityMessage(a) == "Posted in discussion \"null\""
  {
  }
}
