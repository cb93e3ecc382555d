/** The course header (components/courses/course-header.tsx): the metadata
    defaults, the difficulty badge colour, who is offered the Enroll button,
    and the enrolment handler. */
module CourseHeader {
  import opened Common
  import opened Backend
  import CourseAnnouncements

  const NotSignedIn := "You must be logged in to enroll in a course"
  const EnrollFailed := "Failed to enroll. Please try again."

  /** `course.metadata`, whose fields may be missing. */
  datatype Metadata = Metadata(difficulty: Option<string>, category: Option<string>)

  datatype Course = Course(id: string, name: string, metadata: Option<Metadata>)

  /** The row handed to `insert` on the enrollments table. */
  datatype Enrollment = Enrollment(courseId: string, studentId: string)

  /** `(course.metadata || {}).difficulty || "beginner"` */
  function Difficulty(course: Course): (d: string)
    ensures course.metadata.Some? && Truthy(course.metadata.value.difficulty) ==> d == course.metadata.value.difficulty.value
    ensures !(course.metadata.Some? && Truthy(course.metadata.value.difficulty)) ==> d == "beginner"
  {
    if course.metadata.Some? then OrElse(course.metadata.value.difficulty, "beginner") else "beginner"
  }

  /** `(course.metadata || {}).category || "other"` */
  function Category(course: Course): (c: string)
    ensures course.metadata.Some? && Truthy(course.metadata.value.category) ==> c == course.metadata.value.category.value
    ensures !(course.metadata.Some? && Truthy(course.metadata.value.category)) ==> c == "other"
  {
    if course.metadata.Some? then OrElse(course.metadata.value.category, "other") else "other"
  }

  /** `getDifficultyColor` */
  function GetDifficultyColor(level: string): (classes: string)
    ensures classes == "bg-green-100 text-green-800" <==> level == "beginner"
    ensures classes == "bg-yellow-100 text-yellow-800" <==> level == "intermediate"
    ensures classes == "bg-red-100 text-red-800" <==> level == "advanced"
    ensures classes == "bg-blue-100 text-blue-800" <==> level != "beginner" && level != "intermediate" && level != "advanced"
  {
    match level
    case "beginner" => "bg-green-100 text-green-800"
    case "intermediate" => "bg-yellow-100 text-yellow-800"
    case "advanced" => "bg-red-100 text-red-800"
    case _ => "bg-blue-100 text-blue-800"
  }

  /** A course without metadata shows the beginner (green) badge. */
  lemma MissingMetadataIsBeginner(course: Course)
    requires course.metadata.None?
    ensures GetDifficultyColor(Difficulty(course)) == "bg-green-100 text-green-800"
    ensures Category(course) == "other"
  {
  }

  /** The Enroll button is offered to a viewer who is not enrolled, not the
      course's instructor and not an admin. */
  function ShowsEnroll(isEnrolled: bool, isInstructor: bool, userRole: string): (shown: bool)
    ensures shown <==> !isEnrolled && !isInstructor && userRole != "admin"
  {
    !isEnrolled && !isInstructor && userRole != "admin"
  }

  /** Whoever is offered the Enroll button is not offered the announcement
      delete menu, and the other way round. */
  lemma EnrollExcludesModeration(isEnrolled: bool, isInstructor: bool, userRole: string)
    ensures ShowsEnroll(isEnrolled, isInstructor, userRole) ==>
      !CourseAnnouncements.ShowsDeleteMenu(isInstructor, userRole)
    ensures CourseAnnouncements.ShowsDeleteMenu(isInstructor, userRole) ==>
      !ShowsEnroll(isEnrolled, isInstructor, userRole)
  {
  }

  /** `error.message || fallback` */
  function MessageOr(message: string): (r: string)
    ensures r != ""
    ensures message != "" ==> r == message
  {
    if message != "" then message else EnrollFailed
  }

  class EnrollPanel {
    const course: Course
    var isLoading: bool
    var error: string
    /** Rows sent to insert, and how many page refreshes were requested. */
    var enrollments: seq<Enrollment>
    var refreshes: nat

    constructor (course: Course)
      ensures this.course == course && !isLoading && error == "" && enrollments == [] && refreshes == 0
    {
      this.course := course;
      isLoading, error, enrollments, refreshes := false, "", [], 0;
    }

    /** `handleEnroll`. `user` answers auth.getUser; `answer` is the insert's
        error object, or null. */
    method HandleEnroll(user: Call<Option<User>>, answer: Call<Option<BackendError>>)
      modifies this
      ensures !isLoading
      ensures !(user.Returned? && user.value.Some?) ==> enrollments == old(enrollments) && refreshes == old(refreshes)
      ensures user == Returned(None) ==> error == NotSignedIn
      ensures user.Threw? ==> error == OrElse(user.thrown, EnrollFailed)
      ensures user.Returned? && user.value.Some? ==>
        && enrollments == old(enrollments) + [Enrollment(course.id, user.value.value.id)]
        && (answer == Returned(None) ==> error == "" && refreshes == old(refreshes) + 1)
        && (answer != Returned(None) ==> refreshes == old(refreshes))
        && (answer.Returned? && answer.value.Some? ==> error == MessageOr(answer.value.value.message))
        && (answer.Threw? ==> error == OrElse(answer.thrown, EnrollFailed))
    {
      isLoading := true;
      error := "";
      if user.Threw? {
        error := OrElse(user.thrown, EnrollFailed);
      } else if user.value.None? {
        error := NotSignedIn;
      } else {
        enrollments := enrollments + [Enrollment(course.id, user.value.value.id)];
        match answer {
          case Threw(thrown) =>
            error := OrElse(thrown, EnrollFailed);
          case Returned(Some(err)) =>
            error := MessageOr(err.message);
          case Returned(None) =>
            refreshes := refreshes + 1;
        }
      }
      isLoading := false;
    }
  }
}
