/** The modules tab of a course (components/courses/course-modules.tsx): the
    merge of each fetched module with its lessons, with the empty fallbacks
    for failed queries, and the lesson icons and count label. */
module CourseModules {
  import opened Common
  import opened Backend
  import CourseResources

  type FileIcon = CourseResources.FileIcon

  datatype Lesson = Lesson(id: string, title: string, kind: string, completed: bool)
  datatype ModuleRow = ModuleRow(id: string, title: string, description: string)

  /** A module row with its `lessons`. */
  datatype Module = Module(row: ModuleRow, lessons: seq<Lesson>)

  /** The `{ data, error }` answers of the two queries. */
  datatype ModulesAnswer = ModulesAnswer(data: Option<seq<ModuleRow>>, error: Option<BackendError>)
  datatype LessonsAnswer = LessonsAnswer(data: Option<seq<Lesson>>, error: Option<BackendError>)

  datatype StatusIcon = CheckIcon | ClockIcon

  /** One module with its lessons: none when the lessons query errs,
      otherwise `lessonsData || []`; the module's own fields are kept. */
  function WithLessons(row: ModuleRow, answer: LessonsAnswer): (m: Module)
    ensures m.row == row
    ensures answer.error.Some? || answer.data.None? ==> m.lessons == []
    ensures answer.error.None? && answer.data.Some? ==> m.lessons == answer.data.value
  {
    if answer.error.Some? then Module(row, [])
    else Module(row, if answer.data.Some? then answer.data.value else [])
  }

  /** Some lessons query was rejected, which rejects the whole Promise.all. */
  predicate AnyThrew(rows: seq<ModuleRow>, lessonsOf: ModuleRow -> Call<LessonsAnswer>) {
    exists i :: 0 <= i < |rows| && lessonsOf(rows[i]).Threw?
  }

  /** The merge over modules whose lessons queries all returned. */
  function Merge(rows: seq<ModuleRow>, lessonsOf: ModuleRow -> Call<LessonsAnswer>): (r: seq<Module>)
    requires !AnyThrew(rows, lessonsOf)
    ensures |r| == |rows|
    ensures forall i :: 0 <= i < |r| ==> r[i] == WithLessons(rows[i], lessonsOf(rows[i]).value)
  {
    if rows == [] then []
    else
      assert !lessonsOf(rows[0]).Threw?;
      assert !AnyThrew(rows[1..], lessonsOf) by {
        forall i | 0 <= i < |rows[1..]| ensures !lessonsOf(rows[1..][i]).Threw? {
          assert rows[1..][i] == rows[i + 1];
        }
      }
      [WithLessons(rows[0], lessonsOf(rows[0]).value)] + Merge(rows[1..], lessonsOf)
  }

  /** The list the fetch effect stores: empty when the modules query errs or
      any call throws, otherwise one entry per fetched module, in fetch order. */
  function LoadedModules(answer: Call<ModulesAnswer>, lessonsOf: ModuleRow -> Call<LessonsAnswer>): (r: seq<Module>)
    ensures answer.Threw? || answer.value.error.Some? ==> r == []
    ensures answer.Returned? && answer.value.error.None? ==>
      var rows := if answer.value.data.Some? then answer.value.data.value else [];
      && (AnyThrew(rows, lessonsOf) ==> r == [])
      && (!AnyThrew(rows, lessonsOf) ==>
            |r| == |rows| && forall i :: 0 <= i < |r| ==> r[i] == WithLessons(rows[i], lessonsOf(rows[i]).value))
  {
    match answer
    case Threw(_) => []
    case Returned(ModulesAnswer(data, error)) =>
      if error.Some? then []
      else
        var rows := if data.Some? then data.value else [];
        if AnyThrew(rows, lessonsOf) then [] else Merge(rows, lessonsOf)
  }

  /** `getLessonIcon` */
  function GetLessonIcon(kind: string): (icon: FileIcon)
    ensures icon == CourseResources.VideoIcon <==> kind == "video"
    ensures icon == CourseResources.DocumentIcon <==> kind == "quiz" || kind == "assignment"
    ensures icon == CourseResources.GenericIcon <==> kind != "video" && kind != "quiz" && kind != "assignment"
    ensures icon != CourseResources.ImageIcon
  {
    match kind
    case "video" => CourseResources.VideoIcon
    case "quiz" => CourseResources.DocumentIcon
    case "assignment" => CourseResources.DocumentIcon
    case _ => CourseResources.GenericIcon
  }

  /** `getLessonStatusIcon` */
  function GetLessonStatusIcon(lesson: Lesson): (icon: StatusIcon)
    ensures icon == CheckIcon <==> lesson.completed
  {
    if lesson.completed then CheckIcon else ClockIcon
  }

  /** The word after a module's lesson count. */
  function LessonWord(count: nat): (word: string)
    ensures word == "lesson" <==> count == 1
    ensures word == "lessons" <==> count != 1
  {
    if count == 1 then "lesson" else "lessons"
  }
}
