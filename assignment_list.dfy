/** The assignment list (components/assignments/assignment-list.tsx): how each
    assignment's badge, grade line, submission counts and action links are
    chosen from its fields and the viewer's role. */
module AssignmentList {
  import opened Common

  /** `assignment.grade`: undefined, null, or a score. */
  datatype Grade = Undefined | Null | Score(score: int)

  /** An assignment as the list receives it; the optional fields may be
      undefined (or null, which the `||` fallbacks treat alike). */
  datatype Assignment = Assignment(
    id: string, title: string, status: string, submissionStatus: Option<string>,
    points: int, grade: Grade, submissionCount: Option<nat>, totalStudents: Option<nat>)

  /** The badge variants. */
  datatype BadgeVariant = Default | Secondary | Destructive | Outline

  /** What one card shows. The grade line holds the grade shown before the
      slash (None when React renders a null grade as nothing) and the points. */
  datatype Card = Card(
    badgeLabel: string, badgeVariant: BadgeVariant,
    gradeLine: Option<(Option<int>, int)>, counts: Option<(nat, nat)>,
    showsSubmit: bool, showsGrade: bool)

  /** The list: its empty state, or one card per assignment. */
  datatype View = EmptyState(message: string) | Cards(cards: seq<Card>)

  const InstructorEmpty := "Create your first assignment to get started"
  const OtherEmpty := "No assignments available at the moment"

  /** `getStatusColor` */
  function GetStatusColor(status: string): (v: BadgeVariant)
    ensures v == Default <==> status == "submitted"
    ensures v == Secondary <==> status == "graded"
    ensures v == Destructive <==> status == "overdue"
    ensures v == Outline <==> status != "submitted" && status != "graded" && status != "overdue"
  {
    match status
    case "submitted" => Default
    case "graded" => Secondary
    case "overdue" => Destructive
    case "pending" => Outline
    case _ => Outline
  }

  /** `submission_status || status`: the badge's label. */
  function BadgeStatus(a: Assignment): (s: string)
    ensures Truthy(a.submissionStatus) ==> s == a.submissionStatus.value
    ensures !Truthy(a.submissionStatus) ==> s == a.status
  {
    OrElse(a.submissionStatus, a.status)
  }

  /** `n || 0` for an optional count. */
  function CountOrZero(n: Option<nat>): nat {
    if n.Some? then n.value else 0
  }

  /** The card of one assignment for a viewer with the given role. */
  function CardFor(a: Assignment, role: Option<string>): (c: Card)
    ensures c.badgeVariant == GetStatusColor(c.badgeLabel) && c.badgeLabel == BadgeStatus(a)
    ensures c.gradeLine.Some? <==> !a.grade.Undefined?
    ensures a.grade.Score? ==> c.gradeLine == Some((Some(a.grade.score), a.points))
    ensures a.grade.Null? ==> c.gradeLine == Some((None, a.points))
    ensures c.counts.Some? <==> role == Some("instructor")
    ensures c.counts.Some? ==> c.counts.value == (CountOrZero(a.submissionCount), CountOrZero(a.totalStudents))
    ensures c.showsSubmit <==> role == Some("student") && a.submissionStatus != Some("submitted")
    ensures c.showsGrade <==> role == Some("instructor")
  {
    var shown := BadgeStatus(a);
    Card(shown, GetStatusColor(shown),
         match a.grade
         case Undefined => None
         case Null => Some((None, a.points))
         case Score(g) => Some((Some(g), a.points)),
         if role == Some("instructor") then Some((CountOrZero(a.submissionCount), CountOrZero(a.totalStudents))) else None,
         role == Some("student") && a.submissionStatus != Some("submitted"),
         role == Some("instructor"))
  }

  function CardsFor(assignments: seq<Assignment>, role: Option<string>): (cards: seq<Card>)
    ensures |cards| == |assignments|
    ensures forall i :: 0 <= i < |cards| ==> cards[i] == CardFor(assignments[i], role)
  {
    if assignments == [] then [] else [CardFor(assignments[0], role)] + CardsFor(assignments[1..], role)
  }

  /** `AssignmentList`: a missing or empty list renders the empty state,
      whose message depends on whether the viewer is an instructor. */
  function Render(assignments: Option<seq<Assignment>>, role: Option<string>): (v: View)
    ensures v.EmptyState? <==> assignments.None? || |assignments.value| == 0
    ensures v.EmptyState? ==> (v.message == InstructorEmpty <==> role == Some("instructor"))
    ensures v.EmptyState? ==> (v.message == OtherEmpty <==> role != Some("instructor"))
    ensures v.Cards? ==> v.cards == CardsFor(assignments.value, role)
  {
    if assignments.None? || |assignments.value| == 0 then
      EmptyState(if role == Some("instructor") then InstructorEmpty else OtherEmpty)
    else Cards(CardsFor(assignments.value, role))
  }

  /** No card offers both Submit and Grade, and an assignment already
      submitted is never offered for submission again. */
  lemma ActionsExclusive(a: Assignment, role: Option<string>)
    ensures !(CardFor(a, role).showsSubmit && CardFor(a, role).showsGrade)
    ensures a.submissionStatus == Some("submitted") ==> !CardFor(a, role).showsSubmit
  {
  }

  /** A submission status, once set, decides both the label and the colour;
      the assignment's own status only shows when there is none. */
  lemma SubmissionStatusWins(a: Assignment, b: Assignment, role: Option<string>)
    requires Truthy(a.submissionStatus) && a.submissionStatus == b.submissionStatus
    ensures CardFor(a, role).badgeLabel == CardFor(b, role).badgeLabel
    ensures CardFor(a, role).badgeVariant == CardFor(b, role).badgeVariant
  {
  }
}
