/** The create-course page (app/dashboard/courses/create/page.tsx): the form,
    the parsing of its comma-separated tags, and the submission that inserts
    the course with a fresh enrollment code. */
module CreateCourse {
  import opened Common
  import opened Backend
  import Utils

  const NotSignedIn := "You must be logged in to create a course"
  const CreateFailed := "Failed to create course. Please try again."

  /** The form's fields and their initial values. */
  datatype CourseForm = CourseForm(name: string, code: string, description: string, category: string,
                                   difficulty: string, color: string, tags: string)

  const InitialForm := CourseForm("", "", "", "", "beginner", "#5D5CDE", "")

  /** The row handed to `insert`, its `metadata` flattened. */
  datatype CourseRow = CourseRow(name: string, code: string, description: string, color: string,
                                 enrollmentCode: string, instructorId: string,
                                 category: string, difficulty: string, tags: seq<string>)

  /** The answer of insert-then-select: the new course's id, or an error. */
  datatype InsertAnswer = Inserted(id: string) | InsertFailed(error: BackendError)

  // ---------------------------------------------------------------------------
  // Tags

  /** `tag.trim()` over every piece. */
  function TrimAll(pieces: seq<string>): (r: seq<string>)
    ensures |r| == |pieces|
    ensures forall k :: 0 <= k < |r| ==> r[k] == Trim(pieces[k])
  {
    if pieces == [] then [] else [Trim(pieces[0])] + TrimAll(pieces[1..])
  }

  /** A tag as the parser leaves it: not empty, no white space at either end. */
  predicate Trimmed(t: string) {
    t != "" && !IsWhitespace(t[0]) && !IsWhitespace(t[|t| - 1])
  }

  function NonEmpty(t: string): bool {
    t != ""
  }

  /** `tags.split(",").map(tag => tag.trim()).filter(Boolean)`: every tag is
      trimmed and holds no comma, there are at most one more tags than
      commas, and the tags come in input order. */
  function ParseTags(tags: string): seq<string> {
    Filter(TrimAll(Split(tags, ',')), NonEmpty)
  }

  /** What the parsed tags are: each is trimmed and holds no comma, there
      are at most one more tags than commas, and they are the non-empty
      trimmed pieces in input order: an ordered subsequence that keeps every
      non-empty piece. */
  lemma ParseTagsSpec(tags: string)
    ensures forall k :: 0 <= k < |ParseTags(tags)| ==> Trimmed(ParseTags(tags)[k]) && ',' !in ParseTags(tags)[k]
    ensures |ParseTags(tags)| <= Count(tags, ',') + 1
    ensures IsSubsequence(ParseTags(tags), TrimAll(Split(tags, ',')))
    ensures forall k :: 0 <= k < |TrimAll(Split(tags, ','))| && TrimAll(Split(tags, ','))[k] != "" ==>
      TrimAll(Split(tags, ','))[k] in ParseTags(tags)
  {
    var trimmed := TrimAll(Split(tags, ','));
    TrimmedPieces(Split(tags, ','));
    FilterIsSubsequence(trimmed, NonEmpty);
  }

  /** Trimming pieces without a comma gives empty strings and well-formed
      tags, none with a comma. */
  lemma TrimmedPieces(pieces: seq<string>)
    requires forall k :: 0 <= k < |pieces| ==> ',' !in pieces[k]
    ensures forall k :: 0 <= k < |TrimAll(pieces)| ==>
      (TrimAll(pieces)[k] == "" || Trimmed(TrimAll(pieces)[k])) && ',' !in TrimAll(pieces)[k]
  {
    forall k | 0 <= k < |pieces|
      ensures (Trim(pieces[k]) == "" || Trimmed(Trim(pieces[k]))) && ',' !in Trim(pieces[k])
    {
      TrimmedPiece(pieces[k]);
    }
  }

  lemma TrimmedPiece(piece: string)
    requires ',' !in piece
    ensures Trim(piece) == "" || Trimmed(Trim(piece))
    ensures ',' !in Trim(piece)
  {
    TrimSpec(piece);
    var lw := LeadingWhitespace(piece);
    assert Trim(piece) == piece[lw..lw + |Trim(piece)|];
  }

  /** Input that is only white space and commas gives no tags. */
  lemma BlankTagsGiveNone(tags: string)
    requires forall i :: 0 <= i < |tags| ==> IsWhitespace(tags[i]) || tags[i] == ','
    ensures ParseTags(tags) == []
  {
    var pieces := Split(tags, ',');
    PiecesBlank(tags);
    forall k | 0 <= k < |pieces| ensures Trim(pieces[k]) == "" {
      TrimEmptyIffBlank(pieces[k]);
    }
    FilterNone(TrimAll(pieces), NonEmpty);
  }

  /** Every piece of such an input is blank. */
  lemma {:induction false} PiecesBlank(tags: string)
    requires forall i :: 0 <= i < |tags| ==> IsWhitespace(tags[i]) || tags[i] == ','
    ensures forall k :: 0 <= k < |Split(tags, ',')| ==> AllWhitespace(Split(tags, ',')[k])
    decreases |tags|
  {
    if tags != [] {
      PiecesBlank(tags[1..]);
    }
  }

  /** Parsing the comma-joined list of well-formed tags gives the list back,
      so a parsed list survives being written out and read again. */
  lemma ParseJoinedTags(tags: seq<string>)
    requires forall k :: 0 <= k < |tags| ==> Trimmed(tags[k]) && ',' !in tags[k]
    ensures ParseTags(Join(tags, ',')) == tags
  {
    if tags == [] {
      assert Split("", ',') == [""];
      assert TrimAll([""]) == [""];
    } else {
      var joined := Join(tags, ',');
      assert Split(joined, ',') == tags by {
        SplitJoin(tags, ',');
      }
      assert TrimAll(tags) == tags by {
        TrimAllKeepsTrimmed(tags);
      }
      FilterAll(tags, NonEmpty);
    }
  }

  lemma {:induction false} TrimAllKeepsTrimmed(tags: seq<string>)
    requires forall k :: 0 <= k < |tags| ==> Trimmed(tags[k])
    ensures TrimAll(tags) == tags
  {
    if tags != [] {
      TrimKeepsTrimmed(tags[0]);
      TrimAllKeepsTrimmed(tags[1..]);
      assert TrimAll(tags) == [Trim(tags[0])] + TrimAll(tags[1..]);
      assert tags == [tags[0]] + tags[1..];
    }
  }

  /** Parsing is idempotent through the written-out form. */
  lemma ParseTagsIdempotent(tags: string)
    ensures ParseTags(Join(ParseTags(tags), ',')) == ParseTags(tags)
  {
    ParseTagsSpec(tags);
    ParseJoinedTags(ParseTags(tags));
  }

  /** The row inserted for a form, a user and an enrollment code. */
  function RowFor(form: CourseForm, user: User, enrollmentCode: string): CourseRow {
    CourseRow(form.name, form.code, form.description, form.color, enrollmentCode, user.id,
              form.category, form.difficulty, ParseTags(form.tags))
  }

  /** `error.message || fallback` */
  function MessageOr(message: string): (r: string)
    ensures r != ""
    ensures message != "" ==> r == message
  {
    if message != "" then message else CreateFailed
  }

  const CreatedToast := Toast("Course created", "Your course has been created successfully.", false)

  class CreateCoursePage {
    var isLoading: bool
    var error: string
    var form: CourseForm
    /** Rows sent to insert, pushes requested of the router, and toasts shown. */
    var inserted: seq<CourseRow>
    var navigations: seq<string>
    var toasts: seq<Toast>

    constructor ()
      ensures !isLoading && error == "" && form == InitialForm
      ensures inserted == [] && navigations == [] && toasts == []
    {
      isLoading, error, form := false, "", InitialForm;
      inserted, navigations, toasts := [], [], [];
    }

    /** `handleSubmit`. `user` answers auth.getUser, `draws` are the six
        values Math.random returns while the code is generated, and `answer`
        answers the insert. */
    method HandleSubmit(user: Call<Option<User>>, draws: seq<real>, answer: Call<InsertAnswer>)
      requires |draws| == Utils.CodeLength
      requires forall i :: 0 <= i < |draws| ==> Utils.IsRandomDraw(draws[i])
      modifies this
      ensures !isLoading && form == old(form)
      ensures !(user.Returned? && user.value.Some?) ==>
        inserted == old(inserted) && navigations == old(navigations) && toasts == old(toasts)
      ensures user == Returned(None) ==> error == NotSignedIn
      ensures user.Threw? ==> error == OrElse(user.thrown, CreateFailed)
      ensures user.Returned? && user.value.Some? ==>
        Attempted(old(inserted), old(navigations), old(toasts), user.value.value, draws, answer)
    {
      isLoading := true;
      error := "";
      if user.Threw? {
        error := OrElse(user.thrown, CreateFailed);
      } else if user.value.None? {
        error := NotSignedIn;
      } else {
        Insert(user.value.value, draws, answer);
      }
      isLoading := false;
    }

    /** The state after the insert of a signed-in user's course, from the
        state before it: one row more, built from the form with a code over
        the alphabet; on success the router goes to the new course, on
        failure the error shows. */
    ghost predicate Attempted(inserted0: seq<CourseRow>, navigations0: seq<string>, toasts0: seq<Toast>,
                              user: User, draws: seq<real>, answer: Call<InsertAnswer>)
      requires |draws| == Utils.CodeLength
      requires forall i :: 0 <= i < |draws| ==> Utils.IsRandomDraw(draws[i])
      reads this
    {
      && |inserted| == |inserted0| + 1 && inserted[..|inserted0|] == inserted0
      && var row := inserted[|inserted0|];
         && row == RowFor(form, user, row.enrollmentCode)
         && |row.enrollmentCode| == Utils.CodeLength
         && (forall i :: 0 <= i < |row.enrollmentCode| ==> row.enrollmentCode[i] in Utils.EnrollmentAlphabet)
         && (forall i :: 0 <= i < |row.enrollmentCode| ==>
               row.enrollmentCode[i] == Utils.EnrollmentAlphabet[Utils.PickIndex(draws[i])])
         && (answer.Returned? && answer.value.Inserted? ==>
               error == "" && navigations == navigations0 + ["/dashboard/courses/" + answer.value.id]
               && toasts == toasts0 + [CreatedToast])
         && (!(answer.Returned? && answer.value.Inserted?) ==> navigations == navigations0 && toasts == toasts0)
         && (answer.Returned? && answer.value.InsertFailed? ==> error == MessageOr(answer.value.error.message))
         && (answer.Threw? ==> error == OrElse(answer.thrown, CreateFailed))
    }

    /** The part of the handler after getUser returned a user. */
    method Insert(user: User, draws: seq<real>, answer: Call<InsertAnswer>)
      requires |draws| == Utils.CodeLength
      requires forall i :: 0 <= i < |draws| ==> Utils.IsRandomDraw(draws[i])
      requires error == ""
      modifies this
      ensures Attempted(old(inserted), old(navigations), old(toasts), user, draws, answer)
      ensures form == old(form) && isLoading == old(isLoading)
    {
      var enrollmentCode := Utils.GenerateEnrollmentCode(draws);
      var row := RowFor(form, user, enrollmentCode);
      assert row.enrollmentCode == enrollmentCode;
      inserted := inserted + [row];
      assert inserted[..|old(inserted)|] == old(inserted) && inserted[|old(inserted)|] == row;
      match answer {
        case Threw(thrown) =>
          error := OrElse(thrown, CreateFailed);
        case Returned(InsertFailed(err)) =>
          error := MessageOr(err.message);
        case Returned(Inserted(id)) =>
          toasts := toasts + [CreatedToast];
          navigations := navigations + ["/dashboard/courses/" + id];
      }
    }
  }
}
