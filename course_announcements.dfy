/** The announcements tab of a course (components/courses/course-announcements.tsx):
    the list, the draft of a new announcement, creating (prepend) and deleting
    (remove by id), and who sees the delete menu. */
module CourseAnnouncements {
  import opened Common
  import opened Backend

  /** A row of the announcements table. */
  datatype Announcement = Announcement(id: string, title: string, content: string, courseId: string, authorId: string)

  /** The row handed to `insert`. */
  datatype NewAnnouncement = NewAnnouncement(title: string, content: string, courseId: string, authorId: string)

  /** The answer of insert-then-select: the stored row, or an error object. */
  datatype InsertAnswer = Inserted(row: Announcement) | InsertFailed(error: BackendError)

  /** The draft passes validation when neither field is blank. */
  predicate DraftComplete(title: string, content: string) {
    Trim(title) != "" && Trim(content) != ""
  }

  /** Validation rejects exactly the drafts with a field made only of white
      space (or empty). */
  lemma DraftCompleteIff(title: string, content: string)
    ensures DraftComplete(title, content) <==> !AllWhitespace(title) && !AllWhitespace(content)
  {
    TrimEmptyIffBlank(title);
    TrimEmptyIffBlank(content);
  }

  function NotId(id: string): Announcement -> bool {
    (a: Announcement) => a.id != id
  }

  /** `announcements.filter(a => a.id !== id)`: every entry with that id
      removed, every other entry kept, in order. */
  function WithoutId(announcements: seq<Announcement>, id: string): (r: seq<Announcement>)
    ensures forall k :: 0 <= k < |r| ==> r[k].id != id
    ensures forall k :: 0 <= k < |announcements| && announcements[k].id != id ==> announcements[k] in r
    ensures IsSubsequence(r, announcements)
  {
    FilterIsSubsequence(announcements, NotId(id));
    Filter(announcements, NotId(id))
  }

  /** Deleting an id that is not in the list changes nothing. */
  lemma DeleteAbsentId(announcements: seq<Announcement>, id: string)
    requires forall k :: 0 <= k < |announcements| ==> announcements[k].id != id
    ensures WithoutId(announcements, id) == announcements
  {
    FilterAll(announcements, NotId(id));
  }

  /** Deleting the announcement just created (with a fresh id) gives back
      the list as it was before the create. */
  lemma DeleteUndoesCreate(announcements: seq<Announcement>, row: Announcement)
    requires forall k :: 0 <= k < |announcements| ==> announcements[k].id != row.id
    ensures WithoutId([row] + announcements, row.id) == announcements
  {
    assert ([row] + announcements)[1..] == announcements;
    DeleteAbsentId(announcements, row.id);
  }

  /** The delete menu is shown to the course's instructor and to admins. */
  function ShowsDeleteMenu(isInstructor: bool, userRole: string): (shown: bool)
    ensures shown <==> isInstructor || userRole == "admin"
  {
    isInstructor || userRole == "admin"
  }

  class AnnouncementsPanel {
    const courseId: string
    var announcements: seq<Announcement>
    var isCreating: bool
    var draftTitle: string
    var draftContent: string
    var submitting: bool
    /** Rows sent to insert, and ids sent to delete. */
    var insertRequests: seq<NewAnnouncement>
    var deleteRequests: seq<string>

    constructor (courseId: string, fetched: seq<Announcement>)
      ensures this.courseId == courseId && announcements == fetched
      ensures !isCreating && draftTitle == "" && draftContent == "" && !submitting
      ensures insertRequests == [] && deleteRequests == []
    {
      this.courseId := courseId;
      announcements := fetched;
      isCreating, draftTitle, draftContent, submitting := false, "", "", false;
      insertRequests, deleteRequests := [], [];
    }

    /** `handleCreateAnnouncement`. `user` answers auth.getUser; `answer`
        answers the insert. A draft with a blank field is refused before
        anything else happens. */
    method Create(user: Call<Option<User>>, answer: Call<InsertAnswer>)
      modifies this
      ensures !DraftComplete(old(draftTitle), old(draftContent)) ==>
        announcements == old(announcements) && insertRequests == old(insertRequests)
        && draftTitle == old(draftTitle) && draftContent == old(draftContent)
        && isCreating == old(isCreating) && submitting == old(submitting)
      ensures DraftComplete(old(draftTitle), old(draftContent)) ==> Submitted(old(announcements), old(insertRequests),
        old(draftTitle), old(draftContent), old(isCreating), user, answer)
      ensures deleteRequests == old(deleteRequests)
    {
      if !DraftComplete(draftTitle, draftContent) {
        return;
      }
      Submit(user, answer);
    }

    /** The state after a submission that passed validation, from the state
        before it: the insert is sent only for a signed-in user, the new row
        goes first only when the insert succeeds, and submitting ends false. */
    ghost predicate Submitted(announcements0: seq<Announcement>, insertRequests0: seq<NewAnnouncement>,
                              title: string, content: string, isCreating0: bool,
                              user: Call<Option<User>>, answer: Call<InsertAnswer>)
      reads this
    {
      var signedIn := user.Returned? && user.value.Some?;
      var stored := signedIn && answer.Returned? && answer.value.Inserted?;
      && !submitting
      && (signedIn ==> insertRequests == insertRequests0 + [NewAnnouncement(title, content, courseId, user.value.value.id)])
      && (!signedIn ==> insertRequests == insertRequests0)
      && (stored ==> announcements == [answer.value.row] + announcements0
                     && draftTitle == "" && draftContent == "" && !isCreating)
      && (!stored ==> announcements == announcements0 && draftTitle == title
                      && draftContent == content && isCreating == isCreating0)
    }

    /** The part of the handler after validation. */
    method Submit(user: Call<Option<User>>, answer: Call<InsertAnswer>)
      modifies this
      ensures Submitted(old(announcements), old(insertRequests), old(draftTitle), old(draftContent),
                        old(isCreating), user, answer)
      ensures deleteRequests == old(deleteRequests)
    {
      submitting := true;
      if user.Threw? || user.value.None? {
        submitting := false;
        return;
      }
      insertRequests := insertRequests + [NewAnnouncement(draftTitle, draftContent, courseId, user.value.value.id)];
      if answer.Returned? && answer.value.Inserted? {
        announcements := [answer.value.row] + announcements;
        draftTitle, draftContent := "", "";
        isCreating := false;
      }
      submitting := false;
    }

    /** `handleDeleteAnnouncement`: the list changes only when the backend
        reports success. */
    method Delete(id: string, answer: Call<Option<BackendError>>)
      modifies this
      ensures deleteRequests == old(deleteRequests) + [id]
      ensures answer == Returned(None) ==> announcements == WithoutId(old(announcements), id)
      ensures answer != Returned(None) ==> announcements == old(announcements)
      ensures insertRequests == old(insertRequests) && isCreating == old(isCreating)
      ensures draftTitle == old(draftTitle) && draftContent == old(draftContent) && submitting == old(submitting)
    {
      deleteRequests := deleteRequests + [id];
      if answer == Returned(None) {
        announcements := WithoutId(announcements, id);
      }
    }
  }
}
