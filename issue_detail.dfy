/**
 * The issue detail view (src/components/Issues/IssueDetail.tsx): one issue fetched by
 * title, an editable draft of its description, status and priority, saving the draft,
 * and deleting the issue behind a confirmation and the admin role.
 */
module IssueDetail {
  import opened Types
  import opened Http

  /** The editable part of an issue (`formData`). */
  datatype Draft = Draft(description: string, status: Status, priority: Priority)

  /** The draft before anything is fetched. */
  const InitialDraft := Draft("", Open, Low)

  const NotFoundMessage := "Issue not found or access denied."
  const UpdateFailedMessage := "Failed to update issue."
  const OnlyAdminsMessage := "Only admins can delete issues."
  const DeleteFailedMessage := "Failed to delete issue."

  /** The draft a fetched issue starts the form with. */
  function DraftOf(issue: Issue): Draft
  {
    Draft(issue.description, issue.status, issue.priority)
  }

  /**
   * `{...issue, ...formData}`: the draft's three fields replace the issue's, and the
   * identifier, title, assignee and creation time are kept.
   */
  function Merge(issue: Issue, d: Draft): (r: Issue)
    ensures DraftOf(r) == d
    ensures r.id == issue.id && r.title == issue.title
    ensures r.assignee == issue.assignee && r.createdAt == issue.createdAt
  {
    issue.(description := d.description, status := d.status, priority := d.priority)
  }

  /** Saving the draft an issue was loaded with gives back the same issue. */
  lemma MergeOwnDraft(issue: Issue)
    ensures Merge(issue, DraftOf(issue)) == issue
  {
  }

  /** Saving twice: the second draft wins over the first. */
  lemma MergeLastWins(issue: Issue, d1: Draft, d2: Draft)
    ensures Merge(Merge(issue, d1), d2) == Merge(issue, d2)
  {
  }

  /** What the view renders, in order of precedence. */
  datatype Screen = Loading | ErrorText(message: string) | NotFound | Details(issue: Issue)

  /** Loading first, then an error, then a missing issue, then the issue. */
  function ScreenOf(isLoading: bool, error: string, issue: Option<Issue>): (s: Screen)
    ensures s == Loading <==> isLoading
    ensures s.ErrorText? <==> !isLoading && error != ""
    ensures s.ErrorText? ==> s.message == error
    ensures s == NotFound <==> !isLoading && error == "" && issue.None?
    ensures s.Details? <==> !isLoading && error == "" && issue.Some?
    ensures s.Details? ==> issue == Some(s.issue)
  {
    if isLoading then Loading
    else if error != "" then ErrorText(error)
    else if issue.None? then NotFound
    else Details(issue.value)
  }

  /** The assignee line: the embedded user's name, the bare identifier, or nothing. */
  function AssigneeLabel(a: Option<Assignee>): (shown: string)
    ensures a.Some? && a.value.Populated? ==> shown == a.value.user.name
    ensures a.Some? && a.value.ById? ==> shown == a.value.id
    ensures a.None? ==> shown == ""
  {
    match a
    case None => ""
    case Some(Populated(u)) => u.name
    case Some(ById(id)) => id
  }

  /**
   * `handleDelete`'s effects: with an issue, the confirmation is asked first; a declined
   * confirmation ends it; then a user who is not an admin gets an alert; only an admin
   * sends the DELETE, and navigates to the list if it succeeds.
   */
  function DeleteEffects(issue: Option<Issue>, user: Option<User>, confirmed: bool, succeeded: bool): (effects: seq<Effect<Draft>>)
    ensures effects == [] <==> issue.None?
    ensures |effects| <= 3
    ensures issue.Some? && !confirmed ==> effects == [AskedConfirm]
    ensures issue.Some? && confirmed && !(user.Some? && user.value.role == Admin) ==>
      effects == [AskedConfirm, Alerted(OnlyAdminsMessage)]
    ensures issue.Some? && confirmed && user.Some? && user.value.role == Admin ==>
      |effects| == 3 && effects[1] == Sent(Delete(IssuePath(issue.value.title)))
    ensures issue.Some? && confirmed && user.Some? && user.value.role == Admin && !succeeded ==>
      effects[|effects| - 1] == Alerted(DeleteFailedMessage)
  {
    if issue.None? then []
    else if !confirmed then [AskedConfirm]
    else if !(user.Some? && user.value.role == Admin) then [AskedConfirm, Alerted(OnlyAdminsMessage)]
    else
      [AskedConfirm, Sent(Delete(IssuePath(issue.value.title)))] +
      (if succeeded then [NavigatedTo(IssuesRoute)] else [Alerted(DeleteFailedMessage)])
  }

  /**
   * A DELETE goes out exactly when there is an issue, the confirmation is accepted and
   * the user is an admin; it is always for the displayed issue's path, and the
   * confirmation is asked whenever there is an issue, whatever the role.
   */
  lemma DeleteGate(issue: Option<Issue>, user: Option<User>, confirmed: bool, succeeded: bool)
    ensures SendsRequest(DeleteEffects(issue, user, confirmed, succeeded)) <==>
      issue.Some? && confirmed && user.Some? && user.value.role == Admin
    ensures forall e :: e in DeleteEffects(issue, user, confirmed, succeeded) && e.Sent? ==>
      e.request == Delete(IssuePath(issue.value.title))
    ensures issue.Some? ==> DeleteEffects(issue, user, confirmed, succeeded)[0] == AskedConfirm
    ensures NavigatedTo(IssuesRoute) in DeleteEffects(issue, user, confirmed, succeeded) <==>
      issue.Some? && confirmed && user.Some? && user.value.role == Admin && succeeded
  {
    var effects := DeleteEffects(issue, user, confirmed, succeeded);
    if issue.Some? && confirmed && user.Some? && user.value.role == Admin {
      assert effects[1].Sent?;
    }
  }

  /** The detail view's state; `title` is the route parameter, empty when missing. */
  class IssueDetailView {
    const title: string
    var issue: Option<Issue>
    var isLoading: bool
    var isEditing: bool
    var error: string
    var formData: Draft
    var effects: seq<Effect<Draft>>

    constructor (title: string)
      ensures this.title == title
      ensures issue.None? && isLoading && !isEditing && error == ""
      ensures formData == InitialDraft && effects == []
    {
      this.title := title;
      issue := None;
      isLoading := true;
      isEditing := false;
      error := "";
      formData := InitialDraft;
      effects := [];
    }

    /**
     * The mount effect. A missing title returns before anything else, so the view
     * stays on "Loading"; otherwise one GET, and the flag comes down whatever happens.
     * A successful response's body is the `issue` field, None when the data or the
     * field is missing.
     */
    method FetchIssue(response: Outcome<Option<Issue>>)
      modifies this
      ensures title == "" ==>
        issue == old(issue) && isLoading == old(isLoading) && effects == old(effects) &&
        error == old(error) && formData == old(formData)
      ensures title != "" ==> effects == old(effects) + [Sent(Get(IssuePath(title)))] && !isLoading
      ensures title != "" && response.Ok? && response.body.Some? ==>
        issue == response.body && formData == DraftOf(response.body.value) && error == old(error)
      ensures title != "" && response.Ok? && response.body.None? ==>
        issue == old(issue) && formData == old(formData) && error == old(error)
      ensures title != "" && response.Failed? ==>
        error == NotFoundMessage && issue == old(issue) && formData == old(formData)
      ensures isEditing == old(isEditing)
    {
      if title == "" {
        return;
      }
      effects := effects + [Sent(Get(IssuePath(title)))];
      match response {
        case Ok(body) =>
          if body.Some? {
            issue := body;
            formData := DraftOf(body.value);
          }
        case Failed(_) =>
          error := NotFoundMessage;
      }
      isLoading := false;
    }

    /**
     * `handleUpdate`: nothing without an issue; otherwise a PUT of the draft, and on
     * success the draft merged into the displayed issue and edit mode left.
     */
    method HandleUpdate(succeeded: bool)
      modifies this
      ensures old(issue).None? ==> issue == old(issue) && isEditing == old(isEditing) && effects == old(effects)
      ensures old(issue).Some? && succeeded ==>
        issue == Some(Merge(old(issue).value, formData)) && !isEditing &&
        effects == old(effects) + [Sent(Put(IssuePath(old(issue).value.title), formData))]
      ensures old(issue).Some? && !succeeded ==>
        issue == old(issue) && isEditing == old(isEditing) &&
        effects == old(effects) + [Sent(Put(IssuePath(old(issue).value.title), formData)), Alerted(UpdateFailedMessage)]
      ensures formData == old(formData) && error == old(error) && isLoading == old(isLoading)
    {
      if issue.None? {
        return;
      }
      var current := issue.value;
      effects := effects + [Sent(Put(IssuePath(current.title), formData))];
      if succeeded {
        issue := Some(Merge(current, formData));
        isEditing := false;
      } else {
        effects := effects + [Alerted(UpdateFailedMessage)];
      }
    }

    /** `handleDelete`; `confirmed` is the answer to the confirmation dialog. */
    method HandleDelete(user: Option<User>, confirmed: bool, succeeded: bool)
      modifies this`effects
      ensures effects == old(effects) + DeleteEffects(issue, user, confirmed, succeeded)
    {
      if issue.None? {
        return;
      }
      effects := effects + [AskedConfirm];
      if !confirmed {
        return;
      }
      if !(user.Some? && user.value.role == Admin) {
        effects := effects + [Alerted(OnlyAdminsMessage)];
        return;
      }
      effects := effects + [Sent(Delete(IssuePath(issue.value.title)))];
      if succeeded {
        effects := effects + [NavigatedTo(IssuesRoute)];
      } else {
        effects := effects + [Alerted(DeleteFailedMessage)];
      }
    }

    /** The Edit button. */
    method StartEditing()
      modifies this`isEditing
      ensures isEditing
    {
      isEditing := true;
    }

    /** The Cancel button: edit mode is left; neither the issue nor the draft changes. */
    method CancelEditing()
      modifies this`isEditing
      ensures !isEditing
    {
      isEditing := false;
    }

    /** The description box's change handler. */
    method EditDescription(description: string)
      modifies this`formData
      ensures formData == old(formData).(description := description)
    {
      formData := formData.(description := description);
    }

    /** The status selection's change handler. */
    method EditStatus(status: Status)
      modifies this`formData
      ensures formData == old(formData).(status := status)
    {
      formData := formData.(status := status);
    }

    /** The priority selection's change handler. */
    method EditPriority(priority: Priority)
      modifies this`formData
      ensures formData == old(formData).(priority := priority)
    {
      formData := formData.(priority := priority);
    }
  }
}
