/**
 * The create-issue form (src/components/Issues/CreateIssue.tsx): the form fields, the
 * change handler, the payload the submit handler posts, its error message, and the
 * list of users offered as assignees.
 */
module CreateIssue {
  import opened Types
  import opened Http

  /** The form's fields, all strings as the inputs and selections hold them. */
  datatype Form = Form(title: string, description: string, status: string, priority: string, assignee: string)

  /** The `name` attributes of the form's controls. */
  datatype Field = TitleField | DescriptionField | StatusField | PriorityField | AssigneeField

  /** The request body: `assignee` is a field only when one was chosen. */
  datatype Payload = Payload(title: string, description: string, status: string, priority: string, assignee: Option<string>)

  /** Empty title, description and assignee; status Open; priority Low. */
  const InitialForm := Form("", "", "Open", "Low", "")

  const LoginRequiredMessage := "You must be logged in to create an issue."
  const CreateFailedMessage := "Failed to create issue."
  const FormatErrorMessage := "Failed to load users: Unexpected response format"
  const IssueCollectionPath := "/issue"

  /** The value of the named field. */
  function FieldValue(f: Form, field: Field): string
  {
    match field
    case TitleField => f.title
    case DescriptionField => f.description
    case StatusField => f.status
    case PriorityField => f.priority
    case AssigneeField => f.assignee
  }

  /** `{...prev, [name]: value}`: the named field takes the value, every other field keeps its own. */
  function WithField(f: Form, field: Field, value: string): (r: Form)
    ensures FieldValue(r, field) == value
    ensures forall other :: other != field ==> FieldValue(r, other) == FieldValue(f, other)
  {
    match field
    case TitleField => f.(title := value)
    case DescriptionField => f.(description := value)
    case StatusField => f.(status := value)
    case PriorityField => f.(priority := value)
    case AssigneeField => f.(assignee := value)
  }

  /** A form is determined by its field values, so a change is undone by writing the old value back. */
  lemma WithFieldUndo(f: Form, field: Field, value: string)
    ensures WithField(WithField(f, field, value), field, FieldValue(f, field)) == f
  {
    var g := WithField(WithField(f, field, value), field, FieldValue(f, field));
    assert FieldValue(g, TitleField) == FieldValue(f, TitleField);
    assert FieldValue(g, DescriptionField) == FieldValue(f, DescriptionField);
    assert FieldValue(g, StatusField) == FieldValue(f, StatusField);
    assert FieldValue(g, PriorityField) == FieldValue(f, PriorityField);
    assert FieldValue(g, AssigneeField) == FieldValue(f, AssigneeField);
  }

  /**
   * The payload: title, description, status and priority always copied from the form;
   * the assignee present exactly when the form's is non-empty.
   */
  function PayloadOf(form: Form): (p: Payload)
    ensures p.title == form.title && p.description == form.description
    ensures p.status == form.status && p.priority == form.priority
    ensures p.assignee.Some? <==> form.assignee != ""
    ensures p.assignee.Some? ==> p.assignee.value == form.assignee
  {
    Payload(form.title, form.description, form.status, form.priority,
            if form.assignee != "" then Some(form.assignee) else None)
  }

  /**
   * `err.response?.data?.message || err.message || 'Failed to create issue.'`: the first
   * of the three that is a non-empty string; never empty.
   */
  function ErrorMessage(err: HttpError): (m: string)
    ensures m != ""
    ensures Truthy(err.serverMessage) ==> m == err.serverMessage.value
    ensures !Truthy(err.serverMessage) && err.message != "" ==> m == err.message
    ensures !Truthy(err.serverMessage) && err.message == "" ==> m == CreateFailedMessage
  {
    if Truthy(err.serverMessage) then err.serverMessage.value
    else if err.message != "" then err.message
    else CreateFailedMessage
  }

  /** What the users request leads to. */
  datatype UsersOutcome = Loaded(users: seq<User>) | FormatError | Ignored

  /**
   * `fetchUsers`: a bare array or a `users` array is taken; any other shape is a format
   * error; a failed request, or a missing body (on which reading `users` throws), is
   * only logged.
   */
  function UsersFrom(response: Outcome<ListBody<User>>): (r: UsersOutcome)
    ensures r.Loaded? <==> response.Ok? && (response.body.BareArray? || response.body.Keyed?)
    ensures r.Loaded? && response.body.BareArray? ==> r.users == response.body.items
    ensures r.Loaded? && response.body.Keyed? ==> r.users == response.body.keyed
    ensures r == FormatError <==> response.Ok? && response.body.OtherShape?
    ensures r == Ignored <==> response.Failed? || response.body.NoBody?
  {
    match response
    case Failed(_) => Ignored
    case Ok(BareArray(xs)) => Loaded(xs)
    case Ok(Keyed(xs)) => Loaded(xs)
    case Ok(NoBody) => Ignored
    case Ok(OtherShape) => FormatError
  }

  /** The effects of a submit by a logged-in user: one POST, then the list on success. */
  function SubmitEffects(form: Form, failure: Option<HttpError>): (effects: seq<Effect<Payload>>)
    ensures |effects| == if failure.None? then 2 else 1
    ensures effects[0] == Sent(Post(IssueCollectionPath, PayloadOf(form)))
    ensures NavigatedTo(IssuesRoute) in effects <==> failure.None?
    ensures SendsRequest(effects)
  {
    [Sent(Post(IssueCollectionPath, PayloadOf(form)))] + (if failure.None? then [NavigatedTo(IssuesRoute)] else [])
  }

  /** The form's state. */
  class CreateIssueView {
    var isLoading: bool
    var error: string
    var users: seq<User>
    var formData: Form
    var effects: seq<Effect<Payload>>

    constructor ()
      ensures !isLoading && error == "" && users == []
      ensures formData == InitialForm && effects == []
    {
      isLoading := false;
      error := "";
      users := [];
      formData := InitialForm;
      effects := [];
    }

    /** The mount effect that loads the assignee choices. */
    method FetchUsers(response: Outcome<ListBody<User>>)
      modifies this`users, this`error
      ensures UsersFrom(response).Loaded? ==> users == UsersFrom(response).users && error == old(error)
      ensures UsersFrom(response) == FormatError ==> users == old(users) && error == FormatErrorMessage
      ensures UsersFrom(response) == Ignored ==> users == old(users) && error == old(error)
    {
      if response.Ok? {
        var data := response.body;
        if data.BareArray? {
          users := data.items;
        } else if data.Keyed? {
          users := data.keyed;
        } else if data.OtherShape? {
          error := FormatErrorMessage;
        }
      }
    }

    /** `handleChange`. */
    method HandleChange(field: Field, value: string)
      modifies this`formData
      ensures formData == WithField(old(formData), field, value)
    {
      formData := WithField(formData, field, value);
    }

    /**
     * `handleSubmit`; `failure` is None when the POST succeeds. Without a user only the
     * error is set. Otherwise the payload is built, the assignee added when chosen, and
     * posted; success navigates to the list, failure shows `ErrorMessage`.
     */
    method HandleSubmit(user: Option<User>, failure: Option<HttpError>)
      modifies this`isLoading, this`error, this`effects
      ensures user.None? ==>
        error == LoginRequiredMessage && effects == old(effects) && isLoading == old(isLoading)
      ensures user.Some? ==> effects == old(effects) + SubmitEffects(formData, failure) && !isLoading
      ensures user.Some? ==> error == if failure.None? then "" else ErrorMessage(failure.value)
    {
      if user.None? {
        error := LoginRequiredMessage;
        return;
      }
      isLoading := true;
      error := "";
      var payload := Payload(formData.title, formData.description, formData.status, formData.priority, None);
      if formData.assignee != "" {
        payload := payload.(assignee := Some(formData.assignee));
      }
      effects := effects + [Sent(Post(IssueCollectionPath, payload))];
      if failure.None? {
        effects := effects + [NavigatedTo(IssuesRoute)];
      } else {
        error := ErrorMessage(failure.value);
      }
      isLoading := false;
    }
  }
}
