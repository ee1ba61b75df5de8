/** The user page: a fixed form of name, email and phone that creates a user,
    or updates the user loaded for editing, and the list of users. */
module UserFormView {
  import opened Common
  import opened Json
  import opened FormRules

  const NameRule: Rule := Required(true, "Please enter your name")
  const EmailRule: Rule := Required(true, "Please enter your email")
  const EmailTypeRule: Rule := EmailType("Please enter a valid email")
  const PhoneRule: Rule := Required(true, "Please enter your phone number")

  /** The three form items and their rules, in page order. */
  const UserChecks: seq<Check> := [
    Check("name", [NameRule]),
    Check("email", [EmailRule, EmailTypeRule]),
    Check("phone", [PhoneRule])
  ]

  const UserFields: set<string> := {"name", "email", "phone"}

  /** What the rules accept: a name and a phone, and an email that is a
      non-empty string the email test accepts. */
  predicate UserValid(values: Document, isEmail: string -> bool) {
    && !Empty(values, "name")
    && !Empty(values, "phone")
    && "email" in values && values["email"].Str? && values["email"].s != "" && isEmail(values["email"].s)
  }

  /** The form submits exactly when the values are a valid user. */
  lemma UserRulesIff(values: Document, isEmail: string -> bool)
    ensures Errors(UserChecks, values, isEmail) == [] <==> UserValid(values, isEmail)
  {
    ErrorsEmpty(UserChecks, values, isEmail);
    var n := RulesPass([NameRule], values, "name", isEmail);
    var e := RulesPass([EmailRule, EmailTypeRule], values, "email", isEmail);
    var p := RulesPass([PhoneRule], values, "phone", isEmail);
    assert Passes(UserChecks, values, isEmail) <==> n && e && p by {
      assert UserChecks[0] == Check("name", [NameRule]);
      assert UserChecks[1] == Check("email", [EmailRule, EmailTypeRule]);
      assert UserChecks[2] == Check("phone", [PhoneRule]);
    }
    assert n <==> RuleError(NameRule, values, "name", isEmail).None? by {
      assert [NameRule][0] == NameRule;
    }
    assert p <==> RuleError(PhoneRule, values, "phone", isEmail).None? by {
      assert [PhoneRule][0] == PhoneRule;
    }
    assert e <==> RuleError(EmailRule, values, "email", isEmail).None?
                  && RuleError(EmailTypeRule, values, "email", isEmail).None? by {
      assert [EmailRule, EmailTypeRule][0] == EmailRule;
      assert [EmailRule, EmailTypeRule][1] == EmailTypeRule;
    }
  }

  /** A request to the user endpoints. */
  datatype UserRequest =
    | CreateUser(body: Document)
    | UpdateUser(id: Value, body: Document)
    | DeleteUser(id: Value)

  /** The outcome of pressing Submit: stopped by validation with its messages,
      or a request sent (and, when the server accepted it, the list refetched). */
  datatype SubmitResult = Blocked(messages: seq<string>) | Sent(request: UserRequest, refetch: bool)

  /** The submit path: validation, then an update of the user being edited
      when there is one (`if (editingId)`), a create otherwise. */
  function SubmitDecision(editingId: Value, values: Document, isEmail: string -> bool, accepted: bool): (r: SubmitResult)
    ensures r.Sent? <==> UserValid(values, isEmail)
    ensures r.Blocked? ==> r.messages != []
    ensures r.Sent? ==> !r.request.DeleteUser? && r.refetch == accepted && r.request.body.Keys <= UserFields
    ensures r.Sent? && Truthy(editingId) ==> r.request.UpdateUser? && r.request.id == editingId
    ensures r.Sent? && !Truthy(editingId) ==> r.request.CreateUser?
    ensures r.Sent? ==> forall k :: k in r.request.body ==> r.request.body[k] == values[k]
    ensures r.Sent? ==> UserValid(r.request.body, isEmail)
  {
    UserRulesIff(values, isEmail);
    var errs := Errors(UserChecks, values, isEmail);
    if errs != [] then Blocked(errs)
    else
      var body := Submitted(values, UserFields);
      if Truthy(editingId) then Sent(UpdateUser(editingId, body), accepted)
      else Sent(CreateUser(body), accepted)
  }

  class UserFormPage {
    /** The `_id` of the user loaded for editing; `Null` when none is. */
    var editingId: Value
    /** The values held by the form. */
    var values: Document
    var users: seq<Value>

    constructor ()
      ensures editingId == Null && values == map[] && users == []
    {
      editingId, values, users := Null, map[], [];
    }

    /** `fetchUsers`: only an array replaces the list; any other answer, or a
        failed request, keeps it. */
    method FetchUsers(response: Option<Value>)
      modifies this
      ensures response.Some? && response.value.Arr? ==> users == response.value.items
      ensures !(response.Some? && response.value.Arr?) ==> users == old(users)
      ensures editingId == old(editingId) && values == old(values)
    {
      if response.Some? && response.value.Arr? {
        users := response.value.items;
      }
    }

    /** `handleEdit(record)`: load the record into the form and remember its `_id`
        (a record without one leaves nothing being edited). */
    method HandleEdit(record: Document)
      modifies this
      ensures values == old(values) + record
      ensures editingId == (if "_id" in record then record["_id"] else Null)
      ensures users == old(users)
    {
      values := values + record;
      editingId := if "_id" in record then record["_id"] else Null;
    }

    /** Submit: validation, then `onFinish`.  `accepted` is whether the server
        answered with success.  After a successful update nothing is being
        edited any more; after any success the form is emptied and the users are
        fetched again, `refetched` being that answer; after a failure the form,
        the user being edited and the list stay as they were. */
    method Submit(isEmail: string -> bool, accepted: bool, refetched: Option<Value>) returns (result: SubmitResult)
      modifies this
      ensures result == SubmitDecision(old(editingId), old(values), isEmail, accepted)
      ensures result.Sent? && accepted ==>
        values == map[] && editingId == (if result.request.UpdateUser? then Null else old(editingId))
      ensures !(result.Sent? && accepted) ==> values == old(values) && editingId == old(editingId)
      ensures result.Sent? && accepted && refetched.Some? && refetched.value.Arr? ==> users == refetched.value.items
      ensures !(result.Sent? && accepted && refetched.Some? && refetched.value.Arr?) ==> users == old(users)
    {
      var errs := Errors(UserChecks, values, isEmail);
      if errs != [] {
        return Blocked(errs);
      }
      var body := Submitted(values, UserFields);
      if Truthy(editingId) {
        result := Sent(UpdateUser(editingId, body), accepted);
        if accepted {
          editingId := Null;
        }
      } else {
        result := Sent(CreateUser(body), accepted);
      }
      if accepted {
        values := map[];
        FetchUsers(refetched);
      }
    }

    /** `handleDelete(id)`: send the delete; when it succeeds, refetch. */
    method HandleDelete(id: Value, deleted: bool, refetched: Option<Value>) returns (request: UserRequest)
      modifies this
      ensures request == DeleteUser(id)
      ensures deleted && refetched.Some? && refetched.value.Arr? ==> users == refetched.value.items
      ensures !(deleted && refetched.Some? && refetched.value.Arr?) ==> users == old(users)
      ensures editingId == old(editingId) && values == old(values)
    {
      request := DeleteUser(id);
      if deleted {
        FetchUsers(refetched);
      }
    }
  }

  /** Loading a user with an id and submitting valid values updates that user. */
  lemma EditThenSubmitUpdates(before: Document, record: Document, isEmail: string -> bool, accepted: bool)
    requires "_id" in record && Truthy(record["_id"])
    requires UserValid(before + record, isEmail)
    ensures SubmitDecision(record["_id"], before + record, isEmail, accepted).Sent?
    ensures SubmitDecision(record["_id"], before + record, isEmail, accepted).request == UpdateUser(record["_id"], Submitted(before + record, UserFields))
  {
  }
}
