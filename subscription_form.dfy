/**
 * `components/subscription-form.tsx`: the subscription form's state and
 * its submit handler. The server action is the oracle `action`, called
 * with `(name, email, subscriptionType)`; it answers `{ success: true }`,
 * `{ success: false, error }`, or throws.
 */
module SubscriptionForm {
  import opened Options

  const DEFAULT_TYPE := "digital"
  const MISSING_FIELDS := "Please fill in all fields"
  const FAILED := "Failed to create subscription"
  const UNEXPECTED := "An unexpected error occurred"

  datatype ActionReply = Succeeded | Refused(error: Option<string>) | CallThrew

  /** `!name || !email || !subscriptionType` fails. */
  predicate Filled(name: string, email: string, subscriptionType: string)
  {
    name != "" && email != "" && subscriptionType != ""
  }

  /** The message a finished request leaves: `result.error || "Failed…"`, or the catch-all. */
  function ErrorFor(reply: ActionReply): (e: Option<string>)
    ensures e.None? <==> reply.Succeeded?
    ensures reply.Refused? && Truthy(reply.error) ==> e == reply.error
    ensures e.Some? ==> e.value != ""
  {
    match reply
    case Succeeded => None
    case Refused(error) => if Truthy(error) then error else Some(FAILED)
    case CallThrew => Some(UNEXPECTED)
  }

  class SubscriptionFormState {
    var name: string
    var email: string
    var subscriptionType: string
    var isSubmitting: bool
    var error: Option<string>
    var success: bool

    constructor ()
      ensures name == "" && email == "" && subscriptionType == DEFAULT_TYPE
      ensures !isSubmitting && error.None? && !success
    {
      name := "";
      email := "";
      subscriptionType := DEFAULT_TYPE;
      isSubmitting := false;
      error := None;
      success := false;
    }

    /** The `onChange` handlers of the three inputs. */
    method SetFields(newName: string, newEmail: string, newType: string)
      modifies this
      ensures name == newName && email == newEmail && subscriptionType == newType
      ensures isSubmitting == old(isSubmitting) && error == old(error) && success == old(success)
    {
      name := newName;
      email := newEmail;
      subscriptionType := newType;
    }

    /**
     * `handleSubmit`: a form with an empty field only shows the
     * missing-fields message and sends nothing. Otherwise the request is
     * sent with the three fields; success resets the fields and shows the
     * thank-you card, failure shows the server's message or a default, and
     * the form is never left submitting.
     */
    method HandleSubmit(action: (string, string, string) -> ActionReply)
      modifies this
      ensures !Filled(old(name), old(email), old(subscriptionType)) ==>
        && error == Some(MISSING_FIELDS)
        && name == old(name) && email == old(email) && subscriptionType == old(subscriptionType)
        && isSubmitting == old(isSubmitting) && success == old(success)
      ensures Filled(old(name), old(email), old(subscriptionType)) ==>
        var reply := action(old(name), old(email), old(subscriptionType));
        && !isSubmitting
        && error == ErrorFor(reply)
        && success == (reply.Succeeded? || old(success))
        && (reply.Succeeded? ==> name == "" && email == "" && subscriptionType == DEFAULT_TYPE)
        && (!reply.Succeeded? ==> name == old(name) && email == old(email) && subscriptionType == old(subscriptionType))
    {
      if !Filled(name, email, subscriptionType) {
        error := Some(MISSING_FIELDS);
        return;
      }
      isSubmitting := true;
      error := None;
      var reply := action(name, email, subscriptionType);
      match reply {
        case Succeeded =>
          success := true;
          name := "";
          email := "";
          subscriptionType := DEFAULT_TYPE;
        case Refused(message) =>
          error := if Truthy(message) then message else Some(FAILED);
        case CallThrew =>
          error := Some(UNEXPECTED);
      }
      // finally
      isSubmitting := false;
    }

    /** "Subscribe another account". */
    method SubscribeAnother()
      modifies this
      ensures !success
      ensures name == old(name) && email == old(email) && subscriptionType == old(subscriptionType)
      ensures isSubmitting == old(isSubmitting) && error == old(error)
    {
      success := false;
    }
  }
}
