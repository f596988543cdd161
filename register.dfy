/**
 * The registration page (client/src/components/Register.js): the form fields, the two client-side
 * checks made before anything is sent, the payload posted to the server, and the choice of the
 * error text shown when the request fails.
 */
module Register {
  import opened Wrappers

  const MinPasswordLength: nat := 6
  const MismatchText: string := "Passwords do not match!"
  const TooShortText: string := "Password must be at least 6 characters long!"
  const TimeoutCode: string := "ECONNABORTED"
  const NetworkCode: string := "ERR_NETWORK"
  const TimeoutText: string := "Request timed out. Please check your connection and try again."
  const NetworkText: string := "Cannot connect to server. Please make sure the backend is running on port 5000."
  const DefaultText: string := "Registration failed. Please try again."
  /** What an answer with `success` false is rethrown with when it carries no message. */
  const RejectedText: string := "Registration failed"

  datatype Field = Name | Email | Password | ConfirmPassword | Place | Role | Phone

  datatype Form = Form(name: string, email: string, password: string, confirmPassword: string,
                       place: string, role: string, phone: string)
  {
    function Get(f: Field): string {
      match f
      case Name => name
      case Email => email
      case Password => password
      case ConfirmPassword => confirmPassword
      case Place => place
      case Role => role
      case Phone => phone
    }

    /** `{ ...form, [field]: value }`. */
    function With(f: Field, v: string): (r: Form)
      ensures r.Get(f) == v
      ensures forall g :: g != f ==> r.Get(g) == Get(g)
    {
      match f
      case Name => this.(name := v)
      case Email => this.(email := v)
      case Password => this.(password := v)
      case ConfirmPassword => this.(confirmPassword := v)
      case Place => this.(place := v)
      case Role => this.(role := v)
      case Phone => this.(phone := v)
    }
  }

  const EmptyForm: Form := Form("", "", "", "", "", "", "")

  /** The `userData` object posted to the server. */
  datatype UserData = UserData(name: string, email: string, password: string,
                               place: string, role: string, phone: string)

  function Payload(form: Form): (r: UserData)
    ensures [r.name, r.email, r.password, r.place, r.role, r.phone]
            == [form.Get(Name), form.Get(Email), form.Get(Password), form.Get(Place), form.Get(Role), form.Get(Phone)]
  {
    UserData(form.name, form.email, form.password, form.place, form.role, form.phone)
  }

  /** Two forms give the same payload exactly when they agree on every field but the confirmation. */
  lemma PayloadIsSixFields(f1: Form, f2: Form)
    ensures Payload(f1) == Payload(f2) <==> forall g :: g != ConfirmPassword ==> f1.Get(g) == f2.Get(g)
  {
    if forall g :: g != ConfirmPassword ==> f1.Get(g) == f2.Get(g) {
      assert f1.Get(Name) == f2.Get(Name) && f1.Get(Email) == f2.Get(Email);
      assert f1.Get(Password) == f2.Get(Password) && f1.Get(Place) == f2.Get(Place);
      assert f1.Get(Role) == f2.Get(Role) && f1.Get(Phone) == f2.Get(Phone);
    }
  }

  /** The confirmation field never reaches the server. */
  lemma PayloadIgnoresConfirmation(form: Form, v: string)
    ensures Payload(form.With(ConfirmPassword, v)) == Payload(form)
  {
    PayloadIsSixFields(form.With(ConfirmPassword, v), form);
  }

  /** The two checks of `handleSubmit`, in order: the passwords must match, then be at least six long. */
  function Validate(form: Form): (r: Option<string>)
    ensures r == Some(MismatchText) <==> form.password != form.confirmPassword
    ensures r == Some(TooShortText) <==> form.password == form.confirmPassword && |form.password| < MinPasswordLength
    ensures r == None <==> form.password == form.confirmPassword && |form.password| >= MinPasswordLength
  {
    if form.password != form.confirmPassword then Some(MismatchText)
    else if |form.password| < MinPasswordLength then Some(TooShortText)
    else None
  }

  /** What the `catch` of `handleSubmit` reads off the error: `code`, `response.data.message`, `message`. */
  datatype RequestError = RequestError(code: Option<string>, serverMessage: Option<string>, message: Option<string>)

  /** The text `handleSubmit` shows for a failed request. */
  function ErrorText(e: RequestError): (r: string)
    ensures r != ""
  {
    if e.code == Some(TimeoutCode) then TimeoutText
    else if e.code == Some(NetworkCode) then NetworkText
    else if Truthy(e.serverMessage) then e.serverMessage.value
    else if Truthy(e.message) then e.message.value
    else DefaultText
  }

  /** The first candidate that is present and non-empty, or the fallback. */
  function FirstTruthy(candidates: seq<Option<string>>, fallback: string): (r: string)
    ensures r == fallback || exists i :: 0 <= i < |candidates| && Truthy(candidates[i]) && r == candidates[i].value
  {
    if candidates == [] then fallback
    else if Truthy(candidates[0]) then candidates[0].value
    else FirstTruthy(candidates[1..], fallback)
  }

  /** The candidates in order of precedence: the timeout text, the network text, the server's
      message, the error's own message. */
  function Candidates(e: RequestError): seq<Option<string>> {
    [ if e.code == Some(TimeoutCode) then Some(TimeoutText) else None,
      if e.code == Some(NetworkCode) then Some(NetworkText) else None,
      e.serverMessage,
      e.message ]
  }

  /** The error text is the first present candidate in precedence order, else the default. */
  lemma ErrorTextIsFirstCandidate(e: RequestError)
    ensures ErrorText(e) == FirstTruthy(Candidates(e), DefaultText)
  {
    var c := Candidates(e);
    assert c[1..][1..][1..][1..] == [];
    assert FirstTruthy(c[1..][1..][1..], DefaultText) == OrElse(e.message, DefaultText);
    assert FirstTruthy(c[1..][1..], DefaultText)
        == if Truthy(e.serverMessage) then e.serverMessage.value else OrElse(e.message, DefaultText);
  }

  /** The text shown is never empty. */
  lemma ErrorTextNonEmpty(e: RequestError)
    ensures ErrorText(e) != ""
  {
  }

  /** A timeout or network code hides whatever the server said. */
  lemma TransportCodesWin(e: RequestError, serverMessage: Option<string>, message: Option<string>)
    requires e.code == Some(TimeoutCode) || e.code == Some(NetworkCode)
    ensures ErrorText(e.(serverMessage := serverMessage, message := message)) == ErrorText(e)
  {
  }

  /** The error `handleSubmit` throws itself when the server answers with `success` false. */
  function RejectionError(message: Option<string>): (e: RequestError)
    ensures ErrorText(e) == OrElse(message, RejectedText)
  {
    RequestError(None, None, Some(OrElse(message, RejectedText)))
  }

  /** What the awaited `axios.post` of a registration ends in. */
  datatype SubmitOutcome =
    | Answered(success: bool, message: Option<string>)
    | Failed(error: RequestError)

  class RegisterPage {
    var form: Form
    var error: string
    var isLoading: bool
    var showSuccess: bool

    constructor ()
      ensures form == EmptyForm && error == "" && !isLoading && !showSuccess
    {
      form, error, isLoading, showSuccess := EmptyForm, "", false, false;
    }

    /** `handleChange`: only the named field takes the new value, and any error is cleared. */
    method HandleChange(f: Field, v: string)
      modifies this`form, this`error
      ensures form == old(form).With(f, v)
      ensures error == ""
    {
      form := form.With(f, v);
      if error != "" {
        error := "";
      }
    }

    /** The synchronous half of `handleSubmit`. A failed check sets its text and sends nothing;
        otherwise loading starts, the error is cleared and the payload is returned for posting. */
    method BeginSubmit() returns (request: Option<UserData>)
      modifies this`error, this`isLoading
      ensures Validate(form).Some? ==> request == None && error == Validate(form).value && isLoading == old(isLoading)
      ensures Validate(form).None? ==> request == Some(Payload(form)) && isLoading && error == ""
    {
      if form.password != form.confirmPassword {
        error := MismatchText;
        return None;
      }
      if |form.password| < MinPasswordLength {
        error := TooShortText;
        return None;
      }
      isLoading, error := true, "";
      request := Some(Payload(form));
    }

    /** The asynchronous half of `handleSubmit`: success shows the success banner, any failure
        shows its error text, and loading ends whatever happened. */
    method FinishSubmit(outcome: SubmitOutcome)
      modifies this`error, this`isLoading, this`showSuccess
      ensures !isLoading
      ensures outcome.Answered? && outcome.success ==> showSuccess && error == old(error)
      ensures outcome.Answered? && !outcome.success ==>
                error == OrElse(outcome.message, RejectedText) && showSuccess == old(showSuccess)
      ensures outcome.Failed? ==> error == ErrorText(outcome.error) && showSuccess == old(showSuccess)
    {
      match outcome {
        case Answered(success, message) =>
          if success {
            showSuccess := true;
          } else {
            error := ErrorText(RejectionError(message));
          }
        case Failed(e) =>
          error := ErrorText(e);
      }
      isLoading := false;
    }
  }
}
