/** The register page: a three-field form record and its submit handler, which
    has no `try`/`catch`, so a failed `fetch` or `res.json()` escapes it. */
module RegisterPage {
  import opened Effects

  datatype RegisterData = RegisterData(fullName: string, email: string, password: string)

  /** The `name` attributes of the page's inputs. */
  datatype RegisterField = FullName | Email | Password

  /** How the handler's promise ends: normally, or rejected by an exception it does not catch. */
  datatype Completion = Settled(effects: seq<Effect>) | Escaped(effects: seq<Effect>)

  const RegisterPath := "/api/auth/register"
  const RegisterDelayMs := 2000

  function FieldValue(d: RegisterData, field: RegisterField): string {
    match field
    case FullName => d.fullName
    case Email => d.email
    case Password => d.password
  }

  /** `{ ...formData, [e.target.name]: e.target.value }`. */
  function Changed(d: RegisterData, field: RegisterField, value: string): (r: RegisterData)
    ensures FieldValue(r, field) == value
    ensures forall other :: other != field ==> FieldValue(r, other) == FieldValue(d, other)
  {
    match field
    case FullName => d.(fullName := value)
    case Email => d.(email := value)
    case Password => d.(password := value)
  }

  /** `handleSubmit`: the form record is posted as it is; a parsed answer gives one
      toast, and a delayed move to the login page only when `res.ok`; an exception
      leaves the handler with no toast and no navigation. */
  function Submit(d: RegisterData, resp: Response): (r: Completion)
    ensures |r.effects| >= 1 && r.effects[0] == Request(Post, RegisterPath, RegisterFields(d.fullName, d.email, d.password))
    ensures r.Escaped? <==> resp.Threw?
    ensures r.Escaped? ==> |r.effects| == 1
    ensures resp.Parsed? && resp.ok ==>
              r.effects[1..] == [Toast(Success, SuccessMark + resp.message), Navigate(LoginRoute, After(2000))]
    ensures resp.Parsed? && !resp.ok ==> r.effects[1..] == [Toast(Error, WarningMark + resp.message)]
  {
    var request := Request(Post, RegisterPath, RegisterFields(d.fullName, d.email, d.password));
    match resp
    case Threw => Escaped([request])
    case Parsed(ok, message, _, _, _) =>
      if ok then Settled([request, Toast(Success, SuccessMark + message), Navigate(LoginRoute, After(RegisterDelayMs))])
      else Settled([request, Toast(Error, WarningMark + message)])
  }

  class Page {
    var formData: RegisterData

    constructor ()
      ensures formData == RegisterData("", "", "")
    {
      formData := RegisterData("", "", "");
    }

    method HandleChange(field: RegisterField, value: string)
      modifies this
      ensures formData == Changed(old(formData), field, value)
    {
      formData := Changed(formData, field, value);
    }

    method HandleSubmit(resp: Response) returns (outcome: Completion)
      ensures outcome == Submit(formData, resp)
    {
      outcome := Submit(formData, resp);
    }
  }
}
