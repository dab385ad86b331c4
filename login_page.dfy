/** The login page: a two-field form record and its submit handler. */
module LoginPage {
  import opened Effects

  datatype LoginData = LoginData(email: string, password: string)

  /** The `name` attributes of the page's inputs. */
  datatype LoginField = Email | Password

  const LoginPath := "/api/auth/login"
  const LoginDelayMs := 2000
  const LoginFailed := FailureMark + "Login failed. Please try again."

  function FieldValue(d: LoginData, field: LoginField): string {
    match field
    case Email => d.email
    case Password => d.password
  }

  /** `{ ...formData, [e.target.name]: e.target.value }`. */
  function Changed(d: LoginData, field: LoginField, value: string): (r: LoginData)
    ensures FieldValue(r, field) == value
    ensures forall other :: other != field ==> FieldValue(r, other) == FieldValue(d, other)
  {
    match field
    case Email => d.(email := value)
    case Password => d.(password := value)
  }

  /** `handleSubmit`: the form record is posted as it is; then one toast, and a
      delayed move to the todos page only when the server answered `res.ok`. */
  function Submit(d: LoginData, resp: Response): (r: seq<Effect>)
    ensures 2 <= |r| <= 3 && r[0] == Request(Post, LoginPath, LoginFields(d.email, d.password))
    ensures r[1].Toast? && (r[1].kind == Success <==> resp.Parsed? && resp.ok)
    ensures |r| == 3 <==> resp.Parsed? && resp.ok
    ensures |r| == 3 ==> r[2] == Navigate(TodosRoute, After(2000))
    ensures resp.Parsed? ==> r[1].text == (if resp.ok then SuccessMark else WarningMark) + resp.message
    ensures resp.Threw? ==> r[1].text == LoginFailed
  {
    var request := Request(Post, LoginPath, LoginFields(d.email, d.password));
    match resp
    case Threw => [request, Toast(Error, LoginFailed)]
    case Parsed(ok, message, _, _, _) =>
      if ok then [request, Toast(Success, SuccessMark + message), Navigate(TodosRoute, After(LoginDelayMs))]
      else [request, Toast(Error, WarningMark + message)]
  }

  /** What is posted after typing `value` into an input is that value in that field. */
  lemma ChangeThenSubmit(d: LoginData, field: LoginField, value: string, resp: Response)
    ensures var body := Submit(Changed(d, field, value), resp)[0].body;
      match field
      case Email => body.email == value && body.password == d.password
      case Password => body.password == value && body.email == d.email
  {
  }

  class Page {
    var formData: LoginData

    constructor ()
      ensures formData == LoginData("", "")
    {
      formData := LoginData("", "");
    }

    method HandleChange(field: LoginField, value: string)
      modifies this
      ensures formData == Changed(old(formData), field, value)
    {
      formData := Changed(formData, field, value);
    }

    method HandleSubmit(resp: Response) returns (effects: seq<Effect>)
      ensures effects == Submit(formData, resp)
    {
      effects := Submit(formData, resp);
    }
  }
}
