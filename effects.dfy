/** What a page handler does to the outside world, and what the server answers.
    A handler's run is a list of effects in the order the handler causes them. */
module Effects {
  import opened TodoList

  datatype Option<T> = None | Some(value: T)

  datatype Verb = Get | Post | Put | Delete

  /** The JSON bodies the pages send. */
  datatype RequestBody =
    | NoBody
    | TodoFields(title: string, description: string)
    | TitleField(title: string)
    | LoginFields(email: string, password: string)
    | RegisterFields(fullName: string, email: string, password: string)

  datatype ToastKind = Success | Error

  datatype Delay = Immediate | After(ms: nat)

  datatype Effect =
    | Request(verb: Verb, path: string, body: RequestBody)  // a `fetch` issued, path relative to the API origin
    | Toast(kind: ToastKind, text: string)                  // `toast.success` / `toast.error`
    | Navigate(destination: string, delay: Delay)           // `router.push`, directly or from a `setTimeout`

  /** What a `fetch` followed by `res.json()` yields: either one of the two threw,
      or the body parsed and the handler may read `res.ok` and the fields of `data`
      (`todos` is `None` when `data.todos` is not an array). */
  datatype Response =
    | Threw
    | Parsed(ok: bool, message: string, success: bool, todo: Todo, todos: Option<seq<Todo>>)

  /** A request that asks the server to change something (every verb but GET). */
  predicate IsWriteRequest(e: Effect) {
    e.Request? && e.verb != Get
  }

  const SuccessMark := "\U{2705} "
  const WarningMark := "\U{26A0}\U{FE0F} "
  const FailureMark := "\U{274C} "
  const LoginRoute := "/login"
  const TodosRoute := "/todos"
}
