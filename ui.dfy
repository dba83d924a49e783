/** What the pages hand to the toast library and the router: user notices and navigation targets. */
module Ui {

  /** A `toast.error(...)` or `toast.success(...)` call with its text. */
  datatype Toast = ErrorToast(text: string) | SuccessToast(text: string)

  /** The screens the client navigates to. */
  datatype Route = Root | LoginScreen | HomeScreen

  function Path(r: Route): string {
    match r
    case Root => "/"
    case LoginScreen => "/Auth/Login"
    case HomeScreen => "/Home"
  }
}
