/** The router's current location, as `useLocation` reads it and `useNavigate` changes it. */
module Routing {

  class Router {
    var pathname: string

    constructor (start: string)
      ensures pathname == start
    {
      pathname := start;
    }

    /** `navigate(to)`. */
    method Navigate(to: string)
      modifies this
      ensures pathname == to
    {
      pathname := to;
    }
  }
}
