/** What the pages hand to React Router's `navigate` and `<Navigate>`: a
    target path, whether the history entry is replaced, and the location
    state the next page reads. */
module Routing {
  import opened Wrappers

  /** The location-state fields the pages use: `from`, `answers`, `errorMessage`. */
  datatype NavState = NavState(from: Option<string>, answers: Option<map<nat, string>>, errorMessage: Option<string>)

  const NoState := NavState(None, None, None)

  datatype Navigation = Navigation(to: string, replace: bool, state: NavState)

  /** `navigate(to)`. */
  function Push(to: string): Navigation {
    Navigation(to, false, NoState)
  }

  /** `navigate(to, { replace: true })` / `<Navigate to={to} replace />`. */
  function Replace(to: string): Navigation {
    Navigation(to, true, NoState)
  }
}
