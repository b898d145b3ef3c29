/** The root layout's `load`: send unsupported systems to one page, and `/` to the container list. */
module Layout {
  import opened Wrappers

  datatype Redirect = Redirect(status: int, location: string)

  const UnsupportedPath: string := "/unsupported"
  const HomePath: string := "/containers"

  /** `load({url})`: `unsupported` is `isUnsupported()`; `None` is no redirect. */
  function Load(unsupported: bool, pathname: string): (r: Option<Redirect>)
    ensures r.Some? ==> r.value.status == 301
  {
    if unsupported && pathname != UnsupportedPath then Some(Redirect(301, UnsupportedPath))
    else if pathname == "/" then Some(Redirect(301, HomePath))
    else None
  }

  /** Where each request ends up, case by case. */
  lemma {:induction false} LoadCases(unsupported: bool, pathname: string)
    ensures Load(unsupported, pathname) == Some(Redirect(301, UnsupportedPath))
        <==> unsupported && pathname != UnsupportedPath
    ensures Load(unsupported, pathname) == Some(Redirect(301, HomePath)) <==> !unsupported && pathname == "/"
    ensures Load(unsupported, pathname) == None
        <==> (unsupported && pathname == UnsupportedPath) || (!unsupported && pathname != "/")
  {
  }

  /** Following the redirect is stable: the target page is not redirected again. */
  lemma {:induction false} RedirectTargetIsFinal(unsupported: bool, pathname: string)
    requires Load(unsupported, pathname).Some?
    ensures Load(unsupported, Load(unsupported, pathname).value.location) == None
  {
  }
}
