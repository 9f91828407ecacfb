/** The page environment the client writes to: the current location (set
    by router pushes and by assignments to `window.location.href`) and the
    toaster, recorded as the list of notifications shown so far. */
module Browser {
  import opened Types

  datatype ToastKind = SuccessToast | ErrorToast

  datatype Toast = Toast(kind: ToastKind, title: string, description: Option<string>)

  function Plain(kind: ToastKind, title: string): Toast
  {
    Toast(kind, title, None)
  }

  class Window {
    var pathname: string
    var toasts: seq<Toast>

    constructor (path: string)
      ensures pathname == path && toasts == []
    {
      pathname := path;
      toasts := [];
    }

    method Navigate(path: string)
      modifies this
      ensures pathname == path && toasts == old(toasts)
    {
      pathname := path;
    }

    method Notify(t: Toast)
      modifies this
      ensures toasts == old(toasts) + [t] && pathname == old(pathname)
    {
      toasts := toasts + [t];
    }
  }
}
