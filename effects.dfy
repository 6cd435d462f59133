/**
 * What a page handler does outside its own state: a toast through the
 * `useToast` helpers, or a route change through `navigate`. Pages record these
 * in order, as a trace.
 */
module Effects {
  import Toasts

  datatype Effect =
    | ShowToast(kind: Toasts.ToastType, message: string)
    | Navigate(path: string)

  const ListRoute: string := "/pessoas"
}
