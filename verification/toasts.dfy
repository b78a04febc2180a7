/** The toast notifications the screens raise, as the value a handler reports. */
module Toasts {
  datatype Toast = NoToast | ToastSuccess(message: string) | ToastError(message: string)
}
