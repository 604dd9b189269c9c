/** The toast messages the screens show after an action. */
module Feedback {

  datatype Toast = Success(text: string) | Failure(text: string)
}
