/** What the admin pages show the user, and what a backend call hands back. */
module Feedback {

  /** A toast from `message.success` or `message.error`. */
  datatype Notice = Success(text: string) | Error(text: string)

  /** A backend reply: the parsed body on a 2xx status, otherwise the message the server gave
    * (empty when it gave none). */
  datatype Reply<T> = Ok(body: T) | Failed(message: string)

}
