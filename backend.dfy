/** Shapes of the answers the hosted backend gives. Every backend call of the
    components is a parameter of the model: the caller supplies what the call
    returned, or that its promise was rejected. */
module Backend {
  import opened Common

  /** An identity as the auth service reports it (`user.id`, `user.email`,
      `user.email_confirmed_at`). */
  datatype User = User(id: string, email: Option<string>, emailConfirmedAt: Option<string>)

  /** A session; `session.user` is read through optional chaining. */
  datatype Session = Session(user: Option<User>)

  /** An error object returned (not thrown) by the backend client. */
  datatype BackendError = BackendError(message: string)

  /** The outcome of one awaited call: the value it resolved to, or a
      rejected promise that the caller's `catch` receives. `thrown` is the
      rejection's `message` property (None when it has none). */
  datatype Call<T> = Returned(value: T) | Threw(thrown: Option<string>)

  /** `user.email_confirmed_at` is set (a non-empty timestamp). */
  predicate EmailConfirmed(u: User) {
    Truthy(u.emailConfirmedAt)
  }

  /** A toast notification: its title, description, and whether it uses the
      destructive (error) style. */
  datatype Toast = Toast(title: string, description: string, destructive: bool)
}
