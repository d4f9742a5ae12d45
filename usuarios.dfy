/** The user objects the persistence mixins receive. */
module Usuarios {
  import opened Outcomes

  /** A Django user: an identifier and its `is_authenticated` flag. */
  datatype Usuario = Usuario(id: int, isAuthenticated: bool)

  /** Python's `user and user.is_authenticated` for an optional user: a
      user object is truthy, `None` is not. */
  predicate Autenticado(user: Option<Usuario>) {
    user.Some? && user.value.isAuthenticated
  }
}
