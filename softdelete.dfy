/** `SoftDeleteMixin`: deletion that only marks the record, with who and
    when, and its undo. The clock is a parameter and `save()` is counted. */
module SoftDelete {
  import opened Outcomes
  import opened Dates
  import opened Usuarios

  /** The three fields the mixin adds. */
  datatype EstadoExclusao = EstadoExclusao(isDeleted: bool, deletedAt: Option<Instant>, deletedBy: Option<Usuario>)

  /** The declared defaults: not deleted, no time, no user. */
  const PADRAO := EstadoExclusao(false, None, None)

  /** The fields after `delete(user=user)` at time `agora`. */
  function Excluido(e: EstadoExclusao, agora: Instant, user: Option<Usuario>): EstadoExclusao
  {
    EstadoExclusao(true, Some(agora), if Autenticado(user) then user else e.deletedBy)
  }

  /** The fields after `restore()`. */
  function Restaurado(e: EstadoExclusao): EstadoExclusao
  {
    EstadoExclusao(false, None, None)
  }

  /** `delete` marks the record and stamps the time; the user is recorded
      only when authenticated, and otherwise the previous one is kept. */
  lemma ExcluirMarca(e: EstadoExclusao, agora: Instant, user: Option<Usuario>)
    ensures Excluido(e, agora, user).isDeleted && Excluido(e, agora, user).deletedAt == Some(agora)
    ensures Autenticado(user) ==> Excluido(e, agora, user).deletedBy == user
    ensures !Autenticado(user) ==> Excluido(e, agora, user).deletedBy == e.deletedBy
  {
  }

  /** `restore` after `delete` gives back the declared defaults, from any
      starting state, and `restore` is idempotent. */
  lemma RestaurarDesfazExcluir(e: EstadoExclusao, agora: Instant, user: Option<Usuario>)
    ensures Restaurado(Excluido(e, agora, user)) == PADRAO
    ensures Restaurado(Restaurado(e)) == Restaurado(e)
    ensures !Restaurado(e).isDeleted
  {
  }

  /** A model using the mixin: its three fields and the number of `save()`
      calls made so far. */
  class SoftDeleteMixin {
    var isDeleted: bool
    var deletedAt: Option<Instant>
    var deletedBy: Option<Usuario>
    var salvamentos: nat

    function Estado(): EstadoExclusao
      reads this
    {
      EstadoExclusao(isDeleted, deletedAt, deletedBy)
    }

    /** A new record, with the declared defaults. */
    constructor ()
      ensures Estado() == PADRAO && salvamentos == 0
    {
      isDeleted, deletedAt, deletedBy, salvamentos := false, None, None, 0;
    }

    /** `delete(user=user)`: the record stays, marked, and is saved once. */
    method Delete(agora: Instant, user: Option<Usuario>)
      modifies this
      ensures Estado() == Excluido(old(Estado()), agora, user)
      ensures salvamentos == old(salvamentos) + 1
    {
      isDeleted := true;
      deletedAt := Some(agora);
      if Autenticado(user) {
        deletedBy := user;
      }
      Save();
    }

    /** `restore()`: clears the three fields and saves once. */
    method Restore()
      modifies this
      ensures Estado() == Restaurado(old(Estado()))
      ensures salvamentos == old(salvamentos) + 1
    {
      isDeleted := false;
      deletedAt := None;
      deletedBy := None;
      Save();
    }

    /** The model's `save()`, abstracted to its count. */
    method Save()
      modifies this`salvamentos
      ensures salvamentos == old(salvamentos) + 1
    {
      salvamentos := salvamentos + 1;
    }
  }
}
