/** `InactivateMixin`: marking a record inactive, with the time, and
    reactivating it. The clock is a parameter and `save()` is counted. */
module Inactivate {
  import opened Outcomes
  import opened Dates

  /** The two fields the mixin adds. */
  datatype EstadoAtivacao = EstadoAtivacao(isActive: bool, inactivatedAt: Option<Instant>)

  /** The declared defaults: active, never inactivated. */
  const PADRAO := EstadoAtivacao(true, None)

  /** The fields after `inativar()` at time `agora`. */
  function Inativado(e: EstadoAtivacao, agora: Instant): EstadoAtivacao
  {
    EstadoAtivacao(false, Some(agora))
  }

  /** The fields after `reativar()`. */
  function Reativado(e: EstadoAtivacao): EstadoAtivacao
  {
    EstadoAtivacao(true, None)
  }

  /** `reativar` after `inativar` gives back the defaults, `reativar` is
      idempotent, and an inactive record carries its inactivation time. */
  lemma ReativarDesfazInativar(e: EstadoAtivacao, agora: Instant)
    ensures Reativado(Inativado(e, agora)) == PADRAO
    ensures Reativado(Reativado(e)) == Reativado(e)
    ensures !Inativado(e, agora).isActive && Inativado(e, agora).inactivatedAt == Some(agora)
    ensures Reativado(e).isActive && Reativado(e).inactivatedAt.None?
  {
  }

  /** A model using the mixin: its two fields and the number of `save()`
      calls made so far. */
  class InactivateMixin {
    var isActive: bool
    var inactivatedAt: Option<Instant>
    var salvamentos: nat

    function Estado(): EstadoAtivacao
      reads this
    {
      EstadoAtivacao(isActive, inactivatedAt)
    }

    /** A new record, with the declared defaults. */
    constructor ()
      ensures Estado() == PADRAO && salvamentos == 0
    {
      isActive, inactivatedAt, salvamentos := true, None, 0;
    }

    method Inativar(agora: Instant)
      modifies this
      ensures Estado() == Inativado(old(Estado()), agora)
      ensures salvamentos == old(salvamentos) + 1
    {
      isActive := false;
      inactivatedAt := Some(agora);
      Save();
    }

    method Reativar()
      modifies this
      ensures Estado() == Reativado(old(Estado()))
      ensures salvamentos == old(salvamentos) + 1
    {
      isActive := true;
      inactivatedAt := None;
      Save();
    }

    /** The model's `save()`, abstracted to its count. */
    method Save()
      modifies this`salvamentos
      ensures salvamentos == old(salvamentos) + 1
    {
      salvamentos := salvamentos + 1;
    }
  }
}
