/** `AuditMixin.save`: records who created and who last changed a record.
    The user comes in the `user` keyword argument, which is taken out
    before the parent `save` is called. */
module Audit {
  import opened Outcomes
  import opened Usuarios

  /** A keyword argument's value: the user passed as `user` (or `None`),
      or any other value, known only by its text. */
  datatype Argumento = ArgUsuario(usuario: Option<Usuario>) | ArgOutro(texto: string)

  const CHAVE_USUARIO := "user"

  /** `kwargs.pop('user', None)`: the value under `user`, `None` when the
      key is absent. (A value of another kind under that key is read as
      `None`.) */
  function UsuarioDe(kwargs: map<string, Argumento>): Option<Usuario>
  {
    if CHAVE_USUARIO in kwargs && kwargs[CHAVE_USUARIO].ArgUsuario? then kwargs[CHAVE_USUARIO].usuario else None
  }

  /** The two audit fields. */
  datatype Autoria = Autoria(createdBy: Option<Usuario>, updatedBy: Option<Usuario>)

  /** `not self.pk`: no primary key yet, or the falsy key 0. */
  predicate SemChave(pk: Option<int>) {
    pk.None? || pk.value == 0
  }

  /** The rule applied before the parent `save`: an authenticated user
      becomes the creator of a record without a primary key, and in every
      case the last modifier. */
  function Registrar(pk: Option<int>, a: Autoria, user: Option<Usuario>): Autoria
  {
    if Autenticado(user) then
      Autoria(if SemChave(pk) then user else a.createdBy, user)
    else
      a
  }

  /** The rule case by case: no user or an unauthenticated one changes
      nothing; a new record gets the user in both fields; an existing one
      only in `updated_by`. */
  lemma RegistrarCasos(pk: Option<int>, a: Autoria, user: Option<Usuario>)
    ensures !Autenticado(user) ==> Registrar(pk, a, user) == a
    ensures Autenticado(user) && SemChave(pk) ==> Registrar(pk, a, user) == Autoria(user, user)
    ensures Autenticado(user) && !SemChave(pk) ==> Registrar(pk, a, user) == Autoria(a.createdBy, user)
    ensures Autenticado(user) ==> Registrar(Some(0), a, user) == Registrar(None, a, user)
    ensures Registrar(pk, a, user).createdBy == a.createdBy || Registrar(pk, a, user).createdBy == user
  {
  }

  /** The key after the parent `save`: only a record whose key is `None`
      gets the key the database assigns (`novaChave`); any key already set,
      0 included, is kept. */
  function ChaveAposSalvar(pk: Option<int>, novaChave: int): Option<int>
  {
    if pk.None? then Some(novaChave) else pk
  }

  /** One call of `save`: the `user` passed, and the key the parent `save`
      would assign if the record had none. */
  datatype Gravacao = Gravacao(user: Option<Usuario>, novaChave: int)

  /** The audit fields after a series of saves, each seeing the key and
      fields the previous one left. */
  function SalvarTodas(pk: Option<int>, a: Autoria, gs: seq<Gravacao>): Autoria
    decreases |gs|
  {
    if gs == [] then a
    else SalvarTodas(ChaveAposSalvar(pk, gs[0].novaChave), Registrar(pk, a, gs[0].user), gs[1..])
  }

  /** Once a record has a key, no save changes its creator. */
  lemma {:induction false} CriadorFixado(pk: Option<int>, a: Autoria, gs: seq<Gravacao>)
    requires !SemChave(pk)
    ensures SalvarTodas(pk, a, gs).createdBy == a.createdBy
    decreases |gs|
  {
    if gs != [] {
      RegistrarCasos(pk, a, gs[0].user);
      CriadorFixado(pk, Registrar(pk, a, gs[0].user), gs[1..]);
    }
  }

  /** A new record first saved by an authenticated user keeps that user as
      its creator through every later save, whoever makes it. */
  lemma CriadorEhPrimeiroUsuario(pk: Option<int>, a: Autoria, user: Option<Usuario>, novaChave: int,
                                 gs: seq<Gravacao>)
    requires pk.None? && Autenticado(user) && novaChave != 0
    ensures SalvarTodas(pk, a, [Gravacao(user, novaChave)] + gs).createdBy == user
  {
    var gs1 := [Gravacao(user, novaChave)] + gs;
    assert gs1[0] == Gravacao(user, novaChave) && gs1[1..] == gs;
    CriadorFixado(Some(novaChave), Autoria(user, user), gs);
  }

  /** The creator a record keyed 0 ends with: the parent `save` keeps the
      key 0, so the audit rule sees a new record at every save and the
      last authenticated user wins (`c` when there is none). */
  function UltimoAutenticado(gs: seq<Gravacao>, c: Option<Usuario>): Option<Usuario>
    decreases |gs|
  {
    if gs == [] then c
    else UltimoAutenticado(gs[1..], if Autenticado(gs[0].user) then gs[0].user else c)
  }

  /** On a record keyed 0, every authenticated save overwrites
      `created_by`. */
  lemma {:induction false} ChaveZeroSobrescreveCriador(a: Autoria, gs: seq<Gravacao>)
    ensures SalvarTodas(Some(0), a, gs).createdBy == UltimoAutenticado(gs, a.createdBy)
    decreases |gs|
  {
    if gs != [] {
      RegistrarCasos(Some(0), a, gs[0].user);
      ChaveZeroSobrescreveCriador(Registrar(Some(0), a, gs[0].user), gs[1..]);
    }
  }

  /** The last authenticated save names the creator. */
  lemma {:induction false} UltimoAutenticadoAppend(gs: seq<Gravacao>, c: Option<Usuario>, g: Gravacao)
    requires Autenticado(g.user)
    ensures UltimoAutenticado(gs + [g], c) == g.user
    decreases |gs|
  {
    if gs == [] {
      assert ([] + [g])[1..] == [];
    } else {
      assert (gs + [g])[0] == gs[0] && (gs + [g])[1..] == gs[1..] + [g];
      UltimoAutenticadoAppend(gs[1..], if Autenticado(gs[0].user) then gs[0].user else c, g);
    }
  }

  /** Two authenticated saves of a record keyed 0: the second user ends as
      the creator, where a record keyed `None` keeps the first. */
  lemma ChaveZeroSegundoUsuario(a: Autoria, u1: Option<Usuario>, u2: Option<Usuario>, k1: int, k2: int)
    requires Autenticado(u1) && Autenticado(u2) && k1 != 0
    ensures SalvarTodas(Some(0), a, [Gravacao(u1, k1), Gravacao(u2, k2)]).createdBy == u2
    ensures SalvarTodas(None, a, [Gravacao(u1, k1), Gravacao(u2, k2)]).createdBy == u1
  {
    ChaveZeroSobrescreveCriador(a, [Gravacao(u1, k1), Gravacao(u2, k2)]);
    UltimoAutenticadoAppend([Gravacao(u1, k1)], a.createdBy, Gravacao(u2, k2));
    assert [Gravacao(u1, k1)] + [Gravacao(u2, k2)] == [Gravacao(u1, k1), Gravacao(u2, k2)];
    CriadorEhPrimeiroUsuario(None, a, u1, k1, [Gravacao(u2, k2)]);
  }

  /** A model using the mixin: its primary key, the two audit fields, and
      the arguments of every call to the parent `save`. */
  class AuditMixin {
    var pk: Option<int>
    var createdBy: Option<Usuario>
    var updatedBy: Option<Usuario>
    var chamadasPai: seq<(seq<Argumento>, map<string, Argumento>)>

    function Autores(): Autoria
      reads this
    {
      Autoria(createdBy, updatedBy)
    }

    constructor (pk: Option<int>)
      ensures this.pk == pk && createdBy.None? && updatedBy.None? && chamadasPai == []
    {
      this.pk, createdBy, updatedBy, chamadasPai := pk, None, None, [];
    }

    /** `save(*args, **kwargs)`: the audit rule with the popped user, then
        exactly one parent call, with the same positional arguments and
        the keyword arguments without `user`. The parent call gives a
        record whose key is `None` the one the database assigns,
        `novaChave` (an automatic key is never 0), and keeps any key
        already set, 0 included. */
    method Save(args: seq<Argumento>, kwargs: map<string, Argumento>, novaChave: int)
      requires novaChave != 0
      modifies this`pk, this`createdBy, this`updatedBy, this`chamadasPai
      ensures Autores() == Registrar(old(pk), old(Autores()), UsuarioDe(kwargs))
      ensures pk == ChaveAposSalvar(old(pk), novaChave)
      ensures old(pk).None? ==> pk == Some(novaChave) && !SemChave(pk)
      ensures old(pk).Some? ==> pk == old(pk)
      ensures chamadasPai == old(chamadasPai) + [(args, kwargs - {CHAVE_USUARIO})]
      ensures CHAVE_USUARIO !in chamadasPai[|chamadasPai| - 1].1
    {
      var user := UsuarioDe(kwargs);
      var resto := kwargs - {CHAVE_USUARIO};
      if Autenticado(user) {
        if pk.None? || pk.value == 0 {
          createdBy := user;
        }
        updatedBy := user;
      }
      chamadasPai := chamadasPai + [(args, resto)];
      if pk.None? {
        pk := Some(novaChave);
      }
    }
  }
}
