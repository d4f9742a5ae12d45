/** `SoftDeleteManager`: the querysets of a model using `SoftDeleteMixin`,
    as filters over the table's records in their stored order. */
module SoftDeleteManager {
  import opened Outcomes
  import opened Dates
  import opened Usuarios
  import opened SoftDelete

  /** A row of the table: its primary key and the soft-delete fields. */
  datatype Registro = Registro(pk: int, exclusao: EstadoExclusao)

  /** `.filter(is_deleted=excluido)`, keeping the order. */
  function Filtrar(rs: seq<Registro>, excluido: bool): seq<Registro>
  {
    if rs == [] then []
    else (if rs[0].exclusao.isDeleted == excluido then [rs[0]] else []) + Filtrar(rs[1..], excluido)
  }

  /** `get_queryset()`: the records not deleted. */
  function GetQueryset(rs: seq<Registro>): seq<Registro>
  {
    Filtrar(rs, false)
  }

  /** `deleted()`: the records deleted. */
  function Deleted(rs: seq<Registro>): seq<Registro>
  {
    Filtrar(rs, true)
  }

  /** `with_deleted()`: every record. */
  function WithDeleted(rs: seq<Registro>): seq<Registro>
  {
    rs
  }

  /** A filtered queryset holds exactly the records with that flag. */
  lemma {:induction false} FiltrarMembros(rs: seq<Registro>, excluido: bool)
    ensures forall x :: x in Filtrar(rs, excluido) <==> x in rs && x.exclusao.isDeleted == excluido
  {
    if rs != [] {
      FiltrarMembros(rs[1..], excluido);
      assert rs == [rs[0]] + rs[1..];
    }
  }

  /** Filtering distributes over concatenation. */
  lemma {:induction false} FiltrarConcat(a: seq<Registro>, b: seq<Registro>, excluido: bool)
    ensures Filtrar(a + b, excluido) == Filtrar(a, excluido) + Filtrar(b, excluido)
  {
    if a == [] {
      assert a + b == b;
    } else {
      assert (a + b)[1..] == a[1..] + b;
      FiltrarConcat(a[1..], b, excluido);
    }
  }

  /** The default queryset holds only records not deleted, `deleted()`
      only deleted ones, so no record is in both. */
  lemma Disjuntos(rs: seq<Registro>)
    ensures forall x :: x in GetQueryset(rs) ==> x in rs && !x.exclusao.isDeleted
    ensures forall x :: x in Deleted(rs) ==> x in rs && x.exclusao.isDeleted
    ensures forall x :: x in rs ==> (x in GetQueryset(rs) <==> x !in Deleted(rs))
  {
    FiltrarMembros(rs, false);
    FiltrarMembros(rs, true);
  }

  /** Together the two querysets are exactly `with_deleted()`, counting
      repeated rows. */
  lemma {:induction false} Particao(rs: seq<Registro>)
    ensures multiset(GetQueryset(rs)) + multiset(Deleted(rs)) == multiset(WithDeleted(rs))
  {
    if rs != [] {
      Particao(rs[1..]);
      assert rs == [rs[0]] + rs[1..];
    }
  }

  lemma FiltrarUnitario(x: Registro, excluido: bool)
    ensures Filtrar([x], excluido) == if x.exclusao.isDeleted == excluido then [x] else []
  {
    assert [x][1..] == [];
  }

  /** A table with one row singled out, split around that row. */
  lemma FiltrarEmTorno(antes: seq<Registro>, x: Registro, depois: seq<Registro>, excluido: bool)
    ensures Filtrar(antes + [x] + depois, excluido) ==
            Filtrar(antes, excluido) + (if x.exclusao.isDeleted == excluido then [x] else []) + Filtrar(depois, excluido)
  {
    FiltrarConcat(antes + [x], depois, excluido);
    FiltrarConcat(antes, [x], excluido);
    FiltrarUnitario(x, excluido);
  }

  /** `delete` on a row of the default queryset (the table being
      `antes + [x] + depois`) moves it to `deleted()`: it leaves the one at
      its place and joins the other at its place, and every other row
      stays where it was. */
  lemma ExcluirMove(antes: seq<Registro>, x: Registro, depois: seq<Registro>, agora: Instant,
                    user: Option<Usuario>)
    requires !x.exclusao.isDeleted
    ensures var novo := Registro(x.pk, Excluido(x.exclusao, agora, user));
            && GetQueryset(antes + [x] + depois) == GetQueryset(antes) + [x] + GetQueryset(depois)
            && GetQueryset(antes + [novo] + depois) == GetQueryset(antes) + GetQueryset(depois)
            && Deleted(antes + [x] + depois) == Deleted(antes) + Deleted(depois)
            && Deleted(antes + [novo] + depois) == Deleted(antes) + [novo] + Deleted(depois)
  {
    var novo := Registro(x.pk, Excluido(x.exclusao, agora, user));
    FiltrarEmTorno(antes, x, depois, false);
    FiltrarEmTorno(antes, x, depois, true);
    FiltrarEmTorno(antes, novo, depois, false);
    FiltrarEmTorno(antes, novo, depois, true);
  }

  /** `restore` on a deleted row moves it back to the default queryset,
      at its place, and every other row stays where it was. */
  lemma RestaurarMove(antes: seq<Registro>, x: Registro, depois: seq<Registro>)
    requires x.exclusao.isDeleted
    ensures var novo := Registro(x.pk, Restaurado(x.exclusao));
            && GetQueryset(antes + [x] + depois) == GetQueryset(antes) + GetQueryset(depois)
            && GetQueryset(antes + [novo] + depois) == GetQueryset(antes) + [novo] + GetQueryset(depois)
            && Deleted(antes + [x] + depois) == Deleted(antes) + [x] + Deleted(depois)
            && Deleted(antes + [novo] + depois) == Deleted(antes) + Deleted(depois)
  {
    var novo := Registro(x.pk, Restaurado(x.exclusao));
    FiltrarEmTorno(antes, x, depois, false);
    FiltrarEmTorno(antes, x, depois, true);
    FiltrarEmTorno(antes, novo, depois, false);
    FiltrarEmTorno(antes, novo, depois, true);
  }
}
