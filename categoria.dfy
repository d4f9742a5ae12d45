/** `Categoria`: the category of a plugin, an immutable value object
    holding one non-empty string. */
module Categoria {
  import opened Outcomes
  import opened Mensagens

  const CATEGORIA_VAZIA := ValueError(CategoriaVazia)

  /** The object once built; the class has no setter, so the value is
      a datatype. */
  datatype Categoria = Categoria(valor: string)

  /** The right-hand side of `==`: a `Categoria` or any other object. */
  datatype Operando = UmaCategoria(categoria: Categoria) | OutroObjeto

  /** The categories the constructor can build: non-empty text. */
  predicate Valida(c: Categoria) {
    c.valor != ""
  }

  /** `Categoria(valor)`: refuses the empty string. */
  function NovaCategoria(valor: string): (r: Result<Categoria>)
    ensures r.Ok? <==> valor != ""
    ensures r.Ok? ==> Valida(r.value)
    ensures r.Ok? ==> r.value.valor == valor
    ensures r.Err? ==> r.error == CATEGORIA_VAZIA
  {
    if valor == "" then Err(CATEGORIA_VAZIA) else Ok(Categoria(valor))
  }

  /** `__eq__`: the other operand must be a `Categoria` with the same value. */
  predicate Igual(c: Categoria, outro: Operando) {
    outro.UmaCategoria? && c.valor == outro.categoria.valor
  }

  /** `__str__`: the value itself. */
  function Str(c: Categoria): string {
    c.valor
  }

  /** Comparing with anything that is not a `Categoria` is false, and two
      categories are equal exactly when they hold the same value. */
  lemma IgualPorValor(a: Categoria, b: Categoria)
    ensures !Igual(a, OutroObjeto)
    ensures Igual(a, UmaCategoria(b)) <==> Str(a) == Str(b)
    ensures Igual(a, UmaCategoria(b)) <==> a == b
  {
  }

  /** `__eq__` is an equivalence on categories. */
  lemma IgualEquivalencia(a: Categoria, b: Categoria, c: Categoria)
    ensures Igual(a, UmaCategoria(a))
    ensures Igual(a, UmaCategoria(b)) <==> Igual(b, UmaCategoria(a))
    ensures Igual(a, UmaCategoria(b)) && Igual(b, UmaCategoria(c)) ==> Igual(a, UmaCategoria(c))
  {
  }

  /** Two categories built from the same text are equal, and a built
      category prints as the text it was built from. */
  lemma NovaCategoriaRoundTrip(valor: string, outro: string)
    requires valor != "" && outro != ""
    ensures Str(NovaCategoria(valor).value) == valor
    ensures Igual(NovaCategoria(valor).value, UmaCategoria(NovaCategoria(outro).value)) <==> valor == outro
  {
  }
}
