/**
 * The inventory tab of the stock module: the category filter, the
 * three-band low-stock highlight of each row and the low-stock alert.
 * A dataframe is a sequence of row records.
 */
module Estoque {
  import opened Wrappers

  /** One inventory row; the table has these eight columns. */
  datatype ItemEstoque = ItemEstoque(
    codigo: string,
    produto: string,
    categoria: string,
    quantidade: int,
    minimo: int,
    maximo: int,
    valorUnitario: string,
    valorTotal: string)

  const COLUNAS := 8
  const TODAS := "Todas"
  const ESTILO_CRITICO := "background-color: #FFB6C1"
  const ESTILO_ALERTA := "background-color: #FFE4B5"

  /** The three stock bands. */
  datatype Nivel = Critico | Baixo | Normal

  /** The band of a row: at or under the minimum, at or under one and a
      half times the minimum, or above. The source compares the quantity
      with the floating-point product `minimo * 1.5`; reals are exact, as
      that product is for every integer of practical size. */
  function NivelDe(it: ItemEstoque): (n: Nivel)
    ensures n == Critico <==> it.quantidade <= it.minimo
    ensures n == Normal ==> it.quantidade as real > it.minimo as real
  {
    if it.quantidade <= it.minimo then Critico
    else if it.quantidade as real <= it.minimo as real * 1.5 then Baixo
    else Normal
  }

  /** The bands in integer terms: `2 * quantidade <= 3 * minimo` is the
      same test as `quantidade <= 1.5 * minimo`. */
  lemma NivelEmInteiros(it: ItemEstoque)
    ensures NivelDe(it) == Critico <==> it.quantidade <= it.minimo
    ensures NivelDe(it) == Baixo <==> it.minimo < it.quantidade && 2 * it.quantidade <= 3 * it.minimo
    ensures NivelDe(it) == Normal <==> it.minimo < it.quantidade && 2 * it.quantidade > 3 * it.minimo
  {
  }

  /** The style row the highlighter returns: one entry per column. */
  function HighlightEstoqueBaixo(it: ItemEstoque): (estilos: seq<string>)
    ensures |estilos| == COLUNAS
    ensures forall c :: 0 <= c < |estilos| ==>
      estilos[c] == match NivelDe(it) case Critico => ESTILO_CRITICO case Baixo => ESTILO_ALERTA case Normal => ""
  {
    var e := match NivelDe(it) case Critico => ESTILO_CRITICO case Baixo => ESTILO_ALERTA case Normal => "";
    seq(COLUNAS, _ => e)
  }

  /** The rows of `s` that satisfy `p`, in their original order. */
  function Filtrar<T>(s: seq<T>, p: T -> bool): (r: seq<T>)
    ensures |r| <= |s|
    ensures forall x :: x in r ==> x in s && p(x)
  {
    if s == [] then []
    else if p(s[0]) then [s[0]] + Filtrar(s[1..], p)
    else Filtrar(s[1..], p)
  }

  /** Filtering keeps every satisfying row as often as it occurs and drops
      every other row. */
  lemma {:induction false} FiltrarMultiplicidade<T>(s: seq<T>, p: T -> bool, x: T)
    ensures multiset(Filtrar(s, p))[x] == if p(x) then multiset(s)[x] else 0
  {
    if s != [] {
      FiltrarMultiplicidade(s[1..], p, x);
      assert s == [s[0]] + s[1..];
    }
  }

  /** Filtering commutes with concatenation, so it keeps the original
      order of the rows it keeps. */
  lemma {:induction false} FiltrarConcatena<T>(a: seq<T>, b: seq<T>, p: T -> bool)
    ensures Filtrar(a + b, p) == Filtrar(a, p) + Filtrar(b, p)
  {
    if a == [] {
      assert a + b == b;
    } else {
      FiltrarConcatena(a[1..], b, p);
      assert (a + b)[0] == a[0];
      assert (a + b)[1..] == a[1..] + b;
    }
  }

  /** The category filter: "Todas" keeps the whole table, any other
      category exactly that category's rows. */
  function FiltrarCategoria(inv: seq<ItemEstoque>, categoria: string): (r: seq<ItemEstoque>)
    ensures |r| <= |inv|
    ensures forall x :: x in r ==> x in inv && (categoria == TODAS || x.categoria == categoria)
  {
    if categoria == TODAS then inv else Filtrar(inv, (it: ItemEstoque) => it.categoria == categoria)
  }

  /** The category filter shows the whole table for "Todas" and otherwise
      every row of the chosen category, as often as it occurs, and no other. */
  lemma FiltrarCategoriaCorreto(inv: seq<ItemEstoque>, categoria: string, it: ItemEstoque)
    ensures categoria == TODAS ==> FiltrarCategoria(inv, categoria) == inv
    ensures categoria != TODAS ==>
      multiset(FiltrarCategoria(inv, categoria))[it] == if it.categoria == categoria then multiset(inv)[it] else 0
  {
    if categoria != TODAS {
      FiltrarMultiplicidade(inv, (x: ItemEstoque) => x.categoria == categoria, it);
    }
  }

  /** The alert subset: rows at or under their minimum. */
  function EstoqueBaixo(inv: seq<ItemEstoque>): (r: seq<ItemEstoque>)
    ensures |r| <= |inv|
    ensures forall x :: x in r ==> x in inv && x.quantidade <= x.minimo
  {
    Filtrar(inv, (it: ItemEstoque) => it.quantidade <= it.minimo)
  }

  /** The alert subset is exactly the critical band: each of its rows is
      highlighted as critical, and each critical row is in it. */
  lemma EstoqueBaixoEhCritico(inv: seq<ItemEstoque>, it: ItemEstoque)
    ensures it in EstoqueBaixo(inv) ==> HighlightEstoqueBaixo(it) == seq(COLUNAS, _ => ESTILO_CRITICO)
    ensures multiset(EstoqueBaixo(inv))[it] == if NivelDe(it) == Critico then multiset(inv)[it] else 0
  {
    FiltrarMultiplicidade(inv, (x: ItemEstoque) => x.quantidade <= x.minimo, it);
  }

  /** What the inventory tab shows for a chosen category: the table (the
      filter replaces it), a style row per table row, the alert rows and
      the count in the warning, shown only when there are alert rows. */
  method PainelInventario(inventario: seq<ItemEstoque>, categoriaFiltro: string)
    returns (tabela: seq<ItemEstoque>, estilos: seq<seq<string>>, alertas: seq<ItemEstoque>, aviso: Option<nat>)
    ensures tabela == FiltrarCategoria(inventario, categoriaFiltro)
    ensures |estilos| == |tabela| && forall k :: 0 <= k < |tabela| ==> estilos[k] == HighlightEstoqueBaixo(tabela[k])
    ensures alertas == EstoqueBaixo(tabela)
    ensures forall x :: x in alertas ==> x in tabela && NivelDe(x) == Critico
    ensures aviso.None? <==> alertas == []
    ensures aviso.Some? ==> aviso.value == |alertas| > 0
  {
    tabela := inventario;
    if categoriaFiltro != TODAS {
      tabela := Filtrar(tabela, (it: ItemEstoque) => it.categoria == categoriaFiltro);
    }
    estilos := seq(|tabela|, k requires 0 <= k < |tabela| => HighlightEstoqueBaixo(tabela[k]));
    alertas := EstoqueBaixo(tabela);
    aviso := if alertas == [] then None else Some(|alertas|);
  }

  /** The sample inventory the tab displays. */
  const INVENTARIO: seq<ItemEstoque> := [
    ItemEstoque("P001", "Notebook", "Eletrônicos", 15, 10, 30, "R$ 3.500", "R$ 52.500"),
    ItemEstoque("P002", "Mouse", "Eletrônicos", 42, 30, 100, "R$ 80", "R$ 3.360"),
    ItemEstoque("P003", "Teclado", "Eletrônicos", 28, 20, 50, "R$ 150", "R$ 4.200"),
    ItemEstoque("P004", "Monitor", "Eletrônicos", 12, 10, 25, "R$ 1.200", "R$ 14.400"),
    ItemEstoque("P005", "Cadeira", "Móveis", 8, 10, 20, "R$ 450", "R$ 3.600"),
    ItemEstoque("P006", "Mesa", "Móveis", 5, 5, 15, "R$ 350", "R$ 1.750"),
    ItemEstoque("P007", "Caneta", "Papelaria", 150, 100, 500, "R$ 2", "R$ 300"),
    ItemEstoque("P008", "Papel", "Papelaria", 80, 100, 300, "R$ 25", "R$ 2.000")
  ]

  /** On the sample data with every category shown, the warning counts
      three rows: Cadeira, Mesa and Papel. */
  lemma AlertasDaAmostra()
    ensures EstoqueBaixo(INVENTARIO) == [INVENTARIO[4], INVENTARIO[5], INVENTARIO[7]]
  {
    var p := (it: ItemEstoque) => it.quantidade <= it.minimo;
    var inv := INVENTARIO;
    assert Filtrar(inv[8..], p) == [];
    assert Filtrar(inv[7..], p) == [inv[7]] by { assert inv[7..][1..] == inv[8..]; }
    assert Filtrar(inv[6..], p) == [inv[7]] by { assert inv[6..][1..] == inv[7..]; }
    assert Filtrar(inv[5..], p) == [inv[5], inv[7]] by { assert inv[5..][1..] == inv[6..]; }
    assert Filtrar(inv[4..], p) == [inv[4], inv[5], inv[7]] by { assert inv[4..][1..] == inv[5..]; }
    assert Filtrar(inv[3..], p) == [inv[4], inv[5], inv[7]] by { assert inv[3..][1..] == inv[4..]; }
    assert Filtrar(inv[2..], p) == [inv[4], inv[5], inv[7]] by { assert inv[2..][1..] == inv[3..]; }
    assert Filtrar(inv[1..], p) == [inv[4], inv[5], inv[7]] by { assert inv[1..][1..] == inv[2..]; }
    assert Filtrar(inv, p) == [inv[4], inv[5], inv[7]];
  }
}
