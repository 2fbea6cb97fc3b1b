/**
 * The new-sale form of the sales module: the total is the unit price of
 * the chosen item, looked up by its position in the list of item labels,
 * times the quantity; credit-card sales choose a number of instalments.
 */
module Vendas {
  import opened Wrappers
  import opened Texto

  /** The item choices; each label shows the item's unit price. */
  const PRODUTOS: seq<string> := [
    "Produto A - R$ 50,00", "Produto B - R$ 75,00", "Produto C - R$ 120,00",
    "Serviço X - R$ 200,00", "Serviço Y - R$ 150,00"]

  /** The unit prices, parallel to `PRODUTOS`. */
  const PRECOS: seq<int> := [50, 75, 120, 200, 150]

  const CARTAO_DE_CREDITO := "Cartão de Crédito"

  /** Position of the first occurrence of `x`; absent when `x` is not in
      the list (where the source's lookup would raise). */
  function IndiceDe<T(==)>(s: seq<T>, x: T): (r: Option<nat>)
    ensures r.None? <==> x !in s
    ensures r.Some? ==> r.value < |s| && s[r.value] == x && forall k :: 0 <= k < r.value ==> s[k] != x
  {
    if s == [] then None
    else if s[0] == x then Some(0)
    else match IndiceDe(s[1..], x)
      case None => None
      case Some(i) => Some(i + 1)
  }

  /** The total shown for a choice and a quantity. */
  function ValorTotal(produto: string, quantidade: int): (r: Option<int>)
    ensures r.None? <==> produto !in PRODUTOS
  {
    match IndiceDe(PRODUTOS, produto)
    case None => None
    case Some(i) => Some(PRECOS[i] * quantidade)
  }

  /** How a label is written: name, " - R$ ", whole amount, ",00". */
  function Rotulo(nome: string, preco: nat): string
  {
    nome + " - R$ " + Decimal(preco) + ",00"
  }

  /** The currency marker that precedes the amount. */
  predicate TerminaEmMoeda(s: string)
  {
    |s| >= 3 && s[|s| - 3..] == "R$ "
  }

  /** The amount written in a label of that form. */
  function PrecoDoRotulo(rotulo: string): Option<nat>
  {
    if |rotulo| >= 3 && rotulo[|rotulo| - 3..] == ",00" then PrecoAntesDosCentavos(rotulo[..|rotulo| - 3])
    else None
  }

  /** The digits that end `corpo`, when the currency marker precedes them. */
  function PrecoAntesDosCentavos(corpo: string): Option<nat>
  {
    var d := SufixoDigitos(corpo);
    if d != [] && TerminaEmMoeda(corpo[..|corpo| - |d|]) then Some(LerDecimal(d)) else None
  }

  /** Reading a label that ends in ",00" reads the amount before the cents. */
  lemma PrecoDoRotuloCentavos(corpo: string)
    ensures PrecoDoRotulo(corpo + ",00") == PrecoAntesDosCentavos(corpo)
  {
  }

  /** After the currency marker, a run of digits is read back as its value. */
  lemma PrecoAntesDosCentavosDe(p: string, d: string)
    requires TerminaEmMoeda(p) && SoDigitos(d) && d != []
    ensures PrecoAntesDosCentavos(p + d) == Some(LerDecimal(d))
  {
    SufixoDigitosDe(p, d);
    assert (p + d)[..|p + d| - |d|] == p;
  }

  /** Writing a label and reading its amount back gives the price. */
  lemma PrecoDoRotuloDe(nome: string, preco: nat)
    ensures PrecoDoRotulo(Rotulo(nome, preco)) == Some(preco)
  {
    var p := nome + " - R$ ";
    assert p[|p| - 3..] == "R$ ";
    PrecoDoRotuloCentavos(p + Decimal(preco));
    PrecoAntesDosCentavosDe(p, Decimal(preco));
    LerDecimalDeDecimal(preco);
  }

  /** The two lists are parallel, and every label shows its own price. */
  lemma RotulosMostramPrecos()
    ensures |PRODUTOS| == |PRECOS| == 5
    ensures forall k :: 0 <= k < 5 ==> PRECOS[k] > 0 && PrecoDoRotulo(PRODUTOS[k]) == Some(PRECOS[k] as nat)
  {
    forall k | 0 <= k < 5
      ensures PRECOS[k] > 0 && PrecoDoRotulo(PRODUTOS[k]) == Some(PRECOS[k] as nat)
    {
      var nome := ProdutoRotulado(k);
      PrecoDoRotuloDe(nome, PRECOS[k]);
    }
  }

  /** Each label is written in the label form with its own price. */
  lemma ProdutoRotulado(k: nat) returns (nome: string)
    requires k < 5
    ensures PRECOS[k] > 0 && PRODUTOS[k] == Rotulo(nome, PRECOS[k])
  {
    var nomes := ["Produto A", "Produto B", "Produto C", "Serviço X", "Serviço Y"];
    nome := nomes[k];
    if k == 0 {
      assert PRODUTOS[0] == Rotulo(nomes[0], 50) by { assert Decimal(5) == "5"; }
    } else if k == 1 {
      assert PRODUTOS[1] == Rotulo(nomes[1], 75) by { assert Decimal(7) == "7"; }
    } else if k == 2 {
      assert PRODUTOS[2] == Rotulo(nomes[2], 120) by { assert Decimal(1) == "1"; assert Decimal(12) == "12"; }
    } else if k == 3 {
      assert PRODUTOS[3] == Rotulo(nomes[3], 200) by { assert Decimal(2) == "2"; assert Decimal(20) == "20"; }
    } else {
      assert PRODUTOS[4] == Rotulo(nomes[4], 150) by { assert Decimal(1) == "1"; assert Decimal(15) == "15"; }
    }
  }

  /** For every choice the form offers the lookup succeeds, and the total
      is the amount in the chosen label times the quantity: for a quantity
      of at least one, a multiple of a positive unit price no smaller
      than it. */
  lemma ValorTotalPeloRotulo(produto: string, quantidade: int)
    requires produto in PRODUTOS
    ensures ValorTotal(produto, quantidade).Some? && PrecoDoRotulo(produto).Some?
    ensures ValorTotal(produto, quantidade).value == PrecoDoRotulo(produto).value * quantidade
    ensures quantidade >= 1 ==> PrecoDoRotulo(produto).value > 0
    ensures quantidade >= 1 ==> ValorTotal(produto, quantidade).value >= PrecoDoRotulo(produto).value
  {
    RotulosMostramPrecos();
    var i := IndiceDe(PRODUTOS, produto).value;
    var preco := PRECOS[i];
    assert PrecoDoRotulo(produto) == Some(preco as nat);
    assert ValorTotal(produto, quantidade) == Some(preco * quantidade);
    if quantidade >= 1 {
      assert preco * quantidade == preco + preco * (quantidade - 1);
    }
  }

  /** Instalments: one unless paying by credit card, in which case the
      chosen number, always from 1 to 12. */
  function Parcelas(formaPagamento: string, escolha: int): (r: int)
    requires 1 <= escolha <= 12
    ensures 1 <= r <= 12
    ensures formaPagamento != CARTAO_DE_CREDITO ==> r == 1
    ensures formaPagamento == CARTAO_DE_CREDITO ==> r == escolha
  {
    if formaPagamento == CARTAO_DE_CREDITO then escolha else 1
  }
}
