/**
 * The presentation shell: the platform catalogue, the card grid of the
 * dashboard, the per-user session flags and the routing from those flags to
 * a screen. Widget values become method parameters; a button handler is a
 * method that may only be invoked while the screen carrying that button is
 * the one routed to.
 */
module Portal {
  import opened Wrappers
  import opened Auth

  /** A catalogue entry (the visual attributes are left out). */
  datatype Plataforma = Plataforma(id: string, nome: string, modulo: string)

  const PLATAFORMAS: seq<Plataforma> := [
    Plataforma("agendamento", "Sistema de Agendamento", "sistema_agendamento"),
    Plataforma("vendas", "Sistema de Vendas", "sistema_vendas"),
    Plataforma("financeiro", "Sistema Financeiro", "sistema_financeiro"),
    Plataforma("rh", "Sistema de RH", "sistema_rh"),
    Plataforma("estoque", "Sistema de Estoque", "sistema_estoque"),
    Plataforma("relatorios", "Sistema de Relatórios", "sistema_relatorios")
  ]

  ghost predicate IdsDistintos(ps: seq<Plataforma>)
  {
    forall i, j :: 0 <= i < j < |ps| ==> ps[i].id != ps[j].id
  }

  /** The six catalogue identifiers are distinct, so a lookup by id is
      unambiguous. */
  lemma CatalogoSemIdsRepetidos()
    ensures |PLATAFORMAS| == 6
    ensures IdsDistintos(PLATAFORMAS)
  {
  }

  /** First entry whose id equals the selected id (none when nothing is
      selected or nothing matches). */
  function BuscarPlataforma(ps: seq<Plataforma>, id: Option<string>): (r: Option<Plataforma>)
    ensures r.None? <==> forall k :: 0 <= k < |ps| ==> id != Some(ps[k].id)
    ensures r.Some? ==> exists k :: (0 <= k < |ps| && ps[k] == r.value && id == Some(ps[k].id)
      && forall m :: 0 <= m < k ==> id != Some(ps[m].id))
  {
    if ps == [] then None
    else if id == Some(ps[0].id) then Some(ps[0])
    else
      var r := BuscarPlataforma(ps[1..], id);
      assert r.Some? ==> exists k :: (1 <= k < |ps| && ps[k] == r.value && id == Some(ps[k].id)
        && forall m :: 1 <= m < k ==> id != Some(ps[m].id)) by {
        if r.Some? {
          var k :| 0 <= k < |ps[1..]| && ps[1..][k] == r.value && id == Some(ps[1..][k].id)
            && forall m :: 0 <= m < k ==> id != Some(ps[1..][m].id);
          assert forall m :: 1 <= m < k + 1 ==> ps[m] == ps[1..][m - 1];
        }
      }
      r
  }

  /** With distinct ids, looking up the id of any entry gives that entry. */
  lemma BuscarPlataformaPorId(ps: seq<Plataforma>, k: nat)
    requires IdsDistintos(ps)
    requires k < |ps|
    ensures BuscarPlataforma(ps, Some(ps[k].id)) == Some(ps[k])
  {
  }

  /** One card of the dashboard grid. */
  datatype Cartao = Cartao(linha: nat, coluna: nat, plataforma: Plataforma)

  /** The dashboard's card grid: rows of three columns, filled left to
      right, the last row possibly short. Every entry is placed exactly
      once, in catalogue order. */
  method GradeCartoes(ps: seq<Plataforma>) returns (cartoes: seq<Cartao>)
    ensures |cartoes| == |ps|
    ensures forall k :: 0 <= k < |ps| ==>
      cartoes[k].plataforma == ps[k] && cartoes[k].coluna < 3 && 3 * cartoes[k].linha + cartoes[k].coluna == k
  {
    cartoes := [];
    var i := 0;
    var linha := 0;
    while i < |ps|
      invariant i == 3 * linha
      invariant |cartoes| == i <= |ps| || (|cartoes| == |ps| < i)
      invariant forall k :: 0 <= k < |cartoes| ==>
        cartoes[k].plataforma == ps[k] && cartoes[k].coluna < 3 && 3 * cartoes[k].linha + cartoes[k].coluna == k
    {
      for j := 0 to 3
        invariant |cartoes| == i + j <= |ps| || (|cartoes| == |ps| < i + j)
        invariant forall k :: 0 <= k < |cartoes| ==>
          cartoes[k].plataforma == ps[k] && cartoes[k].coluna < 3 && 3 * cartoes[k].linha + cartoes[k].coluna == k
      {
        if i + j < |ps| {
          cartoes := cartoes + [Cartao(linha, j, ps[i + j])];
        }
      }
      i := i + 3;
      linha := linha + 1;
    }
  }

  /** The value of the `pagina` flag. */
  datatype Pagina = Login | Cadastro | Dashboard | PlataformaAberta

  /** The screen a run of the script renders. */
  datatype Tela = TelaLogin | TelaCadastro | DashboardPrincipal | PaginaPlataforma

  /** Routing: anonymous users see registration when asked for and login
      otherwise; authenticated users see the selected platform when asked
      for and the dashboard otherwise. */
  function Roteamento(autenticado: bool, pagina: Pagina): (t: Tela)
    ensures t == TelaCadastro <==> !autenticado && pagina == Cadastro
    ensures t == TelaLogin <==> !autenticado && pagina != Cadastro
    ensures t == PaginaPlataforma <==> autenticado && pagina == PlataformaAberta
    ensures t == DashboardPrincipal <==> autenticado && pagina != PlataformaAberta
  {
    if !autenticado then
      if pagina == Cadastro then TelaCadastro else TelaLogin
    else
      if pagina == PlataformaAberta then PaginaPlataforma else DashboardPrincipal
  }

  /** Outcome of the login form. */
  datatype ResultadoLogin = LoginRealizado | CredenciaisInvalidas | CamposVazios

  /** Outcome of the registration form. */
  datatype ResultadoCadastro = SenhasNaoConferem | CadastroCamposVazios | Recusado(mensagem: string) | Criado(mensagem: string)

  /** The session flags of one browser session, with the store the session
      holds. */
  class Sessao {
    const gerenciador: GerenciadorUsuarios
    var autenticado: bool
    var pagina: Pagina
    var usuarioLogado: Option<Usuario>
    var plataformaAtual: Option<string>

    /** The flags move together: a user is logged in exactly when the
        session is authenticated, an anonymous session is on the login or
        registration page, and a platform is selected exactly on the
        platform page, always one from the catalogue. */
    ghost predicate Valid()
      reads this, gerenciador
    {
      && gerenciador.Valid()
      && (autenticado <==> usuarioLogado.Some?)
      && (!autenticado ==> pagina == Login || pagina == Cadastro)
      && (plataformaAtual.Some? <==> pagina == PlataformaAberta)
      && (plataformaAtual.Some? ==> exists k :: 0 <= k < |PLATAFORMAS| && PLATAFORMAS[k].id == plataformaAtual.value)
    }

    function TelaAtual(): Tela
      reads this
    {
      Roteamento(autenticado, pagina)
    }

    /** Initialisation: the store is created, nobody is logged in, the
        login page is shown. */
    constructor (hash: string -> string, arquivo: Option<seq<Usuario>>, agora: Instante)
      ensures Valid() && fresh(gerenciador)
      ensures !autenticado && pagina == Login && usuarioLogado == None && plataformaAtual == None
      ensures gerenciador.hash == hash
      ensures gerenciador.usuarios ==
        if arquivo.Some? && arquivo.value != [] then arquivo.value else [AdminPadrao(hash, agora)]
      ensures TelaAtual() == TelaLogin
    {
      gerenciador := new GerenciadorUsuarios(hash, arquivo, agora);
      autenticado := false;
      pagina := Login;
      usuarioLogado := None;
      plataformaAtual := None;
    }

    /** The login form's submit button. The store is consulted only when
        both fields are filled; a failed attempt changes nothing. */
    method Entrar(email: string, senha: string, agora: Instante) returns (res: ResultadoLogin)
      requires Valid() && TelaAtual() == TelaLogin
      modifies this, gerenciador
      ensures Valid()
      ensures email == "" || senha == "" ==>
        res == CamposVazios && unchanged(this) && unchanged(gerenciador)
      ensures email != "" && senha != "" ==>
        match BuscaCredencial(old(gerenciador.usuarios), email, gerenciador.hash(senha))
        case None =>
          && res == CredenciaisInvalidas && unchanged(this)
          && gerenciador.usuarios == old(gerenciador.usuarios)
          && gerenciador.gravacoes == old(gerenciador.gravacoes)
        case Some(i) =>
          && res == LoginRealizado
          && gerenciador.usuarios ==
             old(gerenciador.usuarios)[i := old(gerenciador.usuarios)[i].(ultimoAcesso := Some(agora.legivel))]
          && gerenciador.gravacoes == old(gerenciador.gravacoes) + [gerenciador.usuarios]
          && autenticado && i < |gerenciador.usuarios| && usuarioLogado == Some(gerenciador.usuarios[i])
          && pagina == old(pagina) && plataformaAtual == old(plataformaAtual)
          && TelaAtual() == DashboardPrincipal
    {
      if email != "" && senha != "" {
        var usuario := gerenciador.Autenticar(email, senha, agora);
        if usuario.Some? {
          usuarioLogado := usuario;
          autenticado := true;
          return LoginRealizado;
        }
        return CredenciaisInvalidas;
      }
      return CamposVazios;
    }

    /** The login form's "register" button. */
    method IrParaCadastro()
      requires Valid() && TelaAtual() == TelaLogin
      modifies this
      ensures Valid()
      ensures pagina == Cadastro && TelaAtual() == TelaCadastro
      ensures autenticado == old(autenticado) && usuarioLogado == old(usuarioLogado)
      ensures plataformaAtual == old(plataformaAtual)
    {
      pagina := Cadastro;
    }

    /** The registration form's submit button: a password mismatch is
        reported first, then an empty field; only then is the store asked,
        and only a successful registration returns to the login page. */
    method Cadastrar(nome: string, email: string, senha: string, confirmarSenha: string, agora: Instante)
      returns (res: ResultadoCadastro)
      requires Valid() && TelaAtual() == TelaCadastro
      modifies this, gerenciador
      ensures Valid()
      ensures senha != confirmarSenha ==>
        res == SenhasNaoConferem && unchanged(this) && unchanged(gerenciador)
      ensures senha == confirmarSenha && (nome == "" || email == "" || senha == "") ==>
        res == CadastroCamposVazios && unchanged(this) && unchanged(gerenciador)
      ensures senha == confirmarSenha && nome != "" && email != "" && senha != "" ==>
        if EmailCadastrado(old(gerenciador.usuarios), email) then
          && res == Recusado(MSG_EMAIL_DUPLICADO) && unchanged(this)
          && gerenciador.usuarios == old(gerenciador.usuarios)
          && gerenciador.gravacoes == old(gerenciador.gravacoes)
        else
          && res == Criado(MSG_USUARIO_CRIADO)
          && gerenciador.usuarios == old(gerenciador.usuarios)
               + [NovoRegistro(nome, email, gerenciador.hash(senha), TIPO_USUARIO, agora)]
          && gerenciador.gravacoes == old(gerenciador.gravacoes) + [gerenciador.usuarios]
          && pagina == Login && TelaAtual() == TelaLogin
          && autenticado == old(autenticado) && usuarioLogado == old(usuarioLogado)
          && plataformaAtual == old(plataformaAtual)
    {
      if senha != confirmarSenha {
        return SenhasNaoConferem;
      } else if nome != "" && email != "" && senha != "" {
        var sucesso, mensagem := gerenciador.CriarUsuario(nome, email, senha, agora);
        if sucesso {
          pagina := Login;
          return Criado(mensagem);
        }
        return Recusado(mensagem);
      }
      return CadastroCamposVazios;
    }

    /** The registration form's "back" button. */
    method VoltarParaLogin()
      requires Valid() && TelaAtual() == TelaCadastro
      modifies this
      ensures Valid()
      ensures pagina == Login && TelaAtual() == TelaLogin
      ensures autenticado == old(autenticado) && usuarioLogado == old(usuarioLogado)
      ensures plataformaAtual == old(plataformaAtual)
    {
      pagina := Login;
    }

    /** The dashboard's logout button. */
    method Sair()
      requires Valid() && TelaAtual() == DashboardPrincipal
      modifies this
      ensures Valid()
      ensures !autenticado && usuarioLogado == None && pagina == Login
      ensures plataformaAtual == old(plataformaAtual) == None
      ensures TelaAtual() == TelaLogin
    {
      autenticado := false;
      usuarioLogado := None;
      pagina := Login;
    }

    /** The access button on the card of catalogue entry `k`. */
    method AcessarPlataforma(k: nat)
      requires Valid() && TelaAtual() == DashboardPrincipal
      requires k < |PLATAFORMAS|
      modifies this
      ensures Valid()
      ensures plataformaAtual == Some(PLATAFORMAS[k].id) && pagina == PlataformaAberta
      ensures autenticado == old(autenticado) && usuarioLogado == old(usuarioLogado)
      ensures TelaAtual() == PaginaPlataforma
    {
      plataformaAtual := Some(PLATAFORMAS[k].id);
      pagina := PlataformaAberta;
    }

    /** The platform page's back button. */
    method Voltar()
      requires Valid() && TelaAtual() == PaginaPlataforma
      modifies this
      ensures Valid()
      ensures pagina == Dashboard && plataformaAtual == None
      ensures autenticado == old(autenticado) && usuarioLogado == old(usuarioLogado)
      ensures TelaAtual() == DashboardPrincipal
    {
      pagina := Dashboard;
      plataformaAtual := None;
    }

    /** On the platform page the lookup of the selected platform always
        succeeds, so the "platform not found" message is never shown. */
    method PlataformaSelecionada() returns (p: Option<Plataforma>)
      requires Valid() && TelaAtual() == PaginaPlataforma
      ensures p.Some? && p.value in PLATAFORMAS && Some(p.value.id) == plataformaAtual
    {
      p := BuscarPlataforma(PLATAFORMAS, plataformaAtual);
    }
  }
}
