/**
 * The credential store: an in-memory table of user records, loaded from a
 * flat file, bootstrapped with a default administrator when empty, extended
 * by registration and stamped on every successful login.
 *
 * Three things the store takes from its environment are parameters here:
 * the one-way password hash (a function fixed at construction, about which
 * nothing is assumed), the wall clock (an `Instante` passed to each
 * operation) and the backing file (its contents at load time are a
 * constructor argument, and every rewrite of it is recorded as a snapshot in
 * the ghost history `gravacoes`).
 */
module Auth {
  import opened Wrappers

  const TIPO_ADMIN := "admin"
  const TIPO_USUARIO := "usuario"
  const ADMIN_NOME := "Administrador"
  const ADMIN_EMAIL := "admin@sistema.com"
  const ADMIN_SENHA := "admin123"
  const MSG_EMAIL_DUPLICADO := "Email já cadastrado"
  const MSG_USUARIO_CRIADO := "Usuário criado com sucesso"

  /** One reading of the wall clock, in the two renderings the store uses:
      `compacto` as %Y%m%d%H%M%S (for identifiers) and `legivel` as
      %Y-%m-%d %H:%M:%S (for the timestamps kept in the record). */
  datatype Instante = Instante(compacto: string, legivel: string)

  /** A user record, as persisted. */
  datatype Usuario = Usuario(
    id: string,
    nome: string,
    email: string,
    senhaHash: string,
    tipo: string,
    dataCriacao: string,
    ultimoAcesso: Option<string>)

  /** The record synthesised for a new account (never logged in yet). */
  function NovoRegistro(nome: string, email: string, senhaHash: string, tipo: string, agora: Instante): (u: Usuario)
    ensures Confere(u, email, senhaHash) && u.nome == nome && u.tipo == tipo
    ensures u.id == "USR" + agora.compacto
    ensures u.dataCriacao == agora.legivel && u.ultimoAcesso == None
  {
    Usuario("USR" + agora.compacto, nome, email, senhaHash, tipo, agora.legivel, None)
  }

  /** The default administrator created on an empty store. */
  function AdminPadrao(hash: string -> string, agora: Instante): (u: Usuario)
    ensures Confere(u, ADMIN_EMAIL, hash(ADMIN_SENHA)) && u.tipo == TIPO_ADMIN
    ensures u.ultimoAcesso == None
  {
    NovoRegistro(ADMIN_NOME, ADMIN_EMAIL, hash(ADMIN_SENHA), TIPO_ADMIN, agora)
  }

  /** Both the email (exact, case-sensitive) and the password hash agree. */
  predicate Confere(u: Usuario, email: string, senhaHash: string)
  {
    u.email == email && u.senhaHash == senhaHash
  }

  /** Position of the first record matching the credentials, if any: the
      linear scan of the login operation. */
  function BuscaCredencial(us: seq<Usuario>, email: string, senhaHash: string): (r: Option<nat>)
    ensures r.Some? ==> r.value < |us| && Confere(us[r.value], email, senhaHash)
    ensures r.Some? ==> forall k :: 0 <= k < r.value ==> !Confere(us[k], email, senhaHash)
    ensures r.None? <==> forall k :: 0 <= k < |us| ==> !Confere(us[k], email, senhaHash)
  {
    if us == [] then None
    else if Confere(us[0], email, senhaHash) then Some(0)
    else
      match BuscaCredencial(us[1..], email, senhaHash)
      case None => None
      case Some(i) => Some(i + 1)
  }

  /** Whether some record already holds this email (exact string equality). */
  function EmailCadastrado(us: seq<Usuario>, email: string): (b: bool)
    ensures b <==> exists k :: 0 <= k < |us| && us[k].email == email
  {
    if us == [] then false
    else us[0].email == email || EmailCadastrado(us[1..], email)
  }

  /** No two records share an email. */
  ghost predicate EmailsUnicos(us: seq<Usuario>)
  {
    forall i, j :: 0 <= i < j < |us| ==> us[i].email != us[j].email
  }

  /** Appending a record whose email is not yet registered keeps emails
      pairwise distinct; registration relies on this and nothing else. */
  lemma AcrescentarPreservaUnicidade(us: seq<Usuario>, u: Usuario)
    requires EmailsUnicos(us)
    requires !EmailCadastrado(us, u.email)
    ensures EmailsUnicos(us + [u])
  {
  }

  /** Appending may break uniqueness if the caller does not check first:
      the store keeps uniqueness, it does not create it. */
  lemma AcrescentarDuplicadoQuebraUnicidade(us: seq<Usuario>, u: Usuario)
    requires EmailCadastrado(us, u.email)
    ensures !EmailsUnicos(us + [u])
  {
    var k :| 0 <= k < |us| && us[k].email == u.email;
    assert (us + [u])[k].email == (us + [u])[|us|].email;
  }

  /** Once emails are unique, the record the login scan finds is the only
      one with that email: first match and unique match coincide. */
  lemma BuscaUnicaPorEmail(us: seq<Usuario>, email: string, senhaHash: string)
    requires EmailsUnicos(us)
    requires BuscaCredencial(us, email, senhaHash).Some?
    ensures forall k :: 0 <= k < |us| && us[k].email == email ==> k == BuscaCredencial(us, email, senhaHash).value
  {
  }

  /** After a successful registration, logging in with the same email and
      password finds exactly the record just appended. */
  lemma CadastroPermiteLogin(
    us: seq<Usuario>, hash: string -> string, nome: string, email: string, senha: string, agora: Instante)
    requires !EmailCadastrado(us, email)
    ensures BuscaCredencial(us + [NovoRegistro(nome, email, hash(senha), TIPO_USUARIO, agora)], email, hash(senha)) == Some(|us|)
  {
    var vs := us + [NovoRegistro(nome, email, hash(senha), TIPO_USUARIO, agora)];
    assert Confere(vs[|us|], email, hash(senha));
    forall k | 0 <= k < |us| ensures !Confere(vs[k], email, hash(senha)) {
      assert vs[k] == us[k];
    }
  }

  /** The bootstrapped administrator can log in with the known default
      credentials. */
  lemma AdminPadraoAutentica(hash: string -> string, agora: Instante)
    ensures BuscaCredencial([AdminPadrao(hash, agora)], ADMIN_EMAIL, hash(ADMIN_SENHA)) == Some(0)
  {
  }

  /** Emails are compared exactly: a differently-cased address is a
      different account for both registration and login. */
  lemma EmailSensivelAMaiusculas(hash: string -> string, agora: Instante)
    ensures !EmailCadastrado([AdminPadrao(hash, agora)], "Admin@sistema.com")
    ensures BuscaCredencial([AdminPadrao(hash, agora)], "Admin@sistema.com", hash(ADMIN_SENHA)) == None
  {
  }

  /** The store. `usuarios` is the in-memory table, `gravacoes` the ordered
      history of full rewrites of the backing file. */
  class GerenciadorUsuarios {
    const hash: string -> string
    var usuarios: seq<Usuario>
    ghost var gravacoes: seq<seq<Usuario>>

    /** The store is never empty once constructed. */
    ghost predicate Valid()
      reads this
    {
      |usuarios| > 0
    }

    /** Loads the table from the backing file (`arquivo` is None when the
        file does not exist) and bootstraps the administrator if the
        table is empty. */
    constructor (hash: string -> string, arquivo: Option<seq<Usuario>>, agora: Instante)
      ensures Valid()
      ensures this.hash == hash
      ensures arquivo.Some? && arquivo.value != [] ==> usuarios == arquivo.value && gravacoes == []
      ensures arquivo.None? || arquivo.value == [] ==>
        usuarios == [AdminPadrao(hash, agora)] && gravacoes == [usuarios]
    {
      this.hash := hash;
      gravacoes := [];
      usuarios := if arquivo.Some? then arquivo.value else [];
      new;
      if usuarios == [] {
        CriarAdminPadrao(agora);
      }
    }

    /** Rewrites the backing file with the whole table. */
    method SalvarUsuarios()
      modifies this`gravacoes
      ensures gravacoes == old(gravacoes) + [usuarios]
    {
      gravacoes := gravacoes + [usuarios];
    }

    /** Appends the default administrator and saves. */
    method CriarAdminPadrao(agora: Instante)
      modifies this
      ensures Valid()
      ensures usuarios == old(usuarios) + [AdminPadrao(hash, agora)]
      ensures gravacoes == old(gravacoes) + [usuarios]
    {
      usuarios := usuarios + [AdminPadrao(hash, agora)];
      SalvarUsuarios();
    }

    /** Scans the table in order for a record with this email and the hash
        of this password; on the first match stamps its last access, saves
        and returns it, otherwise changes nothing. */
    method Autenticar(email: string, senha: string, agora: Instante) returns (r: Option<Usuario>)
      requires Valid()
      modifies this
      ensures Valid()
      ensures match BuscaCredencial(old(usuarios), email, hash(senha))
        case None =>
          r == None && usuarios == old(usuarios) && gravacoes == old(gravacoes)
        case Some(i) =>
          && usuarios == old(usuarios)[i := old(usuarios)[i].(ultimoAcesso := Some(agora.legivel))]
          && r == Some(usuarios[i])
          && gravacoes == old(gravacoes) + [usuarios]
    {
      var senhaHash := hash(senha);
      var i := 0;
      while i < |usuarios|
        invariant 0 <= i <= |usuarios|
        invariant usuarios == old(usuarios) && gravacoes == old(gravacoes)
        invariant forall k :: 0 <= k < i ==> !Confere(usuarios[k], email, senhaHash)
      {
        if usuarios[i].email == email && usuarios[i].senhaHash == senhaHash {
          assert BuscaCredencial(old(usuarios), email, senhaHash) == Some(i);
          usuarios := usuarios[i := usuarios[i].(ultimoAcesso := Some(agora.legivel))];
          SalvarUsuarios();
          return Some(usuarios[i]);
        }
        i := i + 1;
      }
      return None;
    }

    /** Refuses an email that is already registered; otherwise appends a
        standard-user record with the hashed password and saves. Emails
        that were pairwise distinct stay so. */
    method CriarUsuario(nome: string, email: string, senha: string, agora: Instante)
      returns (sucesso: bool, mensagem: string)
      requires Valid()
      modifies this
      ensures Valid()
      ensures sucesso <==> !EmailCadastrado(old(usuarios), email)
      ensures !sucesso ==>
        mensagem == MSG_EMAIL_DUPLICADO && usuarios == old(usuarios) && gravacoes == old(gravacoes)
      ensures sucesso ==>
        && mensagem == MSG_USUARIO_CRIADO
        && usuarios == old(usuarios) + [NovoRegistro(nome, email, hash(senha), TIPO_USUARIO, agora)]
        && gravacoes == old(gravacoes) + [usuarios]
      ensures EmailsUnicos(old(usuarios)) ==> EmailsUnicos(usuarios)
    {
      if EmailCadastrado(usuarios, email) {
        return false, MSG_EMAIL_DUPLICADO;
      }
      var novo := NovoRegistro(nome, email, hash(senha), TIPO_USUARIO, agora);
      if EmailsUnicos(usuarios) {
        AcrescentarPreservaUnicidade(usuarios, novo);
      }
      usuarios := usuarios + [novo];
      SalvarUsuarios();
      return true, MSG_USUARIO_CRIADO;
    }
  }
}
