/** The user directory (services/AuthService.ts): registration with e-mail
    uniqueness, login, provider lookup, client listing and profile updates,
    all as operations on in-memory lists. The logged-in user of the session
    is part of the directory; ids and clocks are parameters. */
module Usuarios {
  import opened Base
  import opened Tipos

  datatype Diretorio = Diretorio(
    usuarios: seq<Usuario>,
    massagistas: seq<PerfilMassagista>,
    logado: Option<Usuario>)

  /** A user as submitted for registration: everything but the id and creation time. */
  datatype RegistroRequest = RegistroRequest(
    nome: string,
    email: string,
    senha: string,
    telefone: string,
    cidade: string,
    bio: Option<string>,
    tipo: Tipo)

  datatype FalhaAuth = EmailJaCadastrado | CredenciaisIncorretas

  datatype AuthResposta = AuthOk(usuario: Usuario) | AuthErro(falha: FalhaAuth)

  datatype ResultadoAuth = ResultadoAuth(resposta: AuthResposta, diretorio: Diretorio)

  /** The boolean result of a profile update and the directory after it. */
  datatype Atualizacao = Atualizacao(ok: bool, diretorio: Diretorio)

  function MensagemAuth(f: FalhaAuth): string
  {
    match f
    case EmailJaCadastrado => "Este email já está cadastrado"
    case CredenciaisIncorretas => "Email ou senha incorretos"
  }

  /** No two users share an e-mail address. */
  predicate EmailsDistintos(usuarios: seq<Usuario>)
  {
    forall i, j :: 0 <= i < j < |usuarios| ==> usuarios[i].email != usuarios[j].email
  }

  /** No two users share an id. */
  predicate IdsDistintos(usuarios: seq<Usuario>)
  {
    forall i, j :: 0 <= i < j < |usuarios| ==> usuarios[i].id != usuarios[j].id
  }

  function VerificarEmailExiste(usuarios: seq<Usuario>, email: string): (existe: bool)
    ensures existe <==> exists i :: 0 <= i < |usuarios| && usuarios[i].email == email
  {
    FindIndex((u: Usuario) => u.email == email, usuarios) != -1
  }

  function NovoUsuario(req: RegistroRequest, id: Id, agora: Instante): Usuario
  {
    Usuario(id, req.nome, req.email, req.senha, req.telefone, req.cidade, req.bio, req.tipo, agora)
  }

  /** The provider profile created at registration: every supplied service
      gets the fresh id at its position in `ids`, and the rating starts at zero. */
  function CriarPerfilMassagista(u: Usuario, servicos: seq<Servico>, ids: seq<Id>): (p: PerfilMassagista)
    requires |ids| == |servicos|
    ensures p.usuario == u
    ensures |p.servicos| == |servicos|
    ensures forall i :: 0 <= i < |servicos| ==>
              p.servicos[i].id == ids[i] && p.servicos[i] == servicos[i].(id := ids[i])
    ensures p.avaliacao == 0.0 && p.totalAvaliacoes == 0
  {
    PerfilMassagista(u, seq(|servicos|, i requires 0 <= i < |servicos| => servicos[i].(id := ids[i])), 0.0, 0)
  }

  /** `registrarUsuario`. `servicos` is empty when none are supplied; `ids`
      holds one fresh id per supplied service. */
  function RegistrarUsuario(dir: Diretorio, req: RegistroRequest, servicos: seq<Servico>,
                            novoId: Id, ids: seq<Id>, agora: Instante): (r: ResultadoAuth)
    requires |ids| == |servicos|
    ensures r.resposta.AuthErro? <==> exists i :: 0 <= i < |dir.usuarios| && dir.usuarios[i].email == req.email
    ensures r.resposta.AuthErro? ==> r.resposta.falha == EmailJaCadastrado && r.diretorio == dir
    ensures r.resposta.AuthOk? ==>
              var u := r.resposta.usuario;
              && u.id == novoId && u.criadoEm == agora
              && u.email == req.email && u.senha == req.senha && u.nome == req.nome
              && u.telefone == req.telefone && u.cidade == req.cidade && u.bio == req.bio
              && u.tipo == req.tipo
              && r.diretorio.usuarios == dir.usuarios + [u]
              && r.diretorio.logado == dir.logado
              && (req.tipo == Cliente ==> r.diretorio.massagistas == dir.massagistas)
              && (req.tipo == Massagista ==>
                    r.diretorio.massagistas == dir.massagistas + [CriarPerfilMassagista(u, servicos, ids)])
  {
    if VerificarEmailExiste(dir.usuarios, req.email) then
      ResultadoAuth(AuthErro(EmailJaCadastrado), dir)
    else
      var u := NovoUsuario(req, novoId, agora);
      var comUsuario := dir.(usuarios := dir.usuarios + [u]);
      if req.tipo == Massagista then
        ResultadoAuth(AuthOk(u), comUsuario.(massagistas := dir.massagistas + [CriarPerfilMassagista(u, servicos, ids)]))
      else
        ResultadoAuth(AuthOk(u), comUsuario)
  }

  /** Registration keeps the e-mail addresses of the user list pairwise distinct. */
  lemma RegistroPreservaEmailsDistintos(dir: Diretorio, req: RegistroRequest, servicos: seq<Servico>,
                                        novoId: Id, ids: seq<Id>, agora: Instante)
    requires |ids| == |servicos|
    requires EmailsDistintos(dir.usuarios)
    ensures EmailsDistintos(RegistrarUsuario(dir, req, servicos, novoId, ids, agora).diretorio.usuarios)
  {
    var r := RegistrarUsuario(dir, req, servicos, novoId, ids, agora);
    if r.resposta.AuthOk? {
      var us := r.diretorio.usuarios;
      forall i, j | 0 <= i < j < |us|
        ensures us[i].email != us[j].email
      {
        if j == |dir.usuarios| {
          assert us[i] == dir.usuarios[i];
        }
      }
    }
  }

  /** With a fresh id from the id oracle, registration keeps user ids distinct. */
  lemma RegistroPreservaIdsDistintos(dir: Diretorio, req: RegistroRequest, servicos: seq<Servico>,
                                     novoId: Id, ids: seq<Id>, agora: Instante)
    requires |ids| == |servicos|
    requires IdsDistintos(dir.usuarios)
    requires forall i :: 0 <= i < |dir.usuarios| ==> dir.usuarios[i].id != novoId
    ensures IdsDistintos(RegistrarUsuario(dir, req, servicos, novoId, ids, agora).diretorio.usuarios)
  {
    var r := RegistrarUsuario(dir, req, servicos, novoId, ids, agora);
    if r.resposta.AuthOk? {
      var us := r.diretorio.usuarios;
      forall i, j | 0 <= i < j < |us|
        ensures us[i].id != us[j].id
      {
        if j == |dir.usuarios| {
          assert us[i] == dir.usuarios[i];
        }
      }
    }
  }

  /** `logarUsuario`: the first user with both the e-mail and the password
      becomes the logged-in user. */
  function LogarUsuario(dir: Diretorio, email: string, senha: string): (r: ResultadoAuth)
    ensures r.resposta.AuthOk? <==>
              exists i :: 0 <= i < |dir.usuarios| && dir.usuarios[i].email == email && dir.usuarios[i].senha == senha
    ensures r.resposta.AuthOk? ==>
              (exists k :: 0 <= k < |dir.usuarios| && dir.usuarios[k] == r.resposta.usuario
                 && forall i :: 0 <= i < k ==> !(dir.usuarios[i].email == email && dir.usuarios[i].senha == senha))
              && r.resposta.usuario.email == email && r.resposta.usuario.senha == senha
              && r.diretorio == dir.(logado := Some(r.resposta.usuario))
    ensures r.resposta.AuthErro? ==> r.resposta.falha == CredenciaisIncorretas && r.diretorio == dir
  {
    match Find((u: Usuario) => u.email == email && u.senha == senha, dir.usuarios)
    case None => ResultadoAuth(AuthErro(CredenciaisIncorretas), dir)
    case Some(u) => ResultadoAuth(AuthOk(u), dir.(logado := Some(u)))
  }

  /** Whoever just registered can log straight in with the same credentials,
      and logs in as the user record registration created. */
  lemma {:induction false} RegistroEntaoLogin(dir: Diretorio, req: RegistroRequest, servicos: seq<Servico>,
                                              novoId: Id, ids: seq<Id>, agora: Instante)
    requires |ids| == |servicos|
    requires RegistrarUsuario(dir, req, servicos, novoId, ids, agora).resposta.AuthOk?
    ensures var r := RegistrarUsuario(dir, req, servicos, novoId, ids, agora);
            LogarUsuario(r.diretorio, req.email, req.senha) == ResultadoAuth(AuthOk(r.resposta.usuario), r.diretorio.(logado := Some(r.resposta.usuario)))
  {
    var r := RegistrarUsuario(dir, req, servicos, novoId, ids, agora);
    var us := r.diretorio.usuarios;
    var u := r.resposta.usuario;
    assert us[|dir.usuarios|] == u;
    var l := LogarUsuario(r.diretorio, req.email, req.senha);
    assert l.resposta.AuthOk?;
    var k :| 0 <= k < |us| && us[k] == l.resposta.usuario
             && forall i :: 0 <= i < k ==> !(us[i].email == req.email && us[i].senha == req.senha);
    assert k == |dir.usuarios|;
  }

  /** `obterMassagistaPorId`: the first provider profile with that id, or none. */
  function ObterMassagistaPorId(massagistas: seq<PerfilMassagista>, id: Id): (r: Option<PerfilMassagista>)
    ensures r.None? <==> forall i :: 0 <= i < |massagistas| ==> massagistas[i].usuario.id != id
    ensures r.Some? ==> r.value.usuario.id == id
                        && exists k :: 0 <= k < |massagistas| && massagistas[k] == r.value
                             && forall i :: 0 <= i < k ==> massagistas[i].usuario.id != id
  {
    Find((m: PerfilMassagista) => m.usuario.id == id, massagistas)
  }

  /** `obterTodosClientes`: the users of type client, in stored order. */
  function ObterTodosClientes(usuarios: seq<Usuario>): (r: seq<Usuario>)
    ensures forall i :: 0 <= i < |r| ==> r[i].tipo == Cliente && r[i] in usuarios
    ensures forall i :: 0 <= i < |usuarios| && usuarios[i].tipo == Cliente ==> usuarios[i] in r
    ensures IsSubseq(r, usuarios)
    ensures forall u :: multiset(r)[u] == if u.tipo == Cliente then multiset(usuarios)[u] else 0
  {
    var p := (u: Usuario) => u.tipo == Cliente;
    assert forall u :: multiset(Filter(p, usuarios))[u] == if u.tipo == Cliente then multiset(usuarios)[u] else 0 by {
      forall u
        ensures multiset(Filter(p, usuarios))[u] == if u.tipo == Cliente then multiset(usuarios)[u] else 0
      {
        FilterCount(p, usuarios, u);
      }
    }
    Filter(p, usuarios)
  }

  /** Position of the first provider profile with the given id, or -1. */
  function IndiceMassagista(massagistas: seq<PerfilMassagista>, id: Id): (k: int)
    ensures -1 <= k < |massagistas|
    ensures k == -1 <==> forall i :: 0 <= i < |massagistas| ==> massagistas[i].usuario.id != id
    ensures k >= 0 ==> massagistas[k].usuario.id == id
                       && forall i :: 0 <= i < k ==> massagistas[i].usuario.id != id
  {
    FindIndex((m: PerfilMassagista) => m.usuario.id == id, massagistas)
  }

  /** Position of the first user with the given id, or -1. */
  function IndiceUsuario(usuarios: seq<Usuario>, id: Id): (k: int)
    ensures -1 <= k < |usuarios|
    ensures k == -1 <==> forall i :: 0 <= i < |usuarios| ==> usuarios[i].id != id
    ensures k >= 0 ==> usuarios[k].id == id && forall i :: 0 <= i < k ==> usuarios[i].id != id
  {
    FindIndex((u: Usuario) => u.id == id, usuarios)
  }

  /** `atualizarMassagista`: replaces the first profile with the same id, if any. */
  function AtualizarMassagista(massagistas: seq<PerfilMassagista>, p: PerfilMassagista): (r: seq<PerfilMassagista>)
    ensures |r| == |massagistas|
    ensures var k := IndiceMassagista(massagistas, p.usuario.id);
            forall i :: 0 <= i < |r| ==> r[i] == (if i == k then p else massagistas[i])
  {
    var k := IndiceMassagista(massagistas, p.usuario.id);
    if k == -1 then massagistas else massagistas[k := p]
  }

  /** `atualizarPerfil`. The source receives one object that is a user and,
      when its type is provider, is also stored as the provider profile; the
      model receives that object as a profile whose provider fields are used
      only in the provider case. */
  function AtualizarPerfil(dir: Diretorio, novo: PerfilMassagista): (r: Atualizacao)
    ensures var id := novo.usuario.id;
            r.ok <==> exists i :: 0 <= i < |dir.usuarios| && dir.usuarios[i].id == id
    ensures !r.ok ==> r.diretorio == dir
    ensures r.ok ==>
              var id := novo.usuario.id;
              var k := IndiceUsuario(dir.usuarios, id);
              && |r.diretorio.usuarios| == |dir.usuarios|
              && (forall i :: 0 <= i < |dir.usuarios| ==>
                    r.diretorio.usuarios[i] == (if i == k then novo.usuario else dir.usuarios[i]))
              && r.diretorio.logado == (if dir.logado.Some? && dir.logado.value.id == id then Some(novo.usuario) else dir.logado)
              && r.diretorio.massagistas ==
                   (if novo.usuario.tipo == Massagista then AtualizarMassagista(dir.massagistas, novo) else dir.massagistas)
  {
    var id := novo.usuario.id;
    var k := IndiceUsuario(dir.usuarios, id);
    if k == -1 then Atualizacao(false, dir)
    else
      var logado := if dir.logado.Some? && dir.logado.value.id == id then Some(novo.usuario) else dir.logado;
      var massagistas := if novo.usuario.tipo == Massagista then AtualizarMassagista(dir.massagistas, novo) else dir.massagistas;
      Atualizacao(true, Diretorio(dir.usuarios[k := novo.usuario], massagistas, logado))
  }

  /** `atualizarServicosMassagista`: replaces the service list of the first
      profile with that id and nothing else. */
  function AtualizarServicosMassagista(dir: Diretorio, id: Id, novos: seq<Servico>): (r: Atualizacao)
    ensures r.ok <==> exists i :: 0 <= i < |dir.massagistas| && dir.massagistas[i].usuario.id == id
    ensures !r.ok ==> r.diretorio == dir
    ensures r.ok ==>
              var k := IndiceMassagista(dir.massagistas, id);
              var ms := r.diretorio.massagistas;
              && |ms| == |dir.massagistas|
              && ms[k].servicos == novos
              && ms[k].usuario == dir.massagistas[k].usuario
              && ms[k].avaliacao == dir.massagistas[k].avaliacao
              && ms[k].totalAvaliacoes == dir.massagistas[k].totalAvaliacoes
              && (forall i :: 0 <= i < |ms| && i != k ==> ms[i] == dir.massagistas[i])
              && r.diretorio.usuarios == dir.usuarios
              && r.diretorio.logado == (if dir.logado.Some? && dir.logado.value.id == id then Some(ms[k].usuario) else dir.logado)
  {
    var k := IndiceMassagista(dir.massagistas, id);
    if k == -1 then Atualizacao(false, dir)
    else
      var ms := dir.massagistas[k := dir.massagistas[k].(servicos := novos)];
      var logado := if dir.logado.Some? && dir.logado.value.id == id then Some(ms[k].usuario) else dir.logado;
      Atualizacao(true, dir.(massagistas := ms, logado := logado))
  }

  /** A profile update keeps e-mails distinct when no other user has the new
      address; the service itself does not check this. */
  lemma AtualizarPerfilPreservaEmailsDistintos(dir: Diretorio, novo: PerfilMassagista)
    requires EmailsDistintos(dir.usuarios)
    requires forall i :: 0 <= i < |dir.usuarios| && i != IndiceUsuario(dir.usuarios, novo.usuario.id) ==>
               dir.usuarios[i].email != novo.usuario.email
    ensures EmailsDistintos(AtualizarPerfil(dir, novo).diretorio.usuarios)
  {
    var k := IndiceUsuario(dir.usuarios, novo.usuario.id);
    var us := AtualizarPerfil(dir, novo).diretorio.usuarios;
    if k != -1 {
      forall i, j | 0 <= i < j < |us|
        ensures us[i].email != us[j].email
      {
        if i != k && j != k {
          assert us[i] == dir.usuarios[i] && us[j] == dir.usuarios[j];
        }
      }
    }
  }

  /** Two users whose e-mails differ, the second then changing its e-mail to the first's. */
  function ExemploEmailRepetido(): (Diretorio, PerfilMassagista)
  {
    var a := Usuario("a", "Ana", "ana@x", "1", "", "", None, Cliente, 0);
    var b := Usuario("b", "Bia", "bia@x", "2", "", "", None, Cliente, 0);
    (Diretorio([a, b], [], None), PerfilMassagista(b.(email := "ana@x"), [], 0.0, 0))
  }

  /** `atualizarPerfil` accepts an e-mail another user already has, so the
      uniqueness registration keeps can be lost through a profile update. */
  lemma AtualizarPerfilPodeRepetirEmail()
    ensures EmailsDistintos(ExemploEmailRepetido().0.usuarios)
    ensures var (dir, novo) := ExemploEmailRepetido();
            var r := AtualizarPerfil(dir, novo);
            r.ok && !EmailsDistintos(r.diretorio.usuarios)
  {
    var (dir, novo) := ExemploEmailRepetido();
    assert IndiceUsuario(dir.usuarios, "b") == 1;
    var us := AtualizarPerfil(dir, novo).diretorio.usuarios;
    assert us[0].email == us[1].email;
  }

  /** Replacing a provider's services twice with the same list is replacing them once. */
  lemma AtualizarServicosIdempotente(dir: Diretorio, id: Id, novos: seq<Servico>)
    ensures var r := AtualizarServicosMassagista(dir, id, novos);
            AtualizarServicosMassagista(r.diretorio, id, novos) == r
  {
    var r := AtualizarServicosMassagista(dir, id, novos);
    if r.ok {
      var k := IndiceMassagista(dir.massagistas, id);
      assert IndiceMassagista(r.diretorio.massagistas, id) == k;
      assert r.diretorio.massagistas[k := r.diretorio.massagistas[k].(servicos := novos)] == r.diretorio.massagistas;
    }
  }
}
