/** The booking engine of services/AgendamentoService.ts: creation by a
    client or by a provider, the generic status update and its three
    wrappers, rescheduling, and the listings. The store is the sequence of
    bookings in storage order; the logged-in user and the directories come
    from the user directory; fresh ids and the current time are parameters.
    Every failure is returned, never thrown, and leaves the store as it was. */
module Agendamentos {
  import opened Base
  import opened Tipos
  import opened Usuarios
  import opened Horarios

  datatype Falha =
    | NaoLogadoComoCliente
    | NaoLogadoComoMassagista
    | HorarioIndisponivel
    | MassagistaNaoEncontrada
    | ServicoNaoEncontrado
    | ClienteNaoEncontrado
    | AgendamentoNaoEncontrado
    | SemPermissao
    | NovoHorarioIndisponivel

  function Mensagem(f: Falha): string
  {
    match f
    case NaoLogadoComoCliente => "Usuário deve estar logado como cliente"
    case NaoLogadoComoMassagista => "Usuário deve estar logado como massagista"
    case HorarioIndisponivel => "Horário não está mais disponível"
    case MassagistaNaoEncontrada => "Massagista não encontrada"
    case ServicoNaoEncontrado => "Serviço não encontrado"
    case ClienteNaoEncontrado => "Cliente não encontrado"
    case AgendamentoNaoEncontrado => "Agendamento não encontrado"
    case SemPermissao => "Você não tem permissão para reagendar este agendamento"
    case NovoHorarioIndisponivel => "Novo horário não está disponível"
  }

  /** `AgendamentoResponse`: success carries the booking written. */
  datatype Resposta = Ok(agendamento: Agendamento) | Erro(falha: Falha)

  /** A response together with the store after the operation. */
  datatype Resultado = Resultado(resposta: Resposta, agendamentos: seq<Agendamento>)

  datatype PedidoAgendamento = PedidoAgendamento(
    massagistaId: Id, servicoId: Id, data: Data, hora: Hora, observacoes: Option<string>)

  datatype PedidoManual = PedidoManual(
    clienteId: Id, servicoId: Id, data: Data, hora: Hora, observacoes: Option<string>)

  datatype PedidoReagendamento = PedidoReagendamento(
    agendamentoId: Id, novaData: Data, novaHora: Hora, motivo: string)

  predicate LogadoComo(logado: Option<Usuario>, tipo: Tipo)
  {
    logado.Some? && logado.value.tipo == tipo
  }

  /** The first provider profile with id `massagistaId` lists a service with id `servicoId`. */
  predicate OfereceServico(massagistas: seq<PerfilMassagista>, massagistaId: Id, servicoId: Id)
  {
    var p := ObterMassagistaPorId(massagistas, massagistaId);
    p.Some? && exists i :: 0 <= i < |p.value.servicos| && p.value.servicos[i].id == servicoId
  }

  /** `u` is the first user in `usuarios` whose id is `id`, as `find` returns it. */
  predicate PrimeiroUsuario(usuarios: seq<Usuario>, id: Id, u: Usuario)
  {
    exists k :: 0 <= k < |usuarios| && usuarios[k] == u && u.id == id
                && forall i :: 0 <= i < k ==> usuarios[i].id != id
  }

  /** `s` is the first service in `servicos` whose id is `id`, as `find` returns it. */
  predicate PrimeiroServico(servicos: seq<Servico>, id: Id, s: Servico)
  {
    exists k :: 0 <= k < |servicos| && servicos[k] == s && s.id == id
                && forall i :: 0 <= i < k ==> servicos[i].id != id
  }

  function BuscarServico(p: PerfilMassagista, servicoId: Id): (r: Option<Servico>)
    ensures r.None? <==> forall i :: 0 <= i < |p.servicos| ==> p.servicos[i].id != servicoId
    ensures r.Some? ==> r.value.id == servicoId && r.value in p.servicos
    ensures r.Some? ==> PrimeiroServico(p.servicos, servicoId, r.value)
  {
    Find((s: Servico) => s.id == servicoId, p.servicos)
  }

  /** `salvarAgendamento`: appends one booking to the store. */
  function SalvarAgendamento(agendamentos: seq<Agendamento>, a: Agendamento): seq<Agendamento>
  {
    agendamentos + [a]
  }

  /** `criarAgendamento`. The validations run in the service's order: role, slot,
      provider, service. The time is not checked against the grid. */
  function CriarAgendamento(dir: Diretorio, agendamentos: seq<Agendamento>, pedido: PedidoAgendamento,
                            novoId: Id, agora: Instante): (r: Resultado)
    ensures r.resposta.Erro? ==> r.agendamentos == agendamentos
    ensures !LogadoComo(dir.logado, Cliente) ==> r.resposta == Erro(NaoLogadoComoCliente)
    ensures LogadoComo(dir.logado, Cliente)
            && (exists i :: 0 <= i < |agendamentos| && Ocupa(agendamentos[i], pedido.massagistaId, pedido.data, pedido.hora))
            ==> r.resposta == Erro(HorarioIndisponivel)
    ensures LogadoComo(dir.logado, Cliente)
            && VerificarDisponibilidade(agendamentos, pedido.massagistaId, pedido.data, pedido.hora)
            && (forall i :: 0 <= i < |dir.massagistas| ==> dir.massagistas[i].usuario.id != pedido.massagistaId)
            ==> r.resposta == Erro(MassagistaNaoEncontrada)
    ensures LogadoComo(dir.logado, Cliente)
            && VerificarDisponibilidade(agendamentos, pedido.massagistaId, pedido.data, pedido.hora)
            && ObterMassagistaPorId(dir.massagistas, pedido.massagistaId).Some?
            && !OfereceServico(dir.massagistas, pedido.massagistaId, pedido.servicoId)
            ==> r.resposta == Erro(ServicoNaoEncontrado)
    ensures r.resposta.Ok? <==>
              && LogadoComo(dir.logado, Cliente)
              && VerificarDisponibilidade(agendamentos, pedido.massagistaId, pedido.data, pedido.hora)
              && OfereceServico(dir.massagistas, pedido.massagistaId, pedido.servicoId)
    ensures r.resposta.Ok? ==>
              var a := r.resposta.agendamento;
              && r.agendamentos == agendamentos + [a]
              && a.id == novoId
              && a.status == Pendente
              && a.clienteId == dir.logado.value.id
              && a.massagistaId == pedido.massagistaId && a.servicoId == pedido.servicoId
              && a.data == pedido.data && a.hora == pedido.hora
              && a.observacoes == pedido.observacoes
              && a.criadoEm == agora && a.atualizadoEm == agora
  {
    if !LogadoComo(dir.logado, Cliente) then
      Resultado(Erro(NaoLogadoComoCliente), agendamentos)
    else if !VerificarDisponibilidade(agendamentos, pedido.massagistaId, pedido.data, pedido.hora) then
      Resultado(Erro(HorarioIndisponivel), agendamentos)
    else
      match ObterMassagistaPorId(dir.massagistas, pedido.massagistaId)
      case None => Resultado(Erro(MassagistaNaoEncontrada), agendamentos)
      case Some(p) =>
        if BuscarServico(p, pedido.servicoId).None? then
          Resultado(Erro(ServicoNaoEncontrado), agendamentos)
        else
          var novo := Agendamento(novoId, dir.logado.value.id, pedido.massagistaId, pedido.servicoId,
                                  pedido.data, pedido.hora, Pendente, pedido.observacoes, agora, agora);
          Resultado(Ok(novo), SalvarAgendamento(agendamentos, novo))
  }

  /** `criarAgendamentoManual`: a provider books one of their own services
      for a registered client; the booking starts confirmed. */
  function CriarAgendamentoManual(dir: Diretorio, agendamentos: seq<Agendamento>, pedido: PedidoManual,
                                  novoId: Id, agora: Instante): (r: Resultado)
    ensures r.resposta.Erro? ==> r.agendamentos == agendamentos
    ensures !LogadoComo(dir.logado, Massagista) ==> r.resposta == Erro(NaoLogadoComoMassagista)
    ensures LogadoComo(dir.logado, Massagista)
            && (exists i :: 0 <= i < |agendamentos| && Ocupa(agendamentos[i], dir.logado.value.id, pedido.data, pedido.hora))
            ==> r.resposta == Erro(HorarioIndisponivel)
    ensures LogadoComo(dir.logado, Massagista)
            && VerificarDisponibilidade(agendamentos, dir.logado.value.id, pedido.data, pedido.hora)
            && (forall i :: 0 <= i < |dir.usuarios| ==>
                  !(dir.usuarios[i].id == pedido.clienteId && dir.usuarios[i].tipo == Cliente))
            ==> r.resposta == Erro(ClienteNaoEncontrado)
    ensures LogadoComo(dir.logado, Massagista)
            && VerificarDisponibilidade(agendamentos, dir.logado.value.id, pedido.data, pedido.hora)
            && (exists i :: 0 <= i < |dir.usuarios| && dir.usuarios[i].id == pedido.clienteId
                              && dir.usuarios[i].tipo == Cliente)
            ==> (ObterMassagistaPorId(dir.massagistas, dir.logado.value.id).None? ==> r.resposta == Erro(MassagistaNaoEncontrada))
                && (ObterMassagistaPorId(dir.massagistas, dir.logado.value.id).Some?
                    && !OfereceServico(dir.massagistas, dir.logado.value.id, pedido.servicoId)
                    ==> r.resposta == Erro(ServicoNaoEncontrado))
    ensures r.resposta.Ok? <==>
              && LogadoComo(dir.logado, Massagista)
              && VerificarDisponibilidade(agendamentos, dir.logado.value.id, pedido.data, pedido.hora)
              && (exists i :: 0 <= i < |dir.usuarios| && dir.usuarios[i].id == pedido.clienteId
                                && dir.usuarios[i].tipo == Cliente)
              && OfereceServico(dir.massagistas, dir.logado.value.id, pedido.servicoId)
    ensures r.resposta.Ok? ==>
              var a := r.resposta.agendamento;
              && r.agendamentos == agendamentos + [a]
              && a.id == novoId
              && a.status == Confirmado
              && a.clienteId == pedido.clienteId
              && a.massagistaId == dir.logado.value.id && a.servicoId == pedido.servicoId
              && a.data == pedido.data && a.hora == pedido.hora
              && a.observacoes == pedido.observacoes
              && a.criadoEm == agora && a.atualizadoEm == agora
  {
    if !LogadoComo(dir.logado, Massagista) then
      Resultado(Erro(NaoLogadoComoMassagista), agendamentos)
    else
      var eu := dir.logado.value.id;
      if !VerificarDisponibilidade(agendamentos, eu, pedido.data, pedido.hora) then
        Resultado(Erro(HorarioIndisponivel), agendamentos)
      else
        var clientes := ObterTodosClientes(dir.usuarios);
        if Find((c: Usuario) => c.id == pedido.clienteId, clientes).None? then
          assert forall i :: 0 <= i < |dir.usuarios| && dir.usuarios[i].tipo == Cliente ==> dir.usuarios[i] in clientes;
          Resultado(Erro(ClienteNaoEncontrado), agendamentos)
        else
          match ObterMassagistaPorId(dir.massagistas, eu)
          case None => Resultado(Erro(MassagistaNaoEncontrada), agendamentos)
          case Some(p) =>
            if BuscarServico(p, pedido.servicoId).None? then
              Resultado(Erro(ServicoNaoEncontrado), agendamentos)
            else
              var novo := Agendamento(novoId, pedido.clienteId, eu, pedido.servicoId,
                                      pedido.data, pedido.hora, Confirmado, pedido.observacoes, agora, agora);
              Resultado(Ok(novo), SalvarAgendamento(agendamentos, novo))
  }

  /** Position of the first booking with the given id, or -1. */
  function IndiceAgendamento(agendamentos: seq<Agendamento>, id: Id): (k: int)
    ensures -1 <= k < |agendamentos|
    ensures k == -1 <==> forall i :: 0 <= i < |agendamentos| ==> agendamentos[i].id != id
    ensures k >= 0 ==> agendamentos[k].id == id && forall i :: 0 <= i < k ==> agendamentos[i].id != id
  {
    FindIndex((a: Agendamento) => a.id == id, agendamentos)
  }

  /** `atualizarStatusAgendamento`: sets the status and update time of the
      first booking with that id. Any status may become any other. */
  function AtualizarStatusAgendamento(agendamentos: seq<Agendamento>, id: Id, novoStatus: Status,
                                      agora: Instante): (r: Resultado)
    ensures r.resposta.Erro? <==> forall i :: 0 <= i < |agendamentos| ==> agendamentos[i].id != id
    ensures r.resposta.Erro? ==> r.resposta.falha == AgendamentoNaoEncontrado && r.agendamentos == agendamentos
    ensures r.resposta.Ok? ==>
              var k := IndiceAgendamento(agendamentos, id);
              && |r.agendamentos| == |agendamentos|
              && r.agendamentos[k] == agendamentos[k].(status := novoStatus, atualizadoEm := agora)
              && (forall i :: 0 <= i < |agendamentos| && i != k ==> r.agendamentos[i] == agendamentos[i])
              && r.resposta.agendamento == r.agendamentos[k]
  {
    var k := IndiceAgendamento(agendamentos, id);
    if k == -1 then
      Resultado(Erro(AgendamentoNaoEncontrado), agendamentos)
    else
      var atualizado := agendamentos[k].(status := novoStatus, atualizadoEm := agora);
      Resultado(Ok(atualizado), agendamentos[k := atualizado])
  }

  /** `cancelarAgendamento`. */
  function CancelarAgendamento(agendamentos: seq<Agendamento>, id: Id, agora: Instante): (r: Resultado)
    ensures r == AtualizarStatusAgendamento(agendamentos, id, Cancelado, agora)
    ensures r.resposta.Ok? ==> r.resposta.agendamento.status == Cancelado && r.resposta.agendamento.id == id
  {
    AtualizarStatusAgendamento(agendamentos, id, Cancelado, agora)
  }

  /** `confirmarAgendamento`. */
  function ConfirmarAgendamento(agendamentos: seq<Agendamento>, id: Id, agora: Instante): (r: Resultado)
    ensures r == AtualizarStatusAgendamento(agendamentos, id, Confirmado, agora)
    ensures r.resposta.Ok? ==> r.resposta.agendamento.status == Confirmado && r.resposta.agendamento.id == id
  {
    AtualizarStatusAgendamento(agendamentos, id, Confirmado, agora)
  }

  /** `concluirAgendamento`. */
  function ConcluirAgendamento(agendamentos: seq<Agendamento>, id: Id, agora: Instante): (r: Resultado)
    ensures r == AtualizarStatusAgendamento(agendamentos, id, Concluido, agora)
    ensures r.resposta.Ok? ==> r.resposta.agendamento.status == Concluido && r.resposta.agendamento.id == id
  {
    AtualizarStatusAgendamento(agendamentos, id, Concluido, agora)
  }

  /** The audit note a reschedule writes: the old notes, when non-empty,
      stay as a prefix, separated by a blank line from the labelled reason. */
  function NotasReagendadas(observacoes: Option<string>, motivo: string): (r: string)
    ensures var rotulo := "REAGENDADO: " + motivo;
            && |rotulo| <= |r|
            && r[|r| - |rotulo|..] == rotulo
            && (!Preenchido(observacoes) ==> r == rotulo)
            && (Preenchido(observacoes) ==>
                  var antigas := observacoes.value;
                  && |r| == |antigas| + 2 + |rotulo|
                  && r[..|antigas|] == antigas
                  && r[|antigas|..|antigas| + 2] == "\n\n")
  {
    if Preenchido(observacoes) then observacoes.value + "\n\n" + "REAGENDADO: " + motivo
    else "REAGENDADO: " + motivo
  }

  /** `reagendarAgendamento`: the owning provider moves a booking to a new
      date and time, re-checking the slot only when it changes, and appends
      the reason to the notes. The status is not checked and not changed. */
  function ReagendarAgendamento(dir: Diretorio, agendamentos: seq<Agendamento>, pedido: PedidoReagendamento,
                                agora: Instante): (r: Resultado)
    ensures r.resposta.Erro? ==> r.agendamentos == agendamentos
    ensures !LogadoComo(dir.logado, Massagista) ==> r.resposta == Erro(NaoLogadoComoMassagista)
    ensures LogadoComo(dir.logado, Massagista)
            && (forall i :: 0 <= i < |agendamentos| ==> agendamentos[i].id != pedido.agendamentoId)
            ==> r.resposta == Erro(AgendamentoNaoEncontrado)
    ensures r.resposta.Ok? ==>
              var k := IndiceAgendamento(agendamentos, pedido.agendamentoId);
              var antes := agendamentos[k];
              && LogadoComo(dir.logado, Massagista)
              && 0 <= k
              && antes.massagistaId == dir.logado.value.id
              && ((antes.data, antes.hora) != (pedido.novaData, pedido.novaHora) ==>
                    VerificarDisponibilidade(agendamentos, antes.massagistaId, pedido.novaData, pedido.novaHora))
              && |r.agendamentos| == |agendamentos|
              && r.agendamentos[k] == antes.(data := pedido.novaData, hora := pedido.novaHora,
                                             observacoes := Some(NotasReagendadas(antes.observacoes, pedido.motivo)),
                                             atualizadoEm := agora)
              && (forall i :: 0 <= i < |agendamentos| && i != k ==> r.agendamentos[i] == agendamentos[i])
              && r.resposta.agendamento == r.agendamentos[k]
    ensures r.resposta.Erro? && LogadoComo(dir.logado, Massagista)
            && IndiceAgendamento(agendamentos, pedido.agendamentoId) >= 0 ==>
              var antes := agendamentos[IndiceAgendamento(agendamentos, pedido.agendamentoId)];
              if antes.massagistaId != dir.logado.value.id then r.resposta.falha == SemPermissao
              else
                && r.resposta.falha == NovoHorarioIndisponivel
                && (antes.data, antes.hora) != (pedido.novaData, pedido.novaHora)
                && exists i :: 0 <= i < |agendamentos| && Ocupa(agendamentos[i], antes.massagistaId, pedido.novaData, pedido.novaHora)
  {
    if !LogadoComo(dir.logado, Massagista) then
      Resultado(Erro(NaoLogadoComoMassagista), agendamentos)
    else
      var k := IndiceAgendamento(agendamentos, pedido.agendamentoId);
      if k == -1 then
        Resultado(Erro(AgendamentoNaoEncontrado), agendamentos)
      else
        var antes := agendamentos[k];
        var eu := dir.logado.value.id;
        if antes.massagistaId != eu then
          Resultado(Erro(SemPermissao), agendamentos)
        else
          var mudou := antes.data != pedido.novaData || antes.hora != pedido.novaHora;
          if mudou && !VerificarDisponibilidade(agendamentos, eu, pedido.novaData, pedido.novaHora) then
            Resultado(Erro(NovoHorarioIndisponivel), agendamentos)
          else
            var depois := antes.(data := pedido.novaData, hora := pedido.novaHora,
                                 observacoes := Some(NotasReagendadas(antes.observacoes, pedido.motivo)),
                                 atualizadoEm := agora);
            Resultado(Ok(depois), agendamentos[k := depois])
  }

  /** The join `popularAgendamentosDetalhados` makes for one booking: the
      first user with the client id (of any type), the first provider profile
      with the provider id, and the first of its services with the service id. */
  function Resolver(dir: Diretorio, a: Agendamento): (r: Option<AgendamentoDetalhado>)
    ensures r.Some? <==>
              && (exists i :: 0 <= i < |dir.usuarios| && dir.usuarios[i].id == a.clienteId)
              && OfereceServico(dir.massagistas, a.massagistaId, a.servicoId)
    ensures r.Some? ==>
              && r.value.agendamento == a
              && r.value.cliente.id == a.clienteId && r.value.cliente in dir.usuarios
              && PrimeiroUsuario(dir.usuarios, a.clienteId, r.value.cliente)
              && Some(r.value.massagista) == ObterMassagistaPorId(dir.massagistas, a.massagistaId)
              && r.value.servico.id == a.servicoId && r.value.servico in r.value.massagista.servicos
              && PrimeiroServico(r.value.massagista.servicos, a.servicoId, r.value.servico)
  {
    var cliente := Find((u: Usuario) => u.id == a.clienteId, dir.usuarios);
    var massagista := ObterMassagistaPorId(dir.massagistas, a.massagistaId);
    var servico := if massagista.Some? then BuscarServico(massagista.value, a.servicoId) else None;
    if cliente.Some? && massagista.Some? && servico.Some? then
      Some(AgendamentoDetalhado(a, cliente.value, massagista.value, servico.value))
    else
      None
  }

  /** The bookings underlying a list of detailed views. */
  function Projetar(ds: seq<AgendamentoDetalhado>): (r: seq<Agendamento>)
    ensures |r| == |ds|
    ensures forall i :: 0 <= i < |ds| ==> r[i] == ds[i].agendamento
  {
    if |ds| == 0 then [] else [ds[0].agendamento] + Projetar(ds[1..])
  }

  /** The bookings on which a join `f` succeeds. */
  function Definida(f: Agendamento -> Option<AgendamentoDetalhado>): Agendamento -> bool
  {
    a => f(a).Some?
  }

  /** The loop of `popularAgendamentosDetalhados`, for any join `f` that
      keeps the booking it was given: the joined records of exactly the
      bookings on which `f` succeeds, one per occurrence, in input order. */
  function Coletar(f: Agendamento -> Option<AgendamentoDetalhado>, agendamentos: seq<Agendamento>): (r: seq<AgendamentoDetalhado>)
    requires forall a :: f(a).Some? ==> f(a).value.agendamento == a
    ensures forall i :: 0 <= i < |r| ==> f(r[i].agendamento) == Some(r[i])
    ensures Projetar(r) == Filter(Definida(f), agendamentos)
  {
    if |agendamentos| == 0 then []
    else
      var resto := Coletar(f, agendamentos[1..]);
      var o := f(agendamentos[0]);
      if o.Some? then
        ProjetarCons(o.value, resto);
        [o.value] + resto
      else
        resto
  }

  /** What the two facts of `Coletar` imply: the result is no longer than
      the input, keeps its order, and holds the join of every booking on
      which `f` succeeds. */
  lemma {:induction false} ColetarCobre(f: Agendamento -> Option<AgendamentoDetalhado>, agendamentos: seq<Agendamento>)
    requires forall a :: f(a).Some? ==> f(a).value.agendamento == a
    ensures var r := Coletar(f, agendamentos);
            && |r| <= |agendamentos|
            && IsSubseq(Projetar(r), agendamentos)
            && forall i :: 0 <= i < |agendamentos| && f(agendamentos[i]).Some? ==> f(agendamentos[i]).value in r
  {
    var r := Coletar(f, agendamentos);
    assert |Projetar(r)| <= |agendamentos| && IsSubseq(Projetar(r), agendamentos);
    if |agendamentos| > 0 {
      var resto := Coletar(f, agendamentos[1..]);
      ColetarCobre(f, agendamentos[1..]);
      forall i | 0 <= i < |agendamentos| && f(agendamentos[i]).Some?
        ensures f(agendamentos[i]).value in r
      {
        if i > 0 {
          assert agendamentos[i] == agendamentos[1..][i - 1];
          assert f(agendamentos[i]).value in resto;
        }
      }
    }
  }

  lemma ProjetarCons(d: AgendamentoDetalhado, ds: seq<AgendamentoDetalhado>)
    ensures Projetar([d] + ds) == [d.agendamento] + Projetar(ds)
  {
    assert ([d] + ds)[1..] == ds;
  }

  /** The join of `popularAgendamentosDetalhados` against a directory. */
  function ResolverEm(dir: Diretorio): Agendamento -> Option<AgendamentoDetalhado>
  {
    a => Resolver(dir, a)
  }

  /** The bookings that resolve against a directory. */
  function Resolvivel(dir: Diretorio): Agendamento -> bool
  {
    Definida(ResolverEm(dir))
  }

  /** `popularAgendamentosDetalhados`: the detailed view of every booking
      that resolves, in input order; a booking that does not resolve is
      dropped without notice. */
  function PopularAgendamentosDetalhados(dir: Diretorio, agendamentos: seq<Agendamento>): (r: seq<AgendamentoDetalhado>)
    ensures |r| <= |agendamentos|
    ensures IsSubseq(Projetar(r), agendamentos)
    ensures forall i :: 0 <= i < |r| ==> Resolver(dir, r[i].agendamento) == Some(r[i])
    ensures forall i :: 0 <= i < |agendamentos| && Resolver(dir, agendamentos[i]).Some? ==>
              Resolver(dir, agendamentos[i]).value in r
    ensures Projetar(r) == Filter(Resolvivel(dir), agendamentos)
  {
    var r := Coletar(ResolverEm(dir), agendamentos);
    ColetarCobre(ResolverEm(dir), agendamentos);
    r
  }

  /** The resolvable bookings that pass `meu`, in store order: the shape
      both listings share. */
  function Listar(dir: Diretorio, agendamentos: seq<Agendamento>, meu: Agendamento -> bool): (r: seq<AgendamentoDetalhado>)
    ensures IsSubseq(Projetar(r), agendamentos)
    ensures forall i :: 0 <= i < |r| ==> meu(r[i].agendamento) && Resolver(dir, r[i].agendamento) == Some(r[i])
    ensures forall i :: 0 <= i < |agendamentos| && meu(agendamentos[i]) && Resolver(dir, agendamentos[i]).Some? ==>
              Resolver(dir, agendamentos[i]).value in r
    ensures Projetar(r) == Filter(Resolvivel(dir), Filter(meu, agendamentos))
  {
    var meus := Filter(meu, agendamentos);
    var r := PopularAgendamentosDetalhados(dir, meus);
    SubseqTrans(Projetar(r), meus, agendamentos);
    forall i | 0 <= i < |r|
      ensures meu(r[i].agendamento)
    {
      assert Projetar(r)[i] in meus;
      var k :| 0 <= k < |meus| && meus[k] == r[i].agendamento;
    }
    forall i | 0 <= i < |agendamentos| && meu(agendamentos[i]) && Resolver(dir, agendamentos[i]).Some?
      ensures Resolver(dir, agendamentos[i]).value in r
    {
      var k :| 0 <= k < |meus| && meus[k] == agendamentos[i];
    }
    r
  }

  function DoCliente(id: Id): Agendamento -> bool
  {
    (a: Agendamento) => a.clienteId == id
  }

  function DaMassagista(id: Id): Agendamento -> bool
  {
    (a: Agendamento) => a.massagistaId == id
  }

  /** `obterAgendamentosCliente`: the logged-in client's resolvable bookings, in store order. */
  function ObterAgendamentosCliente(dir: Diretorio, agendamentos: seq<Agendamento>): (r: seq<AgendamentoDetalhado>)
    ensures !LogadoComo(dir.logado, Cliente) ==> r == []
    ensures IsSubseq(Projetar(r), agendamentos)
    ensures forall i :: 0 <= i < |r| ==>
              r[i].agendamento.clienteId == dir.logado.value.id && Resolver(dir, r[i].agendamento) == Some(r[i])
    ensures LogadoComo(dir.logado, Cliente) ==>
              forall i :: (0 <= i < |agendamentos| && agendamentos[i].clienteId == dir.logado.value.id
                           && Resolver(dir, agendamentos[i]).Some?) ==> Resolver(dir, agendamentos[i]).value in r
    ensures LogadoComo(dir.logado, Cliente) ==>
              Projetar(r) == Filter(Resolvivel(dir), Filter(DoCliente(dir.logado.value.id), agendamentos))
  {
    if !LogadoComo(dir.logado, Cliente) then []
    else Listar(dir, agendamentos, DoCliente(dir.logado.value.id))
  }

  /** `obterAgendamentosMassagista`: the logged-in provider's resolvable bookings, in store order. */
  function ObterAgendamentosMassagista(dir: Diretorio, agendamentos: seq<Agendamento>): (r: seq<AgendamentoDetalhado>)
    ensures !LogadoComo(dir.logado, Massagista) ==> r == []
    ensures IsSubseq(Projetar(r), agendamentos)
    ensures forall i :: 0 <= i < |r| ==>
              r[i].agendamento.massagistaId == dir.logado.value.id && Resolver(dir, r[i].agendamento) == Some(r[i])
    ensures LogadoComo(dir.logado, Massagista) ==>
              forall i :: (0 <= i < |agendamentos| && agendamentos[i].massagistaId == dir.logado.value.id
                           && Resolver(dir, agendamentos[i]).Some?) ==> Resolver(dir, agendamentos[i]).value in r
    ensures LogadoComo(dir.logado, Massagista) ==>
              Projetar(r) == Filter(Resolvivel(dir), Filter(DaMassagista(dir.logado.value.id), agendamentos))
  {
    if !LogadoComo(dir.logado, Massagista) then []
    else Listar(dir, agendamentos, DaMassagista(dir.logado.value.id))
  }
}
