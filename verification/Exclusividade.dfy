/** Slot exclusivity: at most one booking that is not cancelled per
    (provider, date, time). Both creations and rescheduling keep it. The
    generic status update keeps it unless it brings a cancelled booking back,
    which the service does not forbid. */
module Exclusividade {
  import opened Base
  import opened Tipos
  import opened Usuarios
  import opened Horarios
  import opened Agendamentos

  predicate Exclusivo(agendamentos: seq<Agendamento>)
  {
    forall i, j :: 0 <= i < j < |agendamentos| ==>
      !(Ocupa(agendamentos[i], agendamentos[j].massagistaId, agendamentos[j].data, agendamentos[j].hora)
        && agendamentos[j].status != Cancelado)
  }

  /** Exclusivity, read from one occupied booking: no other booking holds its slot. */
  lemma ExclusivoSimetrico(agendamentos: seq<Agendamento>, k: int, i: int)
    requires Exclusivo(agendamentos)
    requires 0 <= k < |agendamentos| && 0 <= i < |agendamentos| && i != k
    requires agendamentos[k].status != Cancelado
    ensures !Ocupa(agendamentos[i], agendamentos[k].massagistaId, agendamentos[k].data, agendamentos[k].hora)
  {
    if i > k {
      assert !(Ocupa(agendamentos[k], agendamentos[i].massagistaId, agendamentos[i].data, agendamentos[i].hora)
               && agendamentos[i].status != Cancelado);
    }
  }

  /** Appending a booking whose slot is free keeps the store exclusive. */
  lemma AcrescentarLivre(agendamentos: seq<Agendamento>, a: Agendamento)
    requires Exclusivo(agendamentos)
    requires VerificarDisponibilidade(agendamentos, a.massagistaId, a.data, a.hora)
    ensures Exclusivo(agendamentos + [a])
  {
    var r := agendamentos + [a];
    forall i, j | 0 <= i < j < |r|
      ensures !(Ocupa(r[i], r[j].massagistaId, r[j].data, r[j].hora) && r[j].status != Cancelado)
    {
      if j == |agendamentos| {
        assert r[i] == agendamentos[i];
      } else {
        assert r[i] == agendamentos[i] && r[j] == agendamentos[j];
      }
    }
  }

  /** Replacing the booking at `k` by `b` keeps the store exclusive when `b`
      is cancelled or no other booking holds `b`'s slot. */
  lemma SubstituirLivre(agendamentos: seq<Agendamento>, k: int, b: Agendamento)
    requires Exclusivo(agendamentos)
    requires 0 <= k < |agendamentos|
    requires b.status == Cancelado
             || forall i :: 0 <= i < |agendamentos| && i != k ==> !Ocupa(agendamentos[i], b.massagistaId, b.data, b.hora)
    ensures Exclusivo(agendamentos[k := b])
  {
    var r := agendamentos[k := b];
    forall i, j | 0 <= i < j < |r|
      ensures !(Ocupa(r[i], r[j].massagistaId, r[j].data, r[j].hora) && r[j].status != Cancelado)
    {
      if i != k && j != k {
        assert r[i] == agendamentos[i] && r[j] == agendamentos[j];
      }
    }
  }

  lemma CriarPreservaExclusividade(dir: Diretorio, agendamentos: seq<Agendamento>, pedido: PedidoAgendamento,
                                   novoId: Id, agora: Instante)
    requires Exclusivo(agendamentos)
    ensures Exclusivo(CriarAgendamento(dir, agendamentos, pedido, novoId, agora).agendamentos)
  {
    var r := CriarAgendamento(dir, agendamentos, pedido, novoId, agora);
    if r.resposta.Ok? {
      AcrescentarLivre(agendamentos, r.resposta.agendamento);
    }
  }

  lemma CriarManualPreservaExclusividade(dir: Diretorio, agendamentos: seq<Agendamento>, pedido: PedidoManual,
                                         novoId: Id, agora: Instante)
    requires Exclusivo(agendamentos)
    ensures Exclusivo(CriarAgendamentoManual(dir, agendamentos, pedido, novoId, agora).agendamentos)
  {
    var r := CriarAgendamentoManual(dir, agendamentos, pedido, novoId, agora);
    if r.resposta.Ok? {
      AcrescentarLivre(agendamentos, r.resposta.agendamento);
    }
  }

  /** A status update keeps exclusivity when the record it changes was not
      cancelled, or when the new status is `Cancelado`. */
  predicate AtualizacaoSegura(agendamentos: seq<Agendamento>, id: Id, novoStatus: Status)
  {
    var k := IndiceAgendamento(agendamentos, id);
    k == -1 || agendamentos[k].status != Cancelado || novoStatus == Cancelado
  }

  lemma AtualizarStatusPreservaExclusividade(agendamentos: seq<Agendamento>, id: Id, novoStatus: Status, agora: Instante)
    requires Exclusivo(agendamentos)
    requires AtualizacaoSegura(agendamentos, id, novoStatus)
    ensures Exclusivo(AtualizarStatusAgendamento(agendamentos, id, novoStatus, agora).agendamentos)
  {
    var k := IndiceAgendamento(agendamentos, id);
    if k != -1 {
      var b := agendamentos[k].(status := novoStatus, atualizadoEm := agora);
      if novoStatus != Cancelado {
        forall i | 0 <= i < |agendamentos| && i != k
          ensures !Ocupa(agendamentos[i], b.massagistaId, b.data, b.hora)
        {
          ExclusivoSimetrico(agendamentos, k, i);
        }
      }
      SubstituirLivre(agendamentos, k, b);
    }
  }

  /** The store used to show that reopening a cancelled booking can break
      exclusivity: a cancelled and a pending booking on the same slot. */
  function ExemploReabertura(): seq<Agendamento>
  {
    [ Agendamento("a", "cliente", "massagista", "servico", 0, 540, Cancelado, None, 0, 0),
      Agendamento("b", "cliente", "massagista", "servico", 0, 540, Pendente, None, 0, 0) ]
  }

  /** The service does not check the current status: confirming the cancelled
      booking of an exclusive store puts two live bookings on one slot. */
  lemma ReabrirQuebraExclusividade()
    ensures Exclusivo(ExemploReabertura())
    ensures !AtualizacaoSegura(ExemploReabertura(), "a", Confirmado)
    ensures !Exclusivo(AtualizarStatusAgendamento(ExemploReabertura(), "a", Confirmado, 1).agendamentos)
  {
    var s := ExemploReabertura();
    assert IndiceAgendamento(s, "a") == 0;
    var r := AtualizarStatusAgendamento(s, "a", Confirmado, 1).agendamentos;
    assert r[0].status == Confirmado && r[1] == s[1];
    assert Ocupa(r[0], r[1].massagistaId, r[1].data, r[1].hora) && r[1].status != Cancelado;
  }

  lemma ReagendarPreservaExclusividade(dir: Diretorio, agendamentos: seq<Agendamento>, pedido: PedidoReagendamento,
                                       agora: Instante)
    requires Exclusivo(agendamentos)
    ensures Exclusivo(ReagendarAgendamento(dir, agendamentos, pedido, agora).agendamentos)
  {
    var r := ReagendarAgendamento(dir, agendamentos, pedido, agora);
    if r.resposta.Ok? {
      var k := IndiceAgendamento(agendamentos, pedido.agendamentoId);
      var antes := agendamentos[k];
      var b := r.agendamentos[k];
      if b.status != Cancelado {
        forall i | 0 <= i < |agendamentos| && i != k
          ensures !Ocupa(agendamentos[i], b.massagistaId, b.data, b.hora)
        {
          if (antes.data, antes.hora) == (pedido.novaData, pedido.novaHora) {
            ExclusivoSimetrico(agendamentos, k, i);
          }
        }
      }
      assert r.agendamentos == agendamentos[k := b];
      SubstituirLivre(agendamentos, k, b);
    }
  }

  /** Cancelling a live booking of an exclusive store frees its slot. */
  lemma CancelarLiberaHorario(agendamentos: seq<Agendamento>, id: Id, agora: Instante)
    requires Exclusivo(agendamentos)
    requires IndiceAgendamento(agendamentos, id) >= 0
    requires agendamentos[IndiceAgendamento(agendamentos, id)].status != Cancelado
    ensures var r := CancelarAgendamento(agendamentos, id, agora);
            var a := r.resposta.agendamento;
            && r.resposta.Ok?
            && VerificarDisponibilidade(r.agendamentos, a.massagistaId, a.data, a.hora)
            && (a.hora in HorariosBase() ==> a.hora in HorariosDisponiveis(r.agendamentos, a.massagistaId, a.data))
  {
    var r := CancelarAgendamento(agendamentos, id, agora);
    var k := IndiceAgendamento(agendamentos, id);
    var a := r.resposta.agendamento;
    forall i | 0 <= i < |r.agendamentos|
      ensures !Ocupa(r.agendamentos[i], a.massagistaId, a.data, a.hora)
    {
      if i != k {
        ExclusivoSimetrico(agendamentos, k, i);
      }
    }
  }

  /** After a successful booking its slot is taken and no longer offered. */
  lemma CriarOcupaHorario(dir: Diretorio, agendamentos: seq<Agendamento>, pedido: PedidoAgendamento,
                          novoId: Id, agora: Instante)
    requires CriarAgendamento(dir, agendamentos, pedido, novoId, agora).resposta.Ok?
    ensures var r := CriarAgendamento(dir, agendamentos, pedido, novoId, agora).agendamentos;
            && !VerificarDisponibilidade(r, pedido.massagistaId, pedido.data, pedido.hora)
            && pedido.hora !in HorariosDisponiveis(r, pedido.massagistaId, pedido.data)
  {
    var r := CriarAgendamento(dir, agendamentos, pedido, novoId, agora).agendamentos;
    assert Ocupa(r[|agendamentos|], pedido.massagistaId, pedido.data, pedido.hora);
  }

  /** One call into the booking service, with the clock reading it sees. */
  datatype Operacao =
    | OpCriar(pedido: PedidoAgendamento, novoId: Id)
    | OpCriarManual(manual: PedidoManual, novoId: Id)
    | OpCancelar(id: Id)
    | OpConfirmar(id: Id)
    | OpConcluir(id: Id)
    | OpReagendar(reagendamento: PedidoReagendamento)

  datatype Evento = Evento(op: Operacao, agora: Instante)

  /** One service call of a session: the user directory as the call finds
      it (who is logged in, which users and profiles exist) and the call. */
  datatype Chamada = Chamada(dir: Diretorio, evento: Evento)

  /** The store after one service call, whatever its answer. */
  function Aplicar(dir: Diretorio, agendamentos: seq<Agendamento>, e: Evento): seq<Agendamento>
  {
    match e.op
    case OpCriar(p, id) => CriarAgendamento(dir, agendamentos, p, id, e.agora).agendamentos
    case OpCriarManual(p, id) => CriarAgendamentoManual(dir, agendamentos, p, id, e.agora).agendamentos
    case OpCancelar(id) => CancelarAgendamento(agendamentos, id, e.agora).agendamentos
    case OpConfirmar(id) => ConfirmarAgendamento(agendamentos, id, e.agora).agendamentos
    case OpConcluir(id) => ConcluirAgendamento(agendamentos, id, e.agora).agendamentos
    case OpReagendar(p) => ReagendarAgendamento(dir, agendamentos, p, e.agora).agendamentos
  }

  /** A call that cannot reopen a cancelled booking. */
  predicate Segura(agendamentos: seq<Agendamento>, op: Operacao)
  {
    match op
    case OpConfirmar(id) => AtualizacaoSegura(agendamentos, id, Confirmado)
    case OpConcluir(id) => AtualizacaoSegura(agendamentos, id, Concluido)
    case _ => true
  }

  /** The store after a session of calls, in order. Each call runs against
      its own directory, so clients and providers may log in and out in between. */
  function Executar(agendamentos: seq<Agendamento>, chamadas: seq<Chamada>): seq<Agendamento>
    decreases |chamadas|
  {
    if |chamadas| == 0 then agendamentos
    else Executar(Aplicar(chamadas[0].dir, agendamentos, chamadas[0].evento), chamadas[1..])
  }

  /** Every call of the session is safe in the store it meets. */
  predicate SessaoSegura(agendamentos: seq<Agendamento>, chamadas: seq<Chamada>)
    decreases |chamadas|
  {
    |chamadas| == 0
    || (Segura(agendamentos, chamadas[0].evento.op)
        && SessaoSegura(Aplicar(chamadas[0].dir, agendamentos, chamadas[0].evento), chamadas[1..]))
  }

  /** Bookings are never removed or re-attributed: every earlier record keeps
      its position, id, client, provider and service. */
  predicate Preserva(antes: seq<Agendamento>, depois: seq<Agendamento>)
  {
    && |antes| <= |depois|
    && forall i :: 0 <= i < |antes| ==>
         && depois[i].id == antes[i].id
         && depois[i].clienteId == antes[i].clienteId
         && depois[i].massagistaId == antes[i].massagistaId
         && depois[i].servicoId == antes[i].servicoId
  }

  lemma AplicarPreserva(dir: Diretorio, agendamentos: seq<Agendamento>, e: Evento)
    ensures Preserva(agendamentos, Aplicar(dir, agendamentos, e))
  {
    var depois := Aplicar(dir, agendamentos, e);
    match e.op
    case OpCriar(p, id) =>
      assert depois == CriarAgendamento(dir, agendamentos, p, id, e.agora).agendamentos;
      CriarPreserva(dir, agendamentos, p, id, e.agora);
    case OpCriarManual(p, id) =>
      assert depois == CriarAgendamentoManual(dir, agendamentos, p, id, e.agora).agendamentos;
      ManualPreserva(dir, agendamentos, p, id, e.agora);
    case OpCancelar(id) =>
      assert depois == AtualizarStatusAgendamento(agendamentos, id, Cancelado, e.agora).agendamentos;
      StatusPreserva(agendamentos, id, Cancelado, e.agora);
    case OpConfirmar(id) =>
      assert depois == AtualizarStatusAgendamento(agendamentos, id, Confirmado, e.agora).agendamentos;
      StatusPreserva(agendamentos, id, Confirmado, e.agora);
    case OpConcluir(id) =>
      assert depois == AtualizarStatusAgendamento(agendamentos, id, Concluido, e.agora).agendamentos;
      StatusPreserva(agendamentos, id, Concluido, e.agora);
    case OpReagendar(p) =>
      assert depois == ReagendarAgendamento(dir, agendamentos, p, e.agora).agendamentos;
      ReagendarPreserva(dir, agendamentos, p, e.agora);
  }

  lemma CriarPreserva(dir: Diretorio, agendamentos: seq<Agendamento>, p: PedidoAgendamento, id: Id, agora: Instante)
    ensures Preserva(agendamentos, CriarAgendamento(dir, agendamentos, p, id, agora).agendamentos)
  {
    var r := CriarAgendamento(dir, agendamentos, p, id, agora);
    if r.resposta.Ok? {
      AcrescimoPreserva(agendamentos, r.resposta.agendamento);
    }
  }

  lemma ManualPreserva(dir: Diretorio, agendamentos: seq<Agendamento>, p: PedidoManual, id: Id, agora: Instante)
    ensures Preserva(agendamentos, CriarAgendamentoManual(dir, agendamentos, p, id, agora).agendamentos)
  {
    var r := CriarAgendamentoManual(dir, agendamentos, p, id, agora);
    if r.resposta.Ok? {
      AcrescimoPreserva(agendamentos, r.resposta.agendamento);
    }
  }

  lemma ReagendarPreserva(dir: Diretorio, agendamentos: seq<Agendamento>, p: PedidoReagendamento, agora: Instante)
    ensures Preserva(agendamentos, ReagendarAgendamento(dir, agendamentos, p, agora).agendamentos)
  {
  }

  lemma AcrescimoPreserva(agendamentos: seq<Agendamento>, a: Agendamento)
    ensures Preserva(agendamentos, agendamentos + [a])
  {
  }

  lemma StatusPreserva(agendamentos: seq<Agendamento>, id: Id, novoStatus: Status, agora: Instante)
    ensures Preserva(agendamentos, AtualizarStatusAgendamento(agendamentos, id, novoStatus, agora).agendamentos)
  {
  }

  lemma AplicarExclusivo(dir: Diretorio, agendamentos: seq<Agendamento>, e: Evento)
    requires Exclusivo(agendamentos)
    requires Segura(agendamentos, e.op)
    ensures Exclusivo(Aplicar(dir, agendamentos, e))
  {
    match e.op
    case OpCriar(p, id) => CriarPreservaExclusividade(dir, agendamentos, p, id, e.agora);
    case OpCriarManual(p, id) => CriarManualPreservaExclusividade(dir, agendamentos, p, id, e.agora);
    case OpCancelar(id) => AtualizarStatusPreservaExclusividade(agendamentos, id, Cancelado, e.agora);
    case OpConfirmar(id) => AtualizarStatusPreservaExclusividade(agendamentos, id, Confirmado, e.agora);
    case OpConcluir(id) => AtualizarStatusPreservaExclusividade(agendamentos, id, Concluido, e.agora);
    case OpReagendar(p) => ReagendarPreservaExclusividade(dir, agendamentos, p, e.agora);
  }

  /** A whole session of safe calls, by any mix of logged-in clients and
      providers, keeps the store exclusive and never removes or
      re-attributes a booking. */
  lemma {:induction false} SessaoPreservaExclusividade(agendamentos: seq<Agendamento>, chamadas: seq<Chamada>)
    requires Exclusivo(agendamentos)
    requires SessaoSegura(agendamentos, chamadas)
    ensures Exclusivo(Executar(agendamentos, chamadas))
    ensures Preserva(agendamentos, Executar(agendamentos, chamadas))
    decreases |chamadas|
  {
    if |chamadas| > 0 {
      var c := chamadas[0];
      var proximo := Aplicar(c.dir, agendamentos, c.evento);
      AplicarExclusivo(c.dir, agendamentos, c.evento);
      AplicarPreserva(c.dir, agendamentos, c.evento);
      SessaoPreservaExclusividade(proximo, chamadas[1..]);
    }
  }
}
