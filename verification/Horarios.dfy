/** The slot grid and the availability checks of
    services/AgendamentoService.ts (`verificarDisponibilidade`,
    `obterHorariosDisponiveis`). Times are minutes after midnight. */
module Horarios {
  import opened Base
  import opened Tipos

  /** The 21 half-hour slots "08:00", "08:30", ..., "18:00". */
  function HorariosBase(): (g: seq<Hora>)
    ensures |g| == 21
    ensures g[0] == 480 && g[20] == 1080
    ensures Increasing(g)
    ensures forall i :: 0 <= i < |g| ==> g[i] % 30 == 0
    ensures forall i :: 0 < i < |g| ==> g[i] == g[i - 1] + 30
  {
    seq(21, i requires 0 <= i < 21 => 480 + 30 * i)
  }

  /** A time is on the grid iff it is a whole half hour between 08:00 and 18:00. */
  lemma NaGrade(t: Hora)
    ensures t in HorariosBase() <==> 480 <= t <= 1080 && t % 30 == 0
  {
    var g := HorariosBase();
    if 480 <= t <= 1080 && t % 30 == 0 {
      assert g[(t - 480) / 30] == t;
    }
  }

  /** Whether a booking holds the slot (provider, date, time): only
      bookings that are not cancelled do. */
  predicate Ocupa(a: Agendamento, massagistaId: Id, data: Data, hora: Hora)
  {
    a.massagistaId == massagistaId && a.data == data && a.hora == hora && a.status != Cancelado
  }

  /** The `some` of `verificarDisponibilidade`: a booking in the store holds the slot. */
  function Conflito(agendamentos: seq<Agendamento>, massagistaId: Id, data: Data, hora: Hora): bool
  {
    if |agendamentos| == 0 then false
    else Ocupa(agendamentos[0], massagistaId, data, hora) || Conflito(agendamentos[1..], massagistaId, data, hora)
  }

  /** `verificarDisponibilidade`: the slot is free iff no stored booking holds it. */
  function VerificarDisponibilidade(agendamentos: seq<Agendamento>, massagistaId: Id, data: Data, hora: Hora): (livre: bool)
    ensures livre <==> forall i :: 0 <= i < |agendamentos| ==> !Ocupa(agendamentos[i], massagistaId, data, hora)
  {
    ConflitoSeOcupado(agendamentos, massagistaId, data, hora);
    !Conflito(agendamentos, massagistaId, data, hora)
  }

  lemma {:induction false} ConflitoSeOcupado(agendamentos: seq<Agendamento>, massagistaId: Id, data: Data, hora: Hora)
    ensures Conflito(agendamentos, massagistaId, data, hora) <==>
              exists i :: 0 <= i < |agendamentos| && Ocupa(agendamentos[i], massagistaId, data, hora)
  {
    if |agendamentos| > 0 {
      ConflitoSeOcupado(agendamentos[1..], massagistaId, data, hora);
      if Conflito(agendamentos[1..], massagistaId, data, hora) {
        var i :| 0 <= i < |agendamentos| - 1 && Ocupa(agendamentos[1..][i], massagistaId, data, hora);
        assert Ocupa(agendamentos[i + 1], massagistaId, data, hora);
      }
      forall i | 1 <= i < |agendamentos| && Ocupa(agendamentos[i], massagistaId, data, hora)
        ensures Conflito(agendamentos[1..], massagistaId, data, hora)
      {
        assert agendamentos[1..][i - 1] == agendamentos[i];
      }
    }
  }

  /** The times held by non-cancelled bookings of one provider on one date
      (`horariosOcupados`), in store order. */
  function HorariosOcupados(agendamentos: seq<Agendamento>, massagistaId: Id, data: Data): (r: seq<Hora>)
    ensures |r| <= |agendamentos|
    ensures forall t :: t in r <==> exists i :: 0 <= i < |agendamentos| && Ocupa(agendamentos[i], massagistaId, data, t)
  {
    if |agendamentos| == 0 then []
    else
      var a := agendamentos[0];
      var resto := HorariosOcupados(agendamentos[1..], massagistaId, data);
      assert forall t, i :: 0 <= i < |agendamentos| - 1 ==>
        Ocupa(agendamentos[1..][i], massagistaId, data, t) == Ocupa(agendamentos[i + 1], massagistaId, data, t);
      if a.massagistaId == massagistaId && a.data == data && a.status != Cancelado then [a.hora] + resto
      else resto
  }

  /** `obterHorariosDisponiveis`: the grid with the held times removed. The
      result keeps the grid's order (so it is increasing) and a grid time is
      in it exactly when `VerificarDisponibilidade` says the slot is free. */
  function HorariosDisponiveis(agendamentos: seq<Agendamento>, massagistaId: Id, data: Data): (r: seq<Hora>)
    ensures IsSubseq(r, HorariosBase())
    ensures |r| <= 21
    ensures Increasing(r)
    ensures forall t :: t in r <==> t in HorariosBase() && VerificarDisponibilidade(agendamentos, massagistaId, data, t)
  {
    var ocupados := HorariosOcupados(agendamentos, massagistaId, data);
    LivresForaDosOcupados(HorariosBase(), ocupados);
    LivresSaoDisponiveis(agendamentos, massagistaId, data);
    Filter((t: Hora) => t !in ocupados, HorariosBase())
  }

  lemma LivresForaDosOcupados(g: seq<Hora>, ocupados: seq<Hora>)
    requires Increasing(g)
    ensures var r := Filter((t: Hora) => t !in ocupados, g);
            Increasing(r) && forall t :: t in r <==> t in g && t !in ocupados
  {
    var livre := (t: Hora) => t !in ocupados;
    var r := Filter(livre, g);
    FilterIncreasing(livre, g);
    forall t
      ensures t in r <==> t in g && t !in ocupados
    {
      if t in r {
        var i :| 0 <= i < |r| && r[i] == t;
      }
      if t in g && t !in ocupados {
        var i :| 0 <= i < |g| && g[i] == t;
        assert livre(g[i]);
      }
    }
  }

  lemma LivresSaoDisponiveis(agendamentos: seq<Agendamento>, massagistaId: Id, data: Data)
    ensures forall t :: (t !in HorariosOcupados(agendamentos, massagistaId, data)) ==
                        VerificarDisponibilidade(agendamentos, massagistaId, data, t)
  {
  }

  /** A provider with no booking holding a slot on a date has the whole grid free. */
  lemma DiaLivre(agendamentos: seq<Agendamento>, massagistaId: Id, data: Data)
    requires forall i :: 0 <= i < |agendamentos| ==>
               !(agendamentos[i].massagistaId == massagistaId && agendamentos[i].data == data
                 && agendamentos[i].status != Cancelado)
    ensures HorariosDisponiveis(agendamentos, massagistaId, data) == HorariosBase()
  {
    var g := HorariosBase();
    var ocupados := HorariosOcupados(agendamentos, massagistaId, data);
    forall i | 0 <= i < |g|
      ensures g[i] !in ocupados
    {
    }
    FilterKeepsAll((t: Hora) => t !in ocupados, g);
  }
}
