/** The date and time picker of components/DateTimeSelector.tsx: the scan of
    the next 30 days for dates with a free slot, the times offered for the
    selected date, and the reset of the time when a date is picked. */
module SeletorDataHora {
  import opened Base
  import opened Tipos
  import opened Horarios

  /** How many consecutive days, starting today, the scan examines. */
  const Horizonte: nat := 30

  /** The picker's selection: a date and a time, each possibly unset ("" in the source). */
  datatype Selecao = Selecao(data: Option<Data>, hora: Option<Hora>)

  /** The loop of `generateAvailableDates` for any per-day test `livre`: the
      days `hoje`, ..., `hoje + 29` that pass it, in scan order. */
  method Varrer(livre: Data -> bool, hoje: Data) returns (datas: seq<Data>)
    ensures |datas| <= Horizonte
    ensures Increasing(datas)
    ensures forall d :: d in datas <==> (hoje <= d < hoje + Horizonte && livre(d))
  {
    datas := [];
    var i := 0;
    while i < Horizonte
      invariant 0 <= i <= Horizonte
      invariant |datas| <= i
      invariant Increasing(datas)
      invariant forall k :: 0 <= k < |datas| ==> hoje <= datas[k] < hoje + i
      invariant forall d :: d in datas <==> (hoje <= d < hoje + i && livre(d))
    {
      var data := hoje + i;
      if livre(data) {
        datas := datas + [data];
      }
      i := i + 1;
    }
  }

  /** Whether the provider has at least one free slot on a date. */
  predicate TemHorario(agendamentos: seq<Agendamento>, massagistaId: Id, data: Data)
  {
    |HorariosDisponiveis(agendamentos, massagistaId, data)| > 0
  }

  /** `generateAvailableDates`: the days `hoje`, ..., `hoje + 29` on which the
      provider has at least one free slot, in scan order. */
  method GerarDatasDisponiveis(agendamentos: seq<Agendamento>, massagistaId: Id, hoje: Data)
    returns (datas: seq<Data>)
    ensures |datas| <= Horizonte
    ensures Increasing(datas)
    ensures forall d :: d in datas <==> (hoje <= d < hoje + Horizonte && TemHorario(agendamentos, massagistaId, d))
  {
    datas := Varrer(d => TemHorario(agendamentos, massagistaId, d), hoje);
  }

  /** The dates list shown by the picker: the scan runs only for a non-empty
      provider id; otherwise the previously shown list `anteriores` stays. */
  method DatasOferecidas(agendamentos: seq<Agendamento>, massagistaId: Id, hoje: Data,
                         anteriores: seq<Data>)
    returns (datas: seq<Data>)
    ensures |massagistaId| == 0 ==> datas == anteriores
    ensures |massagistaId| > 0 ==> |datas| <= Horizonte && Increasing(datas)
    ensures |massagistaId| > 0 ==>
              forall d :: d in datas <==> (hoje <= d < hoje + Horizonte && TemHorario(agendamentos, massagistaId, d))
  {
    if |massagistaId| > 0 {
      datas := GerarDatasDisponiveis(agendamentos, massagistaId, hoje);
    } else {
      datas := anteriores;
    }
  }

  /** `handleDateSelect`: picking a date sets it and clears the time. */
  function SelecionarData(s: Selecao, data: Data): (r: Selecao)
    ensures r.data == Some(data)
    ensures r.hora.None?
  {
    Selecao(Some(data), None)
  }

  /** `loadAvailableTimes` under its effect guard: with a date selected and a
      provider id, the offered times are that date's free slots; otherwise the
      previously loaded list `anteriores` stays. */
  function HorariosOferecidos(agendamentos: seq<Agendamento>, massagistaId: Id, s: Selecao,
                              anteriores: seq<Hora>): (r: seq<Hora>)
    ensures s.data.Some? && |massagistaId| > 0 ==>
              forall t :: t in r <==> t in HorariosBase() && VerificarDisponibilidade(agendamentos, massagistaId, s.data.value, t)
    ensures s.data.Some? && |massagistaId| > 0 ==> Increasing(r) && IsSubseq(r, HorariosBase())
    ensures s.data.None? || |massagistaId| == 0 ==> r == anteriores
  {
    if s.data.Some? && |massagistaId| > 0 then HorariosDisponiveis(agendamentos, massagistaId, s.data.value)
    else anteriores
  }

  /** After picking a date the time is unset, and every time the picker then
      offers is a grid slot the service reports free on that date. */
  lemma SelecionarDataOferece(agendamentos: seq<Agendamento>, massagistaId: Id, s: Selecao, data: Data,
                              anteriores: seq<Hora>, t: Hora)
    requires |massagistaId| > 0
    ensures var r := SelecionarData(s, data);
            && r.hora.None?
            && (t in HorariosOferecidos(agendamentos, massagistaId, r, anteriores) <==>
                  (480 <= t <= 1080 && t % 30 == 0 && VerificarDisponibilidade(agendamentos, massagistaId, data, t)))
  {
    NaGrade(t);
  }

  /** The live bookings of one provider on one date, in store order. */
  function ReservasDoDia(agendamentos: seq<Agendamento>, massagistaId: Id, data: Data): seq<Agendamento>
  {
    Filter((a: Agendamento) => a.massagistaId == massagistaId && a.data == data && a.status != Cancelado, agendamentos)
  }

  /** The times held on one date by live bookings of one provider are as
      many as those bookings. */
  lemma {:induction false} OcupadosContaReservas(agendamentos: seq<Agendamento>, massagistaId: Id, data: Data)
    ensures |HorariosOcupados(agendamentos, massagistaId, data)|
         == |ReservasDoDia(agendamentos, massagistaId, data)|
  {
    if |agendamentos| > 0 {
      OcupadosContaReservas(agendamentos[1..], massagistaId, data);
    }
  }

  /** On a date with no free slot every grid time is held. */
  lemma GradeOcupada(agendamentos: seq<Agendamento>, massagistaId: Id, data: Data)
    requires |HorariosDisponiveis(agendamentos, massagistaId, data)| == 0
    ensures forall t :: t in HorariosBase() ==> t in HorariosOcupados(agendamentos, massagistaId, data)
  {
    LivresSaoDisponiveis(agendamentos, massagistaId, data);
  }

  /** A date drops out of the scan only when the provider holds at least 21
      live bookings on it, one per grid slot. */
  lemma DiaCheio(agendamentos: seq<Agendamento>, massagistaId: Id, data: Data)
    ensures !TemHorario(agendamentos, massagistaId, data) ==> |ReservasDoDia(agendamentos, massagistaId, data)| >= 21
  {
    if !TemHorario(agendamentos, massagistaId, data) {
      var g := HorariosBase();
      var ocupados := HorariosOcupados(agendamentos, massagistaId, data);
      GradeOcupada(agendamentos, massagistaId, data);
      forall i | 0 <= i < |g|
        ensures g[i] in ocupados
      {
        assert g[i] in g;
      }
      Covers(g, ocupados);
      OcupadosContaReservas(agendamentos, massagistaId, data);
    }
  }
}
