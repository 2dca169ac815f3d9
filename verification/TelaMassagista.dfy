/** The provider's home screen (app/massagista/index.tsx): the upcoming list
    and its order, the actions offered per booking status, and the revenue
    and today counters. Also the booking lifecycle those actions follow,
    which the service itself does not enforce. */
module TelaMassagista {
  import opened Base
  import opened Tipos
  import opened Agendamentos
  import opened Exclusividade
  import opened Ordenacao

  /** The upcoming filter: bookings dated today or later (dates only). */
  function EhProximo(hoje: Data): AgendamentoDetalhado -> bool
  {
    (x: AgendamentoDetalhado) => x.agendamento.data >= hoje
  }

  /** The listing order: by date, then by time. */
  function ChaveMassagista(x: AgendamentoDetalhado): Chave
  {
    Chave(x.agendamento.data, x.agendamento.hora)
  }

  /** The instant the comparator builds from `data + 'T' + hora`, in minutes. */
  function Momento(a: Agendamento): int
  {
    a.data * 1440 + a.hora
  }

  /** The comparator of the upcoming list: the difference of the two instants. */
  function CompararMassagista(a: AgendamentoDetalhado, b: AgendamentoDetalhado): int
  {
    Momento(a.agendamento) - Momento(b.agendamento)
  }

  /** For times of day (below 24:00) the comparator orders exactly as the key does. */
  lemma CompararMassagistaChave(a: AgendamentoDetalhado, b: AgendamentoDetalhado)
    requires a.agendamento.hora < 1440 && b.agendamento.hora < 1440
    ensures CompararMassagista(a, b) <= 0 <==> MenorIgual(ChaveMassagista(a), ChaveMassagista(b))
  {
    var da, db := a.agendamento.data, b.agendamento.data;
    if da < db {
      assert da * 1440 + 1440 <= db * 1440;
    } else if da > db {
      assert db * 1440 + 1440 <= da * 1440;
    }
  }

  /** The list `carregarAgendamentos` shows: the upcoming bookings sorted by date and time. */
  function Proximos(xs: seq<AgendamentoDetalhado>, hoje: Data): (r: seq<AgendamentoDetalhado>)
    ensures multiset(r) == multiset(Filter(EhProximo(hoje), xs))
    ensures forall i :: 0 <= i < |r| ==> r[i].agendamento.data >= hoje
    ensures forall i :: 0 <= i < |xs| && xs[i].agendamento.data >= hoje ==> xs[i] in r
    ensures forall i, j :: 0 <= i < j < |r| ==>
              r[i].agendamento.data < r[j].agendamento.data
              || (r[i].agendamento.data == r[j].agendamento.data && r[i].agendamento.hora <= r[j].agendamento.hora)
  {
    var f := Filter(EhProximo(hoje), xs);
    var r := Ordenar(ChaveMassagista, f);
    forall i | 0 <= i < |r|
      ensures r[i].agendamento.data >= hoje
    {
      assert r[i] in multiset(f);
    }
    forall i | 0 <= i < |xs| && xs[i].agendamento.data >= hoje
      ensures xs[i] in r
    {
      assert xs[i] in multiset(f);
    }
    r
  }

  /** With valid times of day, consecutive entries of the upcoming list are in
      the comparator's order. */
  lemma ProximosNaOrdemDoComparador(xs: seq<AgendamentoDetalhado>, hoje: Data)
    requires forall i :: 0 <= i < |xs| ==> xs[i].agendamento.hora < 1440
    ensures var r := Proximos(xs, hoje);
            forall i, j :: 0 <= i < j < |r| ==> CompararMassagista(r[i], r[j]) <= 0
  {
    var r := Proximos(xs, hoje);
    forall i, j | 0 <= i < j < |r|
      ensures CompararMassagista(r[i], r[j]) <= 0
    {
      assert r[i] in multiset(Filter(EhProximo(hoje), xs));
      assert r[j] in multiset(Filter(EhProximo(hoje), xs));
      CompararMassagistaChave(r[i], r[j]);
    }
  }

  /** The booking lifecycle the screens follow: a pending booking is
      confirmed or cancelled, a confirmed one is concluded or cancelled, and
      cancelled and concluded bookings are final. */
  predicate TransicaoValida(de: Status, para: Status)
  {
    match de
    case Pendente => para == Confirmado || para == Cancelado
    case Confirmado => para == Concluido || para == Cancelado
    case Cancelado => false
    case Concluido => false
  }

  /** The options of the edit dialog. */
  datatype Acao = Fechar | Confirmar | ConcluirAtendimento | Reagendar | Cancelar

  /** The status an option sets through the service, if it sets one. */
  function StatusAlvo(a: Acao): Option<Status>
  {
    match a
    case Confirmar => Some(Confirmado)
    case ConcluirAtendimento => Some(Concluido)
    case Cancelar => Some(Cancelado)
    case _ => None
  }

  /** `handleEditar`: the options offered for a booking with status `s`, in dialog order. */
  function AcoesEdicao(s: Status): (r: seq<Acao>)
    ensures |r| > 0 && r[0] == Fechar
    ensures Confirmar in r <==> s == Pendente
    ensures ConcluirAtendimento in r <==> s == Confirmado
    ensures Reagendar in r <==> s != Cancelado && s != Concluido
    ensures Cancelar in r <==> s != Cancelado && s != Concluido
  {
    [Fechar]
    + (if s == Pendente then [Confirmar] else [])
    + (if s == Confirmado then [ConcluirAtendimento] else [])
    + (if s != Cancelado && s != Concluido then [Reagendar, Cancelar] else [])
  }

  /** The status-changing options offered are exactly the lifecycle's transitions. */
  lemma AcoesSeguemCiclo(s: Status, t: Status)
    ensures (exists a :: a in AcoesEdicao(s) && StatusAlvo(a) == Some(t)) <==> TransicaoValida(s, t)
  {
    if TransicaoValida(s, t) {
      if t == Confirmado {
        assert Confirmar in AcoesEdicao(s);
      } else if t == Concluido {
        assert ConcluirAtendimento in AcoesEdicao(s);
      } else {
        assert Cancelar in AcoesEdicao(s);
      }
    }
  }

  /** Pressing the status badge: confirm a pending booking, conclude a
      confirmed one, nothing otherwise. The badge only ever offers a subset of
      the dialog's options and only lifecycle transitions. */
  function AcaoDoSelo(s: Status): (r: Option<Acao>)
    ensures r.None? <==> s == Cancelado || s == Concluido
    ensures s == Pendente ==> r == Some(Confirmar) && StatusAlvo(Confirmar) == Some(Confirmado)
    ensures s == Confirmado ==> r == Some(ConcluirAtendimento) && StatusAlvo(ConcluirAtendimento) == Some(Concluido)
    ensures r.Some? ==> r.value in AcoesEdicao(s) && StatusAlvo(r.value).Some?
                        && TransicaoValida(s, StatusAlvo(r.value).value)
  {
    match s
    case Pendente => Some(Confirmar)
    case Confirmado => Some(ConcluirAtendimento)
    case _ => None
  }

  /** Any status change the dialog offers keeps slot exclusivity: it never
      touches a cancelled booking, so it cannot reopen a freed slot. */
  lemma AcaoOferecidaPreservaExclusividade(agendamentos: seq<Agendamento>, id: Id, a: Acao, agora: Instante)
    requires Exclusivo(agendamentos)
    requires IndiceAgendamento(agendamentos, id) >= 0
    requires a in AcoesEdicao(agendamentos[IndiceAgendamento(agendamentos, id)].status)
    requires StatusAlvo(a).Some?
    ensures Exclusivo(AtualizarStatusAgendamento(agendamentos, id, StatusAlvo(a).value, agora).agendamentos)
  {
    AtualizarStatusPreservaExclusividade(agendamentos, id, StatusAlvo(a).value, agora);
  }

  /** The sum of the service prices of a list. */
  function SomaPrecos(xs: seq<AgendamentoDetalhado>): nat
  {
    if |xs| == 0 then 0 else xs[0].servico.preco + SomaPrecos(xs[1..])
  }

  lemma {:induction false} SomaPrecosConcat(a: seq<AgendamentoDetalhado>, b: seq<AgendamentoDetalhado>)
    ensures SomaPrecos(a + b) == SomaPrecos(a) + SomaPrecos(b)
  {
    if |a| == 0 {
      assert a + b == b;
    } else {
      assert (a + b)[1..] == a[1..] + b;
      SomaPrecosConcat(a[1..], b);
    }
  }

  function NaoCancelado(): AgendamentoDetalhado -> bool
  {
    (x: AgendamentoDetalhado) => x.agendamento.status != Cancelado
  }

  /** The "Faturamento" figure: the prices of the listed bookings that are not cancelled. */
  function Faturamento(xs: seq<AgendamentoDetalhado>): (total: nat)
  {
    SomaPrecos(Filter(NaoCancelado(), xs))
  }

  /** Revenue is at most the total price of the list, and equal to it when
      nothing in the list is cancelled. */
  lemma {:induction false} FaturamentoLimitado(xs: seq<AgendamentoDetalhado>)
    ensures Faturamento(xs) <= SomaPrecos(xs)
    ensures (forall i :: 0 <= i < |xs| ==> xs[i].agendamento.status != Cancelado) ==> Faturamento(xs) == SomaPrecos(xs)
  {
    if |xs| > 0 {
      FaturamentoLimitado(xs[1..]);
    }
  }

  lemma FaturamentoConcat(a: seq<AgendamentoDetalhado>, b: seq<AgendamentoDetalhado>)
    ensures Faturamento(a + b) == Faturamento(a) + Faturamento(b)
  {
    FilterAppend(NaoCancelado(), a, b);
    SomaPrecosConcat(Filter(NaoCancelado(), a), Filter(NaoCancelado(), b));
  }

  /** Cancelling one listed booking lowers revenue by exactly its price. */
  lemma FaturamentoAoCancelar(xs: seq<AgendamentoDetalhado>, k: int)
    requires 0 <= k < |xs| && xs[k].agendamento.status != Cancelado
    ensures var c := xs[k].(agendamento := xs[k].agendamento.(status := Cancelado));
            Faturamento(xs[k := c]) + xs[k].servico.preco == Faturamento(xs)
  {
    var c := xs[k].(agendamento := xs[k].agendamento.(status := Cancelado));
    var antes, depois := xs[..k], xs[k + 1..];
    assert xs == antes + [xs[k]] + depois;
    assert xs[k := c] == antes + [c] + depois;
    FaturamentoConcat(antes + [xs[k]], depois);
    FaturamentoConcat(antes, [xs[k]]);
    FaturamentoConcat(antes + [c], depois);
    FaturamentoConcat(antes, [c]);
    assert Faturamento([c]) == 0;
    assert Faturamento([xs[k]]) == xs[k].servico.preco;
  }

  function EhDeHoje(hoje: Data): AgendamentoDetalhado -> bool
  {
    (x: AgendamentoDetalhado) => x.agendamento.data == hoje
  }

  /** The "Hoje" figure: how many listed bookings are dated today. */
  function ContarHoje(xs: seq<AgendamentoDetalhado>, hoje: Data): (n: nat)
  {
    |Filter(EhDeHoje(hoje), xs)|
  }

  /** Counting today's bookings on the upcoming list gives the same number as
      counting them on the whole fetched list: the filter keeps all of them and
      the sort neither adds nor drops any. */
  lemma HojeNosProximos(xs: seq<AgendamentoDetalhado>, hoje: Data)
    ensures ContarHoje(Proximos(xs, hoje), hoje) == ContarHoje(xs, hoje)
    ensures ContarHoje(xs, hoje) <= |Proximos(xs, hoje)|
  {
    var f := Filter(EhProximo(hoje), xs);
    FilterPerm(EhDeHoje(hoje), Proximos(xs, hoje), f);
    FilterFilter(EhProximo(hoje), EhDeHoje(hoje), xs);
    assert |multiset(Proximos(xs, hoje))| == |multiset(f)|;
  }
}
