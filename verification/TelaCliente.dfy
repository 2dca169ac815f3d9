/** The client's home screen (app/cliente/index.tsx): the order of the
    booking list, which bookings offer "Cancelar", and the pending count. */
module TelaCliente {
  import opened Base
  import opened Tipos
  import opened Ordenacao
  import opened TelaMassagista

  /** The client list's comparator: a pending booking before a non-pending
      one; otherwise the newer creation time first. */
  function CompararCliente(a: AgendamentoDetalhado, b: AgendamentoDetalhado): int
  {
    if a.agendamento.status == Pendente && b.agendamento.status != Pendente then -1
    else if b.agendamento.status == Pendente && a.agendamento.status != Pendente then 1
    else b.agendamento.criadoEm - a.agendamento.criadoEm
  }

  /** The comparator as a key: the pending group first, newest first within a group. */
  function ChaveCliente(x: AgendamentoDetalhado): Chave
  {
    Chave(if x.agendamento.status == Pendente then 0 else 1, 0 - (x.agendamento.criadoEm as int))
  }

  /** The comparator places `a` no later than `b` exactly when the key does. */
  lemma CompararClienteChave(a: AgendamentoDetalhado, b: AgendamentoDetalhado)
    ensures CompararCliente(a, b) <= 0 <==> MenorIgual(ChaveCliente(a), ChaveCliente(b))
  {
  }

  /** The list `carregarDados` shows: the client's bookings in comparator order. */
  function OrdenarAgendamentosCliente(xs: seq<AgendamentoDetalhado>): (r: seq<AgendamentoDetalhado>)
    ensures multiset(r) == multiset(xs)
    ensures forall i, j :: 0 <= i < j < |r| && r[j].agendamento.status == Pendente ==> r[i].agendamento.status == Pendente
    ensures forall i, j :: 0 <= i < j < |r| && (r[i].agendamento.status == Pendente) == (r[j].agendamento.status == Pendente) ==>
              r[i].agendamento.criadoEm >= r[j].agendamento.criadoEm
  {
    Ordenar(ChaveCliente, xs)
  }

  /** Every pair of the ordered list is in the comparator's order. */
  lemma OrdenadaPeloComparador(xs: seq<AgendamentoDetalhado>)
    ensures var r := OrdenarAgendamentosCliente(xs);
            forall i, j :: 0 <= i < j < |r| ==> CompararCliente(r[i], r[j]) <= 0
  {
    var r := OrdenarAgendamentosCliente(xs);
    forall i, j | 0 <= i < j < |r|
      ensures CompararCliente(r[i], r[j]) <= 0
    {
      CompararClienteChave(r[i], r[j]);
    }
  }

  /** `podeSerCancelado`: the card shows "Cancelar" for pending and confirmed bookings. */
  predicate PodeSerCancelado(s: Status)
  {
    s == Pendente || s == Confirmado
  }

  /** The client may cancel exactly when the lifecycle allows cancelling, and
      exactly when the provider's dialog offers it too. */
  lemma CancelarSegueCiclo(s: Status)
    ensures PodeSerCancelado(s) <==> TransicaoValida(s, Cancelado)
    ensures PodeSerCancelado(s) <==> Cancelar in AcoesEdicao(s)
  {
  }

  function EhPendente(): AgendamentoDetalhado -> bool
  {
    (x: AgendamentoDetalhado) => x.agendamento.status == Pendente
  }

  /** The header's pending count. */
  function ContarPendentes(xs: seq<AgendamentoDetalhado>): (n: nat)
  {
    |Filter(EhPendente(), xs)|
  }

  /** The pending count does not depend on the order, and in the ordered list
      the pending bookings are exactly its first `ContarPendentes` entries. */
  lemma PendentesNoInicio(xs: seq<AgendamentoDetalhado>)
    ensures var r := OrdenarAgendamentosCliente(xs);
            && ContarPendentes(r) == ContarPendentes(xs)
            && forall i :: 0 <= i < |r| ==> (r[i].agendamento.status == Pendente <==> i < ContarPendentes(xs))
  {
    var r := OrdenarAgendamentosCliente(xs);
    FilterPerm(EhPendente(), r, xs);
    var n := PrefixoPendente(r);
    PendentesDoPrefixo(r, n);
  }

  /** The length of the leading run of pending bookings. */
  function PrefixoPendente(r: seq<AgendamentoDetalhado>): (n: nat)
    ensures n <= |r|
    ensures forall i :: 0 <= i < n ==> r[i].agendamento.status == Pendente
    ensures n < |r| ==> r[n].agendamento.status != Pendente
  {
    if |r| == 0 || r[0].agendamento.status != Pendente then 0
    else 1 + PrefixoPendente(r[1..])
  }

  /** In a list whose pending entries all come first, the pending entries are
      the leading run and there are as many of them as the filter finds. */
  lemma {:induction false} PendentesDoPrefixo(r: seq<AgendamentoDetalhado>, n: nat)
    requires forall i, j :: 0 <= i < j < |r| && r[j].agendamento.status == Pendente ==> r[i].agendamento.status == Pendente
    requires n == PrefixoPendente(r)
    ensures ContarPendentes(r) == n
    ensures forall i :: 0 <= i < |r| ==> (r[i].agendamento.status == Pendente <==> i < n)
  {
    if |r| > 0 {
      if r[0].agendamento.status == Pendente {
        PendentesDoPrefixo(r[1..], n - 1);
      } else {
        assert forall i :: 0 <= i < |r| ==> r[i].agendamento.status != Pendente;
        assert forall i :: 0 <= i < |r| ==> !EhPendente()(r[i]);
        NenhumPendente(r);
      }
    }
  }

  lemma {:induction false} NenhumPendente(r: seq<AgendamentoDetalhado>)
    requires forall i :: 0 <= i < |r| ==> !EhPendente()(r[i])
    ensures ContarPendentes(r) == 0
  {
    if |r| > 0 {
      NenhumPendente(r[1..]);
    }
  }
}
