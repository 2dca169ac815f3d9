/** The records of the booking platform (types/index.ts). Identifiers and
    free text are strings; calendar dates, times of day and timestamps are
    numbers so that the screens' date comparisons become integer comparisons. */
module Tipos {
  import opened Base

  type Id = string

  /** A calendar day (`YYYY-MM-DD` in the source), counted in days from a fixed epoch. */
  type Data = int

  /** A time of day (`HH:MM` in the source), in minutes after midnight: 480 is "08:00". */
  type Hora = nat

  /** A creation or update timestamp (an ISO instant in the source). */
  type Instante = nat

  datatype Status = Pendente | Confirmado | Cancelado | Concluido

  datatype Tipo = Cliente | Massagista

  datatype Usuario = Usuario(
    id: Id,
    nome: string,
    email: string,
    senha: string,
    telefone: string,
    cidade: string,
    bio: Option<string>,
    tipo: Tipo,
    criadoEm: Instante)

  datatype Servico = Servico(id: Id, nome: string, duracao: nat, preco: nat, descricao: string)

  /** A provider's profile: the user record plus the provider-only fields. */
  datatype PerfilMassagista = PerfilMassagista(
    usuario: Usuario,
    servicos: seq<Servico>,
    avaliacao: real,
    totalAvaliacoes: nat)

  datatype Agendamento = Agendamento(
    id: Id,
    clienteId: Id,
    massagistaId: Id,
    servicoId: Id,
    data: Data,
    hora: Hora,
    status: Status,
    observacoes: Option<string>,
    criadoEm: Instante,
    atualizadoEm: Instante)

  /** A booking joined with the client, provider and service it references. */
  datatype AgendamentoDetalhado = AgendamentoDetalhado(
    agendamento: Agendamento,
    cliente: Usuario,
    massagista: PerfilMassagista,
    servico: Servico)

  /** JavaScript truthiness of an optional string: absent and "" are both false. */
  predicate Preenchido(s: Option<string>)
  {
    s.Some? && |s.value| > 0
  }
}
