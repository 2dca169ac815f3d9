# Agenda Massagem — a Dafny model of the booking engine

This project models the core of a massage-booking mobile app. Clients book
half-hour slots with providers (`massagistas`). Providers confirm, conclude,
cancel and reschedule those bookings, and they can also book a client
themselves. The model covers:

- the booking service: slot grid, availability, the two kinds of creation, the
  generic status update and its three wrappers, rescheduling, and the joined
  listings;
- the user directory: registration, login, lookups and profile updates;
- the 30-day date scan of the date/time picker;
- the listing order and counters of the client and provider home screens;
- the phone mask, the service toggle and the submit logic of the registration
  screen.

Storage is an in-memory value. The booking store is a `seq<Agendamento>`. The
user directory is a `Diretorio` holding the users, the provider profiles and
the logged-in user. Every operation is a pure function that returns its answer
together with the new store. Dates are day numbers, times of day are minutes
after midnight (480 is "08:00"), and timestamps are naturals. Fresh ids and
the current time are parameters.

The central invariant is slot exclusivity (`Exclusividade.Exclusivo`): at most
one booking per (provider, date, time) that is not cancelled.

- Both creations and rescheduling keep it.
- A status update keeps it when the updated booking was not cancelled, or when
  the new status is `Cancelado`.
- The service does not check the current status, so confirming a cancelled
  booking whose slot was taken again breaks exclusivity. A concrete store shows
  this (`Exclusividade.ReabrirQuebraExclusividade`).
- Only the provider screen keeps to the lifecycle pending → confirmed/cancelled,
  confirmed → concluded/cancelled. Every status change it offers is safe
  (`TelaMassagista.AcaoOferecidaPreservaExclusividade`).
- Any session of safe calls keeps the store exclusive and never removes a
  booking (`Exclusividade.SessaoPreservaExclusividade`). Each call of a session
  carries its own directory, so clients and providers may take turns.

Further facts about the service code:

- The service does not enforce the status lifecycle. Status updates accept any
  current status, so confirming or concluding from any status succeeds.
- The manual creation fails in five cases: wrong role, taken slot, unknown
  client, acting provider without a profile
  (services/AgendamentoService.ts:108-111), and service not offered.
- The requested time is never checked against the grid. Any `Hora` can be
  booked if its slot is free.

A profile update does not check e-mail uniqueness. Registration keeps e-mails
distinct, but `atualizarPerfil` accepts an address another user already has
(`Usuarios.AtualizarPerfilPodeRepetirEmail`).

## Model

| member | source | states |
|---|---|---|
| Horarios.HorariosBase | services/AgendamentoService.ts:325-330 | The grid has 21 slots from 08:00 to 18:00, each on a half hour and each 30 minutes after the previous one. |
| Horarios.NaGrade | services/AgendamentoService.ts:325-330 | A time is on the grid iff it is a multiple of 30 minutes between 08:00 and 18:00. |
| Horarios.VerificarDisponibilidade | services/AgendamentoService.ts:302-319 | A slot is free iff no stored booking for that provider, date and time is live; cancelled bookings never block. |
| Horarios.HorariosOcupados | services/AgendamentoService.ts:335-341 | A time is listed as held iff some live booking of that provider on that date is at that time; at most one entry per booking. |
| Horarios.HorariosDisponiveis | services/AgendamentoService.ts:322-348 | The free times are a subsequence of the grid, so they number at most 21 and are strictly increasing. A grid time is free iff `VerificarDisponibilidade` says so. |
| Horarios.DiaLivre | services/AgendamentoService.ts:335-343 | With no live booking for the provider on a date, every grid time is free. |
| Agendamentos.BuscarServico | services/AgendamentoService.ts:38-41 | The service lookup fails iff the profile lists no service with that id; otherwise it returns the first of the profile's services with that id. |
| Agendamentos.CriarAgendamento | services/AgendamentoService.ts:13-58 | The validations run in order, and the first that fails gives its own error: not logged in as a client, slot taken, unknown provider, service not offered. Each failure leaves the store unchanged. Success happens exactly when all validations pass; it appends one pending booking whose client is the logged-in user, with the requested fields and both timestamps set to now. |
| Agendamentos.CriarAgendamentoManual | services/AgendamentoService.ts:75-133 | The validations run in order, and the first that fails gives its own error: not logged in as a provider, own slot taken, no client with that id, acting provider without a profile, service not offered by the acting provider. Each failure leaves the store unchanged. Success appends one confirmed booking whose provider is the acting user. |
| Agendamentos.IndiceAgendamento | services/AgendamentoService.ts:189-193 | Returns the first position holding the id, or -1 iff no booking has it. |
| Agendamentos.AtualizarStatusAgendamento | services/AgendamentoService.ts:186-204 | Fails, leaving the store unchanged, iff no booking has the id. Otherwise only the first booking with that id changes, and only in its status and update time; length, order and every other booking stay the same. |
| Agendamentos.CancelarAgendamento | services/AgendamentoService.ts:215-217 | The generic update with `Cancelado`; on success the returned booking is the cancelled one with that id. |
| Agendamentos.ConfirmarAgendamento | services/AgendamentoService.ts:220-222 | The generic update with `Confirmado`, whatever the current status. |
| Agendamentos.ConcluirAgendamento | services/AgendamentoService.ts:225-227 | The generic update with `Concluido`, whatever the current status. |
| Agendamentos.NotasReagendadas | services/AgendamentoService.ts:278-280 | The new note always ends with "REAGENDADO: " plus the reason. When the old notes are non-empty, they are kept as a prefix, followed by a blank line; otherwise the label is the whole note. |
| Agendamentos.ReagendarAgendamento | services/AgendamentoService.ts:230-291 | Fails with the store unchanged when: the caller is not a provider, the id is unknown, the caller does not own the booking, or the slot changed and the new one is taken. On success only the date, time, notes and update time of that booking change; status, ids and every other booking are preserved. |
| Agendamentos.Resolver | services/AgendamentoService.ts:377-395 | A booking resolves iff its client id names some user and its provider's first profile lists its service. The result holds the booking, the first user with the client id, the provider's first profile, and that profile's first service with the service id. |
| Agendamentos.PopularAgendamentosDetalhados | services/AgendamentoService.ts:374-399 | The underlying bookings of the detailed list are exactly the resolving bookings of the input, one per occurrence and in input order. Each entry is that booking's join. |
| Agendamentos.ObterAgendamentosCliente | services/AgendamentoService.ts:150-165 | Empty unless a client is logged in. Otherwise its underlying bookings are exactly the resolvable bookings whose client is the logged-in user, one per occurrence and in store order. |
| Agendamentos.ObterAgendamentosMassagista | services/AgendamentoService.ts:168-183 | Empty unless a provider is logged in. Otherwise its underlying bookings are exactly the resolvable bookings whose provider is the logged-in user, one per occurrence and in store order. |
| Exclusividade.ExclusivoSimetrico | services/AgendamentoService.ts:307-312 | In an exclusive store, no other booking holds the slot of a live booking. |
| Exclusividade.AcrescentarLivre | services/AgendamentoService.ts:368-372 | Appending a booking whose slot is free keeps the store exclusive. |
| Exclusividade.CriarPreservaExclusividade | services/AgendamentoService.ts:22-58 | A client booking keeps slot exclusivity, whatever its outcome. |
| Exclusividade.CriarManualPreservaExclusividade | services/AgendamentoService.ts:90-133 | A manual booking keeps slot exclusivity, whatever its outcome. |
| Exclusividade.AtualizarStatusPreservaExclusividade | services/AgendamentoService.ts:186-204 | A status update keeps exclusivity when the booking it changes was not cancelled, or when the new status is `Cancelado`. |
| Exclusividade.ReabrirQuebraExclusividade | services/AgendamentoService.ts:195-196 | Take an exclusive store holding a cancelled booking and a pending one on the same slot. Confirming the cancelled booking is not a safe update, and it leaves two live bookings on one slot. |
| Exclusividade.ReagendarPreservaExclusividade | services/AgendamentoService.ts:258-284 | Rescheduling keeps slot exclusivity; a move that keeps the same slot is not re-checked and needs no check. |
| Exclusividade.CancelarLiberaHorario | services/AgendamentoService.ts:215-217 | Cancelling a live booking of an exclusive store succeeds. Its slot is then free, and on the grid it is offered again. |
| Exclusividade.CriarOcupaHorario | services/AgendamentoService.ts:43-58 | After a successful booking its slot is reported taken and is no longer among the free times. |
| Exclusividade.AplicarPreserva | services/AgendamentoService.ts:368-372 | No single service call removes a booking or changes its position, id, client, provider or service. |
| Exclusividade.SessaoPreservaExclusividade | services/AgendamentoService.ts:13-291 | Start from an exclusive store and run any sequence of calls, each with its own logged-in user and directory, where no confirm or conclude reopens a cancelled booking. The store stays exclusive, and every earlier booking keeps its position, id, client, provider and service. |
| Usuarios.VerificarEmailExiste | services/AuthService.ts:200-203 | True iff some user has exactly that e-mail. |
| Usuarios.CriarPerfilMassagista | services/AuthService.ts:220-237 | The profile is the given user with every supplied service under its fresh id, in order. It has as many services as were supplied, and rating and rating count are zero. |
| Usuarios.RegistrarUsuario | services/AuthService.ts:13-40 | Fails iff the e-mail is already present, leaving the directory unchanged. On success it appends exactly one user built from the request, with the fresh id and creation time. A provider also gets one new profile; a client leaves the profiles unchanged. |
| Usuarios.RegistroPreservaEmailsDistintos | services/AuthService.ts:15-29 | Registration keeps the users' e-mails pairwise distinct. |
| Usuarios.RegistroPreservaIdsDistintos | services/AuthService.ts:21-29 | With an unused id from the oracle, registration keeps user ids pairwise distinct. |
| Usuarios.LogarUsuario | services/AuthService.ts:50-66 | Succeeds iff some user has both the e-mail and the password. It returns the first such user and makes it the logged-in user; otherwise it fails and changes nothing. |
| Usuarios.RegistroEntaoLogin | services/AuthService.ts:13-66 | Right after a successful registration, logging in with the same e-mail and password succeeds and returns the user just created. |
| Usuarios.ObterMassagistaPorId | services/AuthService.ts:103-111 | Returns the first profile with that id, or none iff no profile has it. |
| Usuarios.ObterTodosClientes | services/AuthService.ts:133-140 | The users of type client, in stored order, each as many times as it is stored. No other user appears. |
| Usuarios.AtualizarMassagista | services/AuthService.ts:239-247 | Replaces the first profile with the same id and nothing else; with no such profile nothing changes. |
| Usuarios.AtualizarPerfil | services/AuthService.ts:143-170 | Fails, changing nothing, iff no user has the id. Otherwise it replaces only the first user with that id, updates the logged-in user if it is that user, and for a provider also replaces the profile. |
| Usuarios.AtualizarServicosMassagista | services/AuthService.ts:173-198 | Fails, changing nothing, iff no profile has the id. Otherwise only that profile's service list changes, and the logged-in user is refreshed when it is that provider. |
| Usuarios.AtualizarPerfilPreservaEmailsDistintos | services/AuthService.ts:143-151 | A profile update keeps e-mails distinct when no other user already has the new address. |
| Usuarios.AtualizarPerfilPodeRepetirEmail | services/AuthService.ts:147-151 | The update does not check the new address: a directory with distinct e-mails can end up with two users sharing one. |
| Usuarios.AtualizarServicosIdempotente | services/AuthService.ts:173-198 | Replacing a provider's services twice with the same list is the same as doing it once. |
| SeletorDataHora.Varrer | components/DateTimeSelector.tsx:41-60 | The scan examines exactly the 30 days from today and keeps, in scan order, those passing the test. At most 30 dates result, strictly increasing. |
| SeletorDataHora.GerarDatasDisponiveis | components/DateTimeSelector.tsx:37-63 | A date is listed iff it is within 30 days from today and the provider has a free slot on it. The list is strictly increasing and at most 30 long. |
| SeletorDataHora.DatasOferecidas | components/DateTimeSelector.tsx:73-77 | Without a provider id the scan does not run and the previously shown list stays. Otherwise the list holds exactly the next 30 days that have a free slot, in increasing order. |
| SeletorDataHora.SelecionarData | components/DateTimeSelector.tsx:85-88 | Picking a date selects it and clears the selected time. |
| SeletorDataHora.HorariosOferecidos | components/DateTimeSelector.tsx:65-83 | With a date selected and a provider id, the offered times are exactly that date's free grid slots, in grid order and without repeats. Otherwise the previous list stays. |
| SeletorDataHora.SelecionarDataOferece | components/DateTimeSelector.tsx:65-88 | After a date is picked, the time is unset. A time is then offered iff it is a half hour between 08:00 and 18:00 that the service reports free. |
| SeletorDataHora.OcupadosContaReservas | services/AgendamentoService.ts:335-341 | There are exactly as many held times for a provider and date as live bookings. |
| SeletorDataHora.DiaCheio | components/DateTimeSelector.tsx:47-53 | A date drops out of the scan only when the provider has at least 21 live bookings on it. |
| Ordenacao.Ordenar | app/cliente/index.tsx:44-48 | Sorting by a key returns a permutation of the input whose keys never decrease. |
| TelaCliente.CompararClienteChave | app/cliente/index.tsx:44-48 | The client comparator places one booking no later than another exactly when the key (pending first, then newer creation time) does. |
| TelaCliente.OrdenarAgendamentosCliente | app/cliente/index.tsx:43-48 | The ordered list is a permutation of the fetched one. Every pending booking precedes every non-pending one, and creation time never increases within each group. |
| TelaCliente.OrdenadaPeloComparador | app/cliente/index.tsx:44-48 | Every pair in the ordered list is in the comparator's order. |
| TelaCliente.CancelarSegueCiclo | app/cliente/index.tsx:135-137 | "Cancelar" is shown iff the status is pending or confirmed. That is exactly when the lifecycle allows cancelling, and exactly when the provider's dialog offers it. |
| TelaCliente.PendentesNoInicio | app/cliente/index.tsx:220-222 | The pending count is the same before and after ordering, and the pending bookings are exactly the first that many entries of the ordered list. |
| TelaMassagista.CompararMassagistaChave | app/massagista/index.tsx:47-51 | For times before 24:00, the date-and-time comparator orders two bookings exactly as the key (date, time) does. |
| TelaMassagista.Proximos | app/massagista/index.tsx:37-51 | The upcoming list is a permutation of the bookings dated today or later. It holds each of them, and it is sorted by date, then time. |
| TelaMassagista.ProximosNaOrdemDoComparador | app/massagista/index.tsx:46-51 | With valid times of day, every pair in the upcoming list is in the comparator's order. |
| TelaMassagista.AcoesEdicao | app/massagista/index.tsx:135-234 | "Fechar" always comes first. "Confirmar" is offered iff the booking is pending, "Concluir Atendimento" iff it is confirmed, and "Reagendar" and "Cancelar Agendamento" iff it is neither cancelled nor concluded. |
| TelaMassagista.AcoesSeguemCiclo | app/massagista/index.tsx:141-201 | A status change is offered iff it is a lifecycle transition. |
| TelaMassagista.AcaoDoSelo | app/massagista/index.tsx:288-337 | The badge confirms a pending booking, concludes a confirmed one, and does nothing for cancelled or concluded ones. Its action is always one the dialog offers, and a lifecycle transition. |
| TelaMassagista.AcaoOferecidaPreservaExclusividade | app/massagista/index.tsx:141-234 | Any status change the dialog offers keeps slot exclusivity. |
| TelaMassagista.FaturamentoLimitado | app/massagista/index.tsx:421-427 | Revenue is at most the total price of the list, and equals it when nothing listed is cancelled. |
| TelaMassagista.FaturamentoConcat | app/massagista/index.tsx:421-427 | The revenue of two lists joined is the sum of their revenues. |
| TelaMassagista.FaturamentoAoCancelar | app/massagista/index.tsx:421-427 | Cancelling one listed live booking lowers revenue by exactly its service price. |
| TelaMassagista.HojeNosProximos | app/massagista/index.tsx:434-439 | Today's count on the upcoming list equals today's count on the whole fetched list, and does not exceed the upcoming list's length. |
| Registro.RemoverMascaraTelefone | app/auth/registro.tsx:242-244 | Keeps exactly the decimal digits of the input, in order. |
| Registro.RemoverIdempotente | app/auth/registro.tsx:242-244 | Unmasking twice is unmasking once. |
| Registro.DigitosLimitados | app/auth/registro.tsx:226-229 | The kept digits are the first 11 typed, or all of them when fewer were typed. |
| Registro.FormatarTelefone | app/auth/registro.tsx:224-239 | The mask is empty without digits. Otherwise it opens with "(". From 3 digits on, ") " follows the area code, and from 8 digits on, "-" sits at position 10. It adds 1, 3 or 4 characters to the kept digits, so it never exceeds 15. With `MascaraIdaVolta` this fixes the mask. |
| Registro.MascaraIdaVolta | app/auth/registro.tsx:224-244 | Unmasking a masked phone gives back the first min(11, n) digits typed. |
| Registro.MascaraIdempotente | app/auth/registro.tsx:224-239 | Masking an already masked value changes nothing. |
| Registro.TelefoneFormatadoValido | app/auth/registro.tsx:337-343 | The masked field validates iff at least 11 digits were typed, and then it is 15 characters long. |
| Registro.ToggleServico | app/auth/registro.tsx:191-205 | Toggling flips whether the service's name is selected and leaves every other name as it was. Removing keeps a subsequence of the selection; adding appends the service. |
| Registro.ToggleRemoveConta | app/auth/registro.tsx:198-200 | Removing a selected service drops every entry with its name and keeps every other entry as often as it was there. With the subsequence clause, this is exactly the in-order filter on the name. |
| Registro.ToggleDuasVezes | app/auth/registro.tsx:191-213 | Toggling twice restores which names are selected. When the service was not selected, it restores the list itself. |
| Registro.Aparar | app/auth/registro.tsx:137-141 | The trimmed text neither starts nor ends with white space. |
| Registro.ApararRecorte | app/auth/registro.tsx:137-141 | Trimming cuts only white space, and only from the two ends. |
| Registro.ApararIdempotente | app/auth/registro.tsx:137-141 | Trimming twice is trimming once. |
| Registro.Minusculas | app/auth/registro.tsx:138-138 | The length is unchanged and no ASCII capital remains. Non-capitals are untouched, and each capital becomes its lower-case letter. |
| Registro.MinusculasIdempotente | app/auth/registro.tsx:138-138 | Lower-casing twice is lower-casing once. |
| Registro.MontarRegistro | app/auth/registro.tsx:136-144 | Name, city and bio are the trimmed fields. The e-mail is the trimmed field, lower-cased. The phone is the field's digits. Kind and password are passed through. So no text field starts or ends with white space, the phone is digits only and the e-mail has no ASCII capital. |
| Registro.MontarRegistroIdempotente | app/auth/registro.tsx:136-144 | The payload is normalised: typing it back into the form produces the same payload. |
| Registro.TelefoneDoRegistro | app/auth/registro.tsx:139-139 | A phone typed through the mask reaches registration as the digits the mask kept. |
| Registro.Submeter | app/auth/registro.tsx:110-149 | With no kind the submit fails. A provider with nothing selected moves from the details step to the services step, and is refused on the services step. Everything else registers the payload. A provider is never registered without services, and a client registers with none. |

Members without a row are helpers of the rows above, for example
`Agendamentos.Mensagem` (the error texts), `Agendamentos.SalvarAgendamento`
(the append every creation ends with), `Agendamentos.OfereceServico` (the
provider-and-service lookup) and `Agendamentos.ColetarCobre`.

## Left out

- Storage (AsyncStorage), JSON encoding, and the catch-all handlers that turn a failed read into an empty list or `false`. The store is a value, and every read succeeds.
- `gerarId` (clock plus random). Fresh ids are parameters. Only `Usuarios.RegistroPreservaIdsDistintos` assumes they are unused.
- `new Date()`, ISO timestamps, date parsing, `toLocaleDateString` and time zones. The picker's `toISOString` works in UTC, which can shift the scanned days by one relative to local time; the model scans `hoje` to `hoje + 29` directly. Dates are day numbers, times are minutes, and timestamps are naturals.
- TelaMassagista.CompararMassagistaChave: relates the comparator to the key only for times before 24:00. A time string that does not parse makes the source comparator return NaN, which is not modelled.
- Ordenacao.Ordenar: the insertion sort is stable, like the engine's `Array.prototype.sort`, but stability is not stated. Only sortedness and permutation are proved.
- Usuarios.AtualizarPerfil: takes a provider profile, so every update carries services, rating and count. The source's parameter is a plain user, cast unchecked to a provider (services/AuthService.ts:143, 159-161). A plain user of type provider therefore replaces the profile with one that has no `servicos`, `avaliacao` or `totalAvaliacoes`. After that, `criarAgendamento` throws on `servicos.find` and returns the generic error. The model cannot express an object without those fields.
- The registration screen's automatic login after a successful registration (app/auth/registro.tsx:151-155). The screen's flow ends at the registration call; `Usuarios.RegistroEntaoLogin` shows that the follow-up login returns the new user.
- Registro.Minusculas: maps only ASCII 'A'..'Z'. `toLowerCase` also lower-cases every other Unicode letter.
- Asynchronous interleaving. Each service call is atomic, and the read-modify-write races between concurrent calls are not modelled.
- Mock seed data, `obterTodasMassagistas`' seeding, `logout`, `estaLogado`, `obterUsuarioLogado` (the logged-in user is a field of the directory), and the `limpar*` and `debug*` helpers.
- Provider ratings are floating point in the source. The model keeps `avaliacao` as a real and only proves that it starts at zero.
- Rendering, navigation, `Alert` dialogs (including the confirmation step before confirm, conclude and cancel), and phone, WhatsApp and SMS links.
- The registration form's other field rules (required fields, e-mail pattern, password confirmation) and the phone field's `maxLength`. The mask already never exceeds 15 characters.
- The form checks of the reschedule, manual-booking and client-booking screens, because the service re-checks everything the model relies on.
- The joined record (`AgendamentoDetalhado`) nests the booking instead of spreading its fields, as the source's object spread does.
