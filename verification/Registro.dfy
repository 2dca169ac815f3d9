/** The registration screen (app/auth/registro.tsx): the phone mask and its
    removal, the phone validator, the service-selection toggle, the two-step
    submit logic and the payload it builds. */
module Registro {
  import opened Base
  import opened Tipos
  import opened Usuarios

  /** The characters the pattern `[0-9]` matches. */
  predicate EhDigito(c: char)
  {
    '0' <= c <= '9'
  }

  function Digitos(): char -> bool
  {
    c => EhDigito(c)
  }

  /** `removerMascaraTelefone`: every character that is not a decimal digit removed. */
  function RemoverMascaraTelefone(t: string): (r: string)
    ensures forall i :: 0 <= i < |r| ==> EhDigito(r[i])
    ensures IsSubseq(r, t)
    ensures forall i :: 0 <= i < |t| && EhDigito(t[i]) ==> t[i] in r
  {
    Filter(Digitos(), t)
  }

  lemma SoDigitos(t: string)
    requires forall i :: 0 <= i < |t| ==> EhDigito(t[i])
    ensures RemoverMascaraTelefone(t) == t
  {
    FilterKeepsAll(Digitos(), t);
  }

  lemma {:induction false} SemDigitos(t: string)
    requires forall i :: 0 <= i < |t| ==> !EhDigito(t[i])
    ensures RemoverMascaraTelefone(t) == []
  {
    if |t| > 0 {
      SemDigitos(t[1..]);
    }
  }

  lemma RemoverConcat(a: string, b: string)
    ensures RemoverMascaraTelefone(a + b) == RemoverMascaraTelefone(a) + RemoverMascaraTelefone(b)
  {
    FilterAppend(Digitos(), a, b);
  }

  /** Removing the mask twice is removing it once. */
  lemma RemoverIdempotente(t: string)
    ensures RemoverMascaraTelefone(RemoverMascaraTelefone(t)) == RemoverMascaraTelefone(t)
  {
    SoDigitos(RemoverMascaraTelefone(t));
  }

  /** The digits the mask keeps: the first 11 typed, or all of them when fewer. */
  function DigitosLimitados(t: string): (l: string)
    ensures |l| <= 11
    ensures forall i :: 0 <= i < |l| ==> EhDigito(l[i])
    ensures l <= RemoverMascaraTelefone(t)
    ensures |l| == 11 || l == RemoverMascaraTelefone(t)
  {
    var d := RemoverMascaraTelefone(t);
    if |d| <= 11 then d else d[..11]
  }

  /** `formatarTelefone`: "(DD", "(DD) rest" or "(DD) XXXXX-rest" depending on
      how many of the first 11 digits there are. */
  function FormatarTelefone(t: string): (r: string)
    ensures |r| <= 15
    ensures |DigitosLimitados(t)| == 11 ==> |r| == 15
    ensures |DigitosLimitados(t)| == 0 ==> r == ""
    ensures var l := DigitosLimitados(t);
            |r| == |l| + (if |l| == 0 then 0 else if |l| <= 2 then 1 else if |l| <= 7 then 3 else 4)
    ensures 0 < |DigitosLimitados(t)| ==> r[0] == '('
    ensures 2 < |DigitosLimitados(t)| ==> r[3..5] == ") "
    ensures 7 < |DigitosLimitados(t)| ==> r[10] == '-'
  {
    var l := DigitosLimitados(t);
    if |l| <= 2 then (if |l| > 0 then "(" + l else l)
    else if |l| <= 7 then "(" + l[..2] + ") " + l[2..]
    else "(" + l[..2] + ") " + l[2..7] + "-" + l[7..]
  }

  lemma CasoCurto(l: string)
    requires 0 < |l| <= 2 && forall i :: 0 <= i < |l| ==> EhDigito(l[i])
    ensures RemoverMascaraTelefone("(" + l) == l
  {
    SoDigitos(l);
    SemDigitos("(");
    RemoverConcat("(", l);
  }

  /** Digit groups joined by separators without digits unmask to the groups alone. */
  lemma Envolto(p: string, x: string, q: string, y: string)
    requires RemoverMascaraTelefone(p) == [] && RemoverMascaraTelefone(q) == []
    requires forall i :: 0 <= i < |x| ==> EhDigito(x[i])
    requires forall i :: 0 <= i < |y| ==> EhDigito(y[i])
    ensures RemoverMascaraTelefone(p + x + q + y) == x + y
  {
    var px := p + x;
    var pxq := px + q;
    SoDigitos(x);
    RemoverConcat(p, x);
    assert RemoverMascaraTelefone(px) == x;
    RemoverConcat(px, q);
    assert RemoverMascaraTelefone(pxq) == x;
    SoDigitos(y);
    RemoverConcat(pxq, y);
  }

  lemma CasoMedio(l: string)
    requires 2 < |l| <= 7 && forall i :: 0 <= i < |l| ==> EhDigito(l[i])
    ensures RemoverMascaraTelefone("(" + l[..2] + ") " + l[2..]) == l
  {
    SemDigitos("(");
    SemDigitos(") ");
    Envolto("(", l[..2], ") ", l[2..]);
    assert l == l[..2] + l[2..];
  }

  lemma CasoLongo(l: string)
    requires 7 < |l| && forall i :: 0 <= i < |l| ==> EhDigito(l[i])
    ensures RemoverMascaraTelefone("(" + l[..2] + ") " + l[2..7] + "-" + l[7..]) == l
  {
    var ddd, meio, fim := l[..2], l[2..7], l[7..];
    SoDigitos(fim);
    SemDigitos("-");
    CasoMedio(l[..7]);
    assert l[..7][..2] == ddd && l[..7][2..] == meio;
    RemoverConcat("(" + ddd + ") " + meio, "-");
    RemoverConcat("(" + ddd + ") " + meio + "-", fim);
    assert l == l[..7] + fim;
  }

  /** Round trip: unmasking a masked phone gives back the first min(11, n)
      digits of what was typed. */
  lemma MascaraIdaVolta(t: string)
    ensures RemoverMascaraTelefone(FormatarTelefone(t)) == DigitosLimitados(t)
  {
    var l := DigitosLimitados(t);
    if |l| == 0 {
    } else if |l| <= 2 {
      CasoCurto(l);
    } else if |l| <= 7 {
      CasoMedio(l);
    } else {
      CasoLongo(l);
    }
  }

  /** Masking an already masked phone changes nothing. */
  lemma MascaraIdempotente(t: string)
    ensures FormatarTelefone(FormatarTelefone(t)) == FormatarTelefone(t)
  {
    MascaraIdaVolta(t);
  }

  /** The phone field's validator: exactly 11 digits once the mask is removed. */
  predicate TelefoneValido(v: string)
  {
    |RemoverMascaraTelefone(v)| == 11
  }

  /** The masked field validates exactly when at least 11 digits were typed,
      and then it is 15 characters long, "(DD) XXXXX-XXXX". */
  lemma TelefoneFormatadoValido(t: string)
    ensures TelefoneValido(FormatarTelefone(t)) <==> |RemoverMascaraTelefone(t)| >= 11
    ensures TelefoneValido(FormatarTelefone(t)) ==> |FormatarTelefone(t)| == 15
  {
    MascaraIdaVolta(t);
  }

  /** Whether a service with this name is selected. */
  predicate NomeSelecionado(selecionados: seq<Servico>, nome: string)
  {
    exists i :: 0 <= i < |selecionados| && selecionados[i].nome == nome
  }

  /** `isServicoSelecionado`: services are told apart by name. */
  predicate IsServicoSelecionado(selecionados: seq<Servico>, s: Servico)
  {
    NomeSelecionado(selecionados, s.nome)
  }

  function OutroNome(nome: string): Servico -> bool
  {
    (x: Servico) => x.nome != nome
  }

  /** `toggleServico`: drop every entry with the service's name if one is
      selected, append the service otherwise. */
  function ToggleServico(selecionados: seq<Servico>, s: Servico): (r: seq<Servico>)
    ensures IsServicoSelecionado(r, s) <==> !IsServicoSelecionado(selecionados, s)
    ensures forall nome :: nome != s.nome ==> (NomeSelecionado(r, nome) <==> NomeSelecionado(selecionados, nome))
    ensures IsServicoSelecionado(selecionados, s) ==> IsSubseq(r, selecionados)
    ensures !IsServicoSelecionado(selecionados, s) ==> r == selecionados + [s]
  {
    if FindIndex((x: Servico) => x.nome == s.nome, selecionados) != -1 then
      var r := Filter(OutroNome(s.nome), selecionados);
      forall nome | nome != s.nome && NomeSelecionado(selecionados, nome)
        ensures NomeSelecionado(r, nome)
      {
        var i :| 0 <= i < |selecionados| && selecionados[i].nome == nome;
        assert selecionados[i] in r;
      }
      forall nome | NomeSelecionado(r, nome)
        ensures NomeSelecionado(selecionados, nome)
      {
        var i :| 0 <= i < |r| && r[i].nome == nome;
        assert r[i] in selecionados;
      }
      r
    else
      var r := selecionados + [s];
      assert r[|selecionados|] == s;
      forall nome | NomeSelecionado(selecionados, nome)
        ensures NomeSelecionado(r, nome)
      {
        var i :| 0 <= i < |selecionados| && selecionados[i].nome == nome;
        assert r[i] == selecionados[i];
      }
      forall nome | NomeSelecionado(r, nome) && nome != s.nome
        ensures NomeSelecionado(selecionados, nome)
      {
        var i :| 0 <= i < |r| && r[i].nome == nome;
        assert selecionados[i] == r[i];
      }
      r
  }

  /** Removing a selected service drops every entry with its name and keeps
      every other entry as often as it was selected; with the subsequence
      clause of `ToggleServico` this is `filter` on the name. */
  lemma ToggleRemoveConta(selecionados: seq<Servico>, s: Servico)
    requires IsServicoSelecionado(selecionados, s)
    ensures forall x :: multiset(ToggleServico(selecionados, s))[x] ==
                          if x.nome == s.nome then 0 else multiset(selecionados)[x]
  {
    assert FindIndex((x: Servico) => x.nome == s.nome, selecionados) != -1;
    forall x
      ensures multiset(ToggleServico(selecionados, s))[x] ==
                if x.nome == s.nome then 0 else multiset(selecionados)[x]
    {
      FilterCount(OutroNome(s.nome), selecionados, x);
    }
  }

  /** Toggling the same service twice restores which names are selected, and
      restores the list itself when the service was not selected. */
  lemma ToggleDuasVezes(selecionados: seq<Servico>, s: Servico)
    ensures forall nome :: NomeSelecionado(ToggleServico(ToggleServico(selecionados, s), s), nome)
                           == NomeSelecionado(selecionados, nome)
    ensures !IsServicoSelecionado(selecionados, s) ==> ToggleServico(ToggleServico(selecionados, s), s) == selecionados
  {
    var r1 := ToggleServico(selecionados, s);
    var r2 := ToggleServico(r1, s);
    forall nome
      ensures NomeSelecionado(r2, nome) == NomeSelecionado(selecionados, nome)
    {
      if nome == s.nome {
        assert NomeSelecionado(r2, nome) == IsServicoSelecionado(r2, s);
      }
    }
    if !IsServicoSelecionado(selecionados, s) {
      ToggleRemoveAcrescimo(selecionados, s);
    }
  }

  lemma ToggleRemoveAcrescimo(selecionados: seq<Servico>, s: Servico)
    requires !IsServicoSelecionado(selecionados, s)
    ensures ToggleServico(selecionados + [s], s) == selecionados
  {
    var p := OutroNome(s.nome);
    assert IsServicoSelecionado(selecionados + [s], s) by {
      assert (selecionados + [s])[|selecionados|] == s;
    }
    FilterAppend(p, selecionados, [s]);
    FilterKeepsAll(p, selecionados);
    assert Filter(p, [s]) == [];
  }

  /** The characters `String.prototype.trim` removes: the white space and
      line terminators of section 12.2 and 12.3 of ECMA-262. */
  predicate EhEspaco(c: char)
  {
    || '\t' <= c <= '\r'                  // tab, line feed, vertical tab, form feed, carriage return
    || c == ' ' || c == '\U{00A0}' || c == '\U{1680}'
    || '\U{2000}' <= c <= '\U{200A}'      // the typographic spaces
    || c == '\U{2028}' || c == '\U{2029}'  // line and paragraph separators
    || c == '\U{202F}' || c == '\U{205F}' || c == '\U{3000}' || c == '\U{FEFF}'
  }

  function TirarInicio(s: string): (r: string)
    ensures |r| <= |s| && r == s[|s| - |r|..]
    ensures |r| > 0 ==> !EhEspaco(r[0])
    ensures forall i :: 0 <= i < |s| - |r| ==> EhEspaco(s[i])
  {
    if |s| > 0 && EhEspaco(s[0]) then TirarInicio(s[1..]) else s
  }

  function TirarFim(s: string): (r: string)
    ensures |r| <= |s| && r == s[..|r|]
    ensures |r| > 0 ==> !EhEspaco(r[|r| - 1])
    ensures forall i :: |r| <= i < |s| ==> EhEspaco(s[i])
  {
    if |s| > 0 && EhEspaco(s[|s| - 1]) then TirarFim(s[..|s| - 1]) else s
  }

  /** `r` is `s` from position `i` on, with only white space cut from either end. */
  predicate Recorte(s: string, r: string, i: int)
  {
    && 0 <= i <= |s| - |r|
    && r == s[i..i + |r|]
    && (forall k :: 0 <= k < i ==> EhEspaco(s[k]))
    && (forall k :: i + |r| <= k < |s| ==> EhEspaco(s[k]))
  }

  /** Neither the first nor the last character is white space. */
  predicate SemBordas(s: string)
  {
    |s| > 0 ==> !EhEspaco(s[0]) && !EhEspaco(s[|s| - 1])
  }

  /** `trim`: the infix of `s` that neither starts nor ends with white space. */
  function Aparar(s: string): (r: string)
    ensures SemBordas(r)
  {
    TirarFim(TirarInicio(s))
  }

  /** Trimming removes only white space, and only from the two ends. */
  lemma ApararRecorte(s: string)
    ensures exists i :: Recorte(s, Aparar(s), i)
  {
    var a := TirarInicio(s);
    var r := TirarFim(a);
    RecorteDe(s, a, r);
    assert Recorte(s, Aparar(s), |s| - |a|);
  }

  /** Cutting white space from the front of `s` to get `a`, then from the back of `a` to get `r`, is a `Recorte`. */
  lemma RecorteDe(s: string, a: string, r: string)
    requires |a| <= |s| && a == s[|s| - |a|..]
    requires forall k :: 0 <= k < |s| - |a| ==> EhEspaco(s[k])
    requires |r| <= |a| && r == a[..|r|]
    requires forall k :: |r| <= k < |a| ==> EhEspaco(a[k])
    ensures Recorte(s, r, |s| - |a|)
  {
    var i := |s| - |a|;
    assert r == s[i..i + |r|];
    forall k | i + |r| <= k < |s|
      ensures EhEspaco(s[k])
    {
      assert s[k] == a[k - i];
    }
  }

  /** Trimming twice is trimming once. */
  lemma ApararIdempotente(s: string)
    ensures Aparar(Aparar(s)) == Aparar(s)
  {
    var r := Aparar(s);
    if |r| > 0 {
      assert TirarInicio(r) == r;
      assert TirarFim(r) == r;
    }
  }

  /** `toLowerCase` restricted to ASCII: 'A'..'Z' become 'a'..'z'. */
  function Minusculas(s: string): (r: string)
    ensures |r| == |s|
    ensures forall i :: 0 <= i < |r| ==> !('A' <= r[i] <= 'Z')
    ensures forall i :: 0 <= i < |s| && !('A' <= s[i] <= 'Z') ==> r[i] == s[i]
    ensures forall i :: 0 <= i < |s| && 'A' <= s[i] <= 'Z' ==> 'a' <= r[i] <= 'z' && r[i] as int - s[i] as int == 32
  {
    seq(|s|, i requires 0 <= i < |s| => if 'A' <= s[i] <= 'Z' then (s[i] as int + 32) as char else s[i])
  }

  lemma MinusculasBordas(s: string)
    requires SemBordas(s)
    ensures SemBordas(Minusculas(s))
  {
    var r := Minusculas(s);
    if |s| > 0 {
      assert 'A' <= s[0] <= 'Z' ==> 'a' <= r[0] <= 'z';
      assert 'A' <= s[|s| - 1] <= 'Z' ==> 'a' <= r[|r| - 1] <= 'z';
    }
  }

  /** Lower-casing twice is lower-casing once. */
  lemma MinusculasIdempotente(s: string)
    ensures Minusculas(Minusculas(s)) == Minusculas(s)
  {
  }

  /** The form fields as typed. */
  datatype Formulario = Formulario(
    nome: string,
    email: string,
    telefone: string,
    cidade: string,
    bio: string,
    senha: string,
    confirmarSenha: string)

  /** `dadosRegistro`: the payload sent to registration. */
  function MontarRegistro(f: Formulario, tipo: Tipo): (req: RegistroRequest)
    ensures req.tipo == tipo && req.senha == f.senha
    ensures forall i :: 0 <= i < |req.telefone| ==> EhDigito(req.telefone[i])
    ensures forall i :: 0 <= i < |req.email| ==> !('A' <= req.email[i] <= 'Z')
    ensures SemBordas(req.email) && SemBordas(req.nome) && SemBordas(req.cidade)
    ensures req.bio.Some? && SemBordas(req.bio.value)
    ensures req.telefone == RemoverMascaraTelefone(f.telefone)
    ensures req.email == Minusculas(Aparar(f.email))
    ensures req.nome == Aparar(f.nome) && req.cidade == Aparar(f.cidade) && req.bio == Some(Aparar(f.bio))
  {
    var aparado := Aparar(f.email);
    MinusculasBordas(aparado);
    RegistroRequest(Aparar(f.nome), Minusculas(aparado), f.senha, RemoverMascaraTelefone(f.telefone),
                    Aparar(f.cidade), Some(Aparar(f.bio)), tipo)
  }

  /** A text without white space at its ends is already trimmed. */
  lemma ApararSemBordas(s: string)
    requires SemBordas(s)
    ensures Aparar(s) == s
  {
    assert TirarInicio(s) == s;
    assert TirarFim(s) == s;
  }

  /** The payload is normalised: typing it back into the form yields the same payload. */
  lemma MontarRegistroIdempotente(f: Formulario, tipo: Tipo)
    ensures var req := MontarRegistro(f, tipo);
            MontarRegistro(Formulario(req.nome, req.email, req.telefone, req.cidade, req.bio.value,
                                      req.senha, f.confirmarSenha), tipo) == req
  {
    var req := MontarRegistro(f, tipo);
    ApararIdempotente(f.nome);
    ApararIdempotente(f.cidade);
    ApararIdempotente(f.bio);
    ApararSemBordas(req.email);
    MinusculasIdempotente(Aparar(f.email));
    RemoverIdempotente(f.telefone);
  }

  /** A phone typed through the mask reaches registration as the digits the mask kept. */
  lemma TelefoneDoRegistro(f: Formulario, t: string, tipo: Tipo)
    ensures MontarRegistro(f.(telefone := FormatarTelefone(t)), tipo).telefone == DigitosLimitados(t)
  {
    MascaraIdaVolta(t);
  }

  datatype Etapa = Dados | Servicos

  /** What one press of the submit button does. */
  datatype Passo =
    | TipoAusente                                              // error: no user kind given
    | IrParaServicos                                           // switch to the services step
    | SemServicos                                              // error: no service selected
    | Registrar(req: RegistroRequest, servicos: seq<Servico>)  // call registration

  /** `onSubmit`: a provider on the details step with nothing selected is sent
      to the services step, a provider on the services step with nothing
      selected is refused, and everything else registers. */
  function Submeter(tipo: Option<Tipo>, etapa: Etapa, selecionados: seq<Servico>, f: Formulario): (r: Passo)
    ensures r == TipoAusente <==> tipo.None?
    ensures r == IrParaServicos <==> tipo == Some(Massagista) && etapa == Dados && |selecionados| == 0
    ensures r == SemServicos <==> tipo == Some(Massagista) && etapa == Servicos && |selecionados| == 0
    ensures r.Registrar? ==> tipo.Some? && r.req == MontarRegistro(f, tipo.value)
    ensures r.Registrar? && tipo == Some(Massagista) ==> r.servicos == selecionados && |r.servicos| > 0
    ensures r.Registrar? && tipo == Some(Cliente) ==> r.servicos == []
  {
    match tipo
    case None => TipoAusente
    case Some(t) =>
      if t == Massagista && |selecionados| == 0 then
        (match etapa case Dados => IrParaServicos case Servicos => SemServicos)
      else
        Registrar(MontarRegistro(f, t), if t == Massagista then selecionados else [])
  }
}
