/**
 * The scheduling module: the half-hour slot list offered by the booking
 * form, the form's required-field check and the colour given to each
 * appointment status in today's agenda.
 */
module Agendamento {
  import opened Texto

  const MINUTOS: seq<string> := ["00", "30"]
  const SERVICOS: seq<string> :=
    ["Corte de Cabelo", "Barba", "Corte + Barba", "Coloração", "Hidratação", "Manicure", "Pedicure"]
  const PROFISSIONAIS: seq<string> := ["João", "Maria", "Carlos", "Ana", "Pedro"]
  const MSG_CAMPOS_OBRIGATORIOS := "Preencha todos os campos obrigatórios (*)"

  /** A number below 100 written with two digits, as `{hora:02d}` does. */
  function DoisDigitos(n: nat): (s: string)
    requires n < 100
    ensures |s| == 2 && '0' <= s[0] <= '9' && '0' <= s[1] <= '9'
    ensures 10 * ValorDigito(s[0]) + ValorDigito(s[1]) == n
  {
    [Digito(n / 10), Digito(n % 10)]
  }

  /** The k-th slot of the day: hours 8 to 18, each at :00 and then :30. */
  function Horario(k: nat): (h: string)
    requires k < 22
    ensures |h| == 5 && h[2] == ':' && h[3..] in MINUTOS
    ensures MinutosDoDia(h) == 480 + 30 * k
  {
    DoisDigitos(8 + k / 2) + ":" + MINUTOS[k % 2]
  }

  /** Builds the slot list with the source's two nested loops. */
  method GerarHorarios() returns (horarios: seq<string>)
    ensures |horarios| == 22
    ensures forall k :: 0 <= k < 22 ==> horarios[k] == Horario(k)
  {
    horarios := [];
    for hora := 8 to 19
      invariant |horarios| == 2 * (hora - 8)
      invariant forall k :: 0 <= k < |horarios| ==> horarios[k] == Horario(k)
    {
      for m := 0 to 2
        invariant |horarios| == 2 * (hora - 8) + m
        invariant forall k :: 0 <= k < |horarios| ==> horarios[k] == Horario(k)
      {
        horarios := horarios + [DoisDigitos(hora) + ":" + MINUTOS[m]];
      }
    }
  }

  /** Minutes since midnight of an "HH:MM" string. */
  function MinutosDoDia(s: string): int
    requires |s| == 5
  {
    600 * ValorDigito(s[0]) + 60 * ValorDigito(s[1]) + 10 * ValorDigito(s[3]) + ValorDigito(s[4])
  }

  /** Every slot is "HH:MM" with minutes "00" or "30", and lies 30 minutes
      after the previous one, starting at 08:00. */
  lemma HorarioFormatoEMinutos(k: nat)
    requires k < 22
    ensures |Horario(k)| == 5
    ensures '0' <= Horario(k)[0] <= '9' && '0' <= Horario(k)[1] <= '9' && Horario(k)[2] == ':'
    ensures Horario(k)[3..] == "00" || Horario(k)[3..] == "30"
    ensures MinutosDoDia(Horario(k)) == 480 + 30 * k
  {
  }

  /** The first slot is 08:00, the last 18:30, and none is at or after
      19:00. */
  lemma HorariosExtremos()
    ensures Horario(0) == "08:00" && Horario(21) == "18:30"
    ensures forall k :: 0 <= k < 22 ==> MinutosDoDia(Horario(k)) < 19 * 60
  {
  }

  /** String order as Python compares strings (by code point). */
  ghost predicate LexMenor(a: string, b: string)
  {
    (exists i :: 0 <= i < |a| && i < |b| && a[..i] == b[..i] && a[i] < b[i])
    || (|a| < |b| && a == b[..|a|])
  }

  /** Later slots compare greater as strings too, so the list is sorted
      both in time and lexicographically. */
  lemma HorariosCrescentes(k: nat, l: nat)
    requires k < l < 22
    ensures MinutosDoDia(Horario(k)) < MinutosDoDia(Horario(l))
    ensures LexMenor(Horario(k), Horario(l))
  {
  }

  /** A filled-in booking form. */
  datatype FormularioAgendamento = FormularioAgendamento(
    nome: string,
    telefone: string,
    email: string,
    servico: string,
    profissional: string,
    data: string,
    hora: string)

  datatype ResultadoAgendamento = Agendado(mensagem: string) | CamposFaltando(mensagem: string)

  /** The booking button: accepted when every field marked required is
      non-empty (the email is optional), refused with the required-fields
      message otherwise. */
  function Agendar(f: FormularioAgendamento): (r: ResultadoAgendamento)
    ensures r.CamposFaltando? ==> r.mensagem == MSG_CAMPOS_OBRIGATORIOS
  {
    if f.nome != "" && f.telefone != "" && f.servico != "" && f.profissional != "" && f.data != "" && f.hora != "" then
      Agendado("Agendamento realizado para " + f.nome + " em " + f.data + " às " + f.hora + "!")
    else
      CamposFaltando(MSG_CAMPOS_OBRIGATORIOS)
  }

  /** Leaving any required field empty is refused, and so is nothing else;
      the optional email never matters. */
  lemma AgendarExigeObrigatorios(f: FormularioAgendamento, outroEmail: string)
    ensures Agendar(f).Agendado? <==>
      f.nome != "" && f.telefone != "" && f.servico != "" && f.profissional != "" && f.data != "" && f.hora != ""
    ensures Agendar(f).Agendado? == Agendar(f.(email := outroEmail)).Agendado?
  {
  }

  /** The service, professional and time come from non-empty choice lists
      and the date picker always holds a date, so in practice the outcome
      depends only on the two typed fields. */
  lemma AgendarComEscolhasDasListas(f: FormularioAgendamento, k: nat)
    requires f.servico in SERVICOS && f.profissional in PROFISSIONAIS
    requires k < 22 && f.hora == Horario(k) && f.data != ""
    ensures Agendar(f).Agendado? <==> f.nome != "" && f.telefone != ""
  {
  }

  const ESTILO_CONFIRMADO := "background-color: #90EE90"
  const ESTILO_CANCELADO := "background-color: #FFB6C1"
  const ESTILO_EM_ESPERA := "background-color: #FFE4B5"

  /** The style of one cell of the agenda's status column. */
  function CorStatus(status: string): (estilo: string)
    ensures estilo in [ESTILO_CONFIRMADO, ESTILO_CANCELADO, ESTILO_EM_ESPERA, ""]
    ensures estilo == "" || (|estilo| > 18 && estilo[..18] == "background-color: ")
  {
    if status == "Confirmado" then ESTILO_CONFIRMADO
    else if status == "Cancelado" then ESTILO_CANCELADO
    else if status == "Em espera" then ESTILO_EM_ESPERA
    else ""
  }

  /** Exactly the three known statuses are coloured, each differently. */
  lemma CorStatusDistingue(status: string, outro: string)
    ensures CorStatus(status) != "" <==> status in ["Confirmado", "Cancelado", "Em espera"]
    ensures CorStatus(status) != "" && CorStatus(status) == CorStatus(outro) ==> status == outro
  {
  }
}
