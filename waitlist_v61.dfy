/** The waitlist of app_lista_de_espera_v6.1.py: two tables in
    `st.session_state`, `dados` (patients waiting) and `atendidos` (patients
    served), both over the fifteen standard columns. A new patient goes to one
    of them according to "Vaga Concedida"; granting a slot moves a waiting row
    to the served table. */
module WaitlistV61 {
  import opened Wrappers
  import opened WaitTime
  import opened Tables
  import opened StandardTable

  /** The columns of the administrator's history view. */
  const ColunasHistorico: seq<Column> := [Nome, Especialidade, RegistradoPor, DataRegistro, VagaConcedida]

  /** The served copy of a waiting row: the six slot and audit fields are
      overwritten and every other field is kept. */
  function Granted(row: Row, profResp: string, horarioAtend: string, dataInicio: int,
                   usuario: string, agora: string): (r: Row)
    requires StandardRow(row)
    ensures StandardRow(r)
    ensures r[ProfissionalResponsavel] == Text(profResp) && r[HorarioAtendimento] == Text(horarioAtend)
    ensures r[DataInicio] == When(Date(dataInicio)) && r[VagaConcedida] == Text("Sim")
    ensures r[DataRegistro] == Text(agora) && r[RegistradoPor] == Text(usuario)
    ensures forall c | c in row && c !in GrantedColumns() :: r[c] == row[c]
  {
    row[ProfissionalResponsavel := Text(profResp)]
       [HorarioAtendimento := Text(horarioAtend)]
       [DataInicio := When(Date(dataInicio))]
       [VagaConcedida := Text("Sim")]
       [DataRegistro := Text(agora)]
       [RegistradoPor := Text(usuario)]
  }

  function GrantedColumns(): set<Column> {
    {ProfissionalResponsavel, HorarioAtendimento, DataInicio, VagaConcedida, DataRegistro, RegistradoPor}
  }

  /** `carregar_dados` for one table: kept when already in the session,
      otherwise read from its file, or an empty standard table when there is
      no file. */
  function Initialised(current: Option<Frame>, arquivo: Option<Frame>): (r: Option<Frame>)
    ensures r.Some?
    ensures current.Some? ==> r == current
    ensures current.None? && arquivo.None? ==> r == Some(Frame(ColunasPadrao, []))
    ensures current.None? && arquivo.Some? ==> r == arquivo
  {
    if current.Some? then current
    else if arquivo.Some? then arquivo
    else Some(Frame(ColunasPadrao, []))
  }

  /** Loading again, whatever the files now hold, changes nothing. */
  lemma InitialisedOnce(current: Option<Frame>, arquivo: Option<Frame>, depois: Option<Frame>)
    ensures Initialised(Initialised(current, arquivo), depois) == Initialised(current, arquivo)
  {
  }

  class Store {
    var dados: Option<Frame>
    var atendidos: Option<Frame>

    ghost predicate Valid()
      reads this
    {
      && (dados.Some? ==> Standard(dados.value))
      && (atendidos.Some? ==> Standard(atendidos.value))
    }

    predicate Loaded()
      reads this
    {
      dados.Some? && atendidos.Some?
    }

    /** A new session: neither table is in `st.session_state` yet. */
    constructor ()
      ensures Valid() && dados == None && atendidos == None
    {
      dados, atendidos := None, None;
    }

    /** `carregar_dados`. A file that exists is given as `Some` of its
        contents, read back as standard tables. */
    method LoadData(arquivoEspera: Option<Frame>, arquivoAtendidos: Option<Frame>)
      requires Valid()
      requires arquivoEspera.Some? ==> Standard(arquivoEspera.value)
      requires arquivoAtendidos.Some? ==> Standard(arquivoAtendidos.value)
      modifies this
      ensures Valid() && Loaded()
      ensures dados == Initialised(old(dados), arquivoEspera)
      ensures atendidos == Initialised(old(atendidos), arquivoAtendidos)
    {
      if dados.None? {
        if arquivoEspera.Some? {
          dados := arquivoEspera;
        } else {
          EmptyStandard();
          dados := Some(Frame(ColunasPadrao, []));
        }
      }
      if atendidos.None? {
        if arquivoAtendidos.Some? {
          atendidos := arquivoAtendidos;
        } else {
          EmptyStandard();
          atendidos := Some(Frame(ColunasPadrao, []));
        }
      }
    }

    /** The "Salvar Paciente" handler: "Sim" appends the new row to
        `atendidos` only; any other answer appends it to `dados` only. */
    method AddPatient(p: PatientForm, s: SlotFields, usuario: string, agora: string, today: Moment)
      requires Valid() && Loaded()
      modifies this
      ensures Valid() && Loaded()
      ensures s.vaga == "Sim" ==>
                && atendidos.value == Append(old(atendidos.value), PatientRow(p, s, WaitingDays(V61, p.contato, today).value, usuario, agora))
                && dados == old(dados)
      ensures s.vaga != "Sim" ==>
                && dados.value == Append(old(dados.value), PatientRow(p, s, WaitingDays(V61, p.contato, today).value, usuario, agora))
                && atendidos == old(atendidos)
      ensures |dados.value.rows| + |atendidos.value.rows| == old(|dados.value.rows| + |atendidos.value.rows|) + 1
    {
      var dias := WaitingDays(V61, p.contato, today).value;
      var novo := PatientRow(p, s, dias, usuario, agora);
      if s.vaga == "Sim" {
        AppendKeepsStandard(atendidos.value, novo);
        atendidos := Some(Append(atendidos.value, novo));
      } else {
        AppendKeepsStandard(dados.value, novo);
        dados := Some(Append(dados.value, novo));
      }
    }

    /** "Confirmar Vaga" on waiting row i: the row leaves `dados` and its
        granted copy is appended to `atendidos`; no row is lost or duplicated.
        The form is offered only to a user whose permissions include
        "editar_espera" (line 238). */
    method GrantSlot(permissoes: set<string>, i: nat, profResp: string, horarioAtend: string, dataInicio: int,
                     usuario: string, agora: string)
      requires "editar_espera" in permissoes
      requires Valid() && Loaded() && i < |dados.value.rows|
      modifies this
      ensures Valid() && Loaded()
      ensures dados.value == DropAt(old(dados.value), i)
      ensures atendidos.value ==
                Append(old(atendidos.value), Granted(old(dados.value.rows[i]), profResp, horarioAtend, dataInicio, usuario, agora))
      ensures |dados.value.rows| + |atendidos.value.rows| == old(|dados.value.rows| + |atendidos.value.rows|)
      ensures multiset(dados.value.rows) + multiset{old(dados.value.rows[i])} == old(multiset(dados.value.rows))
    {
      var row := dados.value.rows[i];
      var rowData := Granted(row, profResp, horarioAtend, dataInicio, usuario, agora);
      AppendKeepsStandard(atendidos.value, rowData);
      DropKeepsStandard(dados.value, i);
      atendidos := Some(Append(atendidos.value, rowData));
      dados := Some(DropAt(dados.value, i));
    }

    /** The "Dias de Espera" refresh of `dados` on `today`; it cannot fail on
        a standard table, and `atendidos` keeps its stale counts. */
    method RefreshDays(today: Moment)
      requires Valid() && Loaded()
      modifies this
      ensures Valid() && Loaded() && atendidos == old(atendidos)
      ensures WellFormed(old(dados.value)) && Some(dados.value) == Refreshed(V61, old(dados.value), today)
    {
      RefreshKeepsStandard(V61, dados.value, today);
      dados := Refreshed(V61, dados.value, today);
    }

    /** The administrator's "Histórico de Registros": every waiting row, then
        every served row, in the five history columns. */
    function History(): (h: Frame)
      reads this
      requires Valid() && Loaded()
      ensures h.columns == ColunasHistorico
      ensures |h.rows| == |dados.value.rows| + |atendidos.value.rows|
      ensures forall k, c | 0 <= k < |h.rows| && c in ColunasHistorico ::
                c in h.rows[k] && h.rows[k][c] == (dados.value.rows + atendidos.value.rows)[k][c]
    {
      StandardStack(dados.value, atendidos.value);
      Select(Stack(dados.value, atendidos.value), ColunasHistorico).value
    }
  }
}
