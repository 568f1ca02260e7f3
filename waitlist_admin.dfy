/** The waitlist of app_lista_espera_admin.py: one table, `dados`, over eleven
    columns (the nine of app.py plus who registered the patient and when),
    created empty on the first run of a logged-in session. */
module WaitlistAdmin {
  import opened Wrappers
  import opened WaitTime
  import opened Tables
  import opened StandardTable

  /** The columns of `dados`. */
  const ColunasAdmin: seq<Column> := [
    Nome, Carteirinha, DataContato, DiasEspera, Especialidade, Telefone,
    HorarioPreferencial, PreferenciaProfissional, ProfissionalIndicado,
    RegistradoPor, DataRegistro
  ]

  /** The columns of the administrator's history view. */
  const ColunasHistorico: seq<Column> := [Nome, Especialidade, RegistradoPor, DataRegistro]

  /** The eleven values of a new row, in the order the handler lists them. */
  function AdminValues(p: PatientForm, dias: int, usuario: string, agora: string): (vals: seq<Value>)
    ensures |vals| == |ColunasAdmin|
  {
    FormValues(p, dias) + [Text(usuario), Text(agora)]
  }

  /** The row the handler builds by position is, whatever the slot fields
      the later versions add, the fifteen-column patient row cut down to the
      eleven columns: every field lands under the column of its name. */
  lemma AdminRowByName(p: PatientForm, dias: int, usuario: string, agora: string, s: SlotFields)
    ensures Zip(ColunasAdmin, AdminValues(p, dias, usuario, agora))
            == Restrict(PatientRow(p, s, dias, usuario, agora), ColunasAdmin)
  {
    assert ColunasAdmin == ColunasPadrao[..11];
    assert AdminValues(p, dias, usuario, agora) == PatientValues(p, s, dias, usuario, agora)[..11];
    PrefixRowIsPatientRow(11, p, s, dias, usuario, agora);
  }

  /** The new row fits the table and carries the contact date, so the
      refresh can read it back. */
  lemma AdminRowFits(p: PatientForm, dias: int, usuario: string, agora: string)
    ensures Fits(Zip(ColunasAdmin, AdminValues(p, dias, usuario, agora)), ColunasAdmin)
    ensures HasDate(Zip(ColunasAdmin, AdminValues(p, dias, usuario, agora)))
    ensures Zip(ColunasAdmin, AdminValues(p, dias, usuario, agora))[DataContato] == When(p.contato)
  {
    AdminRowByName(p, dias, usuario, agora, SlotFields("", "", "", Text("")));
  }

  class Store {
    var dados: Option<Frame>

    /** `dados`, once it exists, has the eleven columns and dated rows. */
    ghost predicate Valid()
      reads this
    {
      dados.Some? ==> dados.value.columns == ColunasAdmin && Dated(dados.value)
    }

    /** A new session: `dados` is not in `st.session_state` yet. */
    constructor ()
      ensures Valid() && dados == None
    {
      dados := None;
    }

    /** Lines 144-149: an empty table over the eleven columns when `dados` is
        absent; an existing table is kept. */
    method InitData()
      requires Valid()
      modifies this
      ensures Valid() && dados.Some?
      ensures old(dados).Some? ==> dados == old(dados)
      ensures old(dados).None? ==> dados == Some(Frame(ColunasAdmin, []))
    {
      if dados.None? {
        dados := Some(Frame(ColunasAdmin, []));
      }
    }

    /** "Adicionar à Lista": the new row, its day count computed from the
        contact date, is appended to `dados`. The handler labels the values
        with `dados.columns`, which are always the eleven columns. */
    method AddPatient(p: PatientForm, usuario: string, agora: string, today: Moment)
      requires Valid() && dados.Some?
      modifies this
      ensures Valid() && dados.Some?
      ensures dados.value == Append(old(dados.value),
                Zip(ColunasAdmin, AdminValues(p, WaitingDays(Admin, p.contato, today).value, usuario, agora)))
    {
      var dias := WaitingDays(Admin, p.contato, today).value;
      var novo := Zip(dados.value.columns, AdminValues(p, dias, usuario, agora));
      AdminRowFits(p, dias, usuario, agora);
      AppendKeepsDated(dados.value, novo);
      dados := Some(Append(dados.value, novo));
    }

    /** Lines 182-183: the "Dias de Espera" refresh, which cannot fail on the
        table the script keeps. */
    method RefreshDays(today: Moment)
      requires Valid() && dados.Some?
      modifies this
      ensures Valid() && dados.Some?
      ensures WellFormed(old(dados.value)) && Some(dados.value) == Refreshed(Admin, old(dados.value), today)
    {
      RefreshKeepsDated(Admin, dados.value, today);
      dados := Refreshed(Admin, dados.value, today);
    }

    /** The administrator's "Histórico de Registros": every row of `dados`
        in the four history columns. */
    function History(): (h: Frame)
      reads this
      requires Valid() && dados.Some?
      ensures h.columns == ColunasHistorico && |h.rows| == |dados.value.rows|
      ensures forall k, c | 0 <= k < |h.rows| && c in ColunasHistorico ::
                c in h.rows[k] && h.rows[k][c] == dados.value.rows[k][c]
    {
      Select(dados.value, ColunasHistorico).value
    }
  }
}
