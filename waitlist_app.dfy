/** The waitlist of app.py, the first version: no login, one table `dados`
    over nine columns, created empty on the first run of a session. */
module WaitlistApp {
  import opened Wrappers
  import opened WaitTime
  import opened Tables
  import opened StandardTable

  /** The columns of `dados`. */
  const ColunasApp: seq<Column> := [
    Nome, Carteirinha, DataContato, DiasEspera, Especialidade, Telefone,
    HorarioPreferencial, PreferenciaProfissional, ProfissionalIndicado
  ]

  /** The row the handler builds by position is, whatever the fields the
      later versions add, the fifteen-column patient row cut down to the nine
      columns: every field lands under the column of its name. */
  lemma AppRowByName(p: PatientForm, dias: int, s: SlotFields, usuario: string, agora: string)
    ensures Zip(ColunasApp, FormValues(p, dias)) == Restrict(PatientRow(p, s, dias, usuario, agora), ColunasApp)
  {
    assert ColunasApp == ColunasPadrao[..9];
    assert FormValues(p, dias) == PatientValues(p, s, dias, usuario, agora)[..9];
    PrefixRowIsPatientRow(9, p, s, dias, usuario, agora);
  }

  /** The new row fits the table and carries the contact date. */
  lemma AppRowFits(p: PatientForm, dias: int)
    ensures Fits(Zip(ColunasApp, FormValues(p, dias)), ColunasApp)
    ensures HasDate(Zip(ColunasApp, FormValues(p, dias)))
    ensures Zip(ColunasApp, FormValues(p, dias))[DataContato] == When(p.contato)
    ensures Zip(ColunasApp, FormValues(p, dias))[DiasEspera] == Int(dias)
  {
    AppRowByName(p, dias, SlotFields("", "", "", Text("")), "", "");
  }

  class Store {
    var dados: Option<Frame>

    /** `dados`, once it exists, has the nine columns and dated rows. */
    ghost predicate Valid()
      reads this
    {
      dados.Some? ==> dados.value.columns == ColunasApp && Dated(dados.value)
    }

    /** A new session: `dados` is not in `st.session_state` yet. */
    constructor ()
      ensures Valid() && dados == None
    {
      dados := None;
    }

    /** Lines 26-30: an empty table over the nine columns when `dados` is
        absent; an existing table is kept. */
    method InitData()
      requires Valid()
      modifies this
      ensures Valid() && dados.Some?
      ensures old(dados).Some? ==> dados == old(dados)
      ensures old(dados).None? ==> dados == Some(Frame(ColunasApp, []))
    {
      if dados.None? {
        dados := Some(Frame(ColunasApp, []));
      }
    }

    /** "Adicionar Paciente" as written: `calcular_dias_espera` subtracts the
        contact value from a datetime without normalising it, which raises for
        a plain date; the add then stops with `dados` unchanged. The form's
        date input always gives a plain date, so no patient is ever added. */
    method AddPatient(p: PatientForm, today: Moment) returns (ok: bool)
      requires Valid() && dados.Some?
      modifies this
      ensures Valid() && dados.Some?
      ensures ok <==> !p.contato.Date?
      ensures ok ==> dados.value == Append(old(dados.value),
                       Zip(ColunasApp, FormValues(p, WaitingDays(App, p.contato, today).value)))
      ensures !ok ==> dados == old(dados)
    {
      var dias := WaitingDays(App, p.contato, today);
      if dias.None? {
        return false;
      }
      var novo := Zip(dados.value.columns, FormValues(p, dias.value));
      AppRowFits(p, dias.value);
      AppendKeepsDated(dados.value, novo);
      dados := Some(Append(dados.value, novo));
      ok := true;
    }

    /** "Adicionar Paciente" with the contact date combined with midnight
        first, as app_lista_espera_admin.py does: every patient is added, a
        plain date counting the difference of the day ordinals
        (`WaitTime.PlainDateDays`). */
    method AddPatientNormalised(p: PatientForm, today: Moment)
      requires Valid() && dados.Some?
      modifies this
      ensures Valid() && dados.Some?
      ensures dados.value == Append(old(dados.value),
                Zip(ColunasApp, FormValues(p, WaitingDays(Admin, p.contato, today).value)))
    {
      var dias := WaitingDays(Admin, p.contato, today).value;
      var novo := Zip(dados.value.columns, FormValues(p, dias));
      AppRowFits(p, dias);
      AppendKeepsDated(dados.value, novo);
      dados := Some(Append(dados.value, novo));
    }

    /** Line 66: the "Dias de Espera" refresh, which cannot fail on the table
        the script keeps. */
    method RefreshDays(today: Moment)
      requires Valid() && dados.Some?
      modifies this
      ensures Valid() && dados.Some?
      ensures WellFormed(old(dados.value)) && Some(dados.value) == Refreshed(App, old(dados.value), today)
    {
      RefreshKeepsDated(App, dados.value, today);
      dados := Refreshed(App, dados.value, today);
    }
  }
}
