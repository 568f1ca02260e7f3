/** The waitlist of app_lista_espera_admin_v5.3.py: two tables, `dados`
    (patients waiting) and `atendidos` (patients served). A session begun
    without data files starts from an empty `dados` whose columns (line 82)
    list the slot fields first, and an empty `atendidos` over the same
    columns (line 99). A new patient goes to one table according to
    "Vaga Concedida". */
module WaitlistV53 {
  import opened Wrappers
  import opened WaitTime
  import opened Tables
  import opened StandardTable

  /** The columns of the empty `dados` table, in the order of line 82. */
  const ColunasV53: seq<Column> := [
    VagaConcedida, ProfissionalResponsavel, HorarioAtendimento, DataInicio,
    Nome, Carteirinha, DataContato, DiasEspera, Especialidade, Telefone,
    HorarioPreferencial, PreferenciaProfissional, ProfissionalIndicado,
    RegistradoPor, DataRegistro
  ]

  /** The columns of the administrator's history view. */
  const ColunasHistorico: seq<Column> := [Nome, Especialidade, RegistradoPor, DataRegistro]

  /** The place of each column in line 82. */
  function PlaceV53(c: Column): (k: nat)
    ensures k < |ColunasV53| && ColunasV53[k] == c
  {
    match c
    case VagaConcedida => 0 case ProfissionalResponsavel => 1 case HorarioAtendimento => 2
    case DataInicio => 3 case Nome => 4 case Carteirinha => 5 case DataContato => 6
    case DiasEspera => 7 case Especialidade => 8 case Telefone => 9
    case HorarioPreferencial => 10 case PreferenciaProfissional => 11
    case ProfissionalIndicado => 12 case RegistradoPor => 13 case DataRegistro => 14
  }

  lemma PlaceOf(k: nat)
    requires k < |ColunasV53|
    ensures PlaceV53(ColunasV53[k]) == k
  {
  }

  /** Line 82 names every column, once. */
  lemma ColunasV53Complete()
    ensures Distinct(ColunasV53) && ColumnSet(ColunasV53) == TodasColunas
  {
    forall i, j | 0 <= i < j < |ColunasV53| ensures ColunasV53[i] != ColunasV53[j] {
      PlaceOf(i);
      PlaceOf(j);
    }
    forall c ensures c in ColunasV53 {
      assert ColunasV53[PlaceV53(c)] == c;
    }
  }

  /** Value k of a fifteen-value list lands under column k of line 82. */
  lemma ZipAtV53(vals: seq<Value>, k: nat)
    requires |vals| == |ColunasV53| && k < |ColunasV53|
    ensures Zip(ColunasV53, vals)[ColunasV53[k]] == vals[k]
  {
    ColunasV53Complete();
    ZipAt(ColunasV53, vals, k);
  }

  /** The row lines 214-218 build in such a session: the fifteen values in
      the form's order, labelled with `dados.columns`, which are line 82's. */
  function PositionalRow(p: PatientForm, s: SlotFields, dias: int, usuario: string, agora: string): (r: Row)
    ensures Fits(r, ColunasV53) && r.Keys == TodasColunas
  {
    ColunasV53Complete();
    Zip(ColunasV53, PatientValues(p, s, dias, usuario, agora))
  }

  /** Each field lands under the column that holds, in line 82, the place
      its own column holds in `colunas_padrao`. */
  lemma PositionalRowShifted(p: PatientForm, s: SlotFields, dias: int, usuario: string, agora: string, c: Column)
    ensures PositionalRow(p, s, dias, usuario, agora)[ColunasV53[Position(c)]] == PatientField(p, s, dias, usuario, agora, c)
  {
    ZipAtV53(PatientValues(p, s, dias, usuario, agora), Position(c));
    PatientValuesInOrder(p, s, dias, usuario, agora, c);
  }

  /** So the patient's name is stored as "Vaga Concedida", the specialty as
      "Nome" and the preferred shift as "Data 1º Contato". */
  lemma PositionalRowMisplaced(p: PatientForm, s: SlotFields, dias: int, usuario: string, agora: string)
    ensures PositionalRow(p, s, dias, usuario, agora)[VagaConcedida] == Text(p.nome)
    ensures PositionalRow(p, s, dias, usuario, agora)[Nome] == Text(p.especialidade)
    ensures PositionalRow(p, s, dias, usuario, agora)[DataContato] == Text(p.horario)
  {
    PositionalRowShifted(p, s, dias, usuario, agora, Nome);
    PositionalRowShifted(p, s, dias, usuario, agora, Especialidade);
    PositionalRowShifted(p, s, dias, usuario, agora, HorarioPreferencial);
  }

  /** Once such a row waits in `dados`, the refresh of lines 229-230 fails on
      every later run: its "Data 1º Contato" cell is text, not a date. */
  lemma PositionalRowBreaksRefresh(f: Frame, p: PatientForm, s: SlotFields, dias: int, usuario: string, agora: string,
                                   today: Moment)
    requires WellFormed(f) && f.columns == ColunasV53
    ensures WellFormed(Append(f, PositionalRow(p, s, dias, usuario, agora)))
    ensures Refreshed(AdminV53, Append(f, PositionalRow(p, s, dias, usuario, agora)), today).None?
  {
    var r := PositionalRow(p, s, dias, usuario, agora);
    PositionalRowMisplaced(p, s, dias, usuario, agora);
    AppendWellFormed(f, r);
    assert Append(f, r).rows[|f.rows|] == r;
  }

  /** The empty tables of a session begun without data files are standard. */
  lemma EmptyV53Standard()
    ensures Standard(Frame(ColunasV53, []))
  {
    ColunasV53Complete();
  }

  class Store {
    var dados: Frame
    var atendidos: Frame

    ghost predicate Valid()
      reads this
    {
      Standard(dados) && Standard(atendidos)
    }

    /** A session begun without data files (lines 82-86 and 99). */
    constructor ()
      ensures Valid() && dados == Frame(ColunasV53, []) && atendidos == Frame(ColunasV53, [])
    {
      EmptyV53Standard();
      dados, atendidos := Frame(ColunasV53, []), Frame(ColunasV53, []);
    }

    /** "Adicionar à Lista" with every field stored under the column of its
        name: "Sim" appends the new row to `atendidos` only; any other answer
        appends it to `dados` only. */
    method AddPatient(p: PatientForm, s: SlotFields, usuario: string, agora: string, today: Moment)
      requires Valid()
      modifies this
      ensures Valid()
      ensures s.vaga == "Sim" ==>
                && atendidos == Append(old(atendidos), PatientRow(p, s, WaitingDays(AdminV53, p.contato, today).value, usuario, agora))
                && dados == old(dados)
      ensures s.vaga != "Sim" ==>
                && dados == Append(old(dados), PatientRow(p, s, WaitingDays(AdminV53, p.contato, today).value, usuario, agora))
                && atendidos == old(atendidos)
    {
      var dias := WaitingDays(AdminV53, p.contato, today).value;
      var novo := PatientRow(p, s, dias, usuario, agora);
      if s.vaga == "Sim" {
        AppendKeepsStandard(atendidos, novo);
        atendidos := Append(atendidos, novo);
      } else {
        AppendKeepsStandard(dados, novo);
        dados := Append(dados, novo);
      }
    }

    /** Lines 229-230: the "Dias de Espera" refresh of `dados`, which cannot
        fail once rows are stored by name; `atendidos` is not refreshed. */
    method RefreshDays(today: Moment)
      requires Valid()
      modifies this
      ensures Valid() && atendidos == old(atendidos)
      ensures WellFormed(old(dados)) && Some(dados) == Refreshed(AdminV53, old(dados), today)
    {
      RefreshKeepsStandard(AdminV53, dados, today);
      dados := Refreshed(AdminV53, dados, today).value;
    }

    /** The administrator's "Histórico de Registros": the waiting rows only,
        in the four history columns. */
    function History(): (h: Frame)
      reads this
      requires Valid()
      ensures h.columns == ColunasHistorico && |h.rows| == |dados.rows|
      ensures forall k, c | 0 <= k < |h.rows| && c in ColunasHistorico ::
                c in h.rows[k] && h.rows[k][c] == dados.rows[k][c]
    {
      StandardColumns(dados);
      Select(dados, ColunasHistorico).value
    }
  }
}
