/** The fifteen-column table of app_lista_de_espera_v6.1.py, `colunas_padrao`,
    and the shape its rows keep. */
module StandardTable {
  import opened WaitTime
  import opened Tables

  /** `colunas_padrao`. */
  const ColunasPadrao: seq<Column> := [
    Nome, Carteirinha, DataContato, DiasEspera, Especialidade,
    Telefone, HorarioPreferencial, PreferenciaProfissional, ProfissionalIndicado,
    RegistradoPor, DataRegistro, VagaConcedida, ProfissionalResponsavel,
    HorarioAtendimento, DataInicio
  ]

  /** The set of all columns; each appears in `colunas_padrao`, once. */
  const TodasColunas: set<Column> := set c: Column | true

  /** The place of each column in `colunas_padrao`. */
  function Position(c: Column): (k: nat)
    ensures k < |ColunasPadrao| && ColunasPadrao[k] == c
  {
    match c
    case Nome => 0 case Carteirinha => 1 case DataContato => 2 case DiasEspera => 3
    case Especialidade => 4 case Telefone => 5 case HorarioPreferencial => 6
    case PreferenciaProfissional => 7 case ProfissionalIndicado => 8 case RegistradoPor => 9
    case DataRegistro => 10 case VagaConcedida => 11 case ProfissionalResponsavel => 12
    case HorarioAtendimento => 13 case DataInicio => 14
  }

  /** Every column is a standard one. */
  lemma IsStandardColumn(c: Column)
    ensures c in ColunasPadrao && c in TodasColunas
  {
    assert ColunasPadrao[Position(c)] == c;
  }

  lemma PositionOf(k: nat)
    requires k < |ColunasPadrao|
    ensures Position(ColunasPadrao[k]) == k
  {
  }

  /** No column is listed twice. */
  lemma StandardColumnsDistinct()
    ensures Distinct(ColunasPadrao) && |ColunasPadrao| == 15
  {
    forall i, j | 0 <= i < j < |ColunasPadrao| ensures ColunasPadrao[i] != ColunasPadrao[j] {
      PositionOf(i);
      PositionOf(j);
    }
  }

  lemma StandardColumnSet()
    ensures ColumnSet(ColunasPadrao) == TodasColunas
  {
    forall c ensures c in ColumnSet(ColunasPadrao) && c in TodasColunas {
      IsStandardColumn(c);
    }
  }

  /** A row of the standard table: one cell per column, and a date-like
      first-contact cell, as the script writes them and reads them back. */
  predicate StandardRow(r: Row) {
    r.Keys == TodasColunas && r[DataContato].When?
  }

  /** A table over the fifteen columns, in any order, whose rows are
      standard. */
  ghost predicate Standard(f: Frame) {
    ColumnSet(f.columns) == TodasColunas && forall i | 0 <= i < |f.rows| :: StandardRow(f.rows[i])
  }

  /** A standard table has every column. */
  lemma StandardColumns(f: Frame)
    requires Standard(f)
    ensures WellFormed(f) && forall c :: c in f.columns
  {
    forall c ensures c in f.columns {
      assert c in ColumnSet(f.columns);
    }
  }

  /** Two standard tables stack into a well-formed table that has every
      column. */
  lemma StandardStack(f: Frame, g: Frame)
    requires Standard(f) && Standard(g)
    ensures SameColumns(f, g) && WellFormed(Stack(f, g)) && forall c :: c in Stack(f, g).columns
  {
    StandardColumns(f);
    StandardColumns(g);
    StackWellFormed(f, g);
  }

  /** The empty table over `colunas_padrao`. */
  lemma EmptyStandard()
    ensures Standard(Frame(ColunasPadrao, []))
  {
    StandardColumnSet();
  }

  /** Appending a standard row keeps a table standard. */
  lemma AppendKeepsStandard(f: Frame, r: Row)
    requires Standard(f) && StandardRow(r)
    ensures Standard(Append(f, r))
  {
    var g := Append(f, r);
    forall i | 0 <= i < |g.rows| ensures StandardRow(g.rows[i]) {
      if i < |f.rows| { assert g.rows[i] == f.rows[i]; }
    }
  }

  /** Dropping a row keeps a table standard. */
  lemma DropKeepsStandard(f: Frame, i: nat)
    requires Standard(f) && i < |f.rows|
    ensures Standard(DropAt(f, i))
  {
    var g := DropAt(f, i);
    forall k | 0 <= k < |g.rows| ensures StandardRow(g.rows[k]) {
      if k < i { assert g.rows[k] == f.rows[k]; } else { assert g.rows[k] == f.rows[k + 1]; }
    }
  }

  /** The refresh cannot fail on a standard table and keeps it standard. */
  lemma RefreshKeepsStandard(v: Version, f: Frame, today: Moment)
    requires Standard(f)
    ensures WellFormed(f) && Refreshed(v, f, today).Some? && Standard(Refreshed(v, f, today).value)
  {
    IsStandardColumn(DiasEspera);
    IsStandardColumn(DataContato);
    var g := Refreshed(v, f, today).value;
    forall k | 0 <= k < |g.rows| ensures StandardRow(g.rows[k]) {
      assert g.rows[k] == RefreshRow(v, f.rows[k], today);
    }
  }

  /** The slot fields of the entry form; "Data de Início" is a date when the
      slot is granted and "" otherwise. */
  datatype SlotFields = SlotFields(vaga: string, profResp: string, horarioAtend: string, dataInicio: Value)

  /** The fifteen values of a new patient's row in the order the form lists
      them, which is the order of `colunas_padrao`. */
  function PatientValues(p: PatientForm, s: SlotFields, dias: int, usuario: string, agora: string): (vals: seq<Value>)
    ensures |vals| == 15
  {
    [Text(p.nome), Text(p.carteirinha), When(p.contato), Int(dias),
     Text(p.especialidade), Text(p.telefone), Text(p.horario), Text(p.preferencia), Text(p.profIndicado),
     Text(usuario), Text(agora), Text(s.vaga), Text(s.profResp), Text(s.horarioAtend), s.dataInicio]
  }

  /** The value the entry form gives the new patient under column c. */
  function PatientField(p: PatientForm, s: SlotFields, dias: int, usuario: string, agora: string, c: Column): Value {
    match c
    case Nome => Text(p.nome)
    case Carteirinha => Text(p.carteirinha)
    case DataContato => When(p.contato)
    case DiasEspera => Int(dias)
    case Especialidade => Text(p.especialidade)
    case Telefone => Text(p.telefone)
    case HorarioPreferencial => Text(p.horario)
    case PreferenciaProfissional => Text(p.preferencia)
    case ProfissionalIndicado => Text(p.profIndicado)
    case RegistradoPor => Text(usuario)
    case DataRegistro => Text(agora)
    case VagaConcedida => Text(s.vaga)
    case ProfissionalResponsavel => Text(s.profResp)
    case HorarioAtendimento => Text(s.horarioAtend)
    case DataInicio => s.dataInicio
  }

  /** The new patient's row, every field under the column of its name. */
  function PatientRow(p: PatientForm, s: SlotFields, dias: int, usuario: string, agora: string): (r: Row)
    ensures StandardRow(r) && r[DataContato] == When(p.contato) && r[VagaConcedida] == Text(s.vaga)
    ensures r[Nome] == Text(p.nome) && r[DiasEspera] == Int(dias)
  {
    map c: Column | true :: PatientField(p, s, dias, usuario, agora, c)
  }

  /** Value k of a list of n values lands under column k of the first n
      columns of `colunas_padrao`. */
  lemma PrefixZipAt(n: nat, vals: seq<Value>, k: nat)
    requires n <= |ColunasPadrao| && |vals| == n && k < n
    ensures Zip(ColunasPadrao[..n], vals)[ColunasPadrao[k]] == vals[k]
  {
    StandardColumnsDistinct();
    assert Distinct(ColunasPadrao[..n]);
    ZipAt(ColunasPadrao[..n], vals, k);
  }

  /** The value list names each field at the place its column has in
      `colunas_padrao`. */
  lemma PatientValuesInOrder(p: PatientForm, s: SlotFields, dias: int, usuario: string, agora: string, c: Column)
    ensures PatientValues(p, s, dias, usuario, agora)[Position(c)] == PatientField(p, s, dias, usuario, agora, c)
  {
    match c
    case Nome => case Carteirinha => case DataContato => case DiasEspera =>
    case Especialidade => case Telefone => case HorarioPreferencial =>
    case PreferenciaProfissional => case ProfissionalIndicado => case RegistradoPor =>
    case DataRegistro => case VagaConcedida => case ProfissionalResponsavel =>
    case HorarioAtendimento => case DataInicio =>
  }

  /** The first n of the form's values labelled with the first n columns of
      `colunas_padrao` are the new patient's row cut down to those columns:
      every field lands under the column of its name. */
  lemma PrefixRowIsPatientRow(n: nat, p: PatientForm, s: SlotFields, dias: int, usuario: string, agora: string)
    requires n <= |ColunasPadrao|
    ensures Zip(ColunasPadrao[..n], PatientValues(p, s, dias, usuario, agora)[..n])
            == Restrict(PatientRow(p, s, dias, usuario, agora), ColunasPadrao[..n])
  {
    var cols := ColunasPadrao[..n];
    var vals := PatientValues(p, s, dias, usuario, agora)[..n];
    var r := Restrict(PatientRow(p, s, dias, usuario, agora), cols);
    var z := Zip(cols, vals);
    forall c | c in r ensures z[c] == r[c] {
      var j :| 0 <= j < n && cols[j] == c;
      PositionOf(j);
      PrefixZipAt(n, vals, j);
      PatientValuesInOrder(p, s, dias, usuario, agora, c);
    }
    SameRow(z, r);
  }

  /** A row added with a plain contact date already holds the count the
      refresh writes, in every version that can add it: refreshing it changes
      nothing. */
  lemma NewRowIsCurrent(v: Version, p: PatientForm, s: SlotFields, usuario: string, agora: string, today: Moment)
    requires v != App && p.contato.Date?
    ensures RefreshRow(v, PatientRow(p, s, WaitingDays(v, p.contato, today).value, usuario, agora), today)
            == PatientRow(p, s, WaitingDays(v, p.contato, today).value, usuario, agora)
  {
    AddedDaysAreCurrent(v, p.contato.day, today);
    var r := PatientRow(p, s, WaitingDays(v, p.contato, today).value, usuario, agora);
    SameRow(RefreshRow(v, r, today), r);
  }

  /** Labelling all fifteen values with `colunas_padrao` gives the new
      patient's row itself. */
  lemma PositionalRowIsPatientRow(p: PatientForm, s: SlotFields, dias: int, usuario: string, agora: string)
    ensures Zip(ColunasPadrao, PatientValues(p, s, dias, usuario, agora)) == PatientRow(p, s, dias, usuario, agora)
  {
    var vals := PatientValues(p, s, dias, usuario, agora);
    var r := PatientRow(p, s, dias, usuario, agora);
    PrefixRowIsPatientRow(|ColunasPadrao|, p, s, dias, usuario, agora);
    ZipWhole(ColunasPadrao, vals);
    StandardColumnSet();
    RestrictWhole(r, ColunasPadrao);
  }
}