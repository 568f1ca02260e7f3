/** The pandas DataFrames the scripts keep, reduced to what their logic uses:
    a list of column names and a sequence of rows, each row a map from column
    name to cell. Row i is the i-th position, not a pandas index label. */
module Tables {
  import opened Wrappers
  import opened WaitTime

  /** A cell: text, an integer day count, a date-like value, or nothing. */
  datatype Value = Text(s: string) | Int(n: int) | When(t: Instant) | Missing

  /** The column headers the four versions use, each with its text. */
  datatype Column =
    | Nome | Carteirinha | DataContato | DiasEspera | Especialidade | Telefone
    | HorarioPreferencial | PreferenciaProfissional | ProfissionalIndicado
    | RegistradoPor | DataRegistro | VagaConcedida | ProfissionalResponsavel
    | HorarioAtendimento | DataInicio
  {
    function Header(): string {
      match this
      case Nome => "Nome"
      case Carteirinha => "Nº Carteirinha"
      case DataContato => "Data 1º Contato"
      case DiasEspera => "Dias de Espera"
      case Especialidade => "Especialidade"
      case Telefone => "Telefone"
      case HorarioPreferencial => "Horário Preferencial"
      case PreferenciaProfissional => "Preferência Profissional"
      case ProfissionalIndicado => "Profissional Indicado"
      case RegistradoPor => "Registrado Por"
      case DataRegistro => "Data Registro"
      case VagaConcedida => "Vaga Concedida"
      case ProfissionalResponsavel => "Profissional Responsável"
      case HorarioAtendimento => "Horário Atendimento"
      case DataInicio => "Data de Início"
    }
  }

  /** No two columns share a header, so keying a row by `Column` names the
      same cells as keying it by the header text, as pandas does. */
  lemma HeadersDistinct(a: Column, b: Column)
    ensures a.Header() == b.Header() <==> a == b
  {
  }

  type Row = map<Column, Value>

  datatype Frame = Frame(columns: seq<Column>, rows: seq<Row>)

  predicate Distinct(cols: seq<Column>) {
    forall i, j | 0 <= i < j < |cols| :: cols[i] != cols[j]
  }

  /** The set of columns a list names. */
  function ColumnSet(cols: seq<Column>): set<Column> {
    set c | c in cols
  }

  /** A row has exactly one cell per column. */
  predicate Fits(r: Row, cols: seq<Column>) {
    r.Keys == ColumnSet(cols)
  }

  ghost predicate WellFormed(f: Frame) {
    forall i | 0 <= i < |f.rows| :: Fits(f.rows[i], f.columns)
  }

  /** The fields the entry form collects in every version. */
  datatype PatientForm = PatientForm(
    nome: string, carteirinha: string, contato: Instant, especialidade: string,
    telefone: string, horario: string, preferencia: string, profIndicado: string)

  /** The first nine values of a new row, in the order every version lists
      them: name, card number, contact date, day count, specialty, phone,
      preferred shift, professional preference, preferred professional. */
  function FormValues(p: PatientForm, dias: int): (vals: seq<Value>)
    ensures |vals| == 9
    ensures vals[0] == Text(p.nome) && vals[2] == When(p.contato) && vals[3] == Int(dias)
  {
    [Text(p.nome), Text(p.carteirinha), When(p.contato), Int(dias), Text(p.especialidade),
     Text(p.telefone), Text(p.horario), Text(p.preferencia), Text(p.profIndicado)]
  }

  /** The row of `pd.DataFrame([vals], columns=cols)`, one cell per column. */
  function Zip(cols: seq<Column>, vals: seq<Value>): (r: Row)
    requires |cols| == |vals|
    ensures Fits(r, cols)
    decreases |cols|
  {
    if cols == [] then map[] else Zip(cols[1..], vals[1..])[cols[0] := vals[0]]
  }

  /** Value k is placed under column k. */
  lemma {:induction false} ZipAt(cols: seq<Column>, vals: seq<Value>, k: nat)
    requires |cols| == |vals| && Distinct(cols) && k < |cols|
    ensures Zip(cols, vals)[cols[k]] == vals[k]
    decreases |cols|
  {
    if k > 0 {
      ZipAt(cols[1..], vals[1..], k - 1);
      assert cols[k] != cols[0];
    }
  }

  /** Two rows with the same columns and the same cells are the same row. */
  lemma SameRow(a: Row, b: Row)
    requires a.Keys == b.Keys && forall c | c in a :: a[c] == b[c]
    ensures a == b
  {
  }

  /** The cells of r under the columns of cols. */
  function Restrict(r: Row, cols: seq<Column>): (r': Row)
    requires ColumnSet(cols) <= r.Keys
    ensures Fits(r', cols) && forall c | c in r' :: r'[c] == r[c]
  {
    map c | c in ColumnSet(cols) :: r[c]
  }

  /** Stated over arbitrary sequences so that callers whose columns are a
      long literal list need not unfold it to drop a whole-length slice. */
  lemma ZipWhole(cols: seq<Column>, vals: seq<Value>)
    requires |cols| == |vals|
    ensures Zip(cols[..|cols|], vals[..|vals|]) == Zip(cols, vals)
  {
    assert cols[..|cols|] == cols && vals[..|vals|] == vals;
  }

  lemma RestrictWhole(r: Row, cols: seq<Column>)
    requires Fits(r, cols)
    ensures Restrict(r, cols) == r
  {
    SameRow(Restrict(r, cols), r);
  }

  /** `pd.concat([f, row], ignore_index=True)`. */
  function Append(f: Frame, r: Row): (g: Frame)
    ensures g.columns == f.columns && |g.rows| == |f.rows| + 1
    ensures g.rows[..|f.rows|] == f.rows && g.rows[|f.rows|] == r
  {
    Frame(f.columns, f.rows + [r])
  }

  /** Appending a row over f's columns keeps f well formed. */
  lemma AppendWellFormed(f: Frame, r: Row)
    requires WellFormed(f) && Fits(r, f.columns)
    ensures WellFormed(Append(f, r))
  {
    var g := Append(f, r);
    forall i | 0 <= i < |g.rows| ensures Fits(g.rows[i], g.columns) {
      if i < |f.rows| { assert g.rows[i] == f.rows[i]; }
    }
  }

  /** `f.drop(index=i)`: row i leaves, the others keep their order. */
  function DropAt(f: Frame, i: nat): (g: Frame)
    requires i < |f.rows|
    ensures g.columns == f.columns && |g.rows| == |f.rows| - 1
    ensures forall k | 0 <= k < i :: g.rows[k] == f.rows[k]
    ensures forall k | i <= k < |g.rows| :: g.rows[k] == f.rows[k + 1]
    ensures multiset(g.rows) + multiset{f.rows[i]} == multiset(f.rows)
  {
    assert f.rows == f.rows[..i] + [f.rows[i]] + f.rows[i + 1..];
    Frame(f.columns, f.rows[..i] + f.rows[i + 1..])
  }

  /** The two frames have the same column set (possibly in another order). */
  ghost predicate SameColumns(f: Frame, g: Frame) {
    forall c :: c in f.columns <==> c in g.columns
  }

  /** `pd.concat([f, g])` of two frames over the same column set. */
  function Stack(f: Frame, g: Frame): (h: Frame)
    requires SameColumns(f, g)
    ensures h.columns == f.columns && h.rows == f.rows + g.rows
  {
    Frame(f.columns, f.rows + g.rows)
  }

  /** Stacking two well-formed frames over the same columns gives a
      well-formed frame. */
  lemma StackWellFormed(f: Frame, g: Frame)
    requires WellFormed(f) && WellFormed(g) && SameColumns(f, g)
    ensures WellFormed(Stack(f, g))
  {
    var h := Stack(f, g);
    assert ColumnSet(f.columns) == ColumnSet(g.columns);
    forall k | 0 <= k < |h.rows| ensures Fits(h.rows[k], h.columns) {
      if k < |f.rows| { assert h.rows[k] == f.rows[k]; } else { assert h.rows[k] == g.rows[k - |f.rows|]; }
    }
  }

  /** `f[cols]`: the listed columns of every row, or None (a KeyError) when
      one of them is not a column of f. */
  function Select(f: Frame, cols: seq<Column>): (g: Option<Frame>)
    requires WellFormed(f)
    ensures g.Some? <==> forall c | c in cols :: c in f.columns
    ensures g.Some? ==> g.value.columns == cols && |g.value.rows| == |f.rows|
    ensures g.Some? ==> forall i | 0 <= i < |f.rows| ::
              Fits(g.value.rows[i], cols) && forall c | c in cols :: g.value.rows[i][c] == f.rows[i][c]
  {
    if forall c | c in cols :: c in f.columns then
      Some(Frame(cols, seq(|f.rows|, i requires 0 <= i < |f.rows| => map c | c in cols :: f.rows[i][c])))
    else
      None
  }

  /** The row holds a date-like first-contact cell. */
  predicate HasDate(r: Row) {
    DataContato in r && r[DataContato].When?
  }

  /** A well-formed table whose every row holds a date-like contact cell,
      as every version's entry form writes them. */
  ghost predicate Dated(f: Frame) {
    WellFormed(f) && forall i | 0 <= i < |f.rows| :: HasDate(f.rows[i])
  }

  /** Appending a fitting row with a contact date keeps a table dated. */
  lemma AppendKeepsDated(f: Frame, r: Row)
    requires Dated(f) && Fits(r, f.columns) && HasDate(r)
    ensures Dated(Append(f, r))
  {
    AppendWellFormed(f, r);
    var g := Append(f, r);
    forall i | 0 <= i < |g.rows| ensures HasDate(g.rows[i]) {
      if i < |f.rows| { assert g.rows[i] == f.rows[i]; }
    }
  }

  /** One row after the "Dias de Espera" refresh. */
  function RefreshRow(v: Version, r: Row, today: Moment): (r': Row)
    requires HasDate(r)
    ensures r'.Keys == r.Keys + {DiasEspera}
    ensures r'[DiasEspera] == Int(StoredDays(v, r[DataContato].t, today))
    ensures forall c | c in r && c != DiasEspera :: r'[c] == r[c]
  {
    r[DiasEspera := Int(StoredDays(v, r[DataContato].t, today))]
  }

  /** The refresh row by row; None as soon as one row's contact cell is not a
      date (pd.to_datetime raises on text, and `calcular_dias_espera(None)` on
      a missing cell is a TypeError). */
  function RefreshRows(v: Version, rows: seq<Row>, today: Moment): (r: Option<seq<Row>>)
    ensures r.Some? <==> forall i | 0 <= i < |rows| :: HasDate(rows[i])
    ensures r.Some? ==> |r.value| == |rows| && forall i | 0 <= i < |rows| :: r.value[i] == RefreshRow(v, rows[i], today)
    decreases |rows|
  {
    if rows == [] then Some([])
    else if !HasDate(rows[0]) then None
    else
      match RefreshRows(v, rows[1..], today)
      case None => None
      case Some(rest) => Some([RefreshRow(v, rows[0], today)] + rest)
  }

  /** `f["Dias de Espera"] = f["Data 1º Contato"].apply(lambda x:
      calcular_dias_espera(pd.to_datetime(x)))`: None (a KeyError or a failed
      conversion) unless the contact column exists and every cell is a date;
      otherwise only "Dias de Espera" changes, in every row. */
  function Refreshed(v: Version, f: Frame, today: Moment): (g: Option<Frame>)
    requires WellFormed(f)
    ensures g.Some? <==> DataContato in f.columns && forall i | 0 <= i < |f.rows| :: f.rows[i][DataContato].When?
    ensures g.Some? ==> WellFormed(g.value) && |g.value.rows| == |f.rows| && DiasEspera in g.value.columns
    ensures g.Some? ==> g.value.columns == RefreshedColumns(f)
    ensures g.Some? && DiasEspera in f.columns ==> g.value.columns == f.columns
    ensures g.Some? ==> forall i | 0 <= i < |f.rows| :: HasDate(f.rows[i]) && g.value.rows[i] == RefreshRow(v, f.rows[i], today)
  {
    if DataContato !in f.columns then None
    else
      match RefreshRows(v, f.rows, today)
      case None => None
      case Some(rows) =>
        RefreshFits(v, f, today);
        Some(Frame(RefreshedColumns(f), rows))
  }

  /** The assignment adds "Dias de Espera" at the end when it is missing. */
  function RefreshedColumns(f: Frame): (cols: seq<Column>)
    ensures ColumnSet(cols) == ColumnSet(f.columns) + {DiasEspera}
    ensures DiasEspera in f.columns ==> cols == f.columns
  {
    if DiasEspera in f.columns then f.columns else f.columns + [DiasEspera]
  }

  /** The refreshed rows fit the refreshed columns. */
  lemma RefreshFits(v: Version, f: Frame, today: Moment)
    requires WellFormed(f) && RefreshRows(v, f.rows, today).Some?
    ensures WellFormed(Frame(RefreshedColumns(f), RefreshRows(v, f.rows, today).value))
  {
    var rows := RefreshRows(v, f.rows, today).value;
    forall i | 0 <= i < |rows| ensures Fits(rows[i], RefreshedColumns(f)) {
      assert rows[i] == RefreshRow(v, f.rows[i], today);
    }
  }

  /** On a dated table that has both date columns the refresh cannot fail,
      keeps the columns and keeps the table dated. */
  lemma RefreshKeepsDated(v: Version, f: Frame, today: Moment)
    requires Dated(f) && DataContato in f.columns && DiasEspera in f.columns
    ensures Refreshed(v, f, today).Some?
    ensures Refreshed(v, f, today).value.columns == f.columns && Dated(Refreshed(v, f, today).value)
  {
    var g := Refreshed(v, f, today).value;
    forall i | 0 <= i < |g.rows| ensures HasDate(g.rows[i]) {
      assert g.rows[i] == RefreshRow(v, f.rows[i], today);
    }
  }

  /** Refreshing a refreshed row on the same day changes nothing. */
  lemma RefreshRowIdempotent(v: Version, r: Row, today: Moment)
    requires HasDate(r)
    ensures HasDate(RefreshRow(v, r, today)) && RefreshRow(v, RefreshRow(v, r, today), today) == RefreshRow(v, r, today)
  {
    var r' := RefreshRow(v, r, today);
    SameRow(RefreshRow(v, r', today), r');
  }

  /** Refreshing twice on the same day is refreshing once. */
  lemma {:induction false} RefreshIdempotent(v: Version, f: Frame, today: Moment)
    requires WellFormed(f) && Refreshed(v, f, today).Some?
    ensures Refreshed(v, Refreshed(v, f, today).value, today) == Refreshed(v, f, today)
  {
    var g := Refreshed(v, f, today).value;
    assert DataContato in g.columns by {
      assert DataContato in ColumnSet(f.columns);
    }
    forall i | 0 <= i < |g.rows| ensures g.rows[i][DataContato].When? && RefreshRow(v, g.rows[i], today) == g.rows[i] {
      RefreshRowIdempotent(v, f.rows[i], today);
    }
    var h := Refreshed(v, g, today).value;
    assert h.rows == g.rows;
  }

  /** The refresh works row by row: refreshing after an append is appending
      the refreshed row. */
  lemma {:induction false} RefreshAppend(v: Version, f: Frame, r: Row, today: Moment)
    requires WellFormed(f) && Fits(r, f.columns) && DiasEspera in f.columns
    requires Refreshed(v, f, today).Some? && HasDate(r)
    ensures WellFormed(Append(f, r)) && Refreshed(v, Append(f, r), today).Some?
    ensures Refreshed(v, Append(f, r), today).value == Append(Refreshed(v, f, today).value, RefreshRow(v, r, today))
  {
    AppendWellFormed(f, r);
    var g := Append(f, r);
    forall i | 0 <= i < |g.rows| ensures g.rows[i][DataContato].When? {
      if i < |f.rows| { assert g.rows[i] == f.rows[i]; }
    }
    var lhs := Refreshed(v, g, today).value;
    var rhs := Append(Refreshed(v, f, today).value, RefreshRow(v, r, today));
    assert lhs.columns == rhs.columns;
    forall i | 0 <= i < |lhs.rows| ensures lhs.rows[i] == rhs.rows[i] {
      if i < |f.rows| { assert g.rows[i] == f.rows[i]; }
    }
  }

  /** The style of one cell under `aplicar_estilo`: integers take their tier
      colour, every other cell none. */
  function StyleCell(x: Value): string {
    if x.Int? then WaitColour(x.n) else ""
  }

  /** `df.style.applymap(...)` in `aplicar_estilo`: one style per cell. */
  function ApplyStyle(f: Frame): (s: seq<map<Column, string>>)
    ensures |s| == |f.rows|
    ensures forall i | 0 <= i < |s| :: s[i].Keys == f.rows[i].Keys
    ensures forall i, c | 0 <= i < |s| && c in f.rows[i] ::
              s[i][c] == (if f.rows[i][c].Int? then Css(TierOf(f.rows[i][c].n)) else "")
  {
    seq(|f.rows|, i requires 0 <= i < |f.rows| => map c | c in f.rows[i] :: StyleCell(f.rows[i][c]))
  }
}
