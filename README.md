# Waitlist of a rehabilitation clinic, in Dafny

This project models the core of four successive Streamlit scripts that keep a
clinic's waiting list: `app.py`, `app_lista_espera_admin.py`,
`app_lista_espera_admin_v5.3.py` and `app_lista_de_espera_v6.1.py`. Each
script keeps pandas tables of patients in `st.session_state`. Each one counts
how many days a patient has waited (`calcular_dias_espera`) and colours that
count by urgency (`cor_tempo_espera`, `aplicar_estilo`). The last three also
keep a user registry with hashed passwords and two profiles.

Modules, one per file:

- `Wrappers` (`wrappers.dfy`): `Option`.
- `WaitTime` (`wait_time.dfy`): the day count and the colour tiers. Time is a
  day ordinal plus the second of the day. The four versions differ only in
  how they normalise a date before subtracting it from today, and `Version`
  says which version is meant. Today's moment is a parameter.
- `Tables` (`tables.dfy`): the data frames. A frame is a list of columns and
  a sequence of rows; a row maps columns to cells. The module holds the
  pandas operations the scripts use: the positional row constructor
  (`pd.DataFrame([vals], columns=cols)`), append, drop, stack, column
  selection, the "Dias de Espera" refresh and the per-cell style.
- `StandardTable` (`standard_table.dfy`): the fifteen columns of v6.1
  (`colunas_padrao`) and the new patient's row with every field under the
  column of its name. The earlier versions' rows are proved to be this row
  cut down to their columns.
- `WaitlistApp`, `WaitlistAdmin`, `WaitlistV53`, `WaitlistV61`: one `Store`
  class per script. Its fields are the tables the script keeps in the session,
  and its methods are the script's handlers (create the tables, add a patient,
  grant a slot, refresh the counts, show the history).
- `Users` (`users.dfy`): the registry, a class whose `usuarios` map the
  methods update. The three copies in the scripts are identical.

Python's `timedelta.days` is the floor of the difference in days, and that is
how `Elapsed` computes it. A pandas failure (a `KeyError`, a failed
`pd.to_datetime`, a `TypeError` from a subtraction) is an `Option` that is
`None`.

`app_lista_espera_admin_v5.3.py` does not parse as written. Line 94 starts at
column 0 inside `carregar_dados`, and line 95 is then an unexpected indent.
The model follows the evident intent of the lines it cites and leaves
`carregar_dados` of that version out (see below). In
`app_lista_de_espera_v6.1.py`, the loop at line 231 starts at column 0, so the
grant forms and everything after them in that block run once per waiting
row, and not at all when no patient is waiting. The model treats the grant and the history as separate operations.

## Model

| member | source | states |
|---|---|---|
| WaitTime.Elapsed | app_lista_de_espera_v6.1.py:38-39 | `(hoje - data_contato).days` is the whole number of days d with d·86400 ≤ elapsed seconds < (d+1)·86400, so it is a floor and negative for a future moment |
| WaitTime.ElapsedFromMidnight | app_lista_de_espera_v6.1.py:36-39 | counted from midnight of a day, the whole days elapsed are today's ordinal minus that day's, whatever today's time of day |
| WaitTime.ElapsedSign | app_lista_de_espera_v6.1.py:38-39 | the count is non-negative exactly when the contact is not in the future, and 0 exactly within the first 24 hours |
| WaitTime.Normalise | app_lista_de_espera_v6.1.py:33-37 | what each version subtracts: app.py fails exactly on a plain date; admin.py cuts every date-like value to midnight; v5.3 and v6.1 keep a Timestamp's time and cut a date or datetime to midnight; the calendar day is always kept |
| WaitTime.WaitingDays | app.py:8-10 | `calcular_dias_espera` fails only in app.py on a plain date; otherwise it is the floored day count from the normalised moment |
| WaitTime.PlainDateDays | app_lista_espera_admin.py:35-39 | for a date from the entry form, every version but app.py gives today's ordinal minus the contact's (0 today, negative in the future); app.py fails |
| WaitTime.TimestampDays | app_lista_espera_admin_v5.3.py:36-42 | a Timestamp keeps its time of day in app.py, v5.3 and v6.1 and is cut to midnight in admin.py |
| WaitTime.DateTimeDays | app_lista_espera_admin.py:35-39 | a datetime keeps its time only in app.py; later versions cut it to midnight |
| WaitTime.ToTimestamp | app_lista_de_espera_v6.1.py:223-224 | `pd.to_datetime` of a stored cell is a Timestamp on the same day, keeping the time of a datetime |
| WaitTime.StoredDays | app_lista_de_espera_v6.1.py:223-225 | the refresh's `calcular_dias_espera(pd.to_datetime(x))` succeeds in every version, app.py included |
| WaitTime.AddedDaysAreCurrent | app_lista_de_espera_v6.1.py:208 | the count stored when a patient is added with a plain date equals the count the refresh writes on the same day: today's ordinal minus the contact's |
| WaitTime.TierOf | app_lista_de_espera_v6.1.py:41-47 | the three tiers partition the integers: below 15, 15 to 29, 30 and above |
| WaitTime.TierMonotone | app_lista_de_espera_v6.1.py:41-47 | a longer wait is never in a less urgent tier |
| WaitTime.WaitColour | app_lista_de_espera_v6.1.py:41-47 | `cor_tempo_espera` returns the CSS of the count's tier, for every integer |
| WaitTime.ColourTellsTier | app_lista_de_espera_v6.1.py:41-47 | two counts get the same colour exactly when they are in the same tier |
| WaitTime.Boundaries | app.py:13-19 | 14 is green, 15 and 29 yellow, 30 red, and a negative count green |
| Tables.HeadersDistinct | app_lista_de_espera_v6.1.py:78-83 | the fifteen header strings are pairwise different, so a row keyed by column names the same cells as one keyed by header text |
| Tables.FormValues | app.py:58-60 | the nine values every version lists first, with name, contact date and day count at places 0, 2 and 3 |
| Tables.Zip | app.py:58-61 | `pd.DataFrame([vals], columns=cols)` gives a row with exactly one cell per listed column |
| Tables.ZipAt | app_lista_espera_admin_v5.3.py:214-218 | over distinct columns, value k lands under column k |
| Tables.Restrict | app_lista_espera_admin.py:195 | the cells of a row under a list of columns, unchanged |
| Tables.Append | app.py:62 | `pd.concat([df, novo], ignore_index=True)` keeps the columns and the old rows in order and adds the row last |
| Tables.AppendWellFormed | app_lista_de_espera_v6.1.py:215-218 | appending a row over the table's columns keeps every row fitting the columns |
| Tables.DropAt | app_lista_de_espera_v6.1.py:257 | `drop(index=i)` removes row i, keeps the others in order, and removes exactly that row from the multiset of rows |
| Tables.Stack | app_lista_de_espera_v6.1.py:278 | `pd.concat([dados, atendidos])` over the same columns lists the first table's rows, then the second's |
| Tables.StackWellFormed | app_lista_de_espera_v6.1.py:278 | stacking two well-formed tables over the same column set gives a well-formed table |
| Tables.Select | app_lista_de_espera_v6.1.py:279 | `df[cols]` succeeds exactly when every listed column exists, and then keeps every row with those cells unchanged |
| Tables.AppendKeepsDated | app_lista_espera_admin.py:173-178 | appending a fitting row with a contact date keeps every row dated |
| Tables.RefreshRow | app_lista_de_espera_v6.1.py:223-225 | the refresh of one row writes the stored-date count under "Dias de Espera" and changes no other cell |
| Tables.RefreshRows | app_lista_de_espera_v6.1.py:223-225 | on the cells the scripts write (dates, datetimes, Timestamps, or v5.3's misplaced shift text), the row-by-row refresh succeeds exactly when every contact cell is date-like, and then refreshes each row in place |
| Tables.Refreshed | app_lista_espera_admin.py:182-183 | on the cells the scripts write, the column assignment fails exactly when the contact column is missing or a contact cell is not date-like; otherwise it keeps the row count and the columns (adding "Dias de Espera" when absent) and refreshes each row |
| Tables.RefreshedColumns | app_lista_espera_admin.py:182 | assigning "Dias de Espera" adds it to the column set, and keeps the list when it is already there |
| Tables.RefreshFits | app_lista_espera_admin.py:182-183 | the refreshed rows fit the refreshed columns |
| Tables.RefreshKeepsDated | app.py:66 | on a dated table with both date columns the refresh cannot fail, keeps the columns and keeps the table dated |
| Tables.RefreshRowIdempotent | app_lista_de_espera_v6.1.py:223-225 | refreshing a refreshed row again on the same day changes nothing |
| Tables.RefreshIdempotent | app_lista_de_espera_v6.1.py:223-225 | refreshing twice on the same day gives the same table as refreshing once |
| Tables.RefreshAppend | app_lista_de_espera_v6.1.py:218-225 | adding a row and then refreshing gives the refreshed table with the refreshed row appended |
| Tables.ApplyStyle | app_lista_de_espera_v6.1.py:49-50 | one style per cell: an integer cell gets the CSS of its tier, every other cell none |
| StandardTable.Position | app_lista_de_espera_v6.1.py:78-83 | every column has a place in `colunas_padrao` |
| StandardTable.IsStandardColumn | app_lista_de_espera_v6.1.py:78-83 | every column is in `colunas_padrao` |
| StandardTable.StandardColumnsDistinct | app_lista_de_espera_v6.1.py:78-83 | `colunas_padrao` has fifteen columns, none listed twice |
| StandardTable.StandardColumnSet | app_lista_de_espera_v6.1.py:78-83 | `colunas_padrao` names every column |
| StandardTable.StandardColumns | app_lista_de_espera_v6.1.py:279 | a standard table is well formed and has every column, so the history selection cannot fail |
| StandardTable.StandardStack | app_lista_de_espera_v6.1.py:278 | the waiting and served tables stack into a well-formed table with every column |
| StandardTable.EmptyStandard | app_lista_de_espera_v6.1.py:91 | the empty table over `colunas_padrao` is standard |
| StandardTable.AppendKeepsStandard | app_lista_de_espera_v6.1.py:214-219 | appending a standard row keeps a table standard |
| StandardTable.DropKeepsStandard | app_lista_de_espera_v6.1.py:257 | dropping a row keeps a table standard |
| StandardTable.RefreshKeepsStandard | app_lista_de_espera_v6.1.py:223-225 | on a standard table the refresh cannot fail and the result is standard |
| StandardTable.PatientValues | app_lista_de_espera_v6.1.py:210-212 | the new patient's row lists fifteen values |
| StandardTable.PatientRow | app_lista_de_espera_v6.1.py:207-212 | the new patient's row has every column, a date under "Data 1º Contato", and the name, day count and "Vaga Concedida" answer under their own columns |
| StandardTable.PrefixZipAt | app_lista_de_espera_v6.1.py:210-212 | value k of a list labelled with the first n columns of `colunas_padrao` lands under column k |
| StandardTable.PatientValuesInOrder | app_lista_de_espera_v6.1.py:210-212 | the form lists each field at the place its column has in `colunas_padrao` |
| StandardTable.PrefixRowIsPatientRow | app_lista_espera_admin.py:173-177 | labelling the first n values with the first n standard columns gives the patient's row cut down to those columns |
| StandardTable.NewRowIsCurrent | app_lista_de_espera_v6.1.py:208-225 | a row added with a plain date is left unchanged by a refresh on the same day, in every version that can add it |
| StandardTable.PositionalRowIsPatientRow | app_lista_de_espera_v6.1.py:210-212 | v6.1's positional row over `colunas_padrao` is exactly the row with every field under the column of its name |
| WaitlistApp.AppRowByName | app.py:58-61 | app.py's positional row is the patient's row cut down to the nine columns |
| WaitlistApp.AppRowFits | app.py:58-61 | that row fits the nine columns and holds the contact date and the day count under their own columns |
| WaitlistApp.Store.constructor | app.py:26 | a new session has no table |
| WaitlistApp.Store.InitData | app.py:26-30 | an absent table becomes the empty nine-column table; an existing one is kept |
| WaitlistApp.Store.AddPatient | app.py:56-62 | as written, the add succeeds exactly when the contact is not a plain date, and then appends the row; on failure the table is unchanged |
| WaitlistApp.Store.AddPatientNormalised | app.py:56-62 | with the contact normalised as in admin.py, every patient is appended, with the day count of `WaitingDays(Admin, ...)` |
| WaitlistApp.Store.RefreshDays | app.py:66 | the refresh cannot fail on the table the script keeps, and its result is the new table |
| WaitlistAdmin.AdminValues | app_lista_espera_admin.py:173-176 | the eleven values of a new row |
| WaitlistAdmin.AdminRowByName | app_lista_espera_admin.py:173-177 | the positional row is the patient's row cut down to the eleven columns |
| WaitlistAdmin.AdminRowFits | app_lista_espera_admin.py:173-177 | that row fits the eleven columns and holds the contact date |
| WaitlistAdmin.Store.constructor | app_lista_espera_admin.py:144 | a new session has no table |
| WaitlistAdmin.Store.InitData | app_lista_espera_admin.py:144-149 | an absent table becomes the empty eleven-column table; an existing one is kept |
| WaitlistAdmin.Store.AddPatient | app_lista_espera_admin.py:170-178 | the new row, with the day count from the normalised contact date, is appended, and the table stays valid |
| WaitlistAdmin.Store.RefreshDays | app_lista_espera_admin.py:181-183 | the refresh cannot fail, and its result is the new table |
| WaitlistAdmin.Store.History | app_lista_espera_admin.py:193-196 | the history has the four columns and one row per patient, with that patient's cells |
| WaitlistV53.PlaceV53 | app_lista_espera_admin_v5.3.py:82-86 | every column has a place in the empty table's column list |
| WaitlistV53.ColunasV53Complete | app_lista_espera_admin_v5.3.py:82-86 | that list names every column, none twice |
| WaitlistV53.ZipAtV53 | app_lista_espera_admin_v5.3.py:214-218 | value k lands under column k of that list |
| WaitlistV53.PositionalRow | app_lista_espera_admin_v5.3.py:214-218 | as written, the new row has one cell per column |
| WaitlistV53.PositionalRowShifted | app_lista_espera_admin_v5.3.py:214-218 | as written, each field lands under the line-82 column at the place its own column has in `colunas_padrao` |
| WaitlistV53.PositionalRowMisplaced | app_lista_espera_admin_v5.3.py:214-218 | as written, the name is stored as "Vaga Concedida", the specialty as "Nome" and the preferred shift as "Data 1º Contato" |
| WaitlistV53.PositionalRowBreaksRefresh | app_lista_espera_admin_v5.3.py:223-230 | as written, once such a row waits in `dados` the refresh fails |
| WaitlistV53.EmptyV53Standard | app_lista_espera_admin_v5.3.py:82-99 | the empty tables of a new session are standard |
| WaitlistV53.Store.constructor | app_lista_espera_admin_v5.3.py:82-99 | a session without data files, with line 94 removed or moved after line 99, starts with two empty tables over the line-82 columns |
| WaitlistV53.Store.AddPatient | app_lista_espera_admin_v5.3.py:211-224 | storing fields by name, "Sim" appends the row to the served table only, and any other answer to the waiting table only |
| WaitlistV53.Store.RefreshDays | app_lista_espera_admin_v5.3.py:228-230 | the refresh of the waiting table cannot fail, and the served table is untouched |
| WaitlistV53.Store.History | app_lista_espera_admin_v5.3.py:245-248 | the history shows the waiting rows only, in four columns, with their cells |
| WaitlistV61.Granted | app_lista_de_espera_v6.1.py:248-254 | the served copy overwrites the six slot and audit fields and keeps every other field |
| WaitlistV61.Initialised | app_lista_de_espera_v6.1.py:85-98 | a table already in the session is kept; otherwise it is the file's contents or the empty standard table |
| WaitlistV61.InitialisedOnce | app_lista_de_espera_v6.1.py:86-93 | loading again, whatever the files hold then, changes nothing |
| WaitlistV61.Store.constructor | app_lista_de_espera_v6.1.py:86 | a new session has neither table |
| WaitlistV61.Store.LoadData | app_lista_de_espera_v6.1.py:85-98 | `carregar_dados` sets both tables as `Initialised` says, and both are present afterwards |
| WaitlistV61.Store.AddPatient | app_lista_de_espera_v6.1.py:207-219 | "Sim" appends the new row to `atendidos` only, any other answer to `dados` only; the total grows by one |
| WaitlistV61.Store.GrantSlot | app_lista_de_espera_v6.1.py:238-257 | offered only to a user holding the "editar_espera" permission; the row leaves `dados` and its granted copy is appended to `atendidos`; the total is unchanged and exactly that row leaves the multiset |
| WaitlistV61.Store.RefreshDays | app_lista_de_espera_v6.1.py:222-225 | the refresh of `dados` cannot fail on standard tables, and `atendidos` is untouched |
| WaitlistV61.Store.History | app_lista_de_espera_v6.1.py:276-279 | the history lists every waiting row, then every served row, in five columns, with their cells |
| Users.Registry.constructor | app_lista_de_espera_v6.1.py:11-21 | the session starts with "admin" (Administrador) and "user1" (Comum) and their hashed passwords |
| Users.Registry.Authenticate | app_lista_de_espera_v6.1.py:23-27 | an unknown user never authenticates; a known one does exactly when the stored hash is the hash of the password given |
| Users.Registry.ChangePassword | app_lista_de_espera_v6.1.py:52-53 | only this user's hash changes, and the new password then authenticates |
| Users.Registry.ChangeProfile | app_lista_de_espera_v6.1.py:55-56 | only this user's profile changes, and who authenticates with what is unchanged |
| Users.Registry.AddUser | app_lista_de_espera_v6.1.py:58-65 | a new name is inserted and the result is true; an existing name is never overwritten, and the result is false |
| Users.Registry.DeleteUser | app_lista_de_espera_v6.1.py:67-69 | a present user other than "admin" is removed and no longer authenticates; "admin" always stays |

## Left out

- Streamlit itself: the forms, widgets, reruns, messages and the login screen. The handlers are methods whose inputs are the form's values.
- Reading and writing the CSV and Excel files, and the download buttons. In v6.1, a file that exists is given to `LoadData` as its contents.
- WaitlistV61.Store.LoadData: assumes a loaded file is a standard table. It does not model `errors="coerce"` turning an unreadable date into NaT, or a file with missing or extra columns.
- `carregar_dados` of v5.3 (lines 78-99): it does not parse (line 94). Re-indenting line 94 would not repair it either. Line 94 reads `st.session_state.atendidos` before lines 96 and 99 create it, so every fresh session would raise an `AttributeError` there. When the waiting file exists, line 80 raises first, because it reads `dados` before assigning it. `WaitlistV53.Store.constructor` models the no-file branch with line 94 removed or moved after line 99: two empty tables over the line-82 columns.
- WaitlistV61.Store.GrantSlot: the permission set is a parameter, and the method requires that it holds "editar_espera", as the gate at line 238 does. The registry does not supply it: no account has a "permissoes" key, so as written line 238 raises an uncaught `KeyError` and the run ends at the first waiting row (with nobody logged in, it raises a `NameError` on `usuario_atual` instead).
- WaitlistV61.Store.History: lines 263-279 (the served table, the export and the history) are indented inside the loop that starts at line 231. They run only after the line-238 gate, which always raises, and never run when `dados` is empty. As written, the history is never shown. The model gives the view the intended code would show, with lines 263-279 at the logged-in level and the gate repaired.
- WaitlistV53.Store.AddPatient: stores fields by name, which is the evident intent. The row the code actually builds is `WaitlistV53.PositionalRow`.
- Users.Registry.Authenticate: SHA-256 is a function parameter `hash`. Its properties (no collisions) are not assumed, so a wrong password whose hash collides would authenticate in the model too.
- The profiles are the two values the profile widgets offer. The source stores any string it is given.
- The clock: `datetime.today()` and `datetime.now()` are parameters (`today`, `agora`). Times are whole seconds, so sub-second precision is not modelled.
- Tables.ApplyStyle: a cell is an integer or not, with no numpy dtypes. `Styler.applymap` hands the lambda each cell of a column cast to `object`, so a numpy `int64` count arrives as a Python `int` and `isinstance(x, int)` accepts it, as the model's `Int` case does.
- Tables.Stack: only tables over the same column set. `pd.concat` of differing column sets fills the gaps with NaN, and that is not modelled.
- Tables.DropAt: drops by position, not by index label. The label `i` names the row `dados.iterrows()` yields with it (v6.1 line 231), so line 257 drops exactly the row whose copy line 256 appended to `atendidos`; the model names that same row by its position. Every drop is followed by `st.experimental_rerun()` (line 260), so no second drop happens in the same run. The gap a drop leaves in the labels persists in `st.session_state` across runs until the next `pd.concat(..., ignore_index=True)` (line 218) renumbers the rows; the model does not keep labels, so it does not show that gap.
- Tables.RefreshRows: counts every contact cell that is not a date, datetime or Timestamp as a failure. `pd.to_datetime` also parses an integer (as nanoseconds since 1970) and a date written as text. No flow the model covers writes either under "Data 1º Contato": v6.1 coerces loaded dates (line 89), and the only text that lands there is v5.3's misplaced shift name, which `pd.to_datetime` rejects.
- Tables.Refreshed: the same restriction as `Tables.RefreshRows` on integer and date-text contact cells.
- NaN, NaT and pandas dtypes: a cell is text, an integer, a date-like value or missing.

## Findings

| source | as written | input that shows it | evidently intended | confidence | as-written member | corrected member |
|---|---|---|---|---|---|---|
| app.py:57 | `calcular_dias_espera(data_contato)` subtracts the `datetime.date` from `st.date_input` from `datetime.today()` with no normalisation, which raises a `TypeError` | any submitted form: the date input always returns a plain date, so no patient is ever added | combine the date with midnight first, as app_lista_espera_admin.py does, and add the patient | not executed | WaitlistApp.Store.AddPatient | WaitlistApp.Store.AddPatientNormalised |
| app_lista_espera_admin_v5.3.py:214-218 | the values are listed in the form's order but labelled with `dados.columns`, which line 82 orders starting with the slot fields | once line 94 is removed or moved after line 99 (as written the file does not parse, and re-indenting line 94 would raise an `AttributeError` on the not-yet-created `atendidos`): a session without data files and a patient not granted a slot on entry. The name is stored under "Vaga Concedida" and the preferred shift under "Data 1º Contato"; the row goes to `dados` (lines 222-223), and the next refresh of `dados` (line 229) raises on that text. A patient granted on entry goes to `atendidos`, which line 229 does not refresh | each value under the column of its name, as v6.1 does with `colunas_padrao` | not executed | WaitlistV53.PositionalRowMisplaced | WaitlistV53.Store.AddPatient |
