# Portal Multiplataforma — a Dafny model

This project models the parts of the *Portal Multiplataforma* demo dashboard that carry logic:

- the **credential store** (`GerenciadorUsuarios`): an in-memory table of `Usuario` records. On first run it is bootstrapped with a default administrator. Registration refuses a duplicate email. Login finds the first record whose email and password hash both match and stamps its last access.
- the **session state machine** of the portal shell: four session flags (`autenticado`, `pagina`, `usuario_logado`, `plataforma_atual`), the button handlers that change them, the routing from the flags to one of four screens, the card grid of the six platforms and the lookup of the selected platform.
- three business rules from the module screens:
  - the three-band low-stock highlight, the category filter and the low-stock alert (stock);
  - the half-hour slot list, the required-field check and the status colours (scheduling);
  - the sale total and the instalment rule (sales).

Files:
- `wrappers.dfy`: `Option`.
- `texto.dfy`: decimal digits in strings.
- `auth.dfy`: module `Auth`, the store as the class `GerenciadorUsuarios`.
- `portal.dfy`: module `Portal`, the session as the class `Sessao`.
- `estoque.dfy`, `agendamento.dfy`, `vendas.dfy`: the module rules.

The store and the session are classes whose methods update their fields in place. Each method's postcondition gives the complete new state in terms of the old one. `GerenciadorUsuarios.Valid()` says the store is never empty. `Sessao.Valid()` says the flags move together:
- a user is logged in exactly when the session is authenticated;
- an anonymous session is on the login or registration page;
- a platform is selected exactly on the platform page, and it is always a catalogue entry.

Functions specify the scans and filters, and lemmas state the properties that relate several operations.

The store's environment is passed in:
- the password hash is a function `string -> string` fixed at construction, and nothing is assumed about it (in particular not injectivity);
- the clock is an `Instante` argument carrying both renderings the source formats;
- the backing file's contents at load time are a constructor argument (`None` when the file does not exist);
- every full rewrite of the file is recorded as a snapshot in the ghost history `gravacoes`.

Widget values are method parameters. A handler may be called only while the screen that holds its button is the one routed to.

The model follows the code on these points:
- roles are the strings `"admin"` and `"usuario"`;
- the store itself does not check that email and password are present (the login form does);
- emails are compared exactly and case-sensitively;
- a successful login leaves `pagina` unchanged, and the routing then shows the dashboard because `autenticado` is set.

## Model

| member | source | states |
|---|---|---|
| `Auth.NovoRegistro` | auth.py:64-73 | a new record carries the given name, type, email and password hash (so it matches those credentials), an id `USR` followed by the compact timestamp, the creation time, and no last access |
| `Auth.AdminPadrao` | auth.py:39-48 | the default administrator has type `admin`, matches `admin@sistema.com` with the hash of `admin123`, and has never logged in |
| `Auth.BuscaCredencial` | auth.py:54-55 | the login scan: the first index whose email and hash both match, and no earlier index matches; absent exactly when no record matches |
| `Auth.EmailCadastrado` | auth.py:62 | true exactly when some record has this email (exact equality) |
| `Auth.AcrescentarPreservaUnicidade` | auth.py:62-74 | appending a record whose email is not registered keeps emails pairwise distinct |
| `Auth.AcrescentarDuplicadoQuebraUnicidade` | auth.py:62-63 | appending a record whose email is registered breaks uniqueness, so uniqueness rests on the check |
| `Auth.BuscaUnicaPorEmail` | auth.py:54-58 | with unique emails the record found by login is the only one carrying that email |
| `Auth.CadastroPermiteLogin` | auth.py:52-76 | after registering a fresh email, logging in with that email and password finds the new record |
| `Auth.AdminPadraoAutentica` | auth.py:39-50 | the bootstrapped administrator logs in with `admin@sistema.com` / `admin123` |
| `Auth.EmailSensivelAMaiusculas` | auth.py:52-63 | an example of exact, case-sensitive matching: on the bootstrapped table, `Admin@sistema.com` is neither registered nor able to log in (the general rule is stated by `EmailCadastrado` and `BuscaCredencial`) |
| `Auth.GerenciadorUsuarios.constructor` | auth.py:19-32 | loads the file's records; on an absent or empty file the table becomes exactly the default admin (email, `tipo` admin, hash of `admin123`) and is saved once |
| `Auth.GerenciadorUsuarios.SalvarUsuarios` | auth.py:34-37 | a save records a snapshot of the whole table |
| `Auth.GerenciadorUsuarios.CriarAdminPadrao` | auth.py:39-50 | appends the default admin record and saves |
| `Auth.GerenciadorUsuarios.Autenticar` | auth.py:52-59 | on the first match only that record's `ultimo_acesso` changes, it is saved and returned; with no match (wrong email or wrong password alike) returns None and changes nothing |
| `Auth.GerenciadorUsuarios.CriarUsuario` | auth.py:61-76 | a duplicate email gives (false, "Email já cadastrado") and no change; otherwise exactly one `usuario` record with the hashed password is appended, earlier records are kept, it is saved and (true, "Usuário criado com sucesso") returned; distinct emails stay distinct |
| `Portal.CatalogoSemIdsRepetidos` | app.py:143-204 | the catalogue has six entries with distinct ids |
| `Portal.BuscarPlataforma` | app.py:354 | the first entry whose id equals the selection, absent exactly when none does |
| `Portal.BuscarPlataformaPorId` | app.py:354-358 | with distinct ids, looking up an entry's id yields that entry |
| `Portal.GradeCartoes` | app.py:315-319 | every catalogue entry gets exactly one card, in order, at row k/3 and column k%3 (three per row) |
| `Portal.Roteamento` | app.py:389-398 | anonymous: registration iff `pagina` is registration, else login; authenticated: platform page iff `pagina` is platform, else dashboard |
| `Portal.Sessao.constructor` | app.py:127-140 | creates the store, whose table is the loaded records or, for an absent or empty file, the lone default admin; not authenticated, page login, no user, no platform |
| `Portal.Sessao.Entrar` | app.py:231-243 | with an empty field nothing is called or changed; otherwise the store's first match has its last access stamped and saved, that stamped record becomes the logged-in user and the dashboard is shown; a failed login changes no flag and no record |
| `Portal.Sessao.IrParaCadastro` | app.py:227-229 | the login form's register button switches to the registration page |
| `Portal.Sessao.Cadastrar` | app.py:265-282 | password mismatch first, then an empty field, neither touching the store; a duplicate email changes nothing; only a successful registration appends and saves the new record and returns to the login page |
| `Portal.Sessao.VoltarParaLogin` | app.py:285-287 | the registration form's back button returns to the login page |
| `Portal.Sessao.Sair` | app.py:306-310 | logout clears authentication and the user and returns to login |
| `Portal.Sessao.AcessarPlataforma` | app.py:333-336 | a card's button selects that entry's id and shows the platform page |
| `Portal.Sessao.Voltar` | app.py:364-367 | the back button clears the selection and shows the dashboard |
| `Portal.Sessao.PlataformaSelecionada` | app.py:353-358 | on the platform page the lookup always finds a catalogue entry, so "platform not found" is unreachable |
| `Estoque.NivelDe` | sistema_estoque.py:78-84 | critical exactly when the quantity is at or under the minimum; the other two bands lie above the minimum |
| `Estoque.NivelEmInteiros` | sistema_estoque.py:80-84 | critical iff quantity ≤ minimum; warning iff minimum < quantity and 2·quantity ≤ 3·minimum; normal otherwise |
| `Estoque.HighlightEstoqueBaixo` | sistema_estoque.py:77-84 | one style per column (eight), all the critical, the warning or the empty style according to the row's band |
| `Estoque.Filtrar` | sistema_estoque.py:73-74 | the kept rows are rows of the input that satisfy the test, no more of them than the input has |
| `Estoque.FiltrarMultiplicidade` | sistema_estoque.py:73-74 | a filter keeps each satisfying row as many times as it occurs and drops every other row |
| `Estoque.FiltrarConcatena` | sistema_estoque.py:73-74 | a filter distributes over concatenation, so the kept rows stay in their original order |
| `Estoque.FiltrarCategoria` | sistema_estoque.py:73-74 | every row shown is a row of the table, and of the chosen category unless "Todas" is chosen |
| `Estoque.FiltrarCategoriaCorreto` | sistema_estoque.py:73-74 | "Todas" keeps the table unchanged; any other category keeps exactly that category's rows |
| `Estoque.EstoqueBaixo` | sistema_estoque.py:90 | every alert row is a row of the table whose quantity is at or under its minimum |
| `Estoque.EstoqueBaixoEhCritico` | sistema_estoque.py:77-90 | every alert row is highlighted critical, and the alert subset holds exactly the critical rows with their multiplicity |
| `Estoque.PainelInventario` | sistema_estoque.py:72-93 | the tab's table is the filtered inventory, each row gets its highlight, the alert rows are its critical rows, and the warning appears only when there are alert rows and then counts them |
| `Estoque.AlertasDaAmostra` | sistema_estoque.py:61-93 | on the sample inventory the alert lists Cadeira, Mesa and Papel |
| `Agendamento.DoisDigitos` | sistema_agendamento.py:66 | a number below 100 written as two digits whose value is the number |
| `Agendamento.Horario` | sistema_agendamento.py:64-66 | the k-th slot is five characters "HH:" followed by "00" or "30", at 480 + 30k minutes after midnight |
| `Agendamento.GerarHorarios` | sistema_agendamento.py:63-66 | the nested loops produce exactly the 22 slots, the k-th being hour 8 + k/2 at :00 or :30 |
| `Agendamento.HorarioFormatoEMinutos` | sistema_agendamento.py:64-66 | every slot is five characters: two digits, a colon, then "00" or "30", at 8:00 plus 30·k minutes |
| `Agendamento.HorariosExtremos` | sistema_agendamento.py:64-66 | the first slot is "08:00", the last "18:30", and none is at or after 19:00 |
| `Agendamento.HorariosCrescentes` | sistema_agendamento.py:64-66 | later slots are later in time and also compare greater as strings |
| `Agendamento.Agendar` | sistema_agendamento.py:73-78 | a refused booking carries the required-fields message |
| `Agendamento.AgendarExigeObrigatorios` | sistema_agendamento.py:74-78 | accepted iff name, phone, service, professional, date and time are all non-empty; the email never matters |
| `Agendamento.AgendarComEscolhasDasListas` | sistema_agendamento.py:48-78 | with the service, professional and time chosen from their lists and a date present, acceptance depends only on name and phone |
| `Agendamento.CorStatus` | sistema_agendamento.py:114-121 | a status cell gets one of the three colour styles, each a `background-color` declaration, or no style |
| `Agendamento.CorStatusDistingue` | sistema_agendamento.py:114-121 | exactly "Confirmado", "Cancelado" and "Em espera" get a colour, each a different one; anything else gets "" |
| `Vendas.IndiceDe` | sistema_vendas.py:132-133 | the first position of the label in the list, absent exactly when it is not in the list |
| `Vendas.ValorTotal` | sistema_vendas.py:131-134 | the total exists exactly when the label is one of the choices |
| `Vendas.PrecoDoRotuloDe` | sistema_vendas.py:113-114 | reading the amount back from a label written as name, " - R$ ", amount, ",00" gives the amount |
| `Vendas.RotulosMostramPrecos` | sistema_vendas.py:111-133 | the label and price lists are parallel with five entries, and each price is positive and equals the amount in its label |
| `Vendas.ValorTotalPeloRotulo` | sistema_vendas.py:111-134 | for every offered choice the total is the amount in its label times the quantity, and with quantity ≥ 1 it is at least that positive unit price |
| `Vendas.Parcelas` | sistema_vendas.py:124-126 | one instalment unless paying by credit card, in which case the chosen number; always between 1 and 12 |

## Left out

- JSON persistence (auth.py:26-37): reading and writing the file is not modelled. The loaded records are a constructor argument, and each save appends a snapshot to a ghost history. A save that fails is not modelled: `salvar_usuarios` has no `try`, so an I/O error would propagate out of `autenticar` and `criar_usuario` (auth.py:57, 75) after the in-memory change, and the portal's handlers (app.py:233, 269) do not catch it. The reload round trip is not modelled either.
- SHA-256 (auth.py:40, 53, 65): the hash is an arbitrary function given to the constructor. No property of it is assumed.
- Clock and identifiers (auth.py:42, 47, 56, 67, 72): one `Instante` stands for the two successive `datetime.now()` calls. A second that ticks between them is therefore not represented. Identifiers are second-resolution timestamps and can collide, so no uniqueness of `id` is claimed.
- Email uniqueness is not an invariant of the store: the loader does not check it. It is stated as "preserved if it held before" on `CriarUsuario`.
- Portal.Sessao.Entrar: in the source the logged-in user is the same object as the store's record (aliasing). The model states the store's new table and keeps in the session a copy of the stamped record's value, so a later in-place change of that record would not be seen through the session.
- Streamlit plumbing (app.py, all modules): page configuration, CSS and HTML, columns and tabs, `st.rerun`, `time.sleep`, success and error banners, and the header that greets the user. Dynamic loading of the platform's module and its error message (app.py:377-383) depend on foreign code and are left out too.
- pandas and plotly: dataframes are sequences of records; styling, display and charts are not modelled. The client search in scheduling (sistema_agendamento.py:95-99) uses pandas regular-expression matching, which is a foreign library and is left out.
- Estoque.NivelEmInteiros: the comparison with `minimo * 1.5` is modelled with exact reals. The floating-point product is exact, and so agrees with the model, for every minimum of magnitude below 2^51 (below about 2^53/3); beyond that the float rounding can put a quantity in `Baixo` that the model puts in `Normal`.
- The stock-status filter widget (sistema_estoque.py:58) is read but never applied by the source, so there is nothing to model. The entry, exit and supplier forms (sistema_estoque.py:95-197) only show fixed messages and tables.
- The scheduling configuration tab, the client list and the agenda table (sistema_agendamento.py:80-166) hold only fixed data and messages, apart from the status colours modelled above.
- The sales dashboard, catalogue, stock adjustment and report tabs (sistema_vendas.py:36-102, 142-219) hold random or fixed sample values and CSV export.
- Vendas.IndiceDe: `list.index` raises `ValueError` for a label not in the list (sistema_vendas.py:132-133); the model returns `None` instead, and `ValorTotal` is then `None`. The select box offers only listed labels, so the case does not arise in the source.
- sistema_financeiro.py, sistema_relatorios.py and sistema_rh.py contain only presentation over random or hard-coded data: a pointwise difference and a sum, maximum, minimum and mean of random lists. They are not part of this model.
