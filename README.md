# FailTrack maintenance core, modelled in Dafny

FailTrack is a small maintenance-tracking web application. Machines
(`Maquina`) are registered under a short public code (`codigo`). Each machine
gets a QR image that links to its page. Technicians report faults (`Falla`)
against a machine, and they move a fault's status along and keep a comment
log (`Comentario`) on it.

This project models the whole logic of `app.py` in three modules, one per
section of that file:

- `Modelos` (`modelos.dfy`) holds the three tables as records and the
  constraints kept on them. Ids are row numbers, because no row is ever
  deleted. Machine codes are unique. Every fault names an existing machine,
  and every comment names an existing fault. The module also holds the
  queries the handlers run: a lookup by code (`.first()` in row order), and
  the `fallas` and `comentarios` relationships as filters.
- `QrHelper` (`qr_helper.dfy`) holds the string part of `generar_qr_con_url`.
  The link is `base_url.rstrip('/') + "/maquina/" + codigo`. The image path
  is POSIX `os.path.join('static/qrcodes', codigo + '.png')`.
- `Rutas` (`rutas.dfy`) holds a `Store` class whose three sequence fields
  stand in for the SQLite tables. The handlers `buscar`, `ver_maquina` (GET
  and POST), `agregar_comentario` and `crear_maquina` are methods on it. Each
  handler answers a `Response` value in place of Flask's redirects, 404s and
  flashed messages.
- `Wrappers` (`wrappers.dfy`) holds the `Option` type. A form field read with
  `request.form.get` may be absent, so form fields are `Option<string>`.
  Python truthiness of a field (`if texto_comentario:`) is `Truthy`: the
  field is present and not empty.

Behaviour of `app.py` worth noting:

- The QR route is `/maquina/` (app.py:44).
- A fault's status is any non-empty string. No transition is checked.
- If the QR image fails after the machine was committed, the machine
  stays. The `rollback` in the `except` branch runs after the commit, so it
  undoes nothing.
- `crear_maquina` checks for a duplicate code before anything else. So a
  taken code is reported as a duplicate even when the name is missing.
- A missing name or code in `crear_maquina` fails the NOT NULL constraint
  inside the `try` block. It is rolled back and the form is shown again.
- A missing fault description in `ver_maquina` fails the same way outside
  any `try` block. The request ends in a server error, and its session is
  discarded unchanged.
- The `<int:id>` route of `agregar_comentario` accepts any run of digits.
  An id above 2^63 - 1 does not fit a SQLite INTEGER, so `get_or_404`
  raises instead of answering 404, and the request ends in a server error.
- A code that starts with `/` makes `os.path.join` drop the QR directory.
  The image is then written at that absolute path (`QrPath`).

## Model

| member | source | states |
|---|---|---|
| `QrHelper.RStripSlash` | app.py:44 | `rstrip('/')` gives a prefix of its input that does not end in '/', and everything after that prefix is '/' |
| `QrHelper.RStripSlashUnique` | app.py:44 | those three properties determine the stripped string: no other prefix has them |
| `QrHelper.RStripSlashIdempotent` | app.py:44 | stripping trailing slashes twice gives the same string as stripping once |
| `QrHelper.RStripSlashAppendSlashes` | app.py:44 | appending any number of '/' to a string does not change what stripping gives |
| `QrHelper.QrLink` | app.py:44 | `link_final` is a prefix of the base URL, then "/maquina/", then the code; that prefix never ends in '/' and only slashes of the base URL follow it |
| `QrHelper.QrLinkIgnoresTrailingSlashes` | app.py:44 | a base URL with any number of extra trailing '/' gives the same QR link |
| `QrHelper.CodeOfLinkRoundTrip` | app.py:44 | removing the stripped base URL and "/maquina/" from the front of the link string leaves exactly the code string |
| `QrHelper.QrLinkInjective` | app.py:44 | under one base URL, two different code strings never give the same link string |
| `QrHelper.PathJoin` | app.py:53 | POSIX `os.path.join` of two parts: an absolute second part replaces the first; otherwise the result starts with the first part, ends with the second, and exactly one '/' separates them when the first is not empty, so the result is at most one character longer than the two parts |
| `QrHelper.PathJoinUnique` | app.py:53 | any string satisfying `PathJoin`'s contract for a relative second part is the join itself, so the contract determines the path |
| `QrHelper.QrFileName` | app.py:57 | the image file name is the code followed by ".png", four characters longer than the code |
| `QrHelper.QrPath` | app.py:53-57 | a code not starting with '/' has its image at "static/qrcodes/" + code + ".png"; a code starting with '/' has it at code + ".png", outside the QR directory |
| `QrHelper.QrPathInjective` | app.py:53-57 | two different code strings never give the same image path string |
| `Modelos.FindCode` | app.py:68 | the lookup by code finds nothing exactly when no machine has the code; otherwise it gives the first row, in row order, that has it |
| `Modelos.InsertFallaConsistente` | app.py:84-86 | a fault that takes the next id and names an existing machine keeps the database consistent |
| `Modelos.FallaOwnerResolves` | app.py:17-30 | in a consistent database a fault's machine id is the id of the machine at that row, and looking up that machine's code finds that same row, so `falla.maquina.codigo` (app.py:109) names the owner |
| `Modelos.ComentarioOwnerResolves` | app.py:34-39 | in a consistent database a comment's fault id is the id of the fault at that row |
| `Modelos.FindCodeUnique` | app.py:19 | with unique codes, looking up the code of machine `i` gives `i` |
| `Modelos.Filter` | app.py:22 | a relationship's rows are exactly the rows that point at the owner, and never more than the table holds |
| `Modelos.FallasDeMembers` | app.py:22 | `maquina.fallas` holds exactly the faults whose machine id is that machine's |
| `Modelos.ComentariosDeMembers` | app.py:32 | `falla.comentarios` holds exactly the comments whose fault id is that fault's |
| `Modelos.FilterAppend` | app.py:85-86 | inserting one row extends the rows that qualify by that row when it qualifies, and leaves them unchanged otherwise |
| `Modelos.FilterNone` | app.py:32 | when no row qualifies, the relationship is empty |
| `Modelos.FallasDeAppend` | app.py:84-86 | a new fault joins the end of its own machine's fault list and no other machine's |
| `Modelos.ComentariosDeAppend` | app.py:101-102 | a new comment joins the end of its own fault's comment log and no other fault's |
| `Modelos.ComentariosDeNextFalla` | app.py:32-39 | the fault that receives the next id has no comments yet |
| `Rutas.Store.constructor` | app.py:146 | a fresh database has no machines, faults or comments and is consistent |
| `Rutas.Store.Buscar` | app.py:65-73 | a submitted code that a machine has redirects to that same code's page; an absent or unknown code goes back to the index with a warning, and the store is not changed |
| `Rutas.Store.VerMaquina` | app.py:75-89 | an unknown code is a 404; otherwise the page shows the machine with that code and exactly its faults, each with exactly its comments |
| `Rutas.Store.ReportarFalla` | app.py:75-87 | an unknown code is a 404 and a missing description is a server error, both with no change; otherwise exactly one fault is added, with the next id, status 'Pendiente', the given description and technician and that machine's id; it ends that machine's list and has no comments; machines and comments are unchanged |
| `Rutas.Store.AgregarComentario` | app.py:91-109 | an id above 2^63 - 1, which SQLite cannot bind, is a server error with no change; any other unknown fault id is a 404 with no change; otherwise a comment bound to that fault is appended exactly when the text is non-empty, the status is overwritten exactly when a non-empty status is given, descriptions and technicians of every fault stay the same, machines are unchanged, and the redirect goes to the owning machine's code |
| `Rutas.Store.CrearMaquina` | app.py:111-140 | a code already in use is refused with the store unchanged; a missing name or code is rolled back with the store unchanged; otherwise exactly one machine is added with the next id and the given name, code and description; lookup by the code then finds it; the QR request carries the link and the image path for the code; the machine stays even when the QR image fails; faults and comments are never touched; codes stay unique |
| `Rutas.Recorrido` | app.py:75-140 | creating a machine, reporting a fault on it, then commenting and setting the status leaves a machine page with that one fault, its new status and that one comment |

## Left out

- Flask routing, `render_template`, `url_for` and the text of `flash` messages are left out. Handler outcomes are `Response` values.
- The GET forms of `index` and `crear_maquina` only render a template, so they are left out.
- Timestamps (`fecha_alta`, `fecha_reporte`, `fecha`) come from the wall clock, so they are left out.
- QR image encoding, `os.makedirs` and the PNG write are left out. They are library calls and file I/O. `CrearMaquina` takes their success as the parameter `qrGuardado` and returns the payload and path it asks to write.
- The public base URL literal is configuration, so `CrearMaquina` takes it as the parameter `urlPublica`.
- The secret key, the database URI and `app.run` are left out, because they are configuration.
- The race between two concurrent creates of the same code is left out. The model is sequential.
- Column lengths (`String(4)`, `String(30)` and so on) are left out, because SQLite does not enforce them.
- SQLAlchemy sessions and lazy loading are left out. The relationships are modelled as filters over the tables.
- Codes that are empty or contain '/' are out of the routing model. `crear_maquina` accepts them, but Flask's default `<codigo>` converter matches only a non-empty path segment without '/'. So for such a code the redirect from `buscar` or `crear_maquina`, and the QR link, end in a routing 404 in the source. `VerMaquina`, `ReportarFalla` and `VerMaquinaRedirect` accept any string.
- The link and the image path are modelled as strings, not as the resource a browser or the file system resolves them to. The link embeds the code without URL quoting (app.py:44). The server percent-decodes the scanned path, so a code containing '%' such as "A%30" opens the page of "A0", which is another machine. A '?' or '#' in a code cuts the path short at that character. Path segments such as "./" or "x/../" are not normalised either, so "A001" and "./A001" pass the duplicate check as different codes. Their images `static/qrcodes/A001.png` and `static/qrcodes/./A001.png` are one file, and creating the second machine overwrites the first machine's QR image. `CodeOfLinkRoundTrip`, `QrLinkInjective` and `QrPathInjective` are facts about the strings only.
- `os.path.join` is modelled with its POSIX behaviour only. Windows path rules are left out.
- Foreign keys are not enforced by SQLite by default. The model keeps them as an invariant because every handler writes only ids it has just read.
