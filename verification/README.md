# notion-dashboard: a Dafny model of the Notion record parser

`notion-dashboard.py` is a Streamlit script that queries five Notion
databases ("proyectos", "celulas", "productos", "clientes", "personas"),
flattens every record of each query result into a row of named cells with
`parse_notion_data`, stores the rows per table in `dataframes`, and draws a
few charts from them.

This project models the flattening and the table-assembly loop:

- `results.dfy` (`Results`): `Option`, and `Result` whose failure is the
  Python exception class a step raises (`KeyError`, `IndexError`,
  `TypeError`, `AttributeError`).
- `pyjson.dfy` (`PyJson`): the decoded JSON a query returns, as Python sees
  it after `response.json()`, with the operations the parser applies to it:
  `dict.get`, `x[key]`, `x[0]`, iteration and truthiness, each raising what
  Python raises on a value of the wrong type. A dict is a list of members in
  document order; a duplicated key reads as its last binding and iterates
  once.
- `kinds.dfy` (`Kinds`): the six handled column kinds and the fallback for
  any other kind string.
- `strings.dfy` (`Strings`): `sep.join(parts)` and where each part and
  separator lands in the result.
- `cells.dfy` (`Cells`): the decoder of one cell per kind, with the
  placeholders "Sin Nombre" and "Sin Datos".
- `records.dfy` (`Records`): one record to one row (column name to cell),
  and `parse_notion_data` over `data["results"]`.
- `dashboard.dfy` (`Dashboard`): the script's `columns_mapping` and the loop
  that fills `dataframes`. The HTTP query is a parameter: each table arrives
  with `None` (a non-200 answer whose body is JSON) or the decoded body.
- `scenarios.dfy` (`Scenarios`): concrete records of the dashboard's own
  tables decoded end to end.

A cell is kept as a JSON value, because the parser stores whatever the API
sent: a select `name` or a `number` is copied through untouched. The
exceptions are modelled, not excluded. The code raises on several inputs the
Notion API can send. A property set to `null` is one: `get` returns `None`
for a present key, so the next `.get` raises `AttributeError`. Nothing
catches these exceptions, so one failing record makes the whole script fail.

## Behaviour of the parser

- The parser raises on malformed input; it does not always yield a row.
- A missing title is "Sin Nombre" and a missing select is "Sin Datos". An
  unhandled kind is also "Sin Datos".
- A title keeps only its first span.
- A row holds only the declared columns. The record's own `id` is not added.
- A query answered with a non-200 status and a JSON body, or with a falsy
  body, leaves its table out and the other tables untouched. A table whose
  parse raises stops the whole loop, because nothing catches the exception.
- Any kind string other than the six handled ones (`rich_text`, `email`,
  `phone_number`, ...) reads as "Sin Datos".

## Model

| member | source | states |
|---|---|---|
| PyJson.Lookup | notion-dashboard.py:53 | a dict has a value for a key exactly when the key is one of its members |
| PyJson.LookupIsLastBinding | notion-dashboard.py:42 | a key repeated in the response body reads as its last binding, as the decoded dict holds it |
| PyJson.KeyOrder | notion-dashboard.py:52 | the keys a dict iterates are exactly its keys, each once |
| PyJson.Truthy | notion-dashboard.py:85 | the falsy values are exactly None, False, zero, the empty string, the empty list and the empty dict |
| PyJson.Get | notion-dashboard.py:53 | `x.get(key, d)` succeeds exactly on a dict and raises AttributeError on anything else; it returns `d` for an absent key and the stored value (even `null`) for a present one |
| PyJson.Subscript | notion-dashboard.py:52 | `x[key]` succeeds exactly on a dict holding the key and returns its value; it raises KeyError on a dict without the key and TypeError on a non-dict |
| PyJson.First | notion-dashboard.py:57 | `x[0]` returns the first element of a non-empty list; it raises IndexError on an empty list, KeyError on a dict and TypeError on a number, bool or null |
| PyJson.Iterate | notion-dashboard.py:52 | a `for` loop iterates exactly lists, strings and dicts. A list yields its items, a string its one-character strings, a dict its keys, each once. The loop is empty exactly when the value is falsy; anything else raises TypeError |
| Kinds.KindOf | notion-dashboard.py:55-69 | the branch chosen for a kind string: the six handled strings select their branch, every other string falls to the `else` branch, and the kind remembers its string |
| Kinds.KindOfTagOf | notion-dashboard.py:55-69 | every branch is reached by exactly its own kind string |
| Strings.JoinLength | notion-dashboard.py:61 | a join is as long as its parts plus one separator between each pair of neighbours |
| Strings.JoinPlacesPart | notion-dashboard.py:61 | every part appears unchanged, in order, at its offset in the joined string |
| Strings.JoinPlacesSeparator | notion-dashboard.py:61 | the separator sits between every part and the next |
| Cells.NestedGet | notion-dashboard.py:58-63 | the select and date shape `p.get(outer, {}).get(inner, d)`: a missing outer or inner key gives `d`, a present inner value is returned as is, and a non-dict at either level raises AttributeError |
| Cells.TitleOf | notion-dashboard.py:56-57 | a missing `title` gives "Sin Nombre", an empty title list raises IndexError, and otherwise the first span's `text.content` is read with "Sin Nombre" as its default |
| Cells.TitleIgnoresLaterSpans | notion-dashboard.py:57 | two titles with the same first span decode alike, whatever spans follow |
| Cells.Collect | notion-dashboard.py:60-67 | `[x[key] for x in items]` succeeds exactly when every item is a dict with the key. It then yields their values in order; otherwise it raises the exception of the first item without the key |
| Cells.JoinNames | notion-dashboard.py:61 | joining succeeds exactly when every name is a string, otherwise TypeError |
| Cells.MultiSelectOf | notion-dashboard.py:60-61 | a list of options decodes exactly when every option has a string `name`, to the names joined by ", " in order. A missing list gives "". An empty string or dict in its place gives "", and any other non-list raises |
| Cells.CollectedNames | notion-dashboard.py:61 | collecting and joining option names succeeds exactly when every option is named, and yields the join of those names |
| Cells.MultiSelectOneOrNone | notion-dashboard.py:61 | one option decodes to its bare name and no options to "" |
| Cells.RelationOf | notion-dashboard.py:66-67 | a relation list decodes exactly when every entry has an `id`, to the ids in the same order and number. A missing list gives [], an empty string or dict gives [], and any other non-list raises |
| Cells.FromProperty | notion-dashboard.py:56-67 | each handled kind's decoder raises AttributeError on a non-dict property, and on `{}` (an absent property) yields that kind's default |
| Cells.AbsentColumnDefaults | notion-dashboard.py:56-69 | a column missing from the properties reads as "Sin Nombre" (title), "Sin Datos" (select), "" (multi_select, date), 0 (number), [] (relation), and "Sin Datos" for any other kind string |
| Cells.DecodeCell | notion-dashboard.py:55-69 | an unhandled kind gives "Sin Datos" without reading the record. A handled kind needs the properties to be a dict; an absent column gives the kind's default, a `null` property raises AttributeError, and a present one is decoded by its kind |
| Records.RowWith | notion-dashboard.py:54-69 | the column loop, for any cell decoder: it succeeds exactly when every column's cell does, and the row's keys are then exactly the declared names; a failure is some column's exception |
| Records.RowWithCells | notion-dashboard.py:54-69 | with distinct column names, each column's cell is stored under its own name |
| Records.RowWithFirstError | notion-dashboard.py:55-69 | the columns are decoded in order, so a failing row raises its first failing column's exception |
| Records.BuildRow | notion-dashboard.py:54-69 | a row succeeds exactly when every declared column decodes, and then has exactly the declared column names as keys; a failure is some column's exception |
| Records.BuildRowCells | notion-dashboard.py:54-69 | with distinct column names, each column's cell is stored under its own name |
| Records.BuildRowFirstError | notion-dashboard.py:55-69 | a failing row raises the exception of its first failing column |
| Records.DecodeRecord | notion-dashboard.py:53-69 | a non-dict record raises AttributeError. A record without `properties` always decodes, and `properties: null` decodes only when no column has a handled kind. Otherwise the row is the one built from the properties |
| Records.DecodeRecords | notion-dashboard.py:51-70 | the records succeed exactly when each one does. The result is then one row per record, in order; a failure is some record's exception |
| Records.DecodeRecordsFirstError | notion-dashboard.py:52-70 | a failing list raises the exception of its first failing record |
| Records.Parse | notion-dashboard.py:50-52 | non-dict data raises TypeError and data without `results` raises KeyError; every parsed row has exactly the declared columns |
| Records.ParseRowsInOrder | notion-dashboard.py:51-70 | a `results` list parses exactly when every record decodes, to one row per record in the same order |
| Records.ParseNonListResults | notion-dashboard.py:52-53 | a non-list `results` gives no rows when it is an empty string or dict, raises AttributeError when it is a non-empty one, and raises TypeError otherwise |
| Records.ParseEmptyResults | notion-dashboard.py:51-52 | an empty `results` list gives no rows whatever the columns |
| Records.AbsentPropertyDefault | notion-dashboard.py:53-67 | a property missing from a record holds its kind's default in the row |
| Records.MissingPropertiesDefaults | notion-dashboard.py:53-67 | a record without `properties` decodes to every column's default |
| Records.CellFailureFailsParse | notion-dashboard.py:52-70 | one failing cell of one record makes the whole parse fail |
| Dashboard.ParseTable | notion-dashboard.py:86 | a kept table without a column mapping raises KeyError; otherwise its data is parsed with its own mapping |
| Dashboard.AssembleWith | notion-dashboard.py:83-86 | the loop succeeds exactly when every kept (truthy) result parses under its table's mapping; `dataframes` then holds exactly the kept tables, and a failure is the exception some kept table's mapping lookup or parse raised |
| Dashboard.AssembleFirstError | notion-dashboard.py:83-86 | the tables are handled in order, so a failing loop raises the exception of the first kept table whose mapping lookup or parse fails |
| Dashboard.AssembleRows | notion-dashboard.py:86 | each kept table holds the rows its own data parses to |
| Dashboard.FailedFetchIsolated | notion-dashboard.py:84-86 | a table whose query answers with a non-200 status only drops that table; the others keep the same rows |
| Dashboard.Assemble | notion-dashboard.py:83-86 | with `parse_notion_data` as the parser, the loop succeeds exactly when every kept table has a mapping and parses; the keys are the kept tables; a failure is a kept table's KeyError (no mapping) or the exception its parse raised |
| Dashboard.MappingCoversTables | notion-dashboard.py:75-81 | every queried table has a mapping; each mapping's column names are distinct and its kinds are all handled |
| Dashboard.DashboardAssembly | notion-dashboard.py:83-86 | with the script's own tables and mappings, the loop fails only when a kept table fails to parse |
| Scenarios.TitlePropertyDecodes | notion-dashboard.py:57 | a one-span title decodes to that span's text |
| Scenarios.RelationPropertyDecodes | notion-dashboard.py:67 | a one-page relation decodes to that page's id |
| Scenarios.CelulaRow | notion-dashboard.py:77 | a "celulas" record decodes to its name and related page ids, and gets no `id` column |
| Scenarios.UnsetSelectRaises | notion-dashboard.py:59 | a project whose status is `"select": null` raises AttributeError instead of reading "Sin Datos" |

## Left out

- The HTTP query `get_notion_data` (lines 33-45): the network, the headers, the status check and the debug output. Each table's outcome is an input instead.
- A query that raises is not modelled: `requests.post` failing (line 35) or a body that is not JSON (line 39, before the status check) stops the whole script, which an `Option<Json>` outcome cannot express.
- The secrets and the database ids (lines 7-20). Only the table names, in their order, are modelled.
- `pd.DataFrame(registros)` (line 71): a table is the list of row maps the DataFrame is built from. Column alignment and dtype inference are not modelled.
- The charts and the page layout (lines 89-110), including the date coercion and `dropna` (lines 98-100).
- JSON numbers are reals: Python's int/float distinction, and the integer default `0` of a number column (modelled as `0.0`), are not kept apart. `NaN` and `Infinity`, which Python's `json` accepts as (truthy) floats, cannot be represented.
- Exception messages are not modelled, only the exception class.
- PyJson.Iterate: over a dict the contract states which keys are yielded and that no key is yielded twice, not that they come in first-occurrence order.
