# lsn_tui server table, modelled in Dafny

`main.go` is a terminal client for a server-management REST API. It checks that
a username and a password were given, fetches the server list with one
authenticated GET, and shows the servers in a table. Selecting a data row opens
a modal with that server's details. The modal's OK button returns to the table,
and Escape on the table quits.

This project models that program's logic. The HTTP client, the JSON decoder and
the terminal toolkit are outside it.

- `domain.dfy` (module `Domain`) holds the records (`IPSubnet`, `PackageItem`,
  `Package`, `Server`, `Credentials`) and the category lookup `getItemOption`.
  The lookup has two forms: a recursive specification `ItemOption` that is
  characterised as "option of the first exact match, else `N/A`", and the
  source's loop `GetItemOption`, proved equal to it.
- `api.dfy` (module `Api`) holds the outcome classification of `fetchServers`.
  The request's outcome is an input: either a transport failure, or a status
  code together with the decoder's result. The module also holds the error
  messages, with `%d` formatting and a parse-back proof showing that the
  status code can be recovered from the message.
- `render.dfy` (module `Render`) holds the table's header row, the nine cells
  of a server's row and the labelled fields of the details modal. It also holds
  the class `Table`, a grid of cells keyed by (row, column). Its methods are
  the header loop and the row-filling loop of `main`, each proved to write
  exactly its cells and nothing else.
- `application.dfy` (module `Application`) holds the credential guard, the
  start-up outcome (usage exit, fatal fetch error, or running), and the
  callback-driven navigation between the table and the details modal. The
  navigation is given as a transition function `Next` folded by `Run`, and as
  the class `App` whose callback methods are proved to follow `Next`. `Launch`
  runs `main` in the source's order, up to the event loop.

## Model

| member | source | states |
|---|---|---|
| `Domain.ItemOption` | main.go:129-136 | with no item of that exact category the result is "N/A"; otherwise it is the option of the item at the smallest matching index |
| `Domain.GetItemOption` | main.go:129-136 | the in-order scan with early return yields exactly the first-match-or-"N/A" value |
| `Domain.FirstMatchExists` | main.go:130-133 | if some item has the category, a first such item exists, so the first-match clause always applies |
| `Domain.ItemOptionOrigin` | main.go:129-136 | the result is either the "N/A" default (no match) or the option of the first matching item |
| `Domain.ItemOptionIgnoresSuffix` | main.go:130-133 | once a prefix contains a match, any items appended after it, or put in place of what follows it, do not change the result |
| `Domain.ItemOptionSkipsUnmatched` | main.go:130-135 | a prefix without a match is skipped and the lookup continues in the rest |
| `Api.FetchServers` | main.go:107-127 | a list comes back exactly when the status is 200 and the body decodes, and it is the decoded list unchanged; a transport failure, a non-200 status (carrying that code) and a decode failure each give their own error and no data |
| `Api.FetchKeepsOrder` | main.go:120-126 | a 200 response decoding to N servers yields those N servers in the same order |
| `Api.DecimalNat` | main.go:117 | the `%d` digits of a natural number are non-empty decimal digits without a leading zero |
| `Api.DecimalNatRoundTrip` | main.go:117 | reading back the decimal digits of n gives n |
| `Api.FormatInt` | main.go:117 | the `%d` text of an integer starts with a minus sign exactly when the integer is negative, and reading it back gives the integer |
| `Api.ErrorMessage` | main.go:112-124 | the three error texts ("error making request: ", "unexpected status code: ", "error unmarshaling response: " followed by the detail): the status error's text reports its status code, and the other two report none |
| `Render.RowCells` | main.go:81-89 | a server's row has nine cells |
| `Render.DetailFields` | main.go:140-149 | the details modal has nine lines; line c is labelled with column header c and holds cell c of the server's row |
| `Render.Rendered` | main.go:69-90 | the finished table has a cell exactly at rows 0..N and columns 0..8; row 0 holds the headers and row i+1 holds server i |
| `Render.DetailsMatchRow` | main.go:138-149 | the details modal lists the same nine values, in the same order, as the server's table row, each labelled with its column header |
| `Render.ExampleRow` | main.go:79-89 | a server whose only item is ("RAM", "16GB") shows "16GB" in the RAM column and "N/A" in the OS column, and a lower-case "ram" category does not match |
| `Render.Table.constructor` | main.go:66 | a new table has no cells |
| `Render.Table.SetCell` | main.go:81 | writing a cell changes that cell only |
| `Render.Table.SetHeaders` | main.go:69-72 | afterwards row 0, columns 0..8, holds the nine headers in order (the constant `Render.Headers`: Server ID, Facility, Management IP, Hostname, Status, CPU, RAM, Storage, OS), and every other cell is as before |
| `Render.Table.AddServerRows` | main.go:79-90 | afterwards each row i+1 holds the nine cells of server i (ID, facility, management IP, hostname, status, CPU, then the RAM, Hard Drive and Operating System lookups), and every other cell is as before |
| `Application.CredentialsGiven` | main.go:54 | the guard passes exactly when both the username and the password are non-empty |
| `Application.FatalMessage` | main.go:76 | the message of a failed initial fetch is "Error fetching servers: " followed by the fetch error's message, so a status error's code can be read back from it |
| `Application.StartUp` | main.go:54-77 | start-up ends in a usage exit exactly when the username or the password is empty; otherwise it runs with the fetched list, or ends fatally with the message of the fetch error |
| `Application.NoRequestWithoutCredentials` | main.go:54-58 | with a credential missing, the outcome is the usage exit whatever the API would answer, so no request matters |
| `Application.RequestUsesGivenCredentials` | main.go:60-63 | start-up depends on the API only through its answer to the command-line credentials |
| `Application.FatalReportsStatus` | main.go:74-77 | a non-200 answer to the initial fetch is fatal, and its formatted message reports that status code |
| `Application.SelectionOpensRow` | main.go:96-100 | selecting row 0 changes nothing; selecting row r from 1 to N opens a modal whose lines are row r's cells under the headers; its OK button then returns the root to the table |
| `Application.Next` | main.go:92-100 | one callback: the application keeps running unless the callback is Escape on the table; the modal's done callback makes the table the root; selecting data row r shows the details of server r-1; other keys and row 0 leave the screen as it was |
| `Application.Run` | main.go:102 | the event loop applies the callbacks in order; a stopped application stays stopped and changes no more |
| `Application.RunKeepsConsistent` | main.go:92-100 | along any sequence of callbacks, a modal on screen always shows the details of one of the fetched servers |
| `Application.StopsOnlyOnEscape` | main.go:92-95 | a running application stops after a sequence of callbacks exactly when one of them is Escape on the table |
| `Application.App.constructor` | main.go:102 | the application starts running with the table as its root |
| `Application.App.ShowServerDetails` | main.go:138-156 | the root becomes a modal holding the server's labelled fields |
| `Application.App.OnTableDone` | main.go:92-95 | the table's done callback changes the state as `Next` says: Escape stops the application, other keys do nothing |
| `Application.App.OnRowSelected` | main.go:96-100 | the selected callback changes the state as `Next` says: a data row opens its server's details, row 0 does nothing |
| `Application.App.OnModalDone` | main.go:151-153 | the modal's done callback makes the table the root again |
| `Application.Launch` | main.go:49-102 | `main` up to the event loop: no table without both credentials; on a failed fetch the table holds only the headers and the outcome is fatal; on success the table is exactly `Rendered` of the fetched list and the application runs showing the table |

## Left out

- The HTTP call through `resty` is not modelled. That covers the fixed URL, the basic-auth header and the client defaults. Its outcome is the input `HttpOutcome`, and `respond` maps the credentials to that outcome.
- `json.Unmarshal` is not modelled. Decoding is a given `DecodeResult`, so a body such as `null` that decodes to an empty list without error is only as accurate as that input.
- Toolkit rendering is not modelled: borders, colours, non-selectable header cells, `SetFixed`, the initial `Select(1, 0)`, focus, and which primitive receives a key. The model keeps only the cell texts and the root transitions.
- Flag parsing and the usage text printed by `fmt.Println` and `flag.PrintDefaults` are not modelled. Only the guard and the `Usage` outcome are. `Usage` and `Fatal` both stand for exit status 1.
- The error of `app.Run` (main.go:102-104) is not modelled. It comes from the terminal toolkit.
- The `fmt.Sprintf` layout of the details text, nine "label: value" lines joined by newlines, is not modelled. The modal holds the ordered (label, value) pairs instead.
- Application.App.OnRowSelected: requires 0 <= row <= N. The toolkit only reports rows the table has, so the index panic that main.go:98 would hit for a larger row is not modelled.
- Application.Run: stops folding events once the application has stopped. `app.Stop()` ends the event loop, so no callback is delivered after it.
- Whether the toolkit delivers the table's selected callback at all, and which keys reach its done callback, depends on the table's selectability setting, which main.go leaves at the toolkit's default. The navigation lemmas hold for every sequence of callbacks, so they cover whichever of these the toolkit delivers.
- `log.Fatalf`'s own prefix, by default a date and time, is not modelled. `FatalMessage` is only the formatted text that follows it.
- A toolkit-level dismissal of the modal is not separated from its OK button. An Escape on the modal calls the same done callback. Both are `ModalDone`, since the callback ignores which button it was given.
- The fields `IPSubnets`, `Package.ClientID` and `Package.Name` are in the records, but the table and the modal do not use them.
- The repository's other two variants are not part of this model: the action menu, restart, power on/off and the public-IP lookup. This `main.go` has none of them.
