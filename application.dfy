/**
 * The program's control flow (main.go `main` and `showServerDetails`):
 * the credential guard, the fatal start-up failure, and the navigation
 * between the server table and the details modal that the toolkit's
 * callbacks drive.
 */
module Application {
  import opened Domain
  import opened Api
  import opened Render

  // ---- start-up ----

  /** Both command-line credentials are present (a flag left out is ""). */
  predicate CredentialsGiven(username: string, password: string): (given: bool)
    ensures given <==> |username| > 0 && |password| > 0
  {
    username != "" && password != ""
  }

  /** How the program gets past start-up, if it does. */
  datatype Startup =
    | Usage                            // prints the usage text and exits with status 1
    | Fatal(message: string)           // the fetch failed: logs the message and exits with status 1
    | Started(servers: seq<Server>)    // the table of these servers is shown

  const FatalPrefix: string := "Error fetching servers: "

  /**
   * The formatted message `log.Fatalf` writes when the initial fetch fails:
   * the fetch error's message after a fixed prefix, so a status error's
   * code can be read back from it.
   */
  function FatalMessage(e: FetchError): (msg: string)
    ensures |FatalPrefix| <= |msg| && msg[..|FatalPrefix|] == FatalPrefix
    ensures StatusOfMessage(msg[|FatalPrefix|..]) == if e.UnexpectedStatus? then Some(e.code) else None
  {
    var msg := FatalPrefix + ErrorMessage(e);
    assert msg[|FatalPrefix|..] == ErrorMessage(e);
    msg
  }

  /**
   * The start-up of main.go, with `respond` standing for the API server:
   * the outcome of the authenticated GET issued with the given credentials.
   */
  function StartUp(username: string, password: string, respond: Credentials -> HttpOutcome): (r: Startup)
    ensures r == Usage <==> !CredentialsGiven(username, password)
    ensures r.Started? ==> FetchServers(respond(Credentials(username, password))) == Fetched(r.servers)
    ensures r.Fatal? ==> exists e :: FetchServers(respond(Credentials(username, password))) == FetchFailed(e)
                                    && r.message == FatalMessage(e)
  {
    if !CredentialsGiven(username, password) then Usage
    else
      match FetchServers(respond(Credentials(username, password)))
      case FetchFailed(e) => Fatal(FatalMessage(e))
      case Fetched(servers) => Started(servers)
  }

  /** Missing credentials are rejected before any request: the API's behaviour does not matter. */
  lemma NoRequestWithoutCredentials(username: string, password: string, f: Credentials -> HttpOutcome, g: Credentials -> HttpOutcome)
    requires !CredentialsGiven(username, password)
    ensures StartUp(username, password, f) == StartUp(username, password, g) == Usage
  {
  }

  /** The only request made carries exactly the command-line credentials. */
  lemma RequestUsesGivenCredentials(username: string, password: string, f: Credentials -> HttpOutcome, g: Credentials -> HttpOutcome)
    requires f(Credentials(username, password)) == g(Credentials(username, password))
    ensures StartUp(username, password, f) == StartUp(username, password, g)
  {
  }

  /** A non-200 answer stops the program, and its formatted message reports the status code. */
  lemma FatalReportsStatus(username: string, password: string, respond: Credentials -> HttpOutcome)
    requires CredentialsGiven(username, password)
    requires respond(Credentials(username, password)).Response?
    requires respond(Credentials(username, password)).statusCode != StatusOK
    ensures StartUp(username, password, respond).Fatal?
    ensures var msg := StartUp(username, password, respond).message;
      |FatalPrefix| <= |msg| && msg[..|FatalPrefix|] == FatalPrefix &&
      StatusOfMessage(msg[|FatalPrefix|..]) == Some(respond(Credentials(username, password)).statusCode)
  {
  }

  // ---- navigation ----

  /** What the application shows as its root. */
  datatype Screen = TableScreen | DetailsModal(fields: seq<(string, string)>)

  /** The keys for which the toolkit calls a table's done callback. */
  datatype Key = Escape | Enter | Tab | Backtab

  /** The callbacks the toolkit invokes. */
  datatype Event =
    | TableDone(key: Key)                        // the table's done callback
    | RowSelected(row: int, column: int)         // the table's selected callback
    | ModalDone(buttonIndex: int, buttonLabel: string) // the details modal's done callback

  datatype State = State(screen: Screen, running: bool)

  /** The toolkit only reports selections of rows the table has. */
  predicate EventFits(servers: seq<Server>, e: Event)
  {
    e.RowSelected? ==> 0 <= e.row <= |servers|
  }

  /** One callback, as the closures of main.go react to it. */
  function Next(servers: seq<Server>, s: State, e: Event): (t: State)
    requires s.running && EventFits(servers, e)
    ensures t.running <==> e != TableDone(Escape)
    ensures e.ModalDone? ==> t.screen == TableScreen
    ensures e.RowSelected? && e.row > 0 ==> t.screen == DetailsModal(DetailFields(servers[e.row - 1]))
    ensures e.TableDone? || (e.RowSelected? && e.row == 0) ==> t.screen == s.screen
  {
    match e
    case TableDone(key) => if key == Escape then State(s.screen, false) else s
    case RowSelected(row, _) => if row > 0 then State(DetailsModal(DetailFields(servers[row - 1])), true) else s
    case ModalDone(_, _) => State(TableScreen, true)
  }

  /**
   * The event loop: callbacks are processed in order until the application
   * stops; once stopped it stays stopped and nothing changes any more.
   */
  function Run(servers: seq<Server>, s: State, events: seq<Event>): (t: State)
    requires forall i :: 0 <= i < |events| ==> EventFits(servers, events[i])
    ensures t.running ==> s.running
    ensures !s.running ==> t == s
    decreases |events|
  {
    if events == [] || !s.running then s else Run(servers, Next(servers, s, events[0]), events[1..])
  }

  /** Every modal on screen describes one of the fetched servers. */
  ghost predicate Consistent(servers: seq<Server>, s: State)
  {
    s.screen.DetailsModal? ==> exists i :: 0 <= i < |servers| && s.screen.fields == DetailFields(servers[i])
  }

  /**
   * Selecting data row r opens the details of server r-1, which are that
   * row's cells under the column headers; selecting the header row changes
   * nothing; the modal's button returns to the table.
   */
  lemma SelectionOpensRow(servers: seq<Server>, s: State, row: int, column: int)
    requires s.running && 0 <= row <= |servers|
    ensures row == 0 ==> Next(servers, s, RowSelected(row, column)) == s
    ensures row > 0 ==> var t := Next(servers, s, RowSelected(row, column));
      t.running && t.screen.DetailsModal? && |t.screen.fields| == Columns &&
      forall c :: 0 <= c < Columns ==>
        t.screen.fields[c] == (Rendered(servers, (0, c)).value, Rendered(servers, (row, c)).value)
    ensures row > 0 ==> Next(servers, Next(servers, s, RowSelected(row, column)), ModalDone(0, "OK")) == State(TableScreen, true)
  {
    if row > 0 {
      DetailsMatchRow(servers, row);
    }
  }

  lemma {:induction false} RunKeepsConsistent(servers: seq<Server>, s: State, events: seq<Event>)
    requires forall i :: 0 <= i < |events| ==> EventFits(servers, events[i])
    requires Consistent(servers, s)
    ensures Consistent(servers, Run(servers, s, events))
    decreases |events|
  {
    if events != [] && s.running {
      var t := Next(servers, s, events[0]);
      if events[0].RowSelected? && events[0].row > 0 {
        assert t.screen.fields == DetailFields(servers[events[0].row - 1]);
      }
      RunKeepsConsistent(servers, t, events[1..]);
    }
  }

  /** The application stops exactly when an Escape reaches the table. */
  lemma {:induction false} StopsOnlyOnEscape(servers: seq<Server>, s: State, events: seq<Event>)
    requires forall i :: 0 <= i < |events| ==> EventFits(servers, events[i])
    requires s.running
    ensures !Run(servers, s, events).running <==> exists i :: 0 <= i < |events| && events[i] == TableDone(Escape)
    decreases |events|
  {
    if events != [] {
      var t := Next(servers, s, events[0]);
      if events[0] == TableDone(Escape) {
        assert !t.running;
      } else {
        assert t.running;
        StopsOnlyOnEscape(servers, t, events[1..]);
        assert forall i :: 1 <= i < |events| ==> events[i] == events[1..][i - 1];
      }
    }
  }

  /** The running application: its root screen and whether its event loop still runs. */
  class App {
    const servers: seq<Server>
    var screen: Screen
    var running: bool

    /** `app.SetRoot(table, true)` before `Run`. */
    constructor (servers: seq<Server>)
      ensures this.servers == servers && screen == TableScreen && running
    {
      this.servers := servers;
      screen := TableScreen;
      running := true;
    }

    function Snapshot(): State
      reads this
    {
      State(screen, running)
    }

    /** `showServerDetails`: a modal with the server's labelled fields becomes the root. */
    method ShowServerDetails(server: Server)
      modifies this
      ensures screen == DetailsModal(DetailFields(server)) && running == old(running)
    {
      var ram := GetItemOption(server.pkg.items, RamCategory);
      var storage := GetItemOption(server.pkg.items, StorageCategory);
      var os := GetItemOption(server.pkg.items, OsCategory);
      screen := DetailsModal(
        [ ("Server ID", server.serverId),
          ("Facility", server.facility),
          ("Management IP", server.managementIp),
          ("Hostname", server.pkg.hostname),
          ("Status", server.pkg.status),
          ("CPU", server.pkg.core),
          ("RAM", ram),
          ("Storage", storage),
          ("OS", os) ]);
    }

    /** The table's done callback: Escape stops the application. */
    method OnTableDone(key: Key)
      requires running
      modifies this
      ensures Snapshot() == Next(servers, old(Snapshot()), TableDone(key))
    {
      if key == Escape {
        running := false;
      }
    }

    /** The table's selected callback: a data row opens its server's details. */
    method OnRowSelected(row: int, column: int)
      requires running && 0 <= row <= |servers|
      modifies this
      ensures Snapshot() == Next(servers, old(Snapshot()), RowSelected(row, column))
    {
      if row > 0 {
        ShowServerDetails(servers[row - 1]);
      }
    }

    /** The modal's done callback: the table becomes the root again. */
    method OnModalDone(buttonIndex: int, buttonLabel: string)
      requires running
      modifies this
      ensures Snapshot() == Next(servers, old(Snapshot()), ModalDone(buttonIndex, buttonLabel))
    {
      screen := TableScreen;
    }
  }

  /**
   * `main` up to the event loop: the guard, the table with its headers,
   * the fetch, and on success the data rows and the application showing
   * the table.
   */
  method Launch(username: string, password: string, respond: Credentials -> HttpOutcome)
    returns (outcome: Startup, table: Table?, app: App?)
    ensures outcome == StartUp(username, password, respond)
    ensures table != null <==> CredentialsGiven(username, password)
    ensures app != null <==> outcome.Started?
    ensures table != null ==> fresh(table)
    ensures table != null && outcome.Fatal? ==> forall p ::
              Get(table.cells, p) == if InHeaderRow(p) then Some(Headers[p.1]) else None
    ensures table != null && outcome.Started? ==> forall p ::
              Get(table.cells, p) == Rendered(outcome.servers, p)
    ensures app != null ==> fresh(app) && app.servers == outcome.servers && app.Snapshot() == State(TableScreen, true)
  {
    app := null;
    if !CredentialsGiven(username, password) {
      return Usage, null, null;
    }
    var credentials := Credentials(username, password);
    table := new Table();
    table.SetHeaders();
    var fetched := FetchServers(respond(credentials));
    match fetched
    case FetchFailed(e) =>
      outcome := Fatal(FatalMessage(e));
    case Fetched(servers) =>
      table.AddServerRows(servers);
      app := new App(servers);
      outcome := Started(servers);
  }
}
