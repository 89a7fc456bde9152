/**
 * The console's application object (app.py): the connector list that backs
 * the main screen, its full and per-row refresh over the cluster's REST API,
 * the connector-config templates, and the decision whether an edited template
 * is submitted as a new connector.
 *
 * The REST API is an oracle (`Cluster`): for each request the model is given
 * the reply's status code, its body text and the body as `json.loads` reads
 * it. Every call checks the status with `Http.AssertSuccess` before it uses
 * the body, as app.py does.
 */
module Application {
  import opened Wrappers
  import Python
  import Http
  import Dict

  // ---------------------------------------------------------------------------
  // Documents of the REST API
  // ---------------------------------------------------------------------------

  /** The `connector` object of a status document. */
  datatype ConnectorStatus = ConnectorStatus(state: string, workerId: string)

  /** One element of the `tasks` array of a status document. */
  datatype TaskStatus = TaskStatus(id: int, state: string, workerId: string)

  /** The body of `GET {host}/connectors/{id}/status`. */
  datatype StatusDocument = StatusDocument(
    name: string,
    connector: ConnectorStatus,
    tasks: seq<TaskStatus>,
    kind: string)

  /** One row of the connector list: the tuple `(state, type, workerId, tasks, name)`. */
  datatype Summary = Summary(state: string, kind: string, workerId: string, taskCount: nat, name: string)

  /** A JSON value: `null` (Python's `None`), booleans, integers, strings, arrays and objects. */
  datatype Json =
    | JNull
    | JBool(b: bool)
    | JNum(n: int)
    | JStr(s: string)
    | JArr(items: seq<Json>)
    | JObj(fields: seq<(string, Json)>)

  /** A reply of the REST API: its status code, its body text, and the body as `json.loads` reads it. */
  datatype Reply<T> = Reply(statusCode: int, text: string, body: T)

  /**
   * The cluster behind `host`, as the console's requests see it:
   * `connectors` answers `GET {host}/connectors`, `status(id)` answers
   * `GET {host}/connectors/{id}/status`, `parse` is `json.loads` on a text, and
   * `create(doc)` answers `POST {host}/connectors` with the JSON body `doc`.
   */
  datatype Cluster = Cluster(
    connectors: Reply<seq<string>>,
    status: string -> Reply<StatusDocument>,
    parse: string -> Option<Json>,
    create: Json -> Reply<()>)

  /** What a call of the application object can raise. */
  datatype Error =
    | Request(exception: Http.RequestException)   // a non-2xx reply
    | OutOfRange(indexError: Python.IndexError)   // a row index outside the list
    | Malformed(content: string)                  // `json.loads` rejected an edited text

  // ---------------------------------------------------------------------------
  // REST calls
  // ---------------------------------------------------------------------------

  function ConnectorsUrl(host: string): string
  {
    host + "/connectors"
  }

  function StatusUrl(host: string, id: string): string
  {
    host + "/connectors/" + id + "/status"
  }

  /** `assertSuccess(response)` followed by `json.loads(response.text)`. */
  function Receive<T>(verb: Http.Method, url: string, reply: Reply<T>): (r: Result<T, Error>)
    ensures r.Success? <==> 200 <= reply.statusCode < 300
    ensures r.Success? ==> r.value == reply.body
    ensures r.Failure? ==> r.error == Request(Http.RequestException(Http.Response(verb, url, reply.statusCode, reply.text)))
  {
    match Http.AssertSuccess(Http.Response(verb, url, reply.statusCode, reply.text))
    case Pass => Success(reply.body)
    case Fail(e) => Failure(Request(e))
  }

  /** `getConnectors()`: the connector names, in the order the cluster lists them. */
  function GetConnectors(host: string, cluster: Cluster): (r: Result<seq<string>, Error>)
    ensures r.Success? <==> Http.IsSuccess(cluster.connectors.statusCode)
    ensures r.Success? ==> r.value == cluster.connectors.body
  {
    Receive(Http.GET, ConnectorsUrl(host), cluster.connectors)
  }

  /** `getConnector(id)`: the list row projected from the connector's status document. */
  function GetConnector(host: string, cluster: Cluster, id: string): (r: Result<Summary, Error>)
    ensures r.Success? <==> Http.IsSuccess(cluster.status(id).statusCode)
    ensures r.Success? ==>
      var doc := cluster.status(id).body;
      && r.value.state == doc.connector.state
      && r.value.kind == doc.kind
      && r.value.workerId == doc.connector.workerId
      && r.value.taskCount == |doc.tasks|
      && r.value.name == doc.name
  {
    match Receive(Http.GET, StatusUrl(host, id), cluster.status(id))
    case Failure(e) => Failure(e)
    case Success(doc) =>
      Success(Summary(doc.connector.state, doc.kind, doc.connector.workerId, |doc.tasks|, doc.name))
  }

  // ---------------------------------------------------------------------------
  // Full refresh: what it stores and which callbacks it fires
  // ---------------------------------------------------------------------------

  /** The rows a refresh stores, and the error that stopped it, if any. */
  datatype Fetched = Fetched(rows: seq<Summary>, failure: Option<Error>)

  /**
   * The loop of `refreshConnectors`: one summary per name, in the given order,
   * up to the first summary that cannot be fetched.
   */
  function FetchSummaries(host: string, cluster: Cluster, ids: seq<string>): (f: Fetched)
    ensures |f.rows| <= |ids|
    ensures f.failure.None? ==> |f.rows| == |ids|
    ensures f.failure.Some? ==>
      |f.rows| < |ids| && GetConnector(host, cluster, ids[|f.rows|]) == Failure(f.failure.value)
  {
    if ids == [] then Fetched([], None)
    else
      match GetConnector(host, cluster, ids[0])
      case Failure(e) => Fetched([], Some(e))
      case Success(s) =>
        var rest := FetchSummaries(host, cluster, ids[1..]);
        Fetched([s] + rest.rows, rest.failure)
  }

  /** Every stored row is the summary of the name at the same position: the listing's order is kept. */
  lemma {:induction false} FetchedRowsFollowNames(host: string, cluster: Cluster, ids: seq<string>)
    ensures var f := FetchSummaries(host, cluster, ids);
            forall i :: 0 <= i < |f.rows| ==> GetConnector(host, cluster, ids[i]) == Success(f.rows[i])
  {
    if ids != [] && GetConnector(host, cluster, ids[0]).Success? {
      FetchedRowsFollowNames(host, cluster, ids[1..]);
      var f := FetchSummaries(host, cluster, ids);
      var rest := FetchSummaries(host, cluster, ids[1..]);
      forall i | 1 <= i < |f.rows|
        ensures GetConnector(host, cluster, ids[i]) == Success(f.rows[i])
      {
        assert f.rows[i] == rest.rows[i - 1] && ids[i] == ids[1..][i - 1];
      }
    }
  }

  /** The list `refreshConnectors` leaves behind, and what it raises. */
  function Refreshed(host: string, cluster: Cluster): (f: Fetched)
    ensures GetConnectors(host, cluster).Failure? ==> f == Fetched([], Some(GetConnectors(host, cluster).error))
  {
    match GetConnectors(host, cluster)
    case Failure(e) => Fetched([], Some(e))
    case Success(ids) => FetchSummaries(host, cluster, ids)
  }

  /** When every summary can be fetched, row `i` is the summary of the `i`-th listed name, in the cluster's order. */
  lemma {:induction false} FetchAllSucceeds(host: string, cluster: Cluster, ids: seq<string>)
    requires forall i :: 0 <= i < |ids| ==> GetConnector(host, cluster, ids[i]).Success?
    ensures FetchSummaries(host, cluster, ids).failure.None?
    ensures |FetchSummaries(host, cluster, ids).rows| == |ids|
    ensures forall i :: 0 <= i < |ids| ==>
      FetchSummaries(host, cluster, ids).rows[i] == GetConnector(host, cluster, ids[i]).value
  {
    if ids != [] {
      FetchAllSucceeds(host, cluster, ids[1..]);
    }
  }

  /**
   * When the summary of the name at position `k` is the first that cannot be
   * fetched, the list holds exactly the `k` summaries before it and the refresh
   * raises that fetch's error.
   */
  lemma {:induction false} FetchStopsAtFirstFailure(host: string, cluster: Cluster, ids: seq<string>, k: nat)
    requires k < |ids|
    requires forall i :: 0 <= i < k ==> GetConnector(host, cluster, ids[i]).Success?
    requires GetConnector(host, cluster, ids[k]).Failure?
    ensures |FetchSummaries(host, cluster, ids).rows| == k
    ensures forall i :: 0 <= i < k ==>
      FetchSummaries(host, cluster, ids).rows[i] == GetConnector(host, cluster, ids[i]).value
    ensures FetchSummaries(host, cluster, ids).failure == Some(GetConnector(host, cluster, ids[k]).error)
  {
    if k > 0 {
      FetchStopsAtFirstFailure(host, cluster, ids[1..], k - 1);
    }
  }

  /** The optional callbacks of `refreshConnectors`: which of them the caller passed. */
  datatype Observer = Observer(onBegin: bool, onFetchComplete: bool, onLoadingBegin: bool, onComplete: bool)

  /** One callback invocation, with its arguments. */
  datatype Event =
    | Begin                                           // onBegin()
    | FetchComplete(ids: seq<string>)                 // onFetchComplete(connectorIds)
    | LoadingBegin(index: nat, total: nat, id: string) // onLoadingBegin(i, len(connectorIds), connectorId)
    | Complete                                        // onClomplete()

  /** The `onLoadingBegin` calls for the first `count` names. */
  function LoadingEvents(observer: Observer, ids: seq<string>, count: nat): seq<Event>
    requires count <= |ids|
  {
    if count == 0 || !observer.onLoadingBegin then []
    else LoadingEvents(observer, ids, count - 1) + [LoadingBegin(count, |ids|, ids[count - 1])]
  }

  /** How many summaries the loop started to fetch: the stored ones and the failing one. */
  function Attempted(f: Fetched): nat
  {
    |f.rows| + if f.failure.Some? then 1 else 0
  }

  /** The callbacks `refreshConnectors` fires after it listed the names `ids`, in order. */
  function ListedEvents(host: string, cluster: Cluster, observer: Observer, ids: seq<string>): seq<Event>
  {
    var f := FetchSummaries(host, cluster, ids);
    (if observer.onFetchComplete then [FetchComplete(ids)] else [])
    + LoadingEvents(observer, ids, Attempted(f))
    + (if f.failure.None? && observer.onComplete then [Complete] else [])
  }

  /** The callbacks `refreshConnectors` fires, in order. */
  function RefreshEvents(host: string, cluster: Cluster, observer: Observer): seq<Event>
  {
    (if observer.onBegin then [Begin] else [])
    + (match GetConnectors(host, cluster)
       case Failure(_) => []
       case Success(ids) => ListedEvents(host, cluster, observer, ids))
  }

  /** The callbacks of a refresh whose name listing succeeded, piece by piece. */
  lemma RefreshEventsWhenListed(host: string, cluster: Cluster, observer: Observer, ids: seq<string>)
    requires GetConnectors(host, cluster) == Success(ids)
    ensures var f := FetchSummaries(host, cluster, ids);
            RefreshEvents(host, cluster, observer)
            == (if observer.onBegin then [Begin] else [])
            + (if observer.onFetchComplete then [FetchComplete(ids)] else [])
            + LoadingEvents(observer, ids, Attempted(f))
            + (if f.failure.None? && observer.onComplete then [Complete] else [])
  {
    var begun := if observer.onBegin then [Begin] else [];
    var f := FetchSummaries(host, cluster, ids);
    var fetched := if observer.onFetchComplete then [FetchComplete(ids)] else [];
    var completed := if f.failure.None? && observer.onComplete then [Complete] else [];
    calc {
      RefreshEvents(host, cluster, observer);
      begun + ListedEvents(host, cluster, observer, ids);
      begun + (fetched + LoadingEvents(observer, ids, Attempted(f)) + completed);
    }
  }

  /** One more iteration of the loading loop adds at most its own `onLoadingBegin` call. */
  lemma LoadingEventsStep(observer: Observer, ids: seq<string>, i: nat)
    requires 1 <= i <= |ids|
    ensures LoadingEvents(observer, ids, i)
         == LoadingEvents(observer, ids, i - 1) + if observer.onLoadingBegin then [LoadingBegin(i, |ids|, ids[i - 1])] else []
  {
  }

  /** With `onLoadingBegin` passed, it is called once per name, `i` running from 1 up. */
  lemma {:induction false} LoadingEventsInOrder(observer: Observer, ids: seq<string>, count: nat)
    requires observer.onLoadingBegin && count <= |ids|
    ensures |LoadingEvents(observer, ids, count)| == count
    ensures forall j :: 0 <= j < count ==> LoadingEvents(observer, ids, count)[j] == LoadingBegin(j + 1, |ids|, ids[j])
  {
    if count > 0 {
      LoadingEventsInOrder(observer, ids, count - 1);
    }
  }

  /** `onLoadingBegin` calls never signal completion. */
  lemma {:induction false} LoadingEventsNeverComplete(observer: Observer, ids: seq<string>, count: nat)
    requires count <= |ids|
    ensures Complete !in LoadingEvents(observer, ids, count)
  {
    if count > 0 && observer.onLoadingBegin {
      LoadingEventsNeverComplete(observer, ids, count - 1);
    }
  }

  /** The shape of the callback sequence of a refresh that loaded `count` of the names `ids`, every callback passed. */
  lemma AllCallbacks(ids: seq<string>, count: nat, es: seq<Event>, tail: seq<Event>)
    requires count <= |ids|
    requires es == [Begin] + [FetchComplete(ids)] + LoadingEvents(Observer(true, true, true, true), ids, count) + tail
    ensures |es| == count + 2 + |tail| && es[0] == Begin && es[1] == FetchComplete(ids)
    ensures forall j :: 0 <= j < count ==> es[j + 2] == LoadingBegin(j + 1, |ids|, ids[j])
    ensures es[count + 2..] == tail
    ensures Complete in es <==> Complete in tail
  {
    LoadingEventsInOrder(Observer(true, true, true, true), ids, count);
    LoadingEventsNeverComplete(Observer(true, true, true, true), ids, count);
  }

  /**
   * A refresh that succeeds, with every callback passed, signals begin, then the
   * fetched names, then loading `i` of `n` for every name in the cluster's order,
   * then completion.
   */
  lemma RefreshEventsOnSuccess(host: string, cluster: Cluster, observer: Observer)
    requires observer == Observer(true, true, true, true)
    requires Refreshed(host, cluster).failure.None?
    ensures GetConnectors(host, cluster).Success?
    ensures var ids := GetConnectors(host, cluster).value;
            var es := RefreshEvents(host, cluster, observer);
            && |es| == |ids| + 3
            && es[0] == Begin
            && es[1] == FetchComplete(ids)
            && (forall j :: 0 <= j < |ids| ==> es[j + 2] == LoadingBegin(j + 1, |ids|, ids[j]))
            && es[|ids| + 2] == Complete
  {
    var ids := GetConnectors(host, cluster).value;
    RefreshEventsWhenListed(host, cluster, observer, ids);
    AllCallbacks(ids, |ids|, RefreshEvents(host, cluster, observer), [Complete]);
  }

  /**
   * A refresh whose summary fetch fails at position `k` has signalled loading
   * for the failing name last and never signals completion.
   */
  lemma RefreshEventsOnFailure(host: string, cluster: Cluster, observer: Observer, k: nat)
    requires observer == Observer(true, true, true, true)
    requires GetConnectors(host, cluster).Success?
    requires k < |GetConnectors(host, cluster).value|
    requires forall i :: 0 <= i < k ==> GetConnector(host, cluster, GetConnectors(host, cluster).value[i]).Success?
    requires GetConnector(host, cluster, GetConnectors(host, cluster).value[k]).Failure?
    ensures var ids := GetConnectors(host, cluster).value;
            var es := RefreshEvents(host, cluster, observer);
            && |es| == k + 3
            && es[0] == Begin
            && es[1] == FetchComplete(ids)
            && (forall j :: 0 <= j <= k ==> es[j + 2] == LoadingBegin(j + 1, |ids|, ids[j]))
            && Complete !in es
  {
    var ids := GetConnectors(host, cluster).value;
    RefreshEventsWhenListed(host, cluster, observer, ids);
    FetchStopsAtFirstFailure(host, cluster, ids, k);
    var es := RefreshEvents(host, cluster, observer);
    AllCallbacks(ids, k + 1, es, []);
  }

  /** `onClomplete` is called exactly when it was passed and the refresh raised nothing. */
  lemma CompleteIffRefreshed(host: string, cluster: Cluster, observer: Observer)
    ensures Complete in RefreshEvents(host, cluster, observer)
        <==> observer.onComplete && Refreshed(host, cluster).failure.None?
  {
    if GetConnectors(host, cluster).Success? {
      var ids := GetConnectors(host, cluster).value;
      LoadingEventsNeverComplete(observer, ids, Attempted(FetchSummaries(host, cluster, ids)));
    }
  }

  /** A refresh whose name listing fails fires at most `onBegin`. */
  lemma RefreshEventsWhenListingFails(host: string, cluster: Cluster, observer: Observer)
    requires GetConnectors(host, cluster).Failure?
    ensures RefreshEvents(host, cluster, observer) == if observer.onBegin then [Begin] else []
  {
  }

  // ---------------------------------------------------------------------------
  // The application object
  // ---------------------------------------------------------------------------

  /** `App`: the data source of the connector list. */
  class App {
    /** The cluster URL, `https://HOST:PORT`. */
    const host: string
    /** `self.__connectors`: one summary per row. */
    var connectors: seq<Summary>

    /** The list-screen start: the list is empty until the first refresh. */
    constructor (host: string)
      ensures this.host == host && connectors == []
    {
      this.host := host;
      connectors := [];
    }

    /** `number_of_rows()`. */
    function NumberOfRows(): (n: nat)
      reads this
      ensures n == |connectors|
    {
      |connectors|
    }

    /** `get_data(i)`: the row at index `i`, with Python's negative indices. */
    function GetData(i: int): (r: Result<Summary, Python.IndexError>)
      reads this
      ensures r.Success? <==> -(NumberOfRows() as int) <= i < NumberOfRows()
      ensures r.Failure? ==> r.error == Python.IndexError(i)
      ensures 0 <= i < NumberOfRows() ==> r == Success(connectors[i])
      ensures -(NumberOfRows() as int) <= i < 0 ==> r == Success(connectors[NumberOfRows() + i])
    {
      Python.Index(connectors, i)
    }

    /**
     * `refreshConnectors(onBegin, onFetchComplete, onLoadingBegin, onClomplete)`:
     * empties the list, lists the names, then appends one summary per name in
     * the listed order; a failing request stops it, leaving the rows fetched so
     * far. `fired` records the callbacks it calls, in order.
     */
    method RefreshConnectors(cluster: Cluster, observer: Observer) returns (outcome: Outcome<Error>, fired: seq<Event>)
      modifies this
      ensures connectors == Refreshed(host, cluster).rows
      ensures outcome == match Refreshed(host, cluster).failure { case None => Pass case Some(e) => Fail(e) }
      ensures fired == RefreshEvents(host, cluster, observer)
    {
      connectors := [];
      var begun := if observer.onBegin then [Begin] else [];

      var listed := GetConnectors(host, cluster);
      if listed.Failure? {
        outcome, fired := Fail(listed.error), begun;
        return;
      }
      var ids := listed.value;
      var fetched := if observer.onFetchComplete then [FetchComplete(ids)] else [];
      connectors := [];
      var failure, loading := LoadSummaries(cluster, observer, ids);
      RefreshEventsWhenListed(host, cluster, observer, ids);
      if failure.Some? {
        outcome, fired := Fail(failure.value), begun + fetched + loading;
      } else {
        var completed := if observer.onComplete then [Complete] else [];
        outcome, fired := Pass, begun + fetched + loading + completed;
      }
    }

    /**
     * The loop of `refreshConnectors`: appends the summary of each listed name in
     * turn, announcing each with `onLoadingBegin(i, n, id)`, and stops at the
     * first summary that cannot be fetched.
     */
    method LoadSummaries(cluster: Cluster, observer: Observer, ids: seq<string>) returns (failure: Option<Error>, loading: seq<Event>)
      requires connectors == []
      modifies this
      ensures connectors == FetchSummaries(host, cluster, ids).rows
      ensures failure == FetchSummaries(host, cluster, ids).failure
      ensures loading == LoadingEvents(observer, ids, Attempted(FetchSummaries(host, cluster, ids)))
    {
      loading := [];
      var i := 1;
      while i <= |ids|
        invariant 1 <= i <= |ids| + 1
        invariant |connectors| == i - 1
        invariant forall k :: 0 <= k < i - 1 ==> GetConnector(host, cluster, ids[k]) == Success(connectors[k])
        invariant loading == LoadingEvents(observer, ids, i - 1)
      {
        var id := ids[i - 1];
        if observer.onLoadingBegin {
          loading := loading + [LoadingBegin(i, |ids|, id)];
        }
        LoadingEventsStep(observer, ids, i);
        var summary := GetConnector(host, cluster, id);
        if summary.Failure? {
          FetchStopsAtFirstFailure(host, cluster, ids, i - 1);
          failure := Some(summary.error);
          return;
        }
        connectors := connectors + [summary.value];
        i := i + 1;
      }
      FetchAllSucceeds(host, cluster, ids);
      failure := None;
    }

    /**
     * `refreshConnector(index)`: re-fetches the summary of the connector named in
     * row `index` and stores it in that row; a failure leaves the list as it was.
     */
    method RefreshConnector(cluster: Cluster, index: int) returns (outcome: Outcome<Error>)
      modifies this
      ensures |connectors| == |old(connectors)|
      ensures Python.Position(|old(connectors)|, index).None? ==>
        outcome == Fail(OutOfRange(Python.IndexError(index))) && connectors == old(connectors)
      ensures Python.Position(|old(connectors)|, index).Some? ==>
        var k := Python.Position(|old(connectors)|, index).value;
        match GetConnector(host, cluster, old(connectors)[k].name)
        case Failure(e) => outcome == Fail(e) && connectors == old(connectors)
        case Success(s) => outcome == Pass && connectors == old(connectors)[k := s]
    {
      var row := Python.Index(connectors, index);
      if row.Failure? {
        return Fail(OutOfRange(row.error));
      }
      var summary := GetConnector(host, cluster, row.value.name);
      if summary.Failure? {
        return Fail(summary.error);
      }
      var k := Python.Position(|connectors|, index).value;
      connectors := connectors[k := summary.value];
      outcome := Pass;
    }
  }

  /** After a successful refresh the list has one row per listed name, row `i` summarising name `i`. */
  lemma RefreshedRowsFollowListing(host: string, cluster: Cluster)
    requires Refreshed(host, cluster).failure.None?
    ensures GetConnectors(host, cluster).Success?
    ensures var ids := GetConnectors(host, cluster).value;
            var rows := Refreshed(host, cluster).rows;
            |rows| == |ids| && forall i :: 0 <= i < |ids| ==> Success(rows[i]) == GetConnector(host, cluster, ids[i])
  {
    FetchedRowsFollowNames(host, cluster, GetConnectors(host, cluster).value);
  }

  // ---------------------------------------------------------------------------
  // Connector-config templates
  // ---------------------------------------------------------------------------

  const JdbcSourceClass := "io.confluent.connect.jdbc.JdbcSourceConnector"
  const JdbcSinkClass := "io.confluent.connect.jdbc.JdbcSinkConnector"

  // The three templates below are the dicts that app.py fills key by key; no
  // key is assigned twice, so each is its assignments in program order.

  /** The `--jdbcSource` template. */
  function JdbcSourceTemplate(): (config: seq<(string, Json)>)
    ensures Dict.Distinct(Dict.Keys(config))
    ensures Dict.Get(config, "tasks.max") == Some(JStr("1"))
    ensures Dict.Get(config, "connector.class") == Some(JStr(JdbcSourceClass))
    ensures "topic.prefix" in Dict.Keys(config) && "topics" !in Dict.Keys(config)
  {
    var config := [ ("connector.class", JStr("io.confluent.connect.jdbc.JdbcSourceConnector")),
                   ("mode", JStr("timestamp")),
                   ("poll.interval.ms", JStr("7200000")),
                   ("tasks.max", JStr("1")),
                   ("timestamp.column.name", JNull),
                   ("topic.prefix", JNull),
                   ("connection.url", JNull),
                   ("query", JNull)];
    assert Dict.Keys(config) == ["connector.class", "mode", "poll.interval.ms", "tasks.max", "timestamp.column.name", "topic.prefix", "connection.url", "query"];
    config
  }

  /** The `--jdbcSink` template. */
  function JdbcSinkTemplate(): (config: seq<(string, Json)>)
    ensures Dict.Distinct(Dict.Keys(config))
    ensures Dict.Get(config, "tasks.max") == Some(JStr("1"))
    ensures Dict.Get(config, "connector.class") == Some(JStr(JdbcSinkClass))
    ensures "topics" in Dict.Keys(config) && "topic.prefix" !in Dict.Keys(config)
  {
    var config := [ ("connector.class", JStr("io.confluent.connect.jdbc.JdbcSinkConnector")),
                   ("auto.create", JStr("true")),
                   ("insert.mode", JStr("upsert")),
                   ("tasks.max", JStr("1")),
                   ("pk.fields", JNull),
                   ("pk.mode", JNull),
                   ("connection.url", JNull),
                   ("topics", JNull)];
    assert Dict.Keys(config) == ["connector.class", "auto.create", "insert.mode", "tasks.max", "pk.fields", "pk.mode", "connection.url", "topics"];
    config
  }

  /** The template used without either flag. */
  function DefaultTemplate(): (config: seq<(string, Json)>)
    ensures Dict.Distinct(Dict.Keys(config))
    ensures Dict.Get(config, "tasks.max") == Some(JStr("1"))
    ensures Dict.Get(config, "connector.class") == Some(JNull)
    ensures "topics" in Dict.Keys(config) && "topic.prefix" !in Dict.Keys(config)
  {
    var config := [ ("connector.class", JNull),
                   ("tasks.max", JStr("1")),
                   ("topics", JNull)];
    assert Dict.Keys(config) == ["connector.class", "tasks.max", "topics"];
    config
  }

  /** `configFromArgs(args)`: the config template chosen by `--jdbcSource` / `--jdbcSink`, the source flag first. */
  function ConfigFromArgs(jdbcSource: bool, jdbcSink: bool): (config: seq<(string, Json)>)
    ensures Dict.Distinct(Dict.Keys(config))
    ensures Dict.Get(config, "tasks.max") == Some(JStr("1"))
    ensures Dict.Get(config, "connector.class") ==
      if jdbcSource then Some(JStr(JdbcSourceClass))
      else if jdbcSink then Some(JStr(JdbcSinkClass))
      else Some(JNull)
    ensures jdbcSource ==> "topic.prefix" in Dict.Keys(config) && "topics" !in Dict.Keys(config)
    ensures !jdbcSource ==> "topics" in Dict.Keys(config) && "topic.prefix" !in Dict.Keys(config)
  {
    if jdbcSource then JdbcSourceTemplate()
    else if jdbcSink then JdbcSinkTemplate()
    else DefaultTemplate()
  }

  // ---------------------------------------------------------------------------
  // Creating a connector from an edited template
  // ---------------------------------------------------------------------------

  /** The result of `openEditor(content)`: whether the saved text differs, and the saved text. */
  datatype Edit = Edit(changed: bool, content: string)

  /**
   * The decision part of `openEditor(content)`, given the text the editor left
   * in the temporary file: the text is stripped and compared with `content`.
   */
  function OpenEditor(content: string, saved: string): (e: Edit)
    ensures e.content == Python.Strip(saved)
    ensures e.changed <==> Python.Strip(saved) != content
  {
    var updated := Python.Strip(saved);
    Edit(updated != content, updated)
  }

  /**
   * Saving the buffer untouched is no change, even when the editor adds
   * whitespace around it (a trailing newline, say), as long as the offered
   * text has none of its own at either end.
   */
  lemma UntouchedBufferIsUnchanged(content: string, before: string, after: string)
    requires Python.Stripped(content)
    requires Python.AllSpace(before) && Python.AllSpace(after)
    ensures !OpenEditor(content, before + content + after).changed
  {
    Python.StripPadded(before, content, after);
  }

  /** The document `buildConnector` offers for editing: `{"name": name, "config": config}`. */
  function NewConnectorDocument(name: string, config: seq<(string, Json)>): (d: Json)
    ensures d.JObj? && Dict.Keys(d.fields) == ["name", "config"]
    ensures Dict.Get(d.fields, "name") == Some(JStr(name))
    ensures Dict.Get(d.fields, "config") == Some(JObj(config))
  {
    var named := Dict.Set([], "name", JStr(name));
    assert Dict.Keys(named) == ["name"];
    var content := Dict.Set(named, "config", JObj(config));
    assert "config" !in Dict.Keys(named);
    JObj(content)
  }

  /** `createConnector(content)`: parse the text, then `POST {host}/connectors` with it. */
  function CreateConnector(host: string, cluster: Cluster, content: string): (o: Outcome<Error>)
    ensures cluster.parse(content).None? ==> o == Fail(Malformed(content))
    ensures cluster.parse(content).Some? ==>
      (o.Pass? <==> Http.IsSuccess(cluster.create(cluster.parse(content).value).statusCode))
  {
    match cluster.parse(content)
    case None => Fail(Malformed(content))
    case Some(doc) =>
      match Receive(Http.POST, ConnectorsUrl(host), cluster.create(doc))
      case Success(_) => Pass
      case Failure(e) => Fail(e)
  }

  /** What `buildConnector` ends with: nothing submitted, or the submitted text and the outcome of the request. */
  datatype BuildOutcome = Unchanged | Submitted(content: string, outcome: Outcome<Error>)

  /**
   * `buildConnector(name, config)`: offers `render` of the new-connector document
   * (`prettyfyJson(..., sortKeys=False)`) for editing, and creates the connector
   * from the stripped saved text only when it differs from what was offered.
   */
  function BuildConnector(
    host: string, cluster: Cluster, name: string, config: seq<(string, Json)>,
    render: Json -> string, saved: string): (r: BuildOutcome)
    ensures r.Unchanged? <==> Python.Strip(saved) == render(NewConnectorDocument(name, config))
    ensures r.Submitted? ==>
      r.content == Python.Strip(saved) && r.outcome == CreateConnector(host, cluster, Python.Strip(saved))
  {
    var edit := OpenEditor(render(NewConnectorDocument(name, config)), saved);
    if edit.changed then Submitted(edit.content, CreateConnector(host, cluster, edit.content)) else Unchanged
  }

  /** Closing the editor on the untouched template creates no connector. */
  lemma UntouchedTemplateCreatesNothing(
    host: string, cluster: Cluster, name: string, config: seq<(string, Json)>,
    render: Json -> string, before: string, after: string)
    requires Python.Stripped(render(NewConnectorDocument(name, config)))
    requires Python.AllSpace(before) && Python.AllSpace(after)
    ensures BuildConnector(host, cluster, name, config, render,
                           before + render(NewConnectorDocument(name, config)) + after).Unchanged?
  {
    UntouchedBufferIsUnchanged(render(NewConnectorDocument(name, config)), before, after);
  }
}
