/**
 * The BigQuery client as the utilities see it.
 *
 * The utilities only ever ask the client four things: does a dataset exist
 * (`get_dataset`), create a dataset (`create_dataset`), list the tables of a
 * dataset (`list_tables`) and run a statement (`query(...).result()`). The
 * warehouse behind the client is reduced to the set of datasets that exist,
 * the datasets the caller may not read, and a fixed table listing per
 * dataset; every call the utilities make that acts on the warehouse or lists
 * it is appended to a log, so that the order and number of those calls can
 * be stated.
 */
module Warehouse {
  import opened Segments

  datatype Option<T> = None | Some(value: T)

  /** A dataset as the warehouse names it: project and dataset id. */
  datatype DatasetId = DatasetId(project: string, dataset: string)

  /** The exceptions the utilities raise or let through. */
  datatype Error =
    | BadArgumentUsage(message: string)   // click.BadArgumentUsage
    | BadParameter(message: string)       // click.BadParameter
    | MalformedRef(ref: string)           // the client cannot turn a string into a dataset
    | NotFound(id: DatasetId)             // google.api_core.exceptions.NotFound
    | Forbidden(id: DatasetId)            // any other failure of a request on a dataset
    | Conflict(id: DatasetId)             // creating a dataset that already exists
    | UnpackMismatch(value: string)       // Python's ValueError from `a, b, c = s.split(".")`

  datatype Result<T> = Ok(value: T) | Err(error: Error)

  /** A call on the client that creates, lists or runs something. */
  datatype Call =
    | CreateDatasetCall(ref: string)
    | ListTablesCall(ref: string)
    | QueryCall(sql: string)

  /** What one utility did: the datasets afterwards, the calls it made, the exception it ended with. */
  datatype Effect = Effect(existing: set<DatasetId>, calls: seq<Call>, err: Option<Error>)

  /** What `get_dataset` finds for one dataset. */
  datatype Status = Found | Missing | Denied

  /** The warehouse as seen through one client, as a value. */
  datatype Snapshot = Snapshot(
    project: string,                          // client.project, the default project
    forbidden: set<DatasetId>,                // requests on these fail (permissions)
    listings: map<DatasetId, seq<string>>,    // table ids in `list_tables` order
    existing: set<DatasetId>)                 // the datasets that exist

  /**
   * How the client turns a dataset string into a dataset: `dataset` lies in
   * the client's project, `project.dataset` names both, anything else is
   * refused by the client library before a request is sent.
   */
  function Resolve(defaultProject: string, ref: string): (r: Option<DatasetId>)
    ensures r.Some? <==> Dots(ref) <= 1
  {
    SegmentCount(ref);
    var parts := Split(ref);
    if |parts| == 1 then Some(DatasetId(defaultProject, ref))
    else if |parts| == 2 then Some(DatasetId(parts[0], parts[1]))
    else None
  }

  function StatusOf(s: Snapshot, id: DatasetId): Status
  {
    if id in s.forbidden then Denied
    else if id in s.existing then Found
    else Missing
  }

  function TablesOf(s: Snapshot, id: DatasetId): seq<string>
  {
    if id in s.listings then s.listings[id] else []
  }

  /** `client.create_dataset(ref)`: the datasets afterwards and the exception, if any. */
  function CreateOutcome(s: Snapshot, ref: string): (r: (set<DatasetId>, Option<Error>))
    ensures r.1 == None <==> Resolve(s.project, ref).Some? && StatusOf(s, Resolve(s.project, ref).value) == Missing
    ensures r.1 == None ==> r.0 == s.existing + {Resolve(s.project, ref).value}
    ensures r.1 != None ==> r.0 == s.existing
  {
    match Resolve(s.project, ref)
    case None => (s.existing, Some(MalformedRef(ref)))
    case Some(id) =>
      match StatusOf(s, id)
      case Denied => (s.existing, Some(Forbidden(id)))
      case Found => (s.existing, Some(Conflict(id)))
      case Missing => (s.existing + {id}, None)
  }

  /** `client.list_tables(ref)`, as the table ids it yields. */
  function ListingOf(s: Snapshot, ref: string): (r: Result<seq<string>>)
    ensures r.Ok? <==> Resolve(s.project, ref).Some? && StatusOf(s, Resolve(s.project, ref).value) == Found
  {
    match Resolve(s.project, ref)
    case None => Err(MalformedRef(ref))
    case Some(id) =>
      match StatusOf(s, id)
      case Denied => Err(Forbidden(id))
      case Missing => Err(NotFound(id))
      case Found => Ok(TablesOf(s, id))
  }

  class Client {
    const project: string
    const forbidden: set<DatasetId>
    const listings: map<DatasetId, seq<string>>
    var existing: set<DatasetId>
    /** Every call made on this client, oldest first. */
    var log: seq<Call>

    function State(): Snapshot
      reads this`existing
    {
      Snapshot(project, forbidden, listings, existing)
    }

    constructor (project: string, forbidden: set<DatasetId>, listings: map<DatasetId, seq<string>>,
                 existing: set<DatasetId>)
      ensures State() == Snapshot(project, forbidden, listings, existing)
      ensures log == []
    {
      this.project := project;
      this.forbidden := forbidden;
      this.listings := listings;
      this.existing := existing;
      this.log := [];
    }

    method CreateDataset(ref: string) returns (err: Option<Error>)
      modifies this
      ensures log == old(log) + [CreateDatasetCall(ref)]
      ensures (existing, err) == CreateOutcome(old(State()), ref)
    {
      log := log + [CreateDatasetCall(ref)];
      var outcome := CreateOutcome(State(), ref);
      existing, err := outcome.0, outcome.1;
    }

    method ListTables(ref: string) returns (r: Result<seq<string>>)
      modifies this`log
      ensures log == old(log) + [ListTablesCall(ref)]
      ensures r == ListingOf(State(), ref)
    {
      log := log + [ListTablesCall(ref)];
      r := ListingOf(State(), ref);
    }

    method Query(sql: string)
      modifies this`log
      ensures log == old(log) + [QueryCall(sql)]
    {
      log := log + [QueryCall(sql)];
    }
  }
}
