/**
 * Table and dataset references, and the single-view helper, of
 * `src/bqwizard/commands/utils/table_utils.py`.
 *
 * A reference is accepted, completed with the client's project or refused
 * according to how many dot-separated segments it has; the lemmas below
 * restate each rule in terms of the number of dots, or of the pieces a
 * reference is built from, so that the branches on `len(split("."))` are
 * checked against a description that does not mention them.
 */
module TableUtils {
  import opened Segments
  import opened Warehouse

  const ShortFormatMessage := "Please provide the table in the following format: dataset.table"
  const FullFormatMessage := "Please provide the table in the following format: project.dataset.table"

  function CreationFormatMessage(ref: string): string
  {
    "Invalid target_dataset_ref format for creation: " + ref + ". Expected 'dataset' or 'project.dataset'."
  }

  // ---------------------------------------------------------------------------
  // check_dataset_existence

  /** The (project, dataset) pair `check_dataset_existence` asks the client about. */
  function ExistenceTarget(clientProject: string, dataset: string): DatasetId
  {
    var parts := Split(dataset);
    if |parts| == 2 || |parts| == 3 then DatasetId(parts[0], parts[1])
    else DatasetId(clientProject, dataset)
  }

  /** `check_dataset_existence`: every failure of the lookup reads as "does not exist". */
  function CheckDatasetExistence(s: Snapshot, dataset: string): (b: bool)
    ensures b <==> ExistenceTarget(s.project, dataset) in s.existing && ExistenceTarget(s.project, dataset) !in s.forbidden
  {
    StatusOf(s, ExistenceTarget(s.project, dataset)) == Found
  }

  /**
   * A dataset, a `project.dataset` reference and a `project.dataset.table` id
   * are looked up as the dataset they name; a reference with three or more
   * dots is looked up whole, as a dataset id in the client's project.
   */
  lemma ExistenceTargetCases(clientProject: string, dataset: string, p: string, d: string, t: string)
    requires '.' !in p && '.' !in d && '.' !in t
    ensures ExistenceTarget(clientProject, d) == DatasetId(clientProject, d)
    ensures ExistenceTarget(clientProject, p + "." + d) == DatasetId(p, d)
    ensures ExistenceTarget(clientProject, p + "." + d + "." + t) == DatasetId(p, d)
    ensures Dots(dataset) >= 3 ==> ExistenceTarget(clientProject, dataset) == DatasetId(clientProject, dataset)
  {
    SplitWithoutDot(d);
    TwoSegments(p, d);
    ThreeSegments(p, d, t);
    SegmentCount(dataset);
  }

  /** A lookup that fails for a reason other than absence is a plain `False`. */
  lemma CheckDatasetExistenceSwallowsFailures(s: Snapshot, dataset: string)
    requires ExistenceTarget(s.project, dataset) in s.forbidden
    ensures !CheckDatasetExistence(s, dataset)
  {
  }

  // ---------------------------------------------------------------------------
  // validate_table_id

  /** `validate_table_id(table, type)`: `Ok(true)` or the exception it raises. */
  function ValidateTableId(table: string, kind: string): (r: Result<bool>)
    ensures r.Ok? ==> r.value
  {
    if |Split(table)| <= 1 && kind == "short" then Err(BadArgumentUsage(ShortFormatMessage))
    else if |Split(table)| <= 2 && kind == "full" then Err(BadArgumentUsage(FullFormatMessage))
    else Ok(true)
  }

  /**
   * "short" refuses a reference without a dot, "full" one with fewer than
   * two dots, and any other kind accepts everything.
   */
  lemma ValidateTableIdRaises(table: string, kind: string)
    ensures ValidateTableId(table, kind).Err? <==>
              (kind == "short" && Dots(table) == 0) || (kind == "full" && Dots(table) <= 1)
    ensures kind == "short" && Dots(table) == 0 ==>
              ValidateTableId(table, kind) == Err(BadArgumentUsage(ShortFormatMessage))
    ensures kind == "full" && Dots(table) <= 1 ==>
              ValidateTableId(table, kind) == Err(BadArgumentUsage(FullFormatMessage))
    ensures kind != "short" && kind != "full" ==> ValidateTableId(table, kind) == Ok(true)
  {
    SegmentCount(table);
  }

  // ---------------------------------------------------------------------------
  // get_table_id

  /** `get_table_id(project, table)`. */
  function GetTableId(project: string, table: string): (r: Result<string>)
    ensures r.Ok? ==> r.value == table || r.value == project + "." + table
  {
    var parts := Split(table);
    if |parts| == 3 then Ok(table)
    else if |parts| == 2 then Ok(project + "." + table)
    else
      match ValidateTableId(table, "short")
      case Err(e) => Err(e)
      case Ok(_) => Ok(project + "." + table)
  }

  /**
   * A `project.dataset.table` id comes back unchanged, a `dataset.table`
   * reference is put in the given project, a bare name is refused, and a
   * reference with three or more dots is not refused but prefixed like a
   * `dataset.table` one.
   */
  lemma GetTableIdCases(project: string, table: string)
    ensures Dots(table) == 2 ==> GetTableId(project, table) == Ok(table)
    ensures Dots(table) == 1 ==> GetTableId(project, table) == Ok(project + "." + table)
    ensures Dots(table) == 0 ==> GetTableId(project, table) == Err(BadArgumentUsage(ShortFormatMessage))
    ensures Dots(table) >= 3 ==> GetTableId(project, table) == Ok(project + "." + table)
  {
    SegmentCount(table);
  }

  /** The dots of `a.b` are those of `a`, one more, and those of `b`. */
  lemma DotsDotted(a: string, b: string)
    ensures Dots(a + "." + b) == Dots(a) + 1 + Dots(b)
  {
    SegmentCount(a);
    SegmentCount(b);
    SegmentCount(a + "." + b);
    SplitDotted(a, b);
  }

  /**
   * With a dot-free project, a `dataset.table` or `project.dataset.table`
   * reference becomes a three-segment id, the extra segment being the
   * project, and `get_table_id` leaves that id as it is.
   */
  lemma GetTableIdQualifies(project: string, table: string)
    requires '.' !in project
    requires Dots(table) == 1 || Dots(table) == 2
    ensures GetTableId(project, table).Ok?
    ensures |Split(GetTableId(project, table).value)| == 3
    ensures Dots(table) == 1 ==> Split(GetTableId(project, table).value) == [project] + Split(table)
    ensures GetTableId(project, GetTableId(project, table).value) == GetTableId(project, table)
  {
    GetTableIdCases(project, table);
    var r := GetTableId(project, table).value;
    if Dots(table) == 1 {
      assert r == project + "." + table;
      SplitDotted(project, table);
      SplitWithoutDot(project);
      DotsDotted(project, table);
      assert Dots(project) == 0 by { SegmentCount(project); }
    }
    SegmentCount(r);
    GetTableIdCases(project, r);
  }

  // ---------------------------------------------------------------------------
  // create_dataset

  /** The reference `create_dataset` hands to the client, or the exception it raises first. */
  function CreateDatasetRef(project: string, ref: string): (r: Result<string>)
    ensures r.Ok? ==> r.value == ref || r.value == project + "." + ref
  {
    var parts := Split(ref);
    if |parts| == 1 then Ok(project + "." + ref)
    else if |parts| > 2 then Err(BadParameter(CreationFormatMessage(ref)))
    else Ok(ref)
  }

  /** `dataset` is put in the client's project, `project.dataset` kept, anything longer refused. */
  lemma CreateDatasetRefCases(project: string, ref: string)
    ensures Dots(ref) == 0 ==> CreateDatasetRef(project, ref) == Ok(project + "." + ref)
    ensures Dots(ref) == 1 ==> CreateDatasetRef(project, ref) == Ok(ref)
    ensures Dots(ref) >= 2 ==> CreateDatasetRef(project, ref) == Err(BadParameter(CreationFormatMessage(ref)))
  {
    SegmentCount(ref);
  }

  /**
   * With a dot-free project, an accepted reference is normalised to a
   * `project.dataset` reference naming the same dataset, normalising again
   * changes nothing, and `check_dataset_existence` looks up that same dataset.
   */
  lemma CreateDatasetRefNamesSameDataset(project: string, ref: string)
    requires '.' !in project
    requires CreateDatasetRef(project, ref).Ok?
    ensures Dots(CreateDatasetRef(project, ref).value) == 1
    ensures Resolve(project, CreateDatasetRef(project, ref).value) == Resolve(project, ref)
    ensures CreateDatasetRef(project, CreateDatasetRef(project, ref).value) == CreateDatasetRef(project, ref)
    ensures Resolve(project, ref) == Some(ExistenceTarget(project, ref))
  {
    CreateDatasetRefCases(project, ref);
    SegmentCount(ref);
    var n := CreateDatasetRef(project, ref).value;
    if Dots(ref) == 0 {
      SplitWithoutDot(ref);
      TwoSegments(project, ref);
      SegmentCount(n);
    }
    CreateDatasetRefCases(project, n);
  }

  /** What `create_dataset` does to the warehouse. */
  function CreateDatasetEffect(s: Snapshot, ref: string): (e: Effect)
    ensures e.err == None ==> s.existing < e.existing
    ensures e.err != None ==> e.existing == s.existing
    ensures |e.calls| <= 1
  {
    match CreateDatasetRef(s.project, ref)
    case Err(error) => Effect(s.existing, [], Some(error))
    case Ok(n) =>
      var outcome := CreateOutcome(s, n);
      Effect(outcome.0, [CreateDatasetCall(n)], outcome.1)
  }

  /**
   * A reference with two or more dots is refused before the client is called;
   * otherwise exactly one creation is requested, and it succeeds exactly when
   * the dataset was missing and readable, adding that dataset and no other.
   */
  lemma CreateDatasetEffectCases(s: Snapshot, ref: string)
    requires '.' !in s.project
    ensures Dots(ref) >= 2 ==>
              CreateDatasetEffect(s, ref) == Effect(s.existing, [], Some(BadParameter(CreationFormatMessage(ref))))
    ensures Dots(ref) <= 1 ==>
              var id := ExistenceTarget(s.project, ref);
              && CreateDatasetRef(s.project, ref).Ok?
              && CreateDatasetEffect(s, ref).calls == [CreateDatasetCall(CreateDatasetRef(s.project, ref).value)]
              && (CreateDatasetEffect(s, ref).err == None <==> id !in s.existing && id !in s.forbidden)
              && (CreateDatasetEffect(s, ref).err == None ==> CreateDatasetEffect(s, ref).existing == s.existing + {id})
              && (id in s.existing && id !in s.forbidden ==> CreateDatasetEffect(s, ref).err == Some(Conflict(id)))
  {
    CreateDatasetRefCases(s.project, ref);
    if Dots(ref) <= 1 {
      CreateDatasetRefNamesSameDataset(s.project, ref);
    }
  }

  /** `create_dataset(client, ref)`. */
  method CreateDataset(client: Client, ref: string) returns (err: Option<Error>)
    modifies client
    ensures var e := CreateDatasetEffect(old(client.State()), ref);
            client.log == old(client.log) + e.calls && client.existing == e.existing && err == e.err
  {
    var parts := Split(ref);
    var normalised := ref;
    if |parts| == 1 {
      normalised := client.project + "." + ref;
    } else if |parts| > 2 {
      return Some(BadParameter(CreationFormatMessage(ref)));
    }
    err := client.CreateDataset(normalised);
  }

  // ---------------------------------------------------------------------------
  // create_view

  function CreateViewSql(source: string, target: string): string
  {
    "\n            CREATE VIEW `" + target + "` AS SELECT * FROM `" + source + "`\n            "
  }

  /** What `create_view(client, source_table, target_table, force)` does, as written. */
  function CreateViewEffect(s: Snapshot, source: string, target: string, force: bool): (e: Effect)
    ensures s.existing <= e.existing
    ensures e.err == None && e.calls != [] ==> e.calls[|e.calls| - 1] == QueryCall(CreateViewSql(source, target))
  {
    var sourceOk := CheckDatasetExistence(s, source);
    var targetOk := CheckDatasetExistence(s, target);
    var parts := Split(target);
    if |parts| != 3 then Effect(s.existing, [], Some(UnpackMismatch(target)))
    else
      var sql := CreateViewSql(source, target);
      if sourceOk && targetOk then Effect(s.existing, [QueryCall(sql)], None)
      else if (sourceOk || targetOk) && force then
        var c := CreateDatasetEffect(s, parts[0] + "." + parts[1]);
        if c.err != None then c
        else Effect(c.existing, c.calls + [QueryCall(sql)], None)
      else Effect(s.existing, [], None)
  }

  /** `create_view(client, source_table, target_table, force)`. */
  method CreateView(client: Client, source: string, target: string, force: bool) returns (err: Option<Error>)
    modifies client
    ensures var e := CreateViewEffect(old(client.State()), source, target, force);
            client.log == old(client.log) + e.calls && client.existing == e.existing && err == e.err
  {
    var sourceOk := CheckDatasetExistence(client.State(), source);
    var targetOk := CheckDatasetExistence(client.State(), target);
    var parts := Split(target);
    if |parts| != 3 {
      return Some(UnpackMismatch(target));
    }
    var targetDataset := parts[0] + "." + parts[1];
    var sql := CreateViewSql(source, target);
    if sourceOk && targetOk {
      client.Query(sql);
      err := None;
    } else if (sourceOk || targetOk) && force {
      err := CreateDataset(client, targetDataset);
      if err != None {
        return;
      }
      client.Query(sql);
    } else {
      err := None;
    }
  }

  /**
   * A target id that is not exactly `project.dataset.table` fails at the unpack,
   * before any creation or query call; the two existence lookups, which change
   * nothing, have already run.
   */
  lemma CreateViewNeedsThreeSegments(s: Snapshot, source: string, target: string, force: bool)
    requires Dots(target) != 2
    ensures CreateViewEffect(s, source, target, force) == Effect(s.existing, [], Some(UnpackMismatch(target)))
  {
    SegmentCount(target);
  }

  /** When both datasets exist, exactly the view statement is issued. */
  lemma CreateViewWhenBothExist(s: Snapshot, source: string, p: string, d: string, t: string, force: bool)
    requires '.' !in p && '.' !in d && '.' !in t
    requires CheckDatasetExistence(s, source) && CheckDatasetExistence(s, p + "." + d + "." + t)
    ensures var target := p + "." + d + "." + t;
            CreateViewEffect(s, source, target, force) == Effect(s.existing, [QueryCall(CreateViewSql(source, target))], None)
  {
    ThreeSegments(p, d, t);
  }

  /** When neither dataset exists, or only one does and `force` is off, nothing is issued. */
  lemma CreateViewDoesNothing(s: Snapshot, source: string, p: string, d: string, t: string, force: bool)
    requires '.' !in p && '.' !in d && '.' !in t
    requires var target := p + "." + d + "." + t;
             var sourceOk := CheckDatasetExistence(s, source);
             var targetOk := CheckDatasetExistence(s, target);
             (!sourceOk && !targetOk) || (!force && !(sourceOk && targetOk))
    ensures CreateViewEffect(s, source, p + "." + d + "." + t, force) == Effect(s.existing, [], None)
  {
    ThreeSegments(p, d, t);
  }

  /**
   * With `force`, when the source dataset exists and the target dataset
   * `project.dataset` is missing (and readable), it is created and then the
   * view statement is issued.
   */
  lemma CreateViewForcedCreatesTarget(s: Snapshot, source: string, p: string, d: string, t: string)
    requires '.' !in p && '.' !in d && '.' !in t
    requires CheckDatasetExistence(s, source)
    requires DatasetId(p, d) !in s.existing && DatasetId(p, d) !in s.forbidden
    ensures var target := p + "." + d + "." + t;
            CreateViewEffect(s, source, target, true) ==
              Effect(s.existing + {DatasetId(p, d)},
                     [CreateDatasetCall(p + "." + d), QueryCall(CreateViewSql(source, target))], None)
  {
    ThreeSegments(p, d, t);
    TargetDatasetOf(s, p + "." + d + "." + t);
  }

  /**
   * With `force`, when the target dataset exists but the source dataset does
   * not, the code still asks the client to create the target dataset, which
   * fails with a conflict, and no view statement is issued.
   */
  lemma CreateViewForcedConflicts(s: Snapshot, source: string, p: string, d: string, t: string)
    requires '.' !in p && '.' !in d && '.' !in t
    requires !CheckDatasetExistence(s, source)
    requires DatasetId(p, d) in s.existing && DatasetId(p, d) !in s.forbidden
    ensures CreateViewEffect(s, source, p + "." + d + "." + t, true) ==
              Effect(s.existing, [CreateDatasetCall(p + "." + d)], Some(Conflict(DatasetId(p, d))))
  {
    ThreeSegments(p, d, t);
    TargetDatasetOf(s, p + "." + d + "." + t);
  }

  /**
   * `create_view` as its `force` documentation intends it: the target
   * dataset is created only when it is the one found missing.
   */
  function CreateViewEffectIntended(s: Snapshot, source: string, target: string, force: bool): (e: Effect)
    ensures s.existing <= e.existing
  {
    var sourceOk := CheckDatasetExistence(s, source);
    var targetOk := CheckDatasetExistence(s, target);
    var parts := Split(target);
    if |parts| != 3 then Effect(s.existing, [], Some(UnpackMismatch(target)))
    else
      var sql := CreateViewSql(source, target);
      if sourceOk && targetOk then Effect(s.existing, [QueryCall(sql)], None)
      else if (sourceOk || targetOk) && force then
        if targetOk then Effect(s.existing, [QueryCall(sql)], None)
        else
          var c := CreateDatasetEffect(s, parts[0] + "." + parts[1]);
          if c.err != None then c
          else Effect(c.existing, c.calls + [QueryCall(sql)], None)
      else Effect(s.existing, [], None)
  }

  /**
   * The target dataset of a three-segment target id: `create_dataset` keeps
   * its `project.dataset` reference and the client creates the dataset that
   * `check_dataset_existence` looked up for the target.
   */
  lemma TargetDatasetOf(s: Snapshot, target: string)
    requires |Split(target)| == 3
    ensures var parts := Split(target);
            var n := parts[0] + "." + parts[1];
            && CreateDatasetRef(s.project, n) == Ok(n)
            && Resolve(s.project, n) == Some(ExistenceTarget(s.project, target))
            && ExistenceTarget(s.project, target) == DatasetId(parts[0], parts[1])
  {
    var parts := Split(target);
    TwoSegments(parts[0], parts[1]);
    SegmentCount(parts[0] + "." + parts[1]);
    CreateDatasetRefCases(s.project, parts[0] + "." + parts[1]);
  }

  /** The intended `create_view` never asks for a dataset that exists, so it never ends in a conflict. */
  lemma {:induction false} CreateViewIntendedNeverConflicts(s: Snapshot, source: string, target: string, force: bool)
    ensures var e := CreateViewEffectIntended(s, source, target, force);
            e.err.Some? ==> !e.err.value.Conflict?
  {
    if |Split(target)| == 3 {
      TargetDatasetOf(s, target);
    }
  }

  /**
   * With `force`, a `project.dataset.table` target in a readable dataset and
   * one of the two datasets present, the intended `create_view` issues the
   * view statement last and the target dataset exists afterwards.
   */
  lemma {:induction false} CreateViewIntendedIssuesView(s: Snapshot, source: string, target: string)
    requires Dots(target) == 2
    requires ExistenceTarget(s.project, target) !in s.forbidden
    requires CheckDatasetExistence(s, source) || CheckDatasetExistence(s, target)
    ensures var e := CreateViewEffectIntended(s, source, target, true);
            && e.err == None
            && e.calls != []
            && e.calls[|e.calls| - 1] == QueryCall(CreateViewSql(source, target))
            && ExistenceTarget(s.project, target) in e.existing
  {
    SegmentCount(target);
    TargetDatasetOf(s, target);
  }
}
