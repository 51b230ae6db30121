/**
 * Dataset chains, from `src/bqwizard/commands/utils/dataset_utils.py`.
 *
 * A chain is an ordered list of dataset references. `create_dataset_chain`
 * creates the ones that are missing; `create_dataset_chain_views` lists the
 * tables of every dataset and, for each table of every dataset but the last,
 * creates in the next dataset a view of the same name that selects from it.
 * Each loop is specified by a recursive function giving the calls it makes
 * and the exception it ends with; the lemmas relate those functions to
 * independent descriptions (the missing datasets, the planned views).
 */
module DatasetUtils {
  import opened Segments
  import opened Warehouse

  // ---------------------------------------------------------------------------
  // create_view

  /** The id of the view `create_view` creates. */
  function ViewId(target: string, table: string): string
  {
    target + "." + table
  }

  /** The table the view selects from. */
  function ViewSource(source: string, table: string): string
  {
    source + "." + table
  }

  function ViewSql(source: string, target: string, table: string): string
  {
    "\n    CREATE OR REPLACE VIEW `" + ViewId(target, table) + "` AS\n\n    SELECT * FROM `" + ViewSource(source, table) + "`\n    "
  }

  /**
   * The view lies in the target dataset and the table it reads lies in the
   * source dataset, and both carry the same (dot-free) table name as their
   * last segment.
   */
  lemma ViewMirrorsSource(source: string, target: string, table: string)
    requires '.' !in table
    ensures Split(ViewId(target, table)) == Split(target) + [table]
    ensures Split(ViewSource(source, table)) == Split(source) + [table]
  {
    SplitDotted(target, table);
    SplitDotted(source, table);
    SplitWithoutDot(table);
  }

  /** `create_view(client, source_dataset_ref, target_dataset_ref, target_table)`. */
  method CreateView(client: Client, source: string, target: string, table: string)
    modifies client`log
    ensures client.log == old(client.log) + [QueryCall(ViewSql(source, target, table))]
  {
    var sql := ViewSql(source, target, table);
    client.Query(sql);
  }

  // ---------------------------------------------------------------------------
  // check_dataset_existance and create_dataset

  /** `check_dataset_existance(client, dataset)`: only NotFound is turned into `False`. */
  function CheckDatasetExistance(s: Snapshot, dataset: string): (r: Result<bool>)
    ensures r.Err? ==> !r.error.NotFound?
  {
    match Resolve(s.project, dataset)
    case None => Err(MalformedRef(dataset))
    case Some(id) =>
      match StatusOf(s, id)
      case Found => Ok(true)
      case Missing => Ok(false)
      case Denied => Err(Forbidden(id))
  }

  /**
   * The lookup answers `True` for a dataset that exists, `False` exactly when
   * the warehouse reports it not found, and otherwise lets the failure
   * through: a malformed reference or a dataset that may not be read.
   */
  lemma CheckDatasetExistanceCases(s: Snapshot, dataset: string)
    ensures var r := CheckDatasetExistance(s, dataset);
            var id := Resolve(s.project, dataset);
            && (r == Ok(true) <==> id.Some? && id.value in s.existing && id.value !in s.forbidden)
            && (r == Ok(false) <==> ListingOf(s, dataset).Err? && ListingOf(s, dataset).error.NotFound?)
            && (r.Err? <==> Dots(dataset) >= 2 || (id.Some? && id.value in s.forbidden))
            && (Dots(dataset) >= 2 ==> r == Err(MalformedRef(dataset)))
  {
  }

  /** `create_dataset(client, target_dataset_ref)`: the reference goes to the client as it is. */
  method CreateDataset(client: Client, ref: string) returns (err: Option<Error>)
    modifies client
    ensures client.log == old(client.log) + [CreateDatasetCall(ref)]
    ensures (client.existing, err) == CreateOutcome(old(client.State()), ref)
  {
    err := client.CreateDataset(ref);
  }

  // ---------------------------------------------------------------------------
  // create_dataset_chain

  /** Concatenating call sequences is associative. */
  lemma Associative(a: seq<Call>, b: seq<Call>, c: seq<Call>)
    ensures (a + b) + c == a + (b + c)
  {
  }

  /** What `create_dataset_chain` does, dataset by dataset. */
  function ChainEffect(s: Snapshot, datasets: seq<string>): (e: Effect)
    decreases |datasets|
  {
    if datasets == [] then Effect(s.existing, [], None)
    else
      var d := datasets[0];
      match CheckDatasetExistance(s, d)
      case Err(error) => Effect(s.existing, [], Some(error))
      case Ok(true) => ChainEffect(s, datasets[1..])
      case Ok(false) =>
        var outcome := CreateOutcome(s, d);
        if outcome.1 != None then Effect(outcome.0, [CreateDatasetCall(d)], outcome.1)
        else
          var rest := ChainEffect(s.(existing := outcome.0), datasets[1..]);
          Effect(rest.existing, [CreateDatasetCall(d)] + rest.calls, rest.err)
  }

  /** `create_dataset_chain(client, datasets)`. */
  method CreateDatasetChain(client: Client, datasets: seq<string>) returns (err: Option<Error>)
    modifies client
    ensures var e := ChainEffect(old(client.State()), datasets);
            client.log == old(client.log) + e.calls && client.existing == e.existing && err == e.err
  {
    ghost var s0 := client.State();
    ghost var log0 := client.log;
    ghost var done: seq<Call> := [];
    var i := 0;
    while i < |datasets|
      invariant 0 <= i <= |datasets|
      invariant client.State() == s0.(existing := client.existing)
      invariant client.log == log0 + done
      invariant var rest := ChainEffect(client.State(), datasets[i..]);
                ChainEffect(s0, datasets) == Effect(rest.existing, done + rest.calls, rest.err)
    {
      var dataset := datasets[i];
      assert datasets[i..][1..] == datasets[i + 1..];
      var found := CheckDatasetExistance(client.State(), dataset);
      match found {
        case Err(e) =>
          return Some(e);
        case Ok(true) =>
        case Ok(false) =>
          err := CreateDataset(client, dataset);
          Associative(log0, done, [CreateDatasetCall(dataset)]);
          Associative(done, [CreateDatasetCall(dataset)], ChainEffect(client.State(), datasets[i + 1..]).calls);
          done := done + [CreateDatasetCall(dataset)];
          if err != None {
            return;
          }
      }
      i := i + 1;
    }
    err := None;
  }

  /**
   * The references of `datasets`, in order, that name a dataset absent from
   * `existing` and not already named by an earlier reference or in `named`:
   * the first reference to each missing dataset.
   */
  function MissingRefs(s: Snapshot, datasets: seq<string>, named: set<DatasetId>): seq<string>
    decreases |datasets|
  {
    if datasets == [] then []
    else
      var id := Resolve(s.project, datasets[0]);
      if id.None? then MissingRefs(s, datasets[1..], named)
      else if id.value !in s.existing && id.value !in named then [datasets[0]] + MissingRefs(s, datasets[1..], named + {id.value})
      else MissingRefs(s, datasets[1..], named + {id.value})
  }

  function CreateCalls(refs: seq<string>): seq<Call>
  {
    seq(|refs|, k requires 0 <= k < |refs| => CreateDatasetCall(refs[k]))
  }

  /** Every reference resolves, to a dataset that may be read. */
  predicate AllUsable(s: Snapshot, datasets: seq<string>)
  {
    forall i :: 0 <= i < |datasets| ==>
      Resolve(s.project, datasets[i]).Some? && Resolve(s.project, datasets[i]).value !in s.forbidden
  }

  /**
   * The chain runs to the end exactly when every reference resolves to a
   * readable dataset; datasets that existed are kept, and on success every
   * dataset of the chain exists.
   */
  lemma {:induction false} ChainSucceedsWhenUsable(s: Snapshot, datasets: seq<string>)
    ensures var e := ChainEffect(s, datasets);
            && (e.err == None <==> AllUsable(s, datasets))
            && s.existing <= e.existing
            && (e.err == None ==> forall i :: 0 <= i < |datasets| ==> Resolve(s.project, datasets[i]).value in e.existing)
    decreases |datasets|
  {
    if datasets != [] {
      var d := datasets[0];
      var rest := datasets[1..];
      var e := ChainEffect(s, datasets);
      assert forall i :: 0 <= i < |rest| ==> rest[i] == datasets[i + 1];
      match CheckDatasetExistance(s, d)
      case Err(error) =>
        assert !AllUsable(s, datasets) by {
          assert Resolve(s.project, datasets[0]).None? || Resolve(s.project, datasets[0]).value in s.forbidden;
        }
      case Ok(true) =>
        ChainSucceedsWhenUsable(s, rest);
      case Ok(false) =>
        var s' := s.(existing := s.existing + {Resolve(s.project, d).value});
        ChainSucceedsWhenUsable(s', rest);
        assert AllUsable(s, rest) == AllUsable(s', rest);
    }
  }

  /** A creation call the chain may make on `s`: of one of `datasets`, naming a dataset missing in `s`. */
  predicate CreatesMissing(s: Snapshot, datasets: seq<string>, c: Call)
  {
    && c.CreateDatasetCall?
    && c.ref in datasets
    && Resolve(s.project, c.ref).Some?
    && Resolve(s.project, c.ref).value !in s.existing
  }

  /**
   * The chain asks for the creation of datasets that were missing when it
   * started and of nothing else.
   */
  lemma {:induction false} ChainCreatesOnlyMissing(s: Snapshot, datasets: seq<string>)
    ensures forall c :: c in ChainEffect(s, datasets).calls ==> CreatesMissing(s, datasets, c)
    decreases |datasets|
  {
    if datasets != [] {
      var d := datasets[0];
      var rest := datasets[1..];
      var e := ChainEffect(s, datasets);
      assert forall r :: r in rest ==> r in datasets;
      match CheckDatasetExistance(s, d)
      case Err(error) =>
      case Ok(true) =>
        ChainCreatesOnlyMissing(s, rest);
      case Ok(false) =>
        var id := Resolve(s.project, d).value;
        if CreateOutcome(s, d).1 == None {
          var s' := s.(existing := s.existing + {id});
          ChainCreatesOnlyMissing(s', rest);
          assert e.calls == [CreateDatasetCall(d)] + ChainEffect(s', rest).calls;
        }
    }
  }

  /**
   * The references before the first one that does not resolve to a dataset
   * that may be read: the part of the chain that the loop gets through.
   */
  function UsablePrefix(s: Snapshot, datasets: seq<string>): (r: seq<string>)
    ensures r <= datasets
    ensures r == datasets <==> AllUsable(s, datasets)
    decreases |datasets|
  {
    if datasets == [] then []
    else
      var id := Resolve(s.project, datasets[0]);
      if id.Some? && id.value !in s.forbidden then [datasets[0]] + UsablePrefix(s, datasets[1..]) else []
  }

  /** Which references are usable does not depend on which datasets exist. */
  lemma {:induction false} UsablePrefixIgnoresExisting(s: Snapshot, datasets: seq<string>, existing: set<DatasetId>)
    ensures UsablePrefix(s.(existing := existing), datasets) == UsablePrefix(s, datasets)
    decreases |datasets|
  {
    if datasets != [] {
      UsablePrefixIgnoresExisting(s, datasets[1..], existing);
    }
  }

  /**
   * Whether the chain runs to the end or stops at a malformed or unreadable
   * reference, it has asked for exactly the missing datasets named before the
   * point where it stops, each once, under its first reference, in the order
   * they are given.
   */
  lemma {:induction false} ChainCreatesExactlyMissing(s: Snapshot, datasets: seq<string>)
    ensures ChainEffect(s, datasets).calls == CreateCalls(MissingRefs(s, UsablePrefix(s, datasets), {}))
    decreases |datasets|
  {
    if datasets != [] {
      var id := Resolve(s.project, datasets[0]);
      var rest := datasets[1..];
      if id.None? || id.value in s.forbidden {
        assert UsablePrefix(s, datasets) == [];
      } else if id.value in s.existing {
        ChainCreatesExactlyMissing(s, rest);
        ChainStepFound(s, datasets);
      } else {
        var s' := s.(existing := s.existing + {id.value});
        ChainCreatesExactlyMissing(s', rest);
        UsablePrefixIgnoresExisting(s, rest, s'.existing);
        ChainStepMissing(s, datasets);
        CreateCallsCons(datasets[0], MissingRefs(s', UsablePrefix(s, rest), {}));
      }
    }
  }

  /** A first reference to a dataset that exists adds nothing to the chain or to the missing references. */
  lemma ChainStepFound(s: Snapshot, datasets: seq<string>)
    requires datasets != []
    requires Resolve(s.project, datasets[0]).Some?
    requires Resolve(s.project, datasets[0]).value in s.existing - s.forbidden
    ensures ChainEffect(s, datasets) == ChainEffect(s, datasets[1..])
    ensures MissingRefs(s, UsablePrefix(s, datasets), {}) == MissingRefs(s, UsablePrefix(s, datasets[1..]), {})
  {
    var id := Resolve(s.project, datasets[0]).value;
    var prefix := UsablePrefix(s, datasets[1..]);
    assert UsablePrefix(s, datasets) == [datasets[0]] + prefix;
    assert ([datasets[0]] + prefix)[1..] == prefix;
    MissingRefsSkipsExisting(s, prefix, {}, {id});
    assert MissingRefs(s, [datasets[0]] + prefix, {}) == MissingRefs(s, prefix, {} + {id});
  }

  /** A first reference to a missing dataset creates it and puts it first among the missing references. */
  lemma ChainStepMissing(s: Snapshot, datasets: seq<string>)
    requires datasets != []
    requires Resolve(s.project, datasets[0]).Some?
    requires Resolve(s.project, datasets[0]).value !in s.existing + s.forbidden
    ensures var s' := s.(existing := s.existing + {Resolve(s.project, datasets[0]).value});
      && ChainEffect(s, datasets).calls == [CreateDatasetCall(datasets[0])] + ChainEffect(s', datasets[1..]).calls
      && MissingRefs(s, UsablePrefix(s, datasets), {}) == [datasets[0]] + MissingRefs(s', UsablePrefix(s, datasets[1..]), {})
  {
    var id := Resolve(s.project, datasets[0]).value;
    var prefix := UsablePrefix(s, datasets[1..]);
    assert UsablePrefix(s, datasets) == [datasets[0]] + prefix;
    assert ([datasets[0]] + prefix)[1..] == prefix;
    MissingRefsShift(s, prefix, {}, {id});
  }

  /** The creation calls for a list of references start with the call for its first one. */
  lemma CreateCallsCons(ref: string, refs: seq<string>)
    ensures CreateCalls([ref] + refs) == [CreateDatasetCall(ref)] + CreateCalls(refs)
  {
    assert CreateCalls([ref] + refs)[1..] == CreateCalls(refs);
  }

  /** The datasets that the given references resolve to; malformed references name none. */
  function Ids(s: Snapshot, refs: seq<string>): set<DatasetId>
  {
    set r | r in refs && Resolve(s.project, r).Some? :: Resolve(s.project, r).value
  }

  /**
   * Whether the chain runs to the end or stops at a malformed or unreadable
   * reference, it adds exactly the datasets named by the references it got
   * through, and no other.
   */
  lemma {:induction false} ChainExistingExact(s: Snapshot, datasets: seq<string>)
    ensures ChainEffect(s, datasets).existing == s.existing + Ids(s, UsablePrefix(s, datasets))
    decreases |datasets|
  {
    if datasets != [] {
      var d := datasets[0];
      var rest := datasets[1..];
      var id := Resolve(s.project, d);
      if id.None? || id.value in s.forbidden {
        assert UsablePrefix(s, datasets) == [];
      } else {
        var prefix := UsablePrefix(s, rest);
        assert UsablePrefix(s, datasets) == [d] + prefix;
        assert Ids(s, [d] + prefix) == {id.value} + Ids(s, prefix);
        if id.value in s.existing {
          ChainStepFound(s, datasets);
          ChainExistingExact(s, rest);
        } else {
          var s' := s.(existing := s.existing + {id.value});
          ChainExistingExact(s', rest);
          UsablePrefixIgnoresExisting(s, rest, s'.existing);
          assert Ids(s', prefix) == Ids(s, prefix);
        }
      }
    }
  }

  /** Datasets that exist and datasets already named are skipped alike. */
  lemma {:induction false} MissingRefsShift(s: Snapshot, datasets: seq<string>, named: set<DatasetId>, added: set<DatasetId>)
    ensures MissingRefs(s.(existing := s.existing + added), datasets, named) == MissingRefs(s, datasets, named + added)
    decreases |datasets|
  {
    if datasets != [] {
      var id := Resolve(s.project, datasets[0]);
      if id.Some? {
        MissingRefsShift(s, datasets[1..], named + {id.value}, added);
        assert named + {id.value} + added == named + added + {id.value};
      } else {
        MissingRefsShift(s, datasets[1..], named, added);
      }
    }
  }

  /** Naming a dataset that exists does not change which references are reported missing. */
  lemma MissingRefsSkipsExisting(s: Snapshot, datasets: seq<string>, named: set<DatasetId>, present: set<DatasetId>)
    requires present <= s.existing
    ensures MissingRefs(s, datasets, named + present) == MissingRefs(s, datasets, named)
  {
    MissingRefsShift(s, datasets, named, present);
    assert s.(existing := s.existing + present) == s;
  }

  /** Running the chain a second time, after a run that succeeded, creates nothing. */
  lemma {:induction false} ChainIsIdempotent(s: Snapshot, datasets: seq<string>)
    requires ChainEffect(s, datasets).err == None
    ensures var e := ChainEffect(s, datasets);
            ChainEffect(s.(existing := e.existing), datasets) == Effect(e.existing, [], None)
  {
    var e := ChainEffect(s, datasets);
    ChainSucceedsWhenUsable(s, datasets);
    ChainOverPresent(s.(existing := e.existing), datasets);
  }

  /** A chain of readable datasets that all exist does nothing. */
  lemma {:induction false} ChainOverPresent(s: Snapshot, datasets: seq<string>)
    requires AllUsable(s, datasets)
    requires forall i :: 0 <= i < |datasets| ==> Resolve(s.project, datasets[i]).value in s.existing
    ensures ChainEffect(s, datasets) == Effect(s.existing, [], None)
    decreases |datasets|
  {
    if datasets != [] {
      assert forall i :: 0 <= i < |datasets[1..]| ==> datasets[1..][i] == datasets[i + 1];
      ChainOverPresent(s, datasets[1..]);
    }
  }

  // ---------------------------------------------------------------------------
  // create_dataset_chain_views

  /** The view statements for `tables` of `source`, placed in `target`, in listing order. */
  function ViewCalls(source: string, target: string, tables: seq<string>): seq<Call>
  {
    seq(|tables|, k requires 0 <= k < |tables| => QueryCall(ViewSql(source, target, tables[k])))
  }

  /**
   * The view statements issued for the tables of `chain[0]`: in `chain[1]`,
   * none when `chain[0]` is the last dataset.
   */
  function ViewsOf(chain: seq<string>, tables: seq<string>): seq<Call>
    requires chain != []
  {
    if |chain| > 1 then ViewCalls(chain[0], chain[1], tables) else []
  }

  /** The calls one round of the outer loop makes on `chain[0]`, given the listing it got. */
  function RoundCalls(chain: seq<string>, listed: Result<seq<string>>): seq<Call>
    requires chain != []
  {
    [ListTablesCall(chain[0])] + (if listed.Ok? then ViewsOf(chain, listed.value) else [])
  }

  /** What `create_dataset_chain_views` does on `chain`. */
  function ChainViews(s: Snapshot, chain: seq<string>): (e: Effect)
    decreases |chain|
  {
    if chain == [] then Effect(s.existing, [], None)
    else
      var listed := ListingOf(s, chain[0]);
      if listed.Err? then Effect(s.existing, RoundCalls(chain, listed), Some(listed.error))
      else
        var rest := ChainViews(s, chain[1..]);
        Effect(s.existing, RoundCalls(chain, listed) + rest.calls, rest.err)
  }

  /** One more table adds its view statement at the end, unless `chain[0]` is the last dataset. */
  lemma ViewsOfNext(chain: seq<string>, tables: seq<string>, j: nat)
    requires chain != [] && j < |tables|
    ensures ViewsOf(chain, tables[..j + 1]) ==
              ViewsOf(chain, tables[..j]) +
              (if |chain| > 1 then [QueryCall(ViewSql(chain[0], chain[1], tables[j]))] else [])
  {
    if |chain| > 1 {
      var a := ViewCalls(chain[0], chain[1], tables[..j + 1]);
      var b := ViewCalls(chain[0], chain[1], tables[..j]) + [QueryCall(ViewSql(chain[0], chain[1], tables[j]))];
      assert |a| == |b|;
      forall k | 0 <= k < |a| ensures a[k] == b[k] {
        if k < j {
          assert tables[..j + 1][k] == tables[..j][k];
        }
      }
    }
  }

  /**
   * The inner loop of `create_dataset_chain_views` over the tables listed for
   * `chain[0]`: a view per table, in the next dataset `chain[1]`, unless
   * `chain[0]` is the last one.
   */
  method CreateViewsOfTables(client: Client, chain: seq<string>, tables: seq<string>)
    requires chain != []
    modifies client`log
    ensures client.log == old(client.log) + ViewsOf(chain, tables)
  {
    var j := 0;
    while j < |tables|
      invariant 0 <= j <= |tables|
      invariant client.log == old(client.log) + ViewsOf(chain, tables[..j])
    {
      var table := tables[j];
      ViewsOfNext(chain, tables, j);
      if |chain| > 1 {
        CreateView(client, chain[0], chain[1], table);
      }
      j := j + 1;
    }
    assert tables[..j] == tables;
  }

  /**
   * One round of the outer loop of `create_dataset_chain_views`: list
   * `chain[0]` and, when that succeeds, create the views of its tables.
   */
  method MirrorDataset(client: Client, chain: seq<string>) returns (listed: Result<seq<string>>)
    requires chain != []
    modifies client`log
    ensures listed == ListingOf(client.State(), chain[0])
    ensures client.log == old(client.log) + RoundCalls(chain, listed)
  {
    listed := client.ListTables(chain[0]);
    if listed.Ok? {
      CreateViewsOfTables(client, chain, listed.value);
    }
  }

  /** `create_dataset_chain_views(client, datasets)`. */
  method CreateDatasetChainViews(client: Client, datasets: seq<string>) returns (err: Option<Error>)
    modifies client`log
    ensures var e := ChainViews(old(client.State()), datasets);
            client.log == old(client.log) + e.calls && err == e.err
  {
    ghost var s0 := client.State();
    ghost var log0 := client.log;
    ghost var done: seq<Call> := [];
    var index := 0;
    while index < |datasets|
      invariant 0 <= index <= |datasets|
      invariant client.State() == s0
      invariant client.log == log0 + done
      invariant var rest := ChainViews(s0, datasets[index..]);
                ChainViews(s0, datasets) == Effect(s0.existing, done + rest.calls, rest.err)
    {
      assert datasets[index..][1..] == datasets[index + 1..];
      ghost var rest := ChainViews(s0, datasets[index + 1..]);
      var listed := MirrorDataset(client, datasets[index..]);
      ghost var round := RoundCalls(datasets[index..], listed);
      Associative(log0, done, round);
      Associative(done, round, rest.calls);
      done := done + round;
      if listed.Err? {
        return Some(listed.error);
      }
      index := index + 1;
    }
    err := None;
  }

  /** The tables `list_tables` reports for a dataset; none when it fails. */
  function Listed(s: Snapshot, dataset: string): seq<string>
  {
    match ListingOf(s, dataset)
    case Ok(tables) => tables
    case Err(_) => []
  }

  /**
   * The views the chain is meant to create, independently of the loop: for
   * every dataset but the last, one view per listed table, in the next
   * dataset, dataset by dataset and in listing order.
   */
  function PlannedViews(s: Snapshot, chain: seq<string>): seq<Call>
    decreases |chain|
  {
    if |chain| < 2 then []
    else ViewCalls(chain[0], chain[1], Listed(s, chain[0])) + PlannedViews(s, chain[1..])
  }

  /** The total number of tables listed for `datasets`. */
  function TableCount(s: Snapshot, datasets: seq<string>): nat
    decreases |datasets|
  {
    if datasets == [] then 0 else |Listed(s, datasets[0])| + TableCount(s, datasets[1..])
  }

  /** The view statements among `calls`. */
  function Queries(calls: seq<Call>): seq<Call>
    decreases |calls|
  {
    if calls == [] then []
    else (if calls[0].QueryCall? then [calls[0]] else []) + Queries(calls[1..])
  }

  /** The references listed among `calls`. */
  function ListedRefs(calls: seq<Call>): seq<string>
    decreases |calls|
  {
    if calls == [] then []
    else (if calls[0].ListTablesCall? then [calls[0].ref] else []) + ListedRefs(calls[1..])
  }

  lemma {:induction false} QueriesAppend(a: seq<Call>, b: seq<Call>)
    ensures Queries(a + b) == Queries(a) + Queries(b)
    decreases |a|
  {
    if a != [] {
      var ab := a + b;
      assert ab[0] == a[0] && ab[1..] == a[1..] + b;
      QueriesAppend(a[1..], b);
      var head := if a[0].QueryCall? then [a[0]] else [];
      assert Queries(ab) == head + Queries(a[1..] + b);
      assert Queries(a) == head + Queries(a[1..]);
    } else {
      assert a + b == b;
    }
  }

  lemma {:induction false} ListedRefsAppend(a: seq<Call>, b: seq<Call>)
    ensures ListedRefs(a + b) == ListedRefs(a) + ListedRefs(b)
    decreases |a|
  {
    if a != [] {
      var ab := a + b;
      assert ab[0] == a[0] && ab[1..] == a[1..] + b;
      ListedRefsAppend(a[1..], b);
      var head := if a[0].ListTablesCall? then [a[0].ref] else [];
      assert ListedRefs(ab) == head + ListedRefs(a[1..] + b);
      assert ListedRefs(a) == head + ListedRefs(a[1..]);
    } else {
      assert a + b == b;
    }
  }

  lemma {:induction false} ViewCallsAreQueries(source: string, target: string, tables: seq<string>)
    ensures Queries(ViewCalls(source, target, tables)) == ViewCalls(source, target, tables)
    ensures ListedRefs(ViewCalls(source, target, tables)) == []
    decreases |tables|
  {
    if tables != [] {
      assert ViewCalls(source, target, tables)[1..] == ViewCalls(source, target, tables[1..]);
      ViewCallsAreQueries(source, target, tables[1..]);
    }
  }

  /**
   * The chain stops with an exception exactly when some dataset cannot be
   * listed (malformed, unreadable or missing), and then with the exception of
   * the first such dataset.
   */
  lemma {:induction false} ChainViewsFailsAtFirstUnlisted(s: Snapshot, chain: seq<string>)
    ensures ChainViews(s, chain).err == None <==> forall j :: 0 <= j < |chain| ==> ListingOf(s, chain[j]).Ok?
    ensures forall k :: 0 <= k < |chain| && ListingOf(s, chain[k]).Err? &&
                        (forall j :: 0 <= j < k ==> ListingOf(s, chain[j]).Ok?) ==>
              ChainViews(s, chain).err == Some(ListingOf(s, chain[k]).error)
    decreases |chain|
  {
    if chain != [] {
      var rest := chain[1..];
      assert forall j :: 0 <= j < |rest| ==> rest[j] == chain[j + 1];
      ChainViewsFailsAtFirstUnlisted(s, rest);
      forall k | 0 <= k < |chain| && ListingOf(s, chain[k]).Err? &&
                 (forall j :: 0 <= j < k ==> ListingOf(s, chain[j]).Ok?)
        ensures ChainViews(s, chain).err == Some(ListingOf(s, chain[k]).error)
      {
        if k > 0 {
          assert ListingOf(s, chain[0]).Ok?;
          assert ListingOf(s, rest[k - 1]).Err?;
          assert forall j :: 0 <= j < k - 1 ==> ListingOf(s, rest[j]).Ok?;
        }
      }
    }
  }

  /** A dataset that can be listed contributes its listing call, then its views, then the rest of the chain. */
  lemma ChainViewsUnfold(s: Snapshot, chain: seq<string>)
    requires chain != [] && ListingOf(s, chain[0]).Ok?
    ensures ChainViews(s, chain).calls ==
              [ListTablesCall(chain[0])] + (ViewsOf(chain, Listed(s, chain[0])) + ChainViews(s, chain[1..]).calls)
    ensures ChainViews(s, chain).err == ChainViews(s, chain[1..]).err
  {
    Associative([ListTablesCall(chain[0])], ViewsOf(chain, Listed(s, chain[0])), ChainViews(s, chain[1..]).calls);
  }

  /** When every dataset can be listed, the chain lists every dataset, the last one included, in order. */
  lemma {:induction false} ChainViewsListsEvery(s: Snapshot, chain: seq<string>)
    requires forall j :: 0 <= j < |chain| ==> ListingOf(s, chain[j]).Ok?
    ensures ListedRefs(ChainViews(s, chain).calls) == chain
    decreases |chain|
  {
    if chain != [] {
      var rest := chain[1..];
      forall j | 0 <= j < |rest| ensures ListingOf(s, rest[j]).Ok? {
        assert rest[j] == chain[j + 1];
      }
      ChainViewsListsEvery(s, rest);
      ChainViewsUnfold(s, chain);
      var head := [ListTablesCall(chain[0])];
      var views := ViewsOf(chain, Listed(s, chain[0]));
      var tail := ChainViews(s, rest).calls;
      ListedRefsAppend(head, views + tail);
      ListedRefsAppend(views, tail);
      assert ListedRefs(head) == [chain[0]];
      if |chain| > 1 {
        ViewCallsAreQueries(chain[0], chain[1], Listed(s, chain[0]));
      }
      assert ListedRefs(views) == [];
      assert ListedRefs(views + tail) == rest;
      assert ListedRefs(ChainViews(s, chain).calls) == [chain[0]] + rest;
      assert chain == [chain[0]] + rest;
    }
  }

  /** When every dataset can be listed, the chain issues exactly the planned view statements, in order. */
  lemma {:induction false} ChainViewsFollowsPlan(s: Snapshot, chain: seq<string>)
    requires forall j :: 0 <= j < |chain| ==> ListingOf(s, chain[j]).Ok?
    ensures Queries(ChainViews(s, chain).calls) == PlannedViews(s, chain)
    decreases |chain|
  {
    if chain != [] {
      var rest := chain[1..];
      forall j | 0 <= j < |rest| ensures ListingOf(s, rest[j]).Ok? {
        assert rest[j] == chain[j + 1];
      }
      ChainViewsFollowsPlan(s, rest);
      ChainViewsUnfold(s, chain);
      var head := [ListTablesCall(chain[0])];
      var views := ViewsOf(chain, Listed(s, chain[0]));
      var tail := ChainViews(s, rest).calls;
      QueriesAppend(head, views + tail);
      QueriesAppend(views, tail);
      assert Queries(head) == [];
      if |chain| > 1 {
        ViewCallsAreQueries(chain[0], chain[1], Listed(s, chain[0]));
      }
    }
  }

  /** The plan has one view statement per table of every dataset but the last. */
  lemma {:induction false} PlannedViewsCount(s: Snapshot, chain: seq<string>)
    requires chain != []
    ensures |PlannedViews(s, chain)| == TableCount(s, chain[..|chain| - 1])
    decreases |chain|
  {
    if |chain| > 1 {
      PlannedViewsCount(s, chain[1..]);
      assert chain[..|chain| - 1][1..] == chain[1..][..|chain| - 2];
    }
  }

  /**
   * The `k`-th table of `chain[i]` (not the last dataset) gives the view
   * statement at position `TableCount(chain[..i]) + k` of the plan: a view
   * in `chain[i + 1]` with that table's name, reading that table.
   */
  lemma {:induction false} PlannedViewAt(s: Snapshot, chain: seq<string>, i: nat, k: nat)
    requires i + 1 < |chain| && k < |Listed(s, chain[i])|
    ensures TableCount(s, chain[..i]) + k < |PlannedViews(s, chain)|
    ensures PlannedViews(s, chain)[TableCount(s, chain[..i]) + k] ==
              QueryCall(ViewSql(chain[i], chain[i + 1], Listed(s, chain[i])[k]))
    decreases i
  {
    var here := ViewCalls(chain[0], chain[1], Listed(s, chain[0]));
    assert PlannedViews(s, chain) == here + PlannedViews(s, chain[1..]);
    if i == 0 {
      assert chain[..i] == [];
    } else {
      var rest := chain[1..];
      PlannedViewAt(s, rest, i - 1, k);
      assert rest[i - 1] == chain[i] && rest[i] == chain[i + 1];
      assert chain[..i][1..] == rest[..i - 1];
      assert TableCount(s, chain[..i]) == |here| + TableCount(s, rest[..i - 1]);
    }
  }

  /**
   * A chain whose datasets were first brought into existence by a
   * successful `create_dataset_chain` can be listed throughout, so
   * `create_dataset_chain_views` runs to the end on it.
   */
  lemma ViewsAfterChainSucceed(s: Snapshot, datasets: seq<string>)
    requires ChainEffect(s, datasets).err == None
    ensures ChainViews(s.(existing := ChainEffect(s, datasets).existing), datasets).err == None
  {
    var s' := s.(existing := ChainEffect(s, datasets).existing);
    ChainSucceedsWhenUsable(s, datasets);
    ChainViewsFailsAtFirstUnlisted(s', datasets);
  }
}
