# bqwizard reference and dataset-chain helpers, in Dafny

bqwizard is a command-line tool for BigQuery. This project models the two
helper modules its commands are built on:

- `src/bqwizard/commands/utils/table_utils.py` turns table and dataset
  references (`table`, `dataset.table`, `project.dataset.table`) into the
  form the client expects, validates them, checks whether a dataset exists,
  creates datasets and creates one view of a table (`create_view` with its
  `force` switch);
- `src/bqwizard/commands/utils/dataset_utils.py` creates a chain of datasets
  (`create_dataset_chain`) and then, for every table of every dataset in the
  chain but the last, a view of the same name in the next dataset
  (`create_dataset_chain_views`).

The reference rules of these helpers branch on the pieces
`str.split(".")` returns, so the module `Segments` models Python's split (at least one piece, empty pieces kept)
together with `".".join` as its inverse, and relates the number of pieces to
the number of dots. The module `Warehouse` models the BigQuery client as a
class: the datasets that exist, the datasets the caller may not read, a table
listing per dataset, and a log of the calls that create, list or query. The
modules `TableUtils` and `DatasetUtils` follow the two source files. Pure
decisions are functions, each with lemmas stating its cases in terms of dots
or of the pieces a reference is built from. The helpers that call the client
are module-level methods that take a `Client`, as the Python functions take
`client`; each is proved equal to a specification function of the warehouse
state it started from. Besides references, `create_view` branches on the two
existence checks and `force`, `create_dataset_chain` on the existence check of
each dataset, and `create_dataset_chain_views` on the position of each
dataset in the chain; the specification functions take the same branches. The loops of
`create_dataset_chain` and `create_dataset_chain_views` are `while` loops
whose invariants tie the call log to those functions; the inner loop of
`create_dataset_chain_views` and one round of its outer loop are separate
methods (`CreateViewsOfTables`, `MirrorDataset`) so that each loop carries
its own invariant.

## Model

| member | source | states |
|---|---|---|
| Segments.Split | src/bqwizard/commands/utils/table_utils.py:16 | `split(".")` returns at least one piece and no piece contains a dot |
| Segments.JoinSplit | src/bqwizard/commands/utils/table_utils.py:16 | joining the pieces with dots gives back the string: splitting loses nothing |
| Segments.SplitJoin | src/bqwizard/commands/utils/table_utils.py:16 | splitting a dot-join of dot-free pieces gives back the pieces |
| Segments.SegmentCount | src/bqwizard/commands/utils/table_utils.py:142 | the number of pieces is the number of dots plus one, so every `len(split("."))` test is a test on dots |
| Warehouse.Resolve | src/bqwizard/commands/utils/dataset_utils.py:7 | the client accepts a dataset string exactly when it has at most one dot: `dataset` lies in the client's project, `project.dataset` names both |
| Warehouse.CreateOutcome | src/bqwizard/commands/utils/table_utils.py:46 | `client.create_dataset` succeeds exactly when the reference resolves to a readable, missing dataset, and then adds that dataset and nothing else; on failure nothing changes |
| Warehouse.ListingOf | src/bqwizard/commands/utils/dataset_utils.py:36 | `client.list_tables` succeeds exactly when the reference resolves to a readable dataset that exists |
| Warehouse.Client.CreateDataset | src/bqwizard/commands/utils/dataset_utils.py:25 | the creation call is logged and the datasets and exception are those of `CreateOutcome` on the state before |
| Warehouse.Client.ListTables | src/bqwizard/commands/utils/dataset_utils.py:36 | the listing call is logged, the datasets do not change and the result is `ListingOf` the state |
| Warehouse.Client.Query | src/bqwizard/commands/utils/dataset_utils.py:19-20 | the statement is logged and nothing else changes |
| TableUtils.CheckDatasetExistence | src/bqwizard/commands/utils/table_utils.py:15-27 | `True` exactly when the dataset looked up exists and may be read; any other lookup reads as `False` |
| TableUtils.ExistenceTargetCases | src/bqwizard/commands/utils/table_utils.py:16-23 | `dataset` is looked up in the client's project; `project.dataset` and `project.dataset.table` as `project.dataset`; a reference with three or more dots as a whole dataset id in the client's project |
| TableUtils.CheckDatasetExistenceSwallowsFailures | src/bqwizard/commands/utils/table_utils.py:25-27 | a lookup on a dataset that may not be read answers `False` instead of raising |
| TableUtils.ValidateTableId | src/bqwizard/commands/utils/table_utils.py:63-71 | the function returns `True` whenever it does not raise |
| TableUtils.ValidateTableIdRaises | src/bqwizard/commands/utils/table_utils.py:63-71 | it raises exactly for "short" with no dot or "full" with at most one dot, with the matching message; any other kind accepts everything |
| TableUtils.GetTableId | src/bqwizard/commands/utils/table_utils.py:142-150 | the result is the reference itself or the reference prefixed with the project |
| TableUtils.GetTableIdCases | src/bqwizard/commands/utils/table_utils.py:142-150 | two dots: returned unchanged; one dot: prefixed with the project; no dot: `BadArgumentUsage` with the short-format message; three or more dots: prefixed, not refused |
| TableUtils.GetTableIdQualifies | src/bqwizard/commands/utils/table_utils.py:140-150 | with a dot-free project, a `dataset.table` or `project.dataset.table` reference becomes a three-segment id whose first segment is the project, and a second call leaves it unchanged |
| TableUtils.CreateDatasetRef | src/bqwizard/commands/utils/table_utils.py:40-44 | the reference handed on is the given one or the one prefixed with the client's project |
| TableUtils.CreateDatasetRefCases | src/bqwizard/commands/utils/table_utils.py:40-44 | no dot: prefixed with the client's project; one dot: kept; two or more dots: `BadParameter` with the creation-format message |
| TableUtils.CreateDatasetRefNamesSameDataset | src/bqwizard/commands/utils/table_utils.py:40-46 | an accepted reference is normalised to a one-dot reference naming the same dataset the client would resolve and `check_dataset_existence` would look up; normalising twice changes nothing |
| TableUtils.CreateDatasetEffect | src/bqwizard/commands/utils/table_utils.py:40-46 | at most one creation call; on success the datasets strictly grow, on failure they do not change |
| TableUtils.CreateDatasetEffectCases | src/bqwizard/commands/utils/table_utils.py:40-46 | two or more dots are refused before any call; otherwise exactly one creation call, which succeeds exactly when the dataset is missing and readable, adds exactly it, and ends in `Conflict` when it exists |
| TableUtils.CreateDataset | src/bqwizard/commands/utils/table_utils.py:30-47 | the calls, datasets and exception are those of `CreateDatasetEffect` on the state before |
| TableUtils.CreateViewEffect | src/bqwizard/commands/utils/table_utils.py:84-106 | datasets are never removed, and a run that ends without exception and makes calls ends with the view statement |
| TableUtils.CreateView | src/bqwizard/commands/utils/table_utils.py:74-106 | the calls, datasets and exception are those of `CreateViewEffect` on the state before |
| TableUtils.CreateViewNeedsThreeSegments | src/bqwizard/commands/utils/table_utils.py:87 | a target that is not `project.dataset.table` fails at the unpacking, before any creation or query call; the two existence lookups have already run and change nothing |
| TableUtils.CreateViewWhenBothExist | src/bqwizard/commands/utils/table_utils.py:90-96 | when both datasets exist, exactly the `CREATE VIEW` statement is issued, whatever `force` is |
| TableUtils.CreateViewDoesNothing | src/bqwizard/commands/utils/table_utils.py:97-106 | when neither dataset exists, or only one does and `force` is off, no call is made and no exception raised |
| TableUtils.CreateViewForcedCreatesTarget | src/bqwizard/commands/utils/table_utils.py:97-104 | with `force`, the source dataset present and the target dataset missing and readable, the target dataset is created, then the view statement is issued |
| TableUtils.CreateViewForcedConflicts | src/bqwizard/commands/utils/table_utils.py:97-98 | with `force`, the source dataset missing and the target dataset present, creating the existing target dataset ends in `Conflict` and no view is issued |
| TableUtils.CreateViewEffectIntended | src/bqwizard/commands/utils/table_utils.py:82 | the `force` behaviour the docstring describes: datasets are never removed |
| TableUtils.TargetDatasetOf | src/bqwizard/commands/utils/table_utils.py:87-88 | the `project.dataset` of a three-segment target is kept by `create_dataset` and names the dataset `check_dataset_existence` looked up for the target |
| TableUtils.CreateViewIntendedNeverConflicts | src/bqwizard/commands/utils/table_utils.py:97-98 | the intended `create_view` never asks to create a dataset that exists, so it never ends in `Conflict` |
| TableUtils.CreateViewIntendedIssuesView | src/bqwizard/commands/utils/table_utils.py:97-104 | with `force`, a three-segment target in a readable dataset and one of the two datasets present, the intended `create_view` ends without exception, issues the view statement last, and the target dataset exists afterwards |
| DatasetUtils.ViewMirrorsSource | src/bqwizard/commands/utils/dataset_utils.py:13-18 | the view id is the target dataset's segments followed by the table name, and the table it reads is the source dataset's segments followed by the same name |
| DatasetUtils.CreateView | src/bqwizard/commands/utils/dataset_utils.py:12-21 | exactly one call is made: the `CREATE OR REPLACE VIEW` statement for that table |
| DatasetUtils.CheckDatasetExistance | src/bqwizard/commands/utils/dataset_utils.py:5-10 | a not-found dataset never escapes as an exception |
| DatasetUtils.CheckDatasetExistanceCases | src/bqwizard/commands/utils/dataset_utils.py:5-10 | `True` exactly for a readable dataset that exists; `False` exactly when the warehouse reports not found; a malformed reference or an unreadable dataset raises |
| DatasetUtils.CreateDataset | src/bqwizard/commands/utils/dataset_utils.py:24-26 | the reference goes to the client unchanged: one creation call, with the client's outcome |
| DatasetUtils.CreateDatasetChain | src/bqwizard/commands/utils/dataset_utils.py:29-32 | the calls, datasets and exception are those of `ChainEffect` on the state before |
| DatasetUtils.ChainSucceedsWhenUsable | src/bqwizard/commands/utils/dataset_utils.py:29-32 | the chain ends without exception exactly when every reference resolves to a readable dataset; existing datasets are kept; on success every dataset of the chain exists |
| DatasetUtils.ChainExistingExact | src/bqwizard/commands/utils/dataset_utils.py:29-32 | whether the chain runs to the end or stops at a malformed or unreadable reference, the datasets afterwards are exactly those before plus the datasets named by the references it got through; no other dataset is added |
| DatasetUtils.ChainCreatesOnlyMissing | src/bqwizard/commands/utils/dataset_utils.py:30-32 | every call the chain makes creates a dataset of the chain that was missing when it started |
| DatasetUtils.UsablePrefix | src/bqwizard/commands/utils/dataset_utils.py:29-32 | the references the loop gets through before a malformed or unreadable one stops it: a prefix of the chain, the whole chain exactly when every reference resolves to a readable dataset |
| DatasetUtils.ChainCreatesExactlyMissing | src/bqwizard/commands/utils/dataset_utils.py:29-32 | whether the chain runs to the end or stops at a malformed or unreadable reference, it has created exactly the missing datasets named before that point, each once under its first reference, in the given order, also when several references name the same dataset |
| DatasetUtils.ChainIsIdempotent | src/bqwizard/commands/utils/dataset_utils.py:29-32 | running the chain again after a successful run makes no call and changes nothing |
| DatasetUtils.ChainOverPresent | src/bqwizard/commands/utils/dataset_utils.py:30-31 | a chain of readable datasets that all exist makes no call |
| DatasetUtils.CreateViewsOfTables | src/bqwizard/commands/utils/dataset_utils.py:37-40 | one view statement per listed table, in listing order, into the next dataset; none for the last dataset |
| DatasetUtils.MirrorDataset | src/bqwizard/commands/utils/dataset_utils.py:36-40 | one round of the outer loop: the listing call, then the view statements of the listed tables when the listing succeeds |
| DatasetUtils.CreateDatasetChainViews | src/bqwizard/commands/utils/dataset_utils.py:34-40 | the calls and exception are those of `ChainViews` on the state before |
| DatasetUtils.ChainViewsFailsAtFirstUnlisted | src/bqwizard/commands/utils/dataset_utils.py:35-36 | the chain ends in an exception exactly when some dataset cannot be listed, and then with the exception of the first such dataset |
| DatasetUtils.ChainViewsListsEvery | src/bqwizard/commands/utils/dataset_utils.py:35-36 | when every dataset can be listed, every dataset of the chain is listed, the last included, in order |
| DatasetUtils.ChainViewsFollowsPlan | src/bqwizard/commands/utils/dataset_utils.py:35-40 | when every dataset can be listed, the view statements issued are exactly the planned ones, dataset by dataset and table by table |
| DatasetUtils.PlannedViewsCount | src/bqwizard/commands/utils/dataset_utils.py:37-38 | the plan has one view per table of every dataset but the last |
| DatasetUtils.PlannedViewAt | src/bqwizard/commands/utils/dataset_utils.py:37-40 | the `k`-th table of dataset `i` (not the last) gives the view at position (tables before `i`) + `k`: a view in dataset `i + 1` with that table's name, reading that table |
| DatasetUtils.ViewsAfterChainSucceed | src/bqwizard/commands/utils/dataset_utils.py:29-40 | after a successful `create_dataset_chain`, `create_dataset_chain_views` on the same datasets runs to the end |

## Left out

- Console output (`click.echo`) is not modelled: it does not affect the warehouse or the result.
- `write_to_csv` (table_utils.py:109-124) writes a file; file I/O is not part of this model.
- Query results are not modelled. `client.query(...).result()` is taken to succeed, and the views it creates do not change the warehouse as the model sees it.
- Table listings are fixed for the whole run, so the views created in dataset `i + 1` do not show up when dataset `i + 1` is listed. The `chain` command's docstring (commands/dataset.py:286-287) intends later datasets to receive views of those views; that propagation is not captured.
- The string rule the client library applies to dataset references (`Warehouse.Resolve`: at most one dot) is an assumption about the library, whose code is not part of this model. Any failure of a request other than not-found or conflict is reduced to `Forbidden` on a fixed set of datasets.
- `get_dataset` lookups are modelled as reads of the warehouse state but are not logged; only creation, listing and query calls are. The `retry=None` argument and the intermediate `client.dataset(...)` reference object are not modelled.
- Integer widths, concurrency and network failures in the middle of a run are not modelled.
- The command modules, `config_utils` and the callers are not part of this model. One caller, the `chain` command (commands/dataset.py:326), passes three arguments to `create_dataset_chain_views`, which accepts two.
- References are not checked beyond what the code checks: `get_table_id` prefixes a reference of four or more segments, and empty segments are accepted everywhere.
- TableUtils.CreateViewIntendedIssuesView: when only the target dataset is found, the intended `create_view` issues a view over a source dataset that was not found; BigQuery would reject that statement at `.result()`, and the lemma's "ends without exception" holds only because query execution is taken to succeed.

## Findings

| source | as written | input that shows it | evidently intended | confidence | as-written member | corrected member |
|---|---|---|---|---|---|---|
| src/bqwizard/commands/utils/table_utils.py:97-98 | with `force`, `create_view` calls `create_dataset` on the target dataset whenever either dataset exists, including when the target dataset is the one that exists | `force=True`, source dataset `p0.d0` missing, target `p.d.t` with dataset `p.d` present and readable: the client is asked to create `p.d`, which raises `Conflict`, and no view is created | create the target dataset only when it is missing, then issue the view statement (docstring, line 82) | medium, not executed | TableUtils.CreateViewForcedConflicts | TableUtils.CreateViewIntendedNeverConflicts |
