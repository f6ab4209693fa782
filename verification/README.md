# BigQuery jobs facade: building an insert request

This project models the request-building logic of `BigQuery::Client::Jobs#insert_job`
(`lib/big_query/client/jobs.rb`) and proves what it does. Given a caller's option hash,
`insert_job`:

1. picks the job kind: the first top-level key, in key order, that is `copy`, `extract`,
   `load` or `query`;
2. hands that key's sub-options to the kind's private builder (`_copy`, `_extract`, `_load`,
   `_query`), which duplicates them and replaces table and schema fields with
   `TableReference` and `TableSchema` objects;
3. puts the built configuration under its kind in a `JobConfiguration`, copies `dry_run` onto
   it when that flag is truthy, and wraps it in a `Job`.

The model is written as pure functions over values. The builders only write to the `dup` of
their argument, and `insert_job` only writes to a configuration object it has just created.
No write is visible to the caller, so value updates express them exactly.

- `options.dfy` (module `Options`): Ruby values and hashes. A hash is an ordered sequence of
  (key, value) entries, because `find` over `keys` depends on insertion order. `Lookup` is
  `hash[k]` (`nil` when absent). `Set` is `hash[k] = v`: an existing key keeps its place, a
  new key is appended. `UpdatedOnly(o, r, ks)` says that `r` came from `o` by assignments to
  the keys `ks` only.
- `jobs.dfy` (module `Jobs`): job kinds, the four builders, the dispatch, the job
  configuration and `InsertJob`. The errors that Ruby would raise along the way become an
  explicit `JobError` result.
- `wrappers.dfy` (module `Wrappers`): `Option` and `Result`.

Behaviour kept as written in the code:

- `_copy` reads the destination from the plural key `destination_tables` and writes it to the
  singular `destination_table` (jobs.rb:82). In the model, a caller who passes only
  `destination_table` has it overwritten with a reference built from `nil`.
  `CopyDestinationComesFromPluralKey` states this. Whether the library's own
  `TableReference.new(nil)` accepts `nil` or raises lies outside the model (see the
  constructor line under "## Left out").
- `dry_run` is copied with the caller's own value (jobs.rb:61), not normalised to `true`.
  Any truthy value (not `nil`, not `false`) is copied; otherwise the field stays unset.
- With a singular `source_table`, `_copy` stores one table reference under `source_table`.
  It does not build a one-element `source_tables` list.
- A `source_tables` value of `false` counts as absent, and the singular branch is taken.
- A request with no job-kind key is an explicit `NoJobKind` error. In Ruby, `job_type` is
  `nil` there and the call fails.

## Model

| member | source | states |
|---|---|---|
| `Options.Lookup` | lib/big_query/client/jobs.rb:77 | `hash[k]` is `nil` when `k` is not a key |
| `Options.LookupAt` | lib/big_query/client/jobs.rb:57 | in a hash without repeated keys, looking up the key of entry i gives entry i's value |
| `Options.Set` | lib/big_query/client/jobs.rb:80 | after `hash[k] = v`, `k` reads `v` and every other key reads as before; an existing key keeps its position; a new key is appended at the end; the length grows by at most one |
| `Options.SetKeepsKeyAt` | lib/big_query/client/jobs.rb:82 | an assignment never moves a key that was already present |
| `Options.SetKeepsKeysUnique` | lib/big_query/client/jobs.rb:91 | an assignment never creates a repeated key |
| `Options.SetUpdatesOnlyItsKey` | lib/big_query/client/jobs.rb:91 | one assignment updates only its own key: old keys keep their order at the front, and every other key reads the same |
| `Options.UpdatedOnlyTrans` | lib/big_query/client/jobs.rb:99-100 | two rounds of assignments update only the keys of either round |
| `Jobs.KindOf` | lib/big_query/client/jobs.rb:56 | a key names a kind exactly when it is `copy`, `extract`, `load` or `query`, and then it names the kind whose key it is |
| `Jobs.KindOfKeyOf` | lib/big_query/client/jobs.rb:56 | every kind is recognised by its own key |
| `Jobs.FirstKindIndex` | lib/big_query/client/jobs.rb:56 | the index of the first key that names a kind; no earlier key names one; none is found exactly when no key names a kind |
| `Jobs.Elements` | lib/big_query/client/jobs.rb:78 | `map` walks an Array's elements or a Hash's `[key, value]` pairs, in order; other values cannot be mapped |
| `Jobs.TableRefs` | lib/big_query/client/jobs.rb:78 | same length as the input; element i is a table reference built from input element i |
| `Jobs.CopySources` | lib/big_query/client/jobs.rb:77-81 | with truthy `source_tables`: each element becomes a table reference, in order, and only `source_tables` changes; fails exactly when that value cannot be mapped. Otherwise `source_table` becomes a reference to its old value and nothing else changes |
| `Jobs.BuildCopy` | lib/big_query/client/jobs.rb:75-87 | fails exactly when the sources step fails; `destination_table` is a reference built from `destination_tables`; every other key is as the sources step left it; overall only the source key and `destination_table` change |
| `Jobs.BuildExtract` | lib/big_query/client/jobs.rb:89-95 | `source_table` becomes a table reference of its old value; every other key keeps its value and position |
| `Jobs.BuildLoad` | lib/big_query/client/jobs.rb:97-104 | fails exactly when `schema` is not a hash; otherwise `destination_table` becomes a table reference, `schema` becomes a schema over the normalised `schema[:fields]`, and nothing else changes |
| `Jobs.BuildQuery` | lib/big_query/client/jobs.rb:106-111 | the sub-options pass through unchanged |
| `Jobs.Build` | lib/big_query/client/jobs.rb:57 | dispatches to the builder of the requested kind: for extract and query the result is that builder's output, tagged with the kind; for copy and load it succeeds exactly when that builder does, and then holds the builder's output; only copy (unmappable `source_tables`) and load (non-hash `schema`) can fail |
| `Jobs.Configure` | lib/big_query/client/jobs.rb:58-60 | the new job configuration holds the built configuration in the chosen kind's slot only, and no dry-run flag |
| `Jobs.AssembleJob` | lib/big_query/client/jobs.rb:57-64 | succeeds exactly when the sub-options are a hash and the builder succeeds; the errors are exactly those two causes; on success, exactly one kind slot is set and `dry_run` is set iff the flag is truthy |
| `Jobs.InsertJob` | lib/big_query/client/jobs.rb:54-64 | `NoJobKind` exactly when no top-level key names a kind; on success, the kind of the first kind key is used, its sub-options are a hash, its slot holds the builder's output and every other kind slot is empty; every other error comes from that kind's sub-options or builder; `dry_run` holds the input value exactly when it is truthy |
| `Jobs.BuildKeepsKeysUnique` | lib/big_query/client/jobs.rb:75-111 | every builder turns a hash without repeated keys into one without repeated keys |
| `Jobs.FirstKindIndexIgnoresOtherKeys` | lib/big_query/client/jobs.rb:56 | assigning a key that names no kind does not change which key is chosen |
| `Jobs.DryRunIsNoKind` | lib/big_query/client/jobs.rb:56 | `dry_run` is not a job-kind key |
| `Jobs.SameKindAfterDryRun` | lib/big_query/client/jobs.rb:56-57 | setting `dry_run` keeps the chosen key's position and its sub-options |
| `Jobs.AssembleJobFlagOnly` | lib/big_query/client/jobs.rb:61 | the dry-run input changes only the `dry_run` field of the configuration |
| `Jobs.DryRunOnlySetsTheFlag` | lib/big_query/client/jobs.rb:61 | setting `dry_run` in a request leaves its outcome and every kind slot unchanged, and copies the flag exactly when it is truthy |
| `Jobs.CopyDestinationComesFromPluralKey` | lib/big_query/client/jobs.rb:82 | without a `destination_tables` key, the copy destination is a reference built from `nil`, whatever `destination_table` held |
| `Jobs.QueryRequestExample` | lib/big_query/client/jobs.rb:106-111 | `{query: {query: "SELECT 1"}}` gives a configuration whose only slot is `query`, holding the sub-options unchanged, with no dry-run flag |

## Left out

- `job`, `jobs` and `get_query_results` (jobs.rb:11-46): each forwards one call to the API client and has no logic of its own.
- The call to `@client.insert_job`, the `upload_source` media, `@project_id` and `@client` (jobs.rb:65-69): these are network I/O through an external library. `InsertJob` returns the `Job` that would be submitted.
- `response.to_h.deep_stringify_keys` (jobs.rb:71): it converts an opaque library response.
- `deep_symbolize_keys` (jobs.rb:55, 57): keys are taken to be canonical symbols already, modelled by their names. Hashes whose keys collide after symbolising are not modelled. Neither are non-string keys, on which `to_sym` would raise.
- `parameters` (jobs.rb:54): the source never reads it, so there is nothing to model.
- `normalize_schema` (jobs.rb:100) is not part of this model. It is a function parameter `normalize` of `BuildLoad`, `Build`, `AssembleJob` and `InsertJob`.
- `TableReference`, `TableSchema`, `JobConfigurationCopy/Extract/Load/Query`, `JobConfiguration` and `Job` are the client library's classes. They are modelled as the value tags `TableRef`, `Schema`, `KindConfiguration`, `JobConfiguration` and `Job`. Checks or failures inside their constructors are not modelled.
- Ruby's exception classes are not modelled. A `NoMethodError` or `TypeError` becomes the `JobError` case for its cause: `NoJobKind`, `OptionsNotAHash`, `SourceTablesNotEnumerable` or `SchemaNotAHash`.
- Only Arrays and Hashes can be mapped over in the model. Other Ruby enumerables (ranges, sets, structs) are not modelled, and neither are floats and other scalar classes.
- Object identity: `dup` is shallow, so nested values stay shared between the caller's hash and the builder's copy. Since no builder writes into a nested value, the model uses plain values. That no builder changes the caller's hash therefore holds by construction. It is not stated as a separate lemma.
