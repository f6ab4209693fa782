/** The request-building half of `BigQuery::Client::Jobs#insert_job`: choose
    the job kind, let that kind's builder rewrite its sub-options into typed
    table and schema references, and wrap the result in a job configuration.
    The outbound call to the API client is not modelled; `InsertJob` returns
    the job that would be submitted. */
module Jobs {
  import opened Wrappers
  import opened Options

  /** The four mutually exclusive job kinds. */
  datatype JobKind = Copy | Extract | Load | Query

  /** The top-level key that selects each kind. */
  function KeyOf(kind: JobKind): (k: Key) {
    match kind
    case Copy => "copy"
    case Extract => "extract"
    case Load => "load"
    case Query => "query"
  }

  /** `[:copy, :extract, :load, :query].include?(key)`, giving the kind. */
  function KindOf(key: Key): (r: Option<JobKind>)
    ensures r.Some? ==> KeyOf(r.value) == key
    ensures r.None? ==> forall kind :: KeyOf(kind) != key
  {
    match key
    case "copy" => Some(Copy)
    case "extract" => Some(Extract)
    case "load" => Some(Load)
    case "query" => Some(Query)
    case _ => None
  }

  /** Every kind is recognised by its own key. */
  lemma KindOfKeyOf(kind: JobKind)
    ensures KindOf(KeyOf(kind)) == Some(kind)
  {
  }

  /** The errors that the Ruby code raises implicitly, made explicit. */
  datatype JobError =
    | NoJobKind                      // no copy/extract/load/query key: `job_type` is nil
    | OptionsNotAHash(kind: JobKind) // `deep_symbolize_keys` on sub-options that are not a Hash
    | SourceTablesNotEnumerable      // `map` on a truthy `source_tables` that is neither Array nor Hash
    | SchemaNotAHash                 // `[:fields]` on a `schema` that is not a Hash

  /** `JobConfigurationCopy.new(opts)` and its three siblings. */
  datatype KindConfiguration = KindConfiguration(kind: JobKind, options: Entries)

  /** `JobConfiguration`: one slot per job kind, and the dry-run flag. */
  datatype JobConfiguration = JobConfiguration(
    copy: Option<KindConfiguration>,
    extract: Option<KindConfiguration>,
    load: Option<KindConfiguration>,
    query: Option<KindConfiguration>,
    dryRun: Option<Value>)
  {
    /** The slot of `kind`. */
    function Entry(kind: JobKind): (e: Option<KindConfiguration>) {
      match kind
      case Copy => copy
      case Extract => extract
      case Load => load
      case Query => query
    }
  }

  /** `Job.new(configuration: ...)`. */
  datatype Job = Job(configuration: JobConfiguration)

  /** The position of the first top-level key that names a job kind:
      `_opts.keys.find { |k| [:copy, :extract, :load, :query].include?(k) }`. */
  function FirstKindIndex(o: Entries): (r: Option<nat>)
    ensures r.Some? ==> r.value < |o| && KindOf(o[r.value].0).Some?
    ensures r.Some? ==> forall j :: 0 <= j < r.value ==> KindOf(o[j].0).None?
    ensures r.None? <==> forall j :: 0 <= j < |o| ==> KindOf(o[j].0).None?
  {
    if o == [] then None
    else if KindOf(o[0].0).Some? then Some(0)
    else match FirstKindIndex(o[1..])
      case None => None
      case Some(i) => Some(i + 1)
  }

  /** What Ruby's `map` iterates over: the elements of an Array, the
      `[key, value]` pairs of a Hash; any other value has no `map`. */
  function Elements(v: Value): (r: Option<seq<Value>>)
    ensures v.List? ==> r == Some(v.items)
    ensures v.Hash? ==> r.Some? && |r.value| == |v.entries|
    ensures v.Hash? ==> forall i :: 0 <= i < |v.entries| ==>
      r.value[i] == List([Sym(v.entries[i].0), v.entries[i].1])
    ensures r.None? <==> !(v.List? || v.Hash?)
  {
    match v
    case List(items) => Some(items)
    case Hash(es) => Some(seq(|es|, i requires 0 <= i < |es| => List([Sym(es[i].0), es[i].1])))
    case _ => None
  }

  /** `tables.map { |t| TableReference.new(t) }`. */
  function TableRefs(xs: seq<Value>): (r: seq<Value>)
    ensures |r| == |xs|
    ensures forall i :: 0 <= i < |xs| ==> r[i] == TableRef(xs[i])
  {
    if xs == [] then [] else [TableRef(xs[0])] + TableRefs(xs[1..])
  }

  /** The first half of `_copy`: when `source_tables` is truthy each of its
      elements becomes a table reference, in order; otherwise
      `source_table` becomes a table reference. */
  function CopySources(opts: Entries): (r: Result<Entries, JobError>)
    ensures r.Err? <==> Truthy(Lookup(opts, "source_tables")) && Elements(Lookup(opts, "source_tables")).None?
    ensures r.Err? ==> r.error == SourceTablesNotEnumerable
    ensures r.Ok? && Truthy(Lookup(opts, "source_tables")) ==>
      var xs := Elements(Lookup(opts, "source_tables")).value;
      var out := Lookup(r.value, "source_tables");
      && out.List? && |out.items| == |xs|
      && (forall i :: 0 <= i < |xs| ==> out.items[i] == TableRef(xs[i]))
      && UpdatedOnly(opts, r.value, {"source_tables"})
    ensures r.Ok? && !Truthy(Lookup(opts, "source_tables")) ==>
      && Lookup(r.value, "source_table") == TableRef(Lookup(opts, "source_table"))
      && UpdatedOnly(opts, r.value, {"source_table"})
  {
    var tables := Lookup(opts, "source_tables");
    if Truthy(tables) then
      match Elements(tables)
      case None => Err(SourceTablesNotEnumerable)
      case Some(xs) =>
        SetUpdatesOnlyItsKey(opts, "source_tables", List(TableRefs(xs)));
        Ok(Set(opts, "source_tables", List(TableRefs(xs))))
    else
      SetUpdatesOnlyItsKey(opts, "source_table", TableRef(Lookup(opts, "source_table")));
      Ok(Set(opts, "source_table", TableRef(Lookup(opts, "source_table"))))
  }

  /** `_copy`: the sources as in `CopySources`, then `destination_table` is
      set from the `destination_tables` key (the plural, as written). */
  function BuildCopy(opts: Entries): (r: Result<Entries, JobError>)
    ensures r.Err? <==> CopySources(opts).Err?
    ensures r.Err? ==> r.error == SourceTablesNotEnumerable
    ensures r.Ok? ==> Lookup(r.value, "destination_table") == TableRef(Lookup(opts, "destination_tables"))
    ensures r.Ok? ==> forall k :: k != "destination_table" ==> Lookup(r.value, k) == Lookup(CopySources(opts).value, k)
    ensures r.Ok? && Truthy(Lookup(opts, "source_tables")) ==>
      UpdatedOnly(opts, r.value, {"source_tables", "destination_table"})
    ensures r.Ok? && !Truthy(Lookup(opts, "source_tables")) ==>
      UpdatedOnly(opts, r.value, {"source_table", "destination_table"})
  {
    match CopySources(opts)
    case Err(e) => Err(e)
    case Ok(o) =>
      var r := Set(o, "destination_table", TableRef(Lookup(o, "destination_tables")));
      SetUpdatesOnlyItsKey(o, "destination_table", TableRef(Lookup(o, "destination_tables")));
      if Truthy(Lookup(opts, "source_tables")) then
        UpdatedOnlyTrans(opts, o, r, {"source_tables"}, {"destination_table"}, {"source_tables", "destination_table"});
        Ok(r)
      else
        UpdatedOnlyTrans(opts, o, r, {"source_table"}, {"destination_table"}, {"source_table", "destination_table"});
        Ok(r)
  }

  /** `_extract`: `source_table` becomes a table reference; nothing else changes. */
  function BuildExtract(opts: Entries): (r: Entries)
    ensures Lookup(r, "source_table") == TableRef(Lookup(opts, "source_table"))
    ensures UpdatedOnly(opts, r, {"source_table"})
  {
    SetUpdatesOnlyItsKey(opts, "source_table", TableRef(Lookup(opts, "source_table")));
    Set(opts, "source_table", TableRef(Lookup(opts, "source_table")))
  }

  /** `_load`: `destination_table` becomes a table reference and `schema` a
      schema over the normalised `schema[:fields]`; `normalize` stands for
      `normalize_schema`, which is not part of this model. */
  function BuildLoad(opts: Entries, normalize: Value -> Value): (r: Result<Entries, JobError>)
    ensures r.Err? <==> !Lookup(opts, "schema").Hash?
    ensures r.Err? ==> r.error == SchemaNotAHash
    ensures r.Ok? ==>
      && Lookup(r.value, "destination_table") == TableRef(Lookup(opts, "destination_table"))
      && Lookup(r.value, "schema") == Schema(normalize(Lookup(Lookup(opts, "schema").entries, "fields")))
      && UpdatedOnly(opts, r.value, {"destination_table", "schema"})
  {
    var o := Set(opts, "destination_table", TableRef(Lookup(opts, "destination_table")));
    match Lookup(o, "schema")
    case Hash(schema) =>
      var r := Set(o, "schema", Schema(normalize(Lookup(schema, "fields"))));
      SetUpdatesOnlyItsKey(opts, "destination_table", TableRef(Lookup(opts, "destination_table")));
      SetUpdatesOnlyItsKey(o, "schema", Schema(normalize(Lookup(schema, "fields"))));
      UpdatedOnlyTrans(opts, o, r, {"destination_table"}, {"schema"}, {"destination_table", "schema"});
      Ok(r)
    case _ => Err(SchemaNotAHash)
  }

  /** `_query`: the sub-options pass through unchanged. */
  function BuildQuery(opts: Entries): (r: Entries)
    ensures r == opts
  {
    opts
  }

  /** `__send__("_#{job_type}", ...)`: the builder of `kind`, tagged with it. */
  function Build(kind: JobKind, opts: Entries, normalize: Value -> Value): (r: Result<KindConfiguration, JobError>)
    ensures r.Ok? ==> r.value.kind == kind
    ensures r.Err? ==> (kind == Copy && r.error == SourceTablesNotEnumerable) || (kind == Load && r.error == SchemaNotAHash)
    ensures kind == Copy ==>
      && (r.Ok? <==> BuildCopy(opts).Ok?)
      && (r.Ok? ==> r.value.options == BuildCopy(opts).value)
    ensures kind == Extract ==> r == Ok(KindConfiguration(Extract, BuildExtract(opts)))
    ensures kind == Load ==>
      && (r.Ok? <==> BuildLoad(opts, normalize).Ok?)
      && (r.Ok? ==> r.value.options == BuildLoad(opts, normalize).value)
    ensures kind == Query ==> r == Ok(KindConfiguration(Query, BuildQuery(opts)))
  {
    match kind
    case Copy => (match BuildCopy(opts) case Ok(o) => Ok(KindConfiguration(Copy, o)) case Err(e) => Err(e))
    case Extract => Ok(KindConfiguration(Extract, BuildExtract(opts)))
    case Load => (match BuildLoad(opts, normalize) case Ok(o) => Ok(KindConfiguration(Load, o)) case Err(e) => Err(e))
    case Query => Ok(KindConfiguration(Query, BuildQuery(opts)))
  }

  /** `JobConfiguration.new(job_type => cfg)`: only the slot of `kind` is set. */
  function Configure(kind: JobKind, cfg: KindConfiguration): (c: JobConfiguration)
    ensures forall k :: c.Entry(k) == if k == kind then Some(cfg) else None
    ensures c.dryRun.None?
  {
    var empty := JobConfiguration(None, None, None, None, None);
    match kind
    case Copy => empty.(copy := Some(cfg))
    case Extract => empty.(extract := Some(cfg))
    case Load => empty.(load := Some(cfg))
    case Query => empty.(query := Some(cfg))
  }

  /** The rest of `insert_job` once the kind is chosen: build the kind's
      sub-options, put them in the kind's slot and copy a truthy `dry_run`. */
  function AssembleJob(kind: JobKind, sub: Value, flag: Value, normalize: Value -> Value): (r: Result<Job, JobError>)
    ensures r.Ok? <==> sub.Hash? && Build(kind, sub.entries, normalize).Ok?
    ensures !sub.Hash? ==> r == Err(OptionsNotAHash(kind))
    ensures sub.Hash? && Build(kind, sub.entries, normalize).Err? ==> r == Err(Build(kind, sub.entries, normalize).error)
    ensures r.Ok? ==> forall k :: (r.value.configuration.Entry(k) ==
      if k == kind then Some(Build(kind, sub.entries, normalize).value) else None)
    ensures r.Ok? ==> r.value.configuration.dryRun == if Truthy(flag) then Some(flag) else None
  {
    match sub
    case Hash(entries) =>
      (match Build(kind, entries, normalize)
       case Err(e) => Err(e)
       case Ok(cfg) =>
         var configuration := Configure(kind, cfg);
         Ok(Job(if Truthy(flag) then configuration.(dryRun := Some(flag)) else configuration)))
    case _ => Err(OptionsNotAHash(kind))
  }

  /** `insert_job` up to the client call: the job it submits, or the error it
      raises. The first top-level key naming a kind decides the kind; the
      configuration holds that kind's built sub-options and nothing under
      any other kind; `dry_run` is copied only when truthy. */
  function InsertJob(opts: Entries, normalize: Value -> Value): (r: Result<Job, JobError>)
    ensures r == Err(NoJobKind) <==> forall j :: 0 <= j < |opts| ==> KindOf(opts[j].0).None?
    ensures r.Ok? ==>
      && FirstKindIndex(opts).Some?
      && var kind := KindOf(opts[FirstKindIndex(opts).value].0).value;
      && var sub := Lookup(opts, KeyOf(kind));
      && sub.Hash?
      && Build(kind, sub.entries, normalize).Ok?
      && forall k :: r.value.configuration.Entry(k) ==
           if k == kind then Some(Build(kind, sub.entries, normalize).value) else None
    ensures r.Err? && r.error != NoJobKind ==>
      && FirstKindIndex(opts).Some?
      && var kind := KindOf(opts[FirstKindIndex(opts).value].0).value;
      && var sub := Lookup(opts, KeyOf(kind));
      && if sub.Hash? then Build(kind, sub.entries, normalize) == Err(r.error)
         else r.error == OptionsNotAHash(kind)
    ensures r.Ok? ==>
      var flag := Lookup(opts, "dry_run");
      r.value.configuration.dryRun == if Truthy(flag) then Some(flag) else None
  {
    match FirstKindIndex(opts)
    case None => Err(NoJobKind)
    case Some(i) =>
      var kind := KindOf(opts[i].0).value;
      AssembleJob(kind, Lookup(opts, KeyOf(kind)), Lookup(opts, "dry_run"), normalize)
  }

  /** Each builder's output is again a Ruby Hash: no key appears twice. */
  lemma BuildKeepsKeysUnique(kind: JobKind, opts: Entries, normalize: Value -> Value)
    requires UniqueKeys(opts)
    ensures Build(kind, opts, normalize).Ok? ==> UniqueKeys(Build(kind, opts, normalize).value.options)
  {
    match kind
    case Copy =>
      if CopySources(opts).Ok? {
        var tables := Lookup(opts, "source_tables");
        if Truthy(tables) {
          SetKeepsKeysUnique(opts, "source_tables", List(TableRefs(Elements(tables).value)));
        } else {
          SetKeepsKeysUnique(opts, "source_table", TableRef(Lookup(opts, "source_table")));
        }
        var o := CopySources(opts).value;
        SetKeepsKeysUnique(o, "destination_table", TableRef(Lookup(o, "destination_tables")));
      }
    case Extract =>
      SetKeepsKeysUnique(opts, "source_table", TableRef(Lookup(opts, "source_table")));
    case Load =>
      var o := Set(opts, "destination_table", TableRef(Lookup(opts, "destination_table")));
      SetKeepsKeysUnique(opts, "destination_table", TableRef(Lookup(opts, "destination_table")));
      if Lookup(o, "schema").Hash? {
        SetKeepsKeysUnique(o, "schema", Schema(normalize(Lookup(Lookup(o, "schema").entries, "fields"))));
      }
    case Query =>
  }

  /** Assigning a key that names no job kind leaves the choice of kind alone. */
  lemma {:induction false} FirstKindIndexIgnoresOtherKeys(o: Entries, k: Key, v: Value)
    requires KindOf(k).None?
    ensures FirstKindIndex(Set(o, k, v)) == FirstKindIndex(o)
  {
    var r := Set(o, k, v);
    if o == [] {
      assert r == [(k, v)];
      assert r[1..] == [];
    } else if o[0].0 == k {
      assert r == [(k, v)] + o[1..];
      assert r[1..] == o[1..];
    } else {
      assert r == [o[0]] + Set(o[1..], k, v);
      assert r[0] == o[0];
      if KindOf(o[0].0).None? {
        assert r[1..] == Set(o[1..], k, v);
        FirstKindIndexIgnoresOtherKeys(o[1..], k, v);
      }
    }
  }

  /** The dry-run flag decides the `dry_run` field and nothing else. */
  lemma AssembleJobFlagOnly(kind: JobKind, sub: Value, f1: Value, f2: Value, normalize: Value -> Value)
    ensures var r1 := AssembleJob(kind, sub, f1, normalize);
      var r2 := AssembleJob(kind, sub, f2, normalize);
      && (r1.Err? ==> r2 == r1)
      && (r1.Ok? ==>
            && r2.Ok?
            && r2.value.configuration ==
               r1.value.configuration.(dryRun := if Truthy(f2) then Some(f2) else None))
  {
  }

  /** `dry_run` touches nothing but the flag: setting it in a request leaves
      the outcome and every kind slot as they were, and the flag is copied
      exactly when it is truthy. */
  lemma DryRunOnlySetsTheFlag(opts: Entries, flag: Value, normalize: Value -> Value)
    ensures var before := InsertJob(opts, normalize);
      var after := InsertJob(Set(opts, "dry_run", flag), normalize);
      && (before.Err? ==> after == before)
      && (before.Ok? ==>
            && after.Ok?
            && after.value.configuration ==
               before.value.configuration.(dryRun := if Truthy(flag) then Some(flag) else None))
  {
    var o := Set(opts, "dry_run", flag);
    DryRunIsNoKind();
    FirstKindIndexIgnoresOtherKeys(opts, "dry_run", flag);
    if FirstKindIndex(opts).Some? {
      var i := FirstKindIndex(opts).value;
      var kind := KindOf(opts[i].0).value;
      SameKindAfterDryRun(opts, flag, i);
      AssembleJobFlagOnly(kind, Lookup(opts, KeyOf(kind)), Lookup(opts, "dry_run"), flag, normalize);
    }
  }

  /** `dry_run` is not a job kind. */
  lemma DryRunIsNoKind()
    ensures KindOf("dry_run").None?
  {
  }

  /** Setting `dry_run` leaves the chosen kind and its sub-options in place. */
  lemma SameKindAfterDryRun(opts: Entries, flag: Value, i: nat)
    requires FirstKindIndex(opts) == Some(i)
    ensures var o := Set(opts, "dry_run", flag);
      && FirstKindIndex(o) == Some(i)
      && o[i].0 == opts[i].0
      && Lookup(o, opts[i].0) == Lookup(opts, opts[i].0)
  {
    DryRunIsNoKind();
    assert opts[i].0 != "dry_run";
    SetKeepsKeyAt(opts, "dry_run", flag, i);
    FirstKindIndexIgnoresOtherKeys(opts, "dry_run", flag);
  }

  /** The `_copy` builder reads the destination from `destination_tables`;
      a caller's singular `destination_table` is overwritten with a
      reference built from `nil` when the plural key is absent. */
  lemma CopyDestinationComesFromPluralKey(opts: Entries)
    requires "destination_tables" !in Keys(opts)
    ensures BuildCopy(opts).Ok? ==> Lookup(BuildCopy(opts).value, "destination_table") == TableRef(Nil)
  {
  }

  /** `{query: {query: "SELECT 1"}}` yields a configuration whose only slot is
      `query`, holding the sub-options unchanged, and no dry-run flag. */
  lemma QueryRequestExample(normalize: Value -> Value)
    ensures InsertJob([("query", Hash([("query", Str("SELECT 1"))]))], normalize)
      == Ok(Job(JobConfiguration(None, None, None,
                                 Some(KindConfiguration(Query, [("query", Str("SELECT 1"))])), None)))
  {
  }
}
