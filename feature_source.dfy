/**
 * The read side of a transaction-aware feature source: counting, bounds and
 * query results that reconcile the backing store's committed state with the
 * active transaction's diff overlay.
 *
 * The source's schema, store, transaction, hints and capabilities are fixed
 * when it is built, so the source is a value and its read operations are
 * functions -- except the count, whose two passes over the diff are loops.
 */
module FeatureSource {
  import opened Wrappers

  /** Largest value of a Java `int`: a query's default feature limit. */
  const DefaultMaxFeatures: int := 0x7fff_ffff

  /** Count reported when the answer is not known. */
  const Unknown: int := -1

  datatype Feature = Feature(id: string, attributes: map<string, string>)

  /** What a filter can be evaluated on: a feature, or the diff's removal marker. */
  datatype Entry = Removed | Present(feature: Feature)

  /**
   * A filter is one of the two sentinels, recognised by identity, or an
   * opaque predicate.
   */
  datatype Filter = Include | Exclude | Predicate(test: Entry -> bool)

  function Evaluate(f: Filter, e: Entry): bool
  {
    match f
    case Include => true
    case Exclude => false
    case Predicate(test) => test(e)
  }

  datatype SortBy = SortBy(property: string, ascending: bool)

  /** The parts of a query this layer reads or copies; `None` stands for `null`. */
  datatype Query = Query(
    typeName: Option<string>,
    filter: Filter,
    maxFeatures: int,
    propertyNames: Option<seq<string>>,
    sortBy: Option<seq<SortBy>>,
    handle: Option<string>)

  /** `new Query(typeName, filter)`. */
  function TypedQuery(typeName: string, filter: Filter): Query
  {
    Query(Some(typeName), filter, DefaultMaxFeatures, None, None, None)
  }

  datatype Crs = Crs(code: string)

  datatype Name = Name(namespaceUri: Option<string>, localPart: string)

  datatype Schema = Schema(typeName: string, name: Name, crs: Option<Crs>)

  datatype Envelope = NullEnvelope | Box(minX: real, maxX: real, minY: real, maxY: real)

  datatype ReferencedEnvelope = ReferencedEnvelope(envelope: Envelope, crs: Option<Crs>)

  /**
   * The two read-side buckets of a transaction's diff: features added under
   * provisional ids, and committed ids mapped to a replacement or `Removed`.
   */
  datatype Diff = Diff(added: map<string, Feature>, modified: map<string, Entry>)

  const EmptyDiff := Diff(map[], map[])

  /** The per-store state of a transaction: a diff state (one diff per type name) or another kind. */
  datatype TransactionState = DiffState(diffs: map<string, Diff>) | OtherState

  /** The diff a diff state keeps for a type name; an untouched type has an empty one. */
  function DiffFor(state: TransactionState, typeName: string): Diff
    requires state.DiffState?
  {
    if typeName in state.diffs then state.diffs[typeName] else EmptyDiff
  }

  type StoreId = nat

  /** `AUTO_COMMIT`, or a session holding zero or more per-store states. */
  datatype Transaction = AutoCommit | Session(states: map<StoreId, TransactionState>)

  /**
   * A store built on the abstract data store answers native counts
   * (`Unknown` when it cannot) and bounds (`None` when it cannot); any other
   * store answers neither.
   */
  datatype DataStore =
    | AbstractStore(id: StoreId, count: Query -> int, bounds: Query -> Option<ReferencedEnvelope>)
    | OtherStore(id: StoreId)

  datatype Hint = UseProvidedFid | OtherHint(key: string)

  /**
   * The query capabilities: a sort test, and whether provided feature ids
   * are looked up in the source's hints (the capabilities the hint-taking
   * constructor builds) or always refused (the plain ones).
   */
  datatype QueryCapabilities = QueryCapabilities(
    supportsSorting: Option<seq<SortBy>> -> bool,
    fidFromHints: bool)

  datatype Source = Source(
    schema: Schema,
    store: DataStore,
    transaction: Transaction,
    hints: set<Hint>,
    capabilities: QueryCapabilities)

  /**
   * The no-argument constructor: no hints and the plain capabilities, whose
   * sort test is `sortSupport` and which do not honour provided ids.
   */
  function NewSource(schema: Schema, store: DataStore, sortSupport: Option<seq<SortBy>> -> bool): (s: Source)
    ensures s.hints == {} && s.transaction == AutoCommit
    ensures !IsUseProvidedFidSupported(s)
    ensures s.schema == schema && s.store == store && s.capabilities.supportsSorting == sortSupport
  {
    Source(schema, store, AutoCommit, {}, QueryCapabilities(sortSupport, false))
  }

  /** The constructor taking hints: provided ids are honoured exactly when the hint is given. */
  function NewSourceWithHints(schema: Schema, store: DataStore, sortSupport: Option<seq<SortBy>> -> bool,
                              hints: set<Hint>): (s: Source)
    ensures s.hints == hints && s.transaction == AutoCommit
    ensures IsUseProvidedFidSupported(s) <==> UseProvidedFid in hints
    ensures s.schema == schema && s.store == store && s.capabilities.supportsSorting == sortSupport
  {
    Source(schema, store, AutoCommit, hints, QueryCapabilities(sortSupport, true))
  }

  /**
   * `isUseProvidedFIDSupported`: the plain capabilities refuse provided ids;
   * the hint constructor's capabilities look the hint up in the source's
   * hints each time they are asked.
   */
  function IsUseProvidedFidSupported(s: Source): (r: bool)
    ensures r ==> UseProvidedFid in s.hints
    ensures s.capabilities.fidFromHints && UseProvidedFid in s.hints ==> r
    ensures !s.capabilities.fidFromHints ==> !r
  {
    s.capabilities.fidFromHints && UseProvidedFid in s.hints
  }

  /**
   * The hint constructor's capability is read from the hints when asked, not
   * fixed when built: a source whose hints are later replaced answers from
   * the new hints, in both directions.
   */
  lemma ProvidedFidFollowsHints(schema: Schema, store: DataStore, sortSupport: Option<seq<SortBy>> -> bool,
                                hints: set<Hint>, later: set<Hint>)
    ensures var s := NewSourceWithHints(schema, store, sortSupport, hints);
      IsUseProvidedFidSupported(s.(hints := later)) <==> UseProvidedFid in later
  {
  }

  /** The query with this source's type name; a query already naming it is returned as it is. */
  function NamedQuery(schema: Schema, query: Query): (r: Query)
    ensures r.typeName == Some(schema.typeName)
    ensures r.filter == query.filter && r.maxFeatures == query.maxFeatures
    ensures r.propertyNames == query.propertyNames && r.handle == query.handle
    ensures query.typeName == Some(schema.typeName) ==> r == query
    ensures query.typeName != Some(schema.typeName) ==> r.sortBy == None
  {
    if query.typeName.Some? && query.typeName.value == schema.typeName then query
    else Query(Some(schema.typeName), query.filter, query.maxFeatures, query.propertyNames, None, query.handle)
  }

  lemma {:induction false} NamedQueryIdempotent(schema: Schema, query: Query)
    ensures NamedQuery(schema, NamedQuery(schema, query)) == NamedQuery(schema, query)
  {
    var once := NamedQuery(schema, query);
    assert once.typeName == Some(schema.typeName);
  }

  /** What a feature request yields: a lazy result over the query, an empty collection, or the sort error. */
  datatype FeaturesResult =
    | FeatureResults(query: Query)
    | EmptyCollection(schema: Schema)
    | SortUnsupported(message: string)

  /**
   * A query for another type is vacuously empty; an unsupported sort order
   * fails before any collection exists; otherwise the ORIGINAL query is
   * wrapped, even when its type name was unset.
   */
  function GetFeatures(src: Source, query: Query): (r: FeaturesResult)
    ensures r.EmptyCollection? <==> query.typeName.Some? && query.typeName.value != src.schema.typeName
    ensures r.EmptyCollection? ==> r.schema == src.schema
    ensures r.SortUnsupported? <==>
              !r.EmptyCollection? && !src.capabilities.supportsSorting(query.sortBy)
    ensures r.FeatureResults? ==> r.query == query && src.capabilities.supportsSorting(query.sortBy)
  {
    var typeName := src.schema.typeName;
    if query.typeName.None? then
      // The type-qualified copy built here is never used.
      var defaultQuery := query.(typeName := Some(typeName));
      SortChecked(src, query)
    else if typeName != query.typeName.value then
      EmptyCollection(src.schema)
    else
      SortChecked(src, query)
  }

  function SortChecked(src: Source, query: Query): FeaturesResult
  {
    if !src.capabilities.supportsSorting(query.sortBy) then
      SortUnsupported("DataStore cannot provide the requested sort order")
    else
      FeatureResults(query)
  }

  /** `getFeatures(filter)`: a query for this type, so never the wrong-type empty collection. */
  function GetFeaturesByFilter(src: Source, filter: Filter): (r: FeaturesResult)
    ensures !r.EmptyCollection?
    ensures r.FeatureResults? ==> r.query == TypedQuery(src.schema.typeName, filter)
    ensures r.SortUnsupported? <==> !src.capabilities.supportsSorting(None)
  {
    GetFeatures(src, TypedQuery(src.schema.typeName, filter))
  }

  /** `getFeatures()`: everything of this type. */
  function GetAllFeatures(src: Source): (r: FeaturesResult)
    ensures r.FeatureResults? ==> r.query == TypedQuery(src.schema.typeName, Include)
    ensures r.SortUnsupported? <==> !src.capabilities.supportsSorting(None)
    ensures !r.EmptyCollection?
  {
    GetFeaturesByFilter(src, Include)
  }

  /**
   * `EXCLUDE` has an empty envelope in the schema's reference system;
   * otherwise the store is asked about the type-qualified query, and a store
   * that is not an abstract data store gives `None`.
   */
  function GetBounds(src: Source, query: Query): (r: Option<ReferencedEnvelope>)
    ensures query.filter.Exclude? ==> r == Some(ReferencedEnvelope(NullEnvelope, src.schema.crs))
    ensures !query.filter.Exclude? && src.store.OtherStore? ==> r == None
    ensures !query.filter.Exclude? && src.store.AbstractStore? ==>
              r == src.store.bounds(NamedQuery(src.schema, query))
  {
    if query.filter.Exclude? then
      Some(ReferencedEnvelope(NullEnvelope, src.schema.crs))
    else if src.store.AbstractStore? then
      src.store.bounds(NamedQuery(src.schema, query))
    else
      None
  }

  /** `getBounds()`: the bounds of this whole type. */
  function GetDefaultBounds(src: Source): (r: Option<ReferencedEnvelope>)
    ensures src.store.OtherStore? ==> r == None
    ensures src.store.AbstractStore? ==> r == src.store.bounds(TypedQuery(src.schema.typeName, Include))
  {
    GetBounds(src, TypedQuery(src.schema.typeName, Include))
  }

  /** Bounds never consult the diff: any transaction gives the same answer. */
  lemma BoundsIgnoreTransaction(src: Source, t: Transaction, query: Query)
    ensures GetBounds(src.(transaction := t), query) == GetBounds(src, query)
  {
  }

  datatype ResourceInfo = ResourceInfo(
    keywords: set<string>,
    name: string,
    title: string,
    description: Option<string>,
    crs: Option<Crs>,
    bounds: Option<ReferencedEnvelope>)

  /** The descriptive metadata: keywords are exactly "features" and the type name. */
  function GetInfo(src: Source): (r: ResourceInfo)
    ensures r.keywords == {"features", src.schema.typeName}
    ensures r.name == src.schema.typeName && r.title == src.schema.name.localPart
    ensures r.description == None && r.crs == src.schema.crs
    ensures r.bounds == GetDefaultBounds(src)
  {
    ResourceInfo({"features", src.schema.typeName}, src.schema.typeName, src.schema.name.localPart,
                 None, src.schema.crs, GetDefaultBounds(src))
  }

  /** Ids of the added features the filter accepts. */
  function AddedMatches(f: Filter, d: Diff): set<string>
  {
    set id | id in d.added && Evaluate(f, Present(d.added[id]))
  }

  /**
   * Ids whose modification is the removal marker and for which the filter
   * accepts that marker (the filter is evaluated on the marker itself).
   */
  function RemovedMatches(f: Filter, d: Diff): set<string>
  {
    set id | id in d.modified && d.modified[id].Removed? && Evaluate(f, d.modified[id])
  }

  /**
   * `getCount(query)`: 0 for `EXCLUDE` without touching the store; `Unknown`
   * for a store that is not an abstract data store or whose native count is
   * unknown; the native count under `AUTO_COMMIT` or without state for the
   * store; `Unknown` for a state of another kind; otherwise the native count
   * plus the accepted additions minus the accepted removals.
   */
  method GetCount(src: Source, query: Query) returns (count: int)
    ensures query.filter.Exclude? ==> count == 0
    ensures !query.filter.Exclude? && src.store.OtherStore? ==> count == Unknown
    ensures !query.filter.Exclude? && src.store.AbstractStore? ==>
      var native := src.store.count(NamedQuery(src.schema, query));
      var t := src.transaction;
      (native == Unknown ==> count == Unknown) &&
      (native != Unknown && (t.AutoCommit? || src.store.id !in t.states) ==> count == native) &&
      (native != Unknown && t.Session? && src.store.id in t.states ==>
         var state := t.states[src.store.id];
         (state.OtherState? ==> count == Unknown) &&
         (state.DiffState? ==>
            var diff := DiffFor(state, src.schema.typeName);
            count == native + |AddedMatches(query.filter, diff)| - |RemovedMatches(query.filter, diff)|))
  {
    if query.filter.Exclude? {
      return 0;
    }
    var store := src.store;
    if !store.AbstractStore? {
      return Unknown;
    }
    var t := src.transaction;
    var nativeCount := store.count(NamedQuery(src.schema, query));
    if nativeCount == Unknown {
      return Unknown;
    }
    var delta: int := 0;
    if t.Session? {
      if store.id !in t.states {
        return nativeCount;
      }
      var state := t.states[store.id];
      if !state.DiffState? {
        return Unknown;
      }
      var diff := DiffFor(state, NamedQuery(src.schema, query).typeName.value);
      // One read pass over both buckets of the diff.
      var additions := CountAddedMatches(query.filter, diff);
      var removals := CountRemovedMatches(query.filter, diff);
      delta := additions - removals;
    }
    return nativeCount + delta;
  }

  /** The first pass of the count: +1 for every added feature the filter accepts. */
  method CountAddedMatches(f: Filter, diff: Diff) returns (delta: int)
    ensures delta == |AddedMatches(f, diff)|
  {
    ghost var accepted := AddedMatches(f, diff);
    var added := diff.added;
    delta := 0;
    var pending := added.Keys;
    while pending != {}
      invariant pending <= added.Keys
      invariant delta == |accepted - pending|
      decreases pending
    {
      var id :| id in pending;
      var accepts := Evaluate(f, Present(added[id]));
      assert accepts <==> id in accepted;
      CountStep(accepted, pending, id);
      if accepts {
        delta := delta + 1;
      }
      pending := pending - {id};
    }
    assert accepted - {} == accepted;
  }

  /** The second pass: one for every modification that is the removal marker and that the filter accepts. */
  method CountRemovedMatches(f: Filter, diff: Diff) returns (delta: int)
    ensures delta == |RemovedMatches(f, diff)|
  {
    ghost var removed := RemovedMatches(f, diff);
    var modified := diff.modified;
    delta := 0;
    var pending := modified.Keys;
    while pending != {}
      invariant pending <= modified.Keys
      invariant delta == |removed - pending|
      decreases pending
    {
      var id :| id in pending;
      var feature := modified[id];
      var accepts := feature == Removed && Evaluate(f, feature);
      assert accepts <==> id in removed;
      CountStep(removed, pending, id);
      if accepts {
        delta := delta + 1;
      }
      pending := pending - {id};
    }
    assert removed - {} == removed;
  }

  /** Taking one id out of the ids still to visit counts it once, if it is one of the counted ones. */
  lemma CountStep(counted: set<string>, pending: set<string>, id: string)
    requires id in pending
    ensures |counted - (pending - {id})| == |counted - pending| + (if id in counted then 1 else 0)
  {
    if id in counted {
      assert counted - (pending - {id}) == (counted - pending) + {id};
    } else {
      assert counted - (pending - {id}) == counted - pending;
    }
  }

  /** With `INCLUDE` every added feature counts up and every removal marker counts down. */
  lemma IncludeCountsEveryEdit(d: Diff)
    ensures AddedMatches(Include, d) == d.added.Keys
    ensures RemovedMatches(Include, d) == set id | id in d.modified && d.modified[id].Removed?
  {
  }

  /** A filter that rejects the removal marker never counts a removal down, whatever it accepts. */
  lemma MarkerRejectedNoRemovals(f: Filter, d: Diff)
    requires !Evaluate(f, Removed)
    ensures RemovedMatches(f, d) == {}
  {
  }

  /** Staging a replacement feature for an id takes that id out of the removals and changes no other. */
  lemma ReplacementLeavesRemovals(f: Filter, d: Diff, id: string, replacement: Feature)
    ensures RemovedMatches(f, d.(modified := d.modified[id := Present(replacement)])) == RemovedMatches(f, d) - {id}
    ensures AddedMatches(f, d.(modified := d.modified[id := Present(replacement)])) == AddedMatches(f, d)
  {
  }

  /** A filter on an attribute value: it accepts features only, never the removal marker. */
  function AttributeEquals(key: string, value: string): Filter
  {
    Predicate((e: Entry) => e.Present? && key in e.feature.attributes && e.feature.attributes[key] == value)
  }

  /**
   * Ten committed features of type "roads"; a session stages two additions
   * and one removal. With `INCLUDE` the session counts 11, and a second
   * session that has written nothing counts 10.
   */
  method CountWithStagedEdits() returns (inSession: int, inOtherSession: int)
    ensures inSession == 11 && inOtherSession == 10
  {
    var schema := Schema("roads", Name(None, "roads"), None);
    var store := AbstractStore(1, q => 10, q => None);
    var road := Feature("roads.new1", map["kind" := "road"]);
    var diff := Diff(map["new1" := road, "new2" := road.(id := "roads.new2")], map["roads.3" := Removed]);
    assert AddedMatches(Include, diff) == {"new1", "new2"};
    assert RemovedMatches(Include, diff) == {"roads.3"};
    var writer := Source(schema, store, Session(map[1 := DiffState(map["roads" := diff])]), {},
                         QueryCapabilities(s => true, false));
    inSession := GetCount(writer, TypedQuery("roads", Include));
    inOtherSession := GetCount(writer.(transaction := Session(map[])), TypedQuery("roads", Include));
  }

  /**
   * The same edits counted with an attribute filter: the removal branch
   * evaluates the filter on the removal marker, which such a filter rejects,
   * so the removed road is still counted and the answer is 12.
   */
  method CountIgnoresRemovalForAttributeFilter() returns (inSession: int)
    ensures inSession == 12
  {
    var schema := Schema("roads", Name(None, "roads"), None);
    var store := AbstractStore(1, q => 10, q => None);
    var road := Feature("roads.new1", map["kind" := "road"]);
    var diff := Diff(map["new1" := road, "new2" := road.(id := "roads.new2")], map["roads.3" := Removed]);
    var f := AttributeEquals("kind", "road");
    assert AddedMatches(f, diff) == {"new1", "new2"};
    assert RemovedMatches(f, diff) == {};
    var writer := Source(schema, store, Session(map[1 := DiffState(map["roads" := diff])]), {},
                         QueryCapabilities(s => true, false));
    inSession := GetCount(writer, TypedQuery("roads", f));
  }

  /** Five committed features, none matching; one matching addition: the count is 1. */
  method CountSingleMatchingAddition() returns (inSession: int)
    ensures inSession == 1
  {
    var schema := Schema("roads", Name(None, "roads"), None);
    var f := AttributeEquals("kind", "road");
    var store := AbstractStore(1, q => 0, q => None);
    var diff := Diff(map["new1" := Feature("roads.new1", map["kind" := "road"])], map[]);
    assert AddedMatches(f, diff) == {"new1"};
    assert RemovedMatches(f, diff) == {};
    var writer := Source(schema, store, Session(map[1 := DiffState(map["roads" := diff])]), {},
                         QueryCapabilities(s => true, false));
    inSession := GetCount(writer, TypedQuery("roads", f));
  }
}
