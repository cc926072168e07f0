# Feature source counting and the DXF LWPOLYLINE entity

This project models two pieces of a GeoTools DXF data-store plugin and proves properties of them.

**The transaction-aware feature source** (`AbstractFeatureSource`) answers queries over the features of one type.
- `getCount` is built from three inputs:
  - the store's native count, where -1 means unknown;
  - the kind of the active transaction and its state for the store;
  - the two read-side buckets of that state's diff: features *added* under provisional ids, and *modified* ids mapped to a replacement or to the removal marker `Diff.NULL`.
- `getFeatures`, `getBounds` and `namedQuery` decide between an empty result, an error and a query forwarded to the store.
- `getInfo` describes the type, and one constructor derives the provided-feature-id capability from its hints.

The source's fields are fixed when it is built, so the module `FeatureSource` models it as a value. Its read operations are functions. The count is a method, because its two passes over the diff are loops.

**The LWPOLYLINE entity** (`DXFLwPolyline`) is read from a DXF file as a stream of group-code/value pairs.
- `readLwVertices` collects vertices:
  - code 10 is x, code 20 is y, code 42 is the bulge;
  - a vertex is stored when the next 10 or 0 arrives, if both x and y were seen;
  - a 0 (TYPE) pair is pushed back.
- `read` collects the header codes 2, 8, 6, 62, 70 and 60. It hands over to `readLwVertices` at the first code 10. That reader consumes every pair up to TYPE, so header codes after the first vertex are ignored. `read` stops at TYPE, and it chooses a polygon or a line from bit 0 of the flag (code 70).
- The entity can turn its vertices into coordinates and a geometry, be moved, and be copied.

The module `DxfPairs` models the line reader as a cursor over a sequence of pairs, where pushing back means not consuming the pair. The readers in `DxfLwPolyline` are methods over that cursor whose loops are proved against two functions that scan the remaining pairs:
- `ScanVertices` describes the vertex reader;
- `ScanEntity` describes the entity reader.

The properties of the format are lemmas about those two functions:
- a written entity is read back;
- the last value of each header code before the first vertex wins, and later header codes are ignored;
- the last vertex is dropped at the end of the input.

The entity itself is a class whose methods update its fields.

The removal branch of `getCount` evaluates the query's filter on the removal marker `Diff.NULL` itself, not on the feature that was removed (AbstractFeatureSource.java line 198). A removal is therefore subtracted only when the filter accepts the marker. The model follows the code. Two consequences:
- a filter that looks at attributes rejects the marker, so such removals are never subtracted;
- `CountIgnoresRemovalForAttributeFilter` shows this on a concrete store, which gives 12 where 11 features match.

`getTransaction` of this class always answers `AUTO_COMMIT`. Subclasses override it, so the model takes the transaction as part of the source.

## Model

| member | source | states |
|---|---|---|
| FeatureSource.NewSource | src/main/java/org/geotools/database/AbstractFeatureSource.java:37-40 | the no-argument constructor keeps no hints, keeps the given sort test, and does not honour provided feature ids |
| FeatureSource.NewSourceWithHints | src/main/java/org/geotools/database/AbstractFeatureSource.java:48-56 | the hint constructor keeps the given hints and sort test; provided ids are supported exactly when the hints contain `USE_PROVIDED_FID` |
| FeatureSource.IsUseProvidedFidSupported | src/main/java/org/geotools/database/AbstractFeatureSource.java:52-54 | the hint constructor's capabilities support provided ids exactly when the source's hints contain `USE_PROVIDED_FID`; the plain capabilities never do |
| FeatureSource.ProvidedFidFollowsHints | src/main/java/org/geotools/database/AbstractFeatureSource.java:51-55 | the hint constructor's capability reads the hints when asked: after the hints are replaced it answers from the new ones, in both directions |
| FeatureSource.NamedQuery | src/main/java/org/geotools/database/AbstractFeatureSource.java:156-159 | the result always names the schema's type and keeps filter, feature limit, property names and handle; a query already naming the type is returned unchanged; otherwise the sort order is dropped |
| FeatureSource.NamedQueryIdempotent | src/main/java/org/geotools/database/AbstractFeatureSource.java:156-159 | type-qualifying a query twice is the same as once |
| FeatureSource.GetFeatures | src/main/java/org/geotools/database/AbstractFeatureSource.java:116-133 | empty collection exactly when the query names another type; otherwise the sort error exactly when the sort order is unsupported; otherwise results over the original query, even when its type name is null |
| FeatureSource.GetFeaturesByFilter | src/main/java/org/geotools/database/AbstractFeatureSource.java:135-137 | never the wrong-type empty collection; results over a query for this type and the filter; an error exactly when the default sort order is unsupported |
| FeatureSource.GetAllFeatures | src/main/java/org/geotools/database/AbstractFeatureSource.java:139-141 | never the wrong-type empty collection; the sort error exactly when the default sort order is unsupported; otherwise results over the `INCLUDE` query for this type |
| FeatureSource.GetBounds | src/main/java/org/geotools/database/AbstractFeatureSource.java:147-154 | `EXCLUDE` gives an empty envelope in the schema's reference system; a store that is not an abstract data store gives null; otherwise the store's bounds of the type-qualified query |
| FeatureSource.GetDefaultBounds | src/main/java/org/geotools/database/AbstractFeatureSource.java:143-145 | the bounds of the whole type, or null for a store that is not an abstract data store |
| FeatureSource.BoundsIgnoreTransaction | src/main/java/org/geotools/database/AbstractFeatureSource.java:147-154 | bounds do not depend on the transaction: staged edits are not reflected |
| FeatureSource.GetInfo | src/main/java/org/geotools/database/AbstractFeatureSource.java:58-106 | the keywords are exactly "features" and the type name; name, title, description, reference system and bounds as the schema gives them |
| FeatureSource.GetCount | src/main/java/org/geotools/database/AbstractFeatureSource.java:161-211 | 0 for `EXCLUDE`; -1 for another kind of store or an unknown native count; the native count under `AUTO_COMMIT` or without a state for the store; -1 for a state that is not a diff state; otherwise native + accepted additions − accepted removal markers |
| FeatureSource.CountAddedMatches | src/main/java/org/geotools/database/AbstractFeatureSource.java:184-192 | the first pass counts exactly the added features the filter accepts |
| FeatureSource.CountRemovedMatches | src/main/java/org/geotools/database/AbstractFeatureSource.java:194-201 | the second pass counts exactly the modifications that are the removal marker and that the filter accepts when evaluated on it |
| FeatureSource.IncludeCountsEveryEdit | src/main/java/org/geotools/database/AbstractFeatureSource.java:187-200 | under `INCLUDE` every added id counts up and every id marked removed counts down |
| FeatureSource.MarkerRejectedNoRemovals | src/main/java/org/geotools/database/AbstractFeatureSource.java:196-200 | a filter that rejects the removal marker never subtracts anything |
| FeatureSource.ReplacementLeavesRemovals | src/main/java/org/geotools/database/AbstractFeatureSource.java:194-201 | staging a replacement feature for an id removes that id from the subtracted set and leaves the additions as they were |
| FeatureSource.CountWithStagedEdits | src/main/java/org/geotools/database/AbstractFeatureSource.java:173-205 | ten committed features with two additions and one removal count 11 in the writing session and 10 in a session without a state for the store |
| FeatureSource.CountIgnoresRemovalForAttributeFilter | src/main/java/org/geotools/database/AbstractFeatureSource.java:196-200 | the same edits under an attribute filter count 12: the removal is not subtracted |
| FeatureSource.CountSingleMatchingAddition | src/main/java/org/geotools/database/AbstractFeatureSource.java:184-205 | one matching addition over no matching committed feature counts 1 |
| DxfPairs.PairReader.constructor | src/main/java/org/geotools/data/dxf/entities/DXFLwPolyline.java:59 | a reader over a file starts at its first pair |
| DxfPairs.PairReader.Read | src/main/java/org/geotools/data/dxf/entities/DXFLwPolyline.java:134-142 | reads the pair at the cursor and advances, remembering where that pair started; at the end of the file it gives nothing and does not move |
| DxfPairs.PairReader.Reset | src/main/java/org/geotools/data/dxf/entities/DXFLwPolyline.java:158-161 | pushes back the pair read last |
| DxfLwPolyline.VertexList.constructor | src/main/java/org/geotools/data/dxf/entities/DXFLwPolyline.java:63 | a new vertex list is empty |
| DxfLwPolyline.VertexList.Add | src/main/java/org/geotools/data/dxf/entities/DXFLwPolyline.java:149-150 | appends one vertex at the end |
| DxfLwPolyline.ScanVertices | src/main/java/org/geotools/data/dxf/entities/DXFLwPolyline.java:125-178 | the vertex scan consumes at most the remaining pairs and stops only at TYPE or at the end of the input |
| DxfLwPolyline.ScanVerticesStopsAtFirstType | src/main/java/org/geotools/data/dxf/entities/DXFLwPolyline.java:144-162 | no pair the vertex reader consumes is TYPE: it stops at the first one and never reads into the next entity |
| DxfLwPolyline.ReadVertexPair | src/main/java/org/geotools/data/dxf/entities/DXFLwPolyline.java:134-175 | one pass: at the end of the file it stops and keeps the pending vertex unstored; at TYPE it stores a complete pending vertex, pushes the pair back and stops; a 10 stores a complete pending vertex and starts the next; 20 and 42 update y and the bulge |
| DxfLwPolyline.ReadLwVertices | src/main/java/org/geotools/data/dxf/entities/DXFLwPolyline.java:125-178 | only appends: the list is its old contents followed by the scanned vertices in stream order, and the cursor moves past exactly the consumed pairs |
| DxfLwPolyline.ScanEntity | src/main/java/org/geotools/data/dxf/entities/DXFLwPolyline.java:69-114 | the entity scan consumes at most the remaining pairs and stops only at TYPE or at the end of the input |
| DxfLwPolyline.ScanEntityStopsAtFirstType | src/main/java/org/geotools/data/dxf/entities/DXFLwPolyline.java:81-91 | no pair `read` consumes, itself or through the vertex reader, is TYPE |
| DxfLwPolyline.ReadEntityPair | src/main/java/org/geotools/data/dxf/entities/DXFLwPolyline.java:71-112 | one pass: stops at the end of the file or at TYPE (pushed back) with nothing changed; a 10 is pushed back and the vertices are read from it; any other pair updates the header as its code says |
| DxfLwPolyline.ReadEntityLoop | src/main/java/org/geotools/data/dxf/entities/DXFLwPolyline.java:60-114 | the header locals, the vertex list and the pairs consumed are those of the entity scan from the initial header |
| DxfLwPolyline.Read | src/main/java/org/geotools/data/dxf/entities/DXFLwPolyline.java:59-123 | the new entity carries the scanned name, flag, colour, layer, line type and vertices, visibility 0, the default thickness, polygon or line type from bit 0 of the flag, and the drawing; the cursor stops at the next TYPE |
| DxfLwPolyline.TypeForFlag | src/main/java/org/geotools/data/dxf/entities/DXFLwPolyline.java:116-120 | polygon exactly when bit 0 of the flag is set, line otherwise, never unset |
| DxfLwPolyline.FlagBitSelectsPolygon | src/main/java/org/geotools/data/dxf/entities/DXFLwPolyline.java:116 | for every 16-bit flag value, `flag & 1` on the two's-complement bits selects the same type |
| DxfLwPolyline.LwPolyline.constructor | src/main/java/org/geotools/data/dxf/entities/DXFLwPolyline.java:32-44 | the entity takes the given name, flag, colour, layer, vertices (copied), line type and thickness; the visibility passed to the superclass is always 0 |
| DxfLwPolyline.LwPolyline.Copy | src/main/java/org/geotools/data/dxf/entities/DXFLwPolyline.java:46-57 | the copy has the original's fields, type and drawing, visibility 0 and no geometry yet |
| DxfLwPolyline.LwPolyline.Clone | src/main/java/org/geotools/data/dxf/entities/DXFLwPolyline.java:276-279 | a fresh entity equal to the copy constructor's result |
| DxfLwPolyline.LwPolyline.ToCoordinateArray | src/main/java/org/geotools/data/dxf/entities/DXFLwPolyline.java:203-228 | two vertices demote the type to line; the coordinates are the vertices' in order, closed as a ring for a polygon |
| DxfLwPolyline.CloseRing | src/main/java/org/geotools/data/dxf/entities/DXFLwPolyline.java:220-228 | the result starts with the input and is at most one longer; it is longer exactly for a polygon of at least 3 coordinates whose ends differ, by the first coordinate; such a polygon's result is closed |
| DxfLwPolyline.LwPolyline.UpdateGeometry | src/main/java/org/geotools/data/dxf/entities/DXFLwPolyline.java:188-201 | the new type and geometry are those `UpdatedGeometry` gives for the vertices, the old type and the old geometry |
| DxfLwPolyline.UpdatedGeometryCases | src/main/java/org/geotools/data/dxf/entities/DXFLwPolyline.java:188-201 | below two vertices the geometry is left as it was; two vertices make a line string; three or more make a closed polygon starting with the vertices exactly when the type is polygon, and a line string otherwise |
| DxfLwPolyline.LwPolyline.GetGeometry | src/main/java/org/geotools/data/dxf/entities/DXFLwPolyline.java:180-186 | an existing geometry is returned unchanged; a missing one is built first |
| DxfLwPolyline.LwPolyline.Translate | src/main/java/org/geotools/data/dxf/entities/DXFLwPolyline.java:264-274 | every vertex is moved by (dx, dy), nothing else changes, and the entity itself is returned |
| DxfLwPolyline.TranslatedKeepsShape | src/main/java/org/geotools/data/dxf/entities/DXFLwPolyline.java:267-272 | a move keeps the number of vertices and every bulge; a zero move changes nothing |
| DxfLwPolyline.TranslatedComposes | src/main/java/org/geotools/data/dxf/entities/DXFLwPolyline.java:264-274 | two moves are one move by the summed offsets |
| DxfLwPolyline.CloseRingTranslated | src/main/java/org/geotools/data/dxf/entities/DXFLwPolyline.java:220-228 | closing the ring of moved vertices is moving the closed ring |
| DxfLwPolyline.UpdatedGeometryTranslated | src/main/java/org/geotools/data/dxf/entities/DXFLwPolyline.java:188-201 | with two or more vertices, the geometry of the moved vertices is the moved geometry, for the unplaced coordinates (an identity placement) |
| DxfLwPolyline.LastIsLatest | src/main/java/org/geotools/data/dxf/entities/DXFLwPolyline.java:92-109 | the latest value of a code is absent exactly when no pair has that code, and otherwise it belongs to a pair with that code that no later pair with that code follows |
| DxfLwPolyline.LastPrepend | src/main/java/org/geotools/data/dxf/entities/DXFLwPolyline.java:92-109 | a pair in front of others keeps its value only when no later pair has its code |
| DxfLwPolyline.ScanBody | src/main/java/org/geotools/data/dxf/entities/DXFLwPolyline.java:166-172 | pairs other than 0 and 10 store nothing; the last 20 and the last 42 win, and y counts as found after any 20 |
| DxfLwPolyline.VertexFromGroup | src/main/java/org/geotools/data/dxf/entities/DXFLwPolyline.java:145-172 | a 10 followed by pairs up to TYPE stores one vertex exactly when a 20 was among them, with its x, the last y and the last bulge (0 without a 42) |
| DxfLwPolyline.ScanGroup | src/main/java/org/geotools/data/dxf/entities/DXFLwPolyline.java:145-172 | the 10, 20 (and 42) pairs of one vertex store the vertex pending before them and leave the new vertex pending |
| DxfLwPolyline.ScanGroupsThenType | src/main/java/org/geotools/data/dxf/entities/DXFLwPolyline.java:144-162 | vertex groups followed by TYPE store every vertex, in order, after the pending one |
| DxfLwPolyline.ScanGroupsToEnd | src/main/java/org/geotools/data/dxf/entities/DXFLwPolyline.java:139-141 | vertex groups at the end of the input store all but the last vertex |
| DxfLwPolyline.ReadBackVertices | src/main/java/org/geotools/data/dxf/entities/DXFLwPolyline.java:125-178 | the vertices written as groups and followed by TYPE are read back exactly, consuming exactly their pairs |
| DxfLwPolyline.EndOfInputDropsLastVertex | src/main/java/org/geotools/data/dxf/entities/DXFLwPolyline.java:139-141 | at the end of the input the last pending vertex is not stored |
| DxfLwPolyline.HeaderEnd | src/main/java/org/geotools/data/dxf/entities/DXFLwPolyline.java:81-112 | the header pairs end at the first TYPE or code 10, or at the end of the input |
| DxfLwPolyline.LatestHeaderStep | src/main/java/org/geotools/data/dxf/entities/DXFLwPolyline.java:92-109 | one header pair followed by others leaves the header that the latest value of each code gives |
| DxfLwPolyline.HeaderPrefix | src/main/java/org/geotools/data/dxf/entities/DXFLwPolyline.java:81-112 | the header pairs at the front set each header field to the latest value of its code, and the scan goes on after them |
| DxfLwPolyline.HeaderOnly | src/main/java/org/geotools/data/dxf/entities/DXFLwPolyline.java:81-112 | with only header pairs before TYPE or the end, the result is the latest value of each code, no vertices and those pairs consumed |
| DxfLwPolyline.HeaderBeforeFirstVertex | src/main/java/org/geotools/data/dxf/entities/DXFLwPolyline.java:81-112 | for every input, the header `read` keeps is the latest value of each code among the pairs before the first code 10 (or TYPE) |
| DxfLwPolyline.VerticesEndEntity | src/main/java/org/geotools/data/dxf/entities/DXFLwPolyline.java:88-91 | once a code 10 hands over to the vertex reader, no later pair changes the header |
| DxfLwPolyline.FlagAfterVertexIgnored | src/main/java/org/geotools/data/dxf/entities/DXFLwPolyline.java:88-120 | the pairs 10, 20, 70 = 1, 0 give flag 0 and a line: the code 70 after the vertex is ignored |
| DxfLwPolyline.HeaderThenVertices | src/main/java/org/geotools/data/dxf/entities/DXFLwPolyline.java:88-91 | at the first code 10 the vertex reader takes over with the header so far, and `read` continues after the vertices |
| DxfLwPolyline.EntityAtVertex | src/main/java/org/geotools/data/dxf/entities/DXFLwPolyline.java:88-91 | a code 10 is pushed back and the vertex reader's vertices are appended, the scan continuing where it stopped |
| DxfLwPolyline.HeaderEndAt | src/main/java/org/geotools/data/dxf/entities/DXFLwPolyline.java:81-112 | header pairs followed by TYPE or a 10 end exactly there |
| DxfLwPolyline.ReadBackEntity | src/main/java/org/geotools/data/dxf/entities/DXFLwPolyline.java:59-123 | header pairs, then vertex groups, then TYPE are read back as the latest header values and exactly the written vertices, consuming everything before TYPE |
| DxfLwPolyline.ReadBackEntityVertices | src/main/java/org/geotools/data/dxf/entities/DXFLwPolyline.java:88-91 | vertex groups followed by TYPE give the header unchanged and exactly those vertices |

## Left out

- I/O failures. `IOException` from the store, the `DXFParseException` wrapping and the catch in `getInfo`'s bounds are not modelled: every call succeeds.
- `synchronized(diff)`: the diff is read as a snapshot, and there is no concurrency.
- Diff staging, commit and rollback are not part of this model. `TransactionStateDiff.diff(typeName)` is taken to be a lookup that gives an empty diff for an untouched type.
- `QueryCapabilities.supportsSorting`, `AbstractDataStore.getCount` and `getBounds`, and the drawing's `findLayer` and `findLType` are parameters of the model, because their code is outside it.
- `DefaultFeatureResults` and `EmptyFeatureCollection` are result tags. The collection's geometry-descriptor test has the same outcome on both branches.
- The other `Query` fields, logging, the schema URI of `getInfo` (URI parsing) and `getSupportedHints` are not modelled.
- FeatureSource.GetDefaultBounds: the null-schema branch of line 144, which falls back to `Query.ALL`, is not modelled, because a source always has a schema here.
- FeatureSource.GetCount: does not model 32-bit wrap-around of `nativeCount + delta`, because counts stay far below 2^31.
- `DXFLineNumberReader` and `DXFCodeValuePair.read` are a sequence of pairs with a cursor. Each pair carries its value read as text, as a double and as a short, so parse errors are not modelled.
- The TYPE value read at line 83 is never used, so it is not modelled.
- `DXFTables.defaultThickness` is a parameter of `Read`.
- The superclass `DXFEntity` is not part of this model. Its third constructor argument, always 0 here, is taken to be the visibility. Its type before `setType` is the model's `Unset`.
- Geometry building: the JTS geometry factory becomes the `LineStringGeometry` and `PolygonGeometry` values.
- DxfLwPolyline.LwPolyline.UpdateGeometry: the factory's failures are not modelled. For example, `createLinearRing` rejects a ring of three coordinates that is already closed (A, B, A), where the model builds the polygon.
- `rotateAndPlace` (superclass) is left out. `ToCoordinateArray` gives the coordinates that would be handed to it, and `UpdateGeometry` and `GetGeometry` build the geometry from those unplaced coordinates.
- DxfLwPolyline.UpdatedGeometryTranslated: the geometry is built from unplaced coordinates, so the lemma holds for an entity whose placement is the identity. A placement that rotates does not commute with a move.
- Coordinates are reals. Floating-point rounding, in the parsing and in `translate`'s additions, is not modelled.
- `Coordinate.equals2D` compares x and y exactly.
- The null `theVertices` branch of `toCoordinateArray` is not modelled: the list always exists.
- DxfLwPolyline.LwPolyline.Translate: vertices are values. The in-place update of shared `_point` objects is not modelled: each entity holds its own clones, so no aliasing arises within this class.
- A missing drawing (`getUnivers()` null) when building a geometry is not modelled: `Read` always sets it.
- `toString` is left out, because it only builds a string.
