# Square buffers around points, modelled in Dafny

The script `squareBuffer.py` reads point features from a shapefile. It draws an
axis-aligned square of half-side `bufferDist` (default 100) around each point.
It then writes the squares, with each point's original attribute record, to a new
polygon shapefile. This project models that core in Dafny and proves what it
computes:

- `square_buffer.dfy` (module `Buffer`): the `squareBuffer` transform. It takes a
  flattened coordinate array and a distance, and returns the closed five-vertex
  ring. If the array has fewer than two components, it returns the index error
  that Python raises.
- `geometry.dfy` (module `Geometry`): the coordinate type and the reference measures
  used to state what the ring is: bounding-box width and height, the mean of the
  vertices, edge lengths, quadrants and the shoelace signed area.
- `fields.dfy` (module `Fields`): field-name extraction, which drops the
  deletion-flag entry, and the positional field-type rule (0-10 string,
  11-12 integer, 13 and up real). It also has the name-keyed attribute updates
  the write loop makes on a feature.
- `ogr.dfy` (module `Ogr`): the two objects the script changes in place. The output
  layer is an append-only list of field definitions and of features. The single
  feature object is refilled for every square.
- `driver.dfy` (module `Driver`): the accumulation loop, the schema loop, the write
  loop and `Run`, which chains them from the input features to the content of the
  output layer. `Run` also covers the two ways the run can stop with an index error.
- `outcomes.dfy` (module `Outcomes`): `Option` and `Result`.

Coordinates are exact `real`s, so the centre and size properties hold exactly. The
original program uses floats, where they hold only up to rounding.

Behaviour worth knowing, as the script has it:
- `squareBuffer` does not check `bufferDist`: zero gives a degenerate ring, and a
  negative value gives the same square started at the opposite corner.
- The output has one feature per input feature for every input, including an
  empty one.
- With exact reals the centroid of each square is the point itself; the float
  program matches only up to rounding.

## Model

| member | source | states |
|---|---|---|
| `Buffer.SquareBuffer` | squareBuffer.py:19-34 | the ring exists exactly when the array has two components, otherwise the error names the first missing index; the ring has five vertices and the last repeats the first |
| `Buffer.CornersInQuadrantOrder` | squareBuffer.py:21-31 | for d > 0 the four corners lie in quadrants 1, 2, 3, 4 around the point, in that order; for d < 0 the cycle starts in quadrant 3 |
| `Buffer.ExtentIsTwiceDistance` | squareBuffer.py:23-31 | the ring's bounding box is 2\|d\| wide and 2\|d\| high |
| `Buffer.EdgesAreSides` | squareBuffer.py:28-34 | each of the four edges is axis-parallel and 2\|d\| long |
| `Buffer.CentredOnPoint` | squareBuffer.py:23-31 | the mean of the four distinct corners is the input point (x, y) |
| `Buffer.AreaIsSideSquared` | squareBuffer.py:28-34 | the shoelace sum is 8d^2: the ring is counter-clockwise (for d not 0) and encloses (2d)^2 |
| `Buffer.DegenerateIffZero` | squareBuffer.py:19-34 | all five vertices equal the point if and only if d = 0; nothing fails for any d |
| `Buffer.NegatedDistanceSameSquare` | squareBuffer.py:19-34 | the ring for -d is the ring for d started two corners later |
| `Buffer.OnlyFirstTwoComponents` | squareBuffer.py:21-26 | components after the first two do not change the result |
| `Fields.Names` | squareBuffer.py:47 | the names list has one entry per descriptor, and entry i is descriptor i's name |
| `Fields.FieldNames` | squareBuffer.py:45-47 | fn has \|fields\| - 1 entries (none for an empty list), and fn[i] is the name of fields[i+1] |
| `Fields.FieldTypeAt` | squareBuffer.py:84-95 | the type at index i is string exactly when i <= 10, integer exactly when 11 <= i <= 12, and real exactly when i >= 13, so every index gets exactly one type |
| `Fields.SchemaTypeCounts` | squareBuffer.py:83-95 | a schema of n names has min(n, 11) string fields, min(max(n - 11, 0), 2) integer fields and max(n - 13, 0) real fields |
| `Fields.SchemaOrdered` | squareBuffer.py:83-95 | schema position i carries name fn[i], and field types never step back (string, then integer, then real) along the schema |
| `Fields.SetFields` | squareBuffer.py:100-101 | setting the fields keeps every earlier key, and the last name set holds the last value set |
| `Fields.SetFieldsOverlay` | squareBuffer.py:100-101 | setting the fields in order equals laying the new values over the previous attributes; the keys set are exactly the names |
| `Fields.SetFieldsOverwrites` | squareBuffer.py:98-101 | when the reused feature's earlier keys are all among the names, no earlier value survives a refill |
| `Fields.SetFieldsVerbatim` | squareBuffer.py:100-101 | with distinct names, field fn[j] holds record[j] exactly |
| `Ogr.Feature.constructor` | squareBuffer.py:79 | a new feature has no attributes and no geometry |
| `Ogr.Feature.SetField` | squareBuffer.py:101 | sets one named field and changes nothing else |
| `Ogr.Feature.SetGeometry` | squareBuffer.py:103-104 | replaces the geometry and keeps the attributes |
| `Ogr.Layer.constructor` | squareBuffer.py:77 | a new layer has no fields and no features |
| `Ogr.Layer.CreateField` | squareBuffer.py:83-95 | appends one field definition and leaves the features unchanged |
| `Ogr.Layer.CreateFeature` | squareBuffer.py:105 | appends a copy of the feature's current geometry and attributes and leaves the schema unchanged |
| `Driver.Accumulate` | squareBuffer.py:52-58 | succeeds exactly when every point has two coordinates, giving two lists as long as the input in which records[i] is feature i's record and squares[i] is the buffer of point i; otherwise it stops at the first bad point |
| `Driver.CreateFields` | squareBuffer.py:83-95 | the layer gains exactly one field per name, in index order, typed by position; its features are unchanged |
| `Driver.SetRecordFields` | squareBuffer.py:100-101 | completes exactly when the record has a value for every name, leaving the attributes SetFields describes; otherwise stops at the first missing index, with the earlier fields set; the geometry is untouched |
| `Driver.WriteFeature` | squareBuffer.py:100-105 | for a record that covers the names, appends exactly one feature with the square as geometry and the record's values under the names, with no value left over from the previous feature; otherwise appends nothing and reports the missing index |
| `Driver.Written` | squareBuffer.py:98-105 | one output feature per square, in order: feature i has geometry squares[i] and the attributes of record i set under the names |
| `Driver.WriteFeatures` | squareBuffer.py:98-105 | succeeds exactly when every record covers the names, appending one feature per square in order, with geometry squares[sq] and fields set from records[sq]; otherwise it stops at the first short record, with the earlier features already appended |
| `Driver.WrittenDescribesInput` | squareBuffer.py:98-105 | feature i of the output is a closed five-vertex ring centred on input point i and, with distinct names, carries record i's values field for field |
| `Driver.Run` | squareBuffer.py:39-105 | the run completes exactly when all points and records are well formed; the output then has the positional schema and one feature per input, in order, centred on its point and carrying its record; a bad point stops the run before any output exists, and a short record leaves the features before it written |

## Left out

- Reading the input shapefile (lines 39-41) is file I/O in a foreign library. The model receives the features as a sequence of (flattened coordinates, record) pairs and the field list as a sequence of descriptors.
- The numpy conversion and `flatten` of a feature's points (line 55, line 21): the model receives the flattened array. Multipoint features are unsupported by the script and are not modelled.
- Building the shapely polygon and the WKB round trip (lines 57, 103): a polygon is modelled as its coordinate ring, and the round trip is assumed to preserve it.
- Deleting and recreating the output folder (lines 61-68) is a filesystem side effect. It is not modelled, and neither is the race between two concurrent runs.
- The OGR driver, data source, EPSG:2193 spatial reference and the release of handles (lines 71-77, 108) are library resources. The model starts from an empty layer and returns its content.
- The feature object is created from the layer definition before the fields are added (line 79). The model's feature does not depend on the layer definition. The vector library's documentation warns against adding fields while features made from the earlier definition exist, so the model's clean refill of that feature is an assumption about the library.
- Ogr.Feature.SetField: the library converts a value to the field's declared type (for example text to integer for fields 11-12) and rejects unknown names. The model stores the value as given, under its name, so "verbatim copy" is stated at the model level only.
- Line 98 uses `xrange`, so the model assumes the script runs under Python 2 and reads it as the range 0 to the number of squares. Under Python 3 that line raises NameError after the schema is created and before any feature is written; that outcome is not modelled.
- Floating-point rounding: coordinates are exact reals.
- Attribute values are copied, never inspected, so `Value` lists text, numbers, dates, logical values and empty values without modelling how the reader decodes each field type.
