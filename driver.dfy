/** The script's driver: buffer every input point while collecting its record,
    define the output schema by position, then write one polygon feature per
    square with its record's values. Reading the input file, preparing the
    output folder and opening the output data source are left to the caller:
    the input arrives as a sequence and the output is a fresh layer. */
module Driver {
  import opened Outcomes
  import opened Geometry
  import opened Buffer
  import opened Fields
  import opened Ogr

  /** One input feature: its point's coordinates flattened into one array, and
      its attribute record. */
  datatype ShapeRecord = ShapeRecord(coords: seq<real>, record: Record)

  /** The two index errors that end a run: a point with fewer than two
      coordinates while buffering, or a record with fewer values than there are
      field names while writing. */
  datatype Fault =
    | CoordinateFault(feature: nat, index: nat)
    | RecordFault(feature: nat, field: nat)

  /** The two parallel lists built by the first loop. */
  datatype Accumulated = Accumulated(squares: seq<Ring>, records: seq<Record>)

  /** How a run ends: with the complete output layer, or with a fault and
      whatever had been written to the output layer by then (None when the
      fault came before the output was created). */
  datatype RunOutcome =
    | Completed(output: OutputLayer)
    | Crashed(fault: Fault, written: Option<OutputLayer>)

  /** Every input point has at least two coordinates. */
  predicate AllPoints(data: seq<ShapeRecord>) {
    forall i :: 0 <= i < |data| ==> |data[i].coords| >= 2
  }

  /** Every record has a value for each field name. */
  predicate RecordsCover(fn: seq<string>, records: seq<Record>) {
    forall i :: 0 <= i < |records| ==> |fn| <= |records[i]|
  }

  /** Every input record has a value for each field name. */
  predicate RecordsCoverFields(fn: seq<string>, data: seq<ShapeRecord>) {
    RecordsCover(fn, Records(data))
  }

  /** The records of the input, in order. */
  function Records(data: seq<ShapeRecord>): (records: seq<Record>)
  {
    seq(|data|, i requires 0 <= i < |data| => data[i].record)
  }

  /** The square buffers of the input points, in order. */
  function Buffered(data: seq<ShapeRecord>): seq<Ring>
    requires AllPoints(data)
  {
    seq(|data|, i requires 0 <= i < |data| => SquareBuffer(data[i].coords).value)
  }

  /** The features the write loop appends for the given squares and records:
      one per square, in order, with the square as geometry and the matching
      record's values under the field names. */
  function Written(fn: seq<string>, squares: seq<Ring>, records: seq<Record>): (w: seq<OutFeature>)
    requires |squares| == |records| && RecordsCover(fn, records)
    ensures |w| == |squares|
    ensures forall i :: 0 <= i < |w| ==> w[i].geometry == Some(squares[i])
    ensures forall i :: 0 <= i < |w| ==> w[i].attributes == SetFields(map[], fn, records[i])
  {
    if |squares| == 0 then []
    else
      var n := |squares| - 1;
      assert forall i :: 0 <= i < n ==> records[..n][i] == records[i];
      Written(fn, squares[..n], records[..n]) + [OutFeature(Some(squares[n]), SetFields(map[], fn, records[n]))]
  }

  /** The first loop: for each input feature in order, keep its record and the
      square buffer of its point, in two lists indexed alike. Stops at the first
      point with fewer than two coordinates. */
  method Accumulate(data: seq<ShapeRecord>) returns (r: Result<Accumulated, Fault>)
    ensures r.Ok? <==> AllPoints(data)
    ensures r.Ok? ==> |r.value.squares| == |data| && |r.value.records| == |data|
    ensures r.Ok? ==> forall i :: 0 <= i < |data| ==>
      r.value.records[i] == data[i].record && SquareBuffer(data[i].coords) == Ok(r.value.squares[i])
    ensures r.Err? ==>
      && r.error.CoordinateFault?
      && r.error.feature < |data|
      && AllPoints(data[..r.error.feature])
      && |data[r.error.feature].coords| < 2
      && r.error.index == |data[r.error.feature].coords|
  {
    var squares: seq<Ring> := [];
    var records: seq<Record> := [];
    for i := 0 to |data|
      invariant |squares| == i && |records| == i
      invariant AllPoints(data[..i])
      invariant forall k :: 0 <= k < i ==>
        records[k] == data[k].record && SquareBuffer(data[k].coords) == Ok(squares[k])
    {
      records := records + [data[i].record];
      var cornerCoords := SquareBuffer(data[i].coords);
      if cornerCoords.Err? {
        return Err(CoordinateFault(i, cornerCoords.error.index));
      }
      squares := squares + [cornerCoords.value];
    }
    assert data[..|data|] == data;
    return Ok(Accumulated(squares, records));
  }

  /** The schema loop: one field per name, in order, typed by its position. */
  method CreateFields(layer: Layer, fn: seq<string>)
    modifies layer
    ensures layer.fieldDefns == old(layer.fieldDefns) + Schema(fn)
    ensures layer.features == old(layer.features)
  {
    for i := 0 to |fn|
      invariant layer.fieldDefns == old(layer.fieldDefns) + Schema(fn[..i])
      invariant layer.features == old(layer.features)
    {
      if i <= 10 {
        layer.CreateField(FieldDefn(fn[i], OFTString));
      } else if i > 10 && i <= 12 {
        layer.CreateField(FieldDefn(fn[i], OFTInteger));
      } else {
        layer.CreateField(FieldDefn(fn[i], OFTReal));
      }
      assert Schema(fn[..i + 1]) == Schema(fn[..i]) + [FieldDefn(fn[i], FieldTypeAt(i))];
    }
    assert fn[..|fn|] == fn;
  }

  /** The inner write loop: set the field fn[j] of the feature to rec[j] for
      each j in order. A record shorter than the names stops at the first
      missing position, with the earlier fields already set. */
  method SetRecordFields(feat: Feature, fn: seq<string>, rec: Record) returns (missing: Option<nat>)
    modifies feat
    ensures feat.geometry == old(feat.geometry)
    ensures missing.None? <==> |fn| <= |rec|
    ensures missing.None? ==> feat.attributes == SetFields(old(feat.attributes), fn, rec)
    ensures missing.Some? ==>
      && missing.value == |rec| < |fn|
      && feat.attributes == SetFields(old(feat.attributes), fn[..|rec|], rec)
  {
    for j := 0 to |fn|
      invariant j <= |rec|
      invariant feat.geometry == old(feat.geometry)
      invariant feat.attributes == SetFields(old(feat.attributes), fn[..j], rec)
    {
      if j == |rec| {
        return Some(j);
      }
      feat.SetField(fn[j], rec[j]);
      assert fn[..j + 1][..j] == fn[..j];
    }
    assert fn[..|fn|] == fn;
    return None;
  }

  /** One pass of the write loop: fill the feature object from the record, give
      it the square as geometry and append it to the layer. A record too short
      for the names stops before anything is appended. */
  method WriteFeature(layer: Layer, feat: Feature, fn: seq<string>, square: Ring, rec: Record)
    returns (missing: Option<nat>)
    requires feat.attributes.Keys <= NameSet(fn)
    modifies layer, feat
    ensures layer.fieldDefns == old(layer.fieldDefns)
    ensures missing.None? <==> |fn| <= |rec|
    ensures missing.None? ==>
      && layer.features == old(layer.features) + [OutFeature(Some(square), SetFields(map[], fn, rec))]
      && feat.Snapshot() == OutFeature(Some(square), SetFields(map[], fn, rec))
      && feat.attributes.Keys == NameSet(fn)
    ensures missing.Some? ==> missing.value == |rec| < |fn| && layer.features == old(layer.features)
  {
    ghost var start := feat.attributes;
    missing := SetRecordFields(feat, fn, rec);
    if missing.Some? {
      return;
    }
    SetFieldsOverwrites(start, fn, rec);
    feat.SetGeometry(square);
    layer.CreateFeature(feat);
  }

  /** The write loop: for each square in order, set every named field of the one
      feature object from the matching record, give it the square as geometry and
      append it to the layer. A record too short for the names stops the loop
      with the features before it already written. The feature object is
      scratch state: nothing reads it after the loop. */
  method WriteFeatures(layer: Layer, feat: Feature, fn: seq<string>, squares: seq<Ring>, records: seq<Record>)
    returns (fault: Option<Fault>)
    requires |squares| == |records|
    requires feat.attributes.Keys <= NameSet(fn)
    modifies layer, feat
    ensures layer.fieldDefns == old(layer.fieldDefns)
    ensures fault.None? <==> RecordsCover(fn, records)
    ensures fault.None? ==> layer.features == old(layer.features) + Written(fn, squares, records)
    ensures fault.Some? ==>
      && fault.value.RecordFault?
      && fault.value.feature < |records|
      && RecordsCover(fn, records[..fault.value.feature])
      && |records[fault.value.feature]| < |fn|
      && fault.value.field == |records[fault.value.feature]|
      && layer.features == old(layer.features)
           + Written(fn, squares[..fault.value.feature], records[..fault.value.feature])
  {
    for sq := 0 to |squares|
      invariant RecordsCover(fn, records[..sq])
      invariant layer.fieldDefns == old(layer.fieldDefns)
      invariant layer.features == old(layer.features) + Written(fn, squares[..sq], records[..sq])
      invariant feat.attributes.Keys <= NameSet(fn)
    {
      var missing := WriteFeature(layer, feat, fn, squares[sq], records[sq]);
      if missing.Some? {
        return Some(RecordFault(sq, missing.value));
      }
      assert squares[..sq + 1][..sq] == squares[..sq] && records[..sq + 1][..sq] == records[..sq];
    }
    assert squares[..|squares|] == squares && records[..|records|] == records;
    return None;
  }

  /** What the write loop produces from a fully buffered input: one feature per
      input feature, in order, each a closed five-vertex ring centred on its
      point and carrying that feature's record under the field names. */
  lemma WrittenDescribesInput(fn: seq<string>, data: seq<ShapeRecord>)
    requires AllPoints(data) && RecordsCoverFields(fn, data)
    ensures RecordsCover(fn, Records(data))
    ensures forall i :: 0 <= i < |data| ==> |fn| <= |data[i].record|
    ensures |Written(fn, Buffered(data), Records(data))| == |data|
    ensures forall i :: 0 <= i < |data| ==>
      var out := Written(fn, Buffered(data), Records(data))[i];
      && out.geometry == Some(SquareBuffer(data[i].coords).value)
      && |out.geometry.value| == 5
      && Centroid(out.geometry.value) == Centre(data[i].coords)
      && out.attributes == SetFields(map[], fn, data[i].record)
    ensures Distinct(fn) ==> forall i, j :: 0 <= i < |data| && 0 <= j < |fn| ==>
      var out := Written(fn, Buffered(data), Records(data))[i];
      fn[j] in out.attributes && out.attributes[fn[j]] == data[i].record[j]
  {
    forall i | 0 <= i < |data|
      ensures |fn| <= |data[i].record|
      ensures Centroid(SquareBuffer(data[i].coords).value) == Centre(data[i].coords)
    {
      assert Records(data)[i] == data[i].record;
      CentredOnPoint(data[i].coords, DefaultBufferDist);
    }
    if Distinct(fn) {
      forall i, j | 0 <= i < |data| && 0 <= j < |fn|
        ensures fn[j] in SetFields(map[], fn, data[i].record)
        ensures SetFields(map[], fn, data[i].record)[fn[j]] == data[i].record[j]
      {
        SetFieldsVerbatim(fn, data[i].record, j);
      }
    }
  }

  /** The whole script, from the input features and the input's field list to
      the content of the output layer, with the default buffer distance. */
  method Run(data: seq<ShapeRecord>, fields: seq<FieldDescriptor>) returns (r: RunOutcome)
    ensures r.Completed? <==> AllPoints(data) && RecordsCoverFields(FieldNames(fields), data)
    ensures r.Completed? ==>
      && AllPoints(data)
      && RecordsCoverFields(FieldNames(fields), data)
      && (forall i :: 0 <= i < |data| ==> |FieldNames(fields)| <= |data[i].record|)
      && r.output.schema == Schema(FieldNames(fields))
      && r.output.features == Written(FieldNames(fields), Buffered(data), Records(data))
      && |r.output.features| == |data|
      && forall i :: 0 <= i < |data| ==>
           && r.output.features[i].geometry == Some(SquareBuffer(data[i].coords).value)
           && r.output.features[i].attributes == SetFields(map[], FieldNames(fields), data[i].record)
    ensures r.Completed? ==> forall i :: 0 <= i < |data| ==>
      && |r.output.features[i].geometry.value| == 5
      && Centroid(r.output.features[i].geometry.value) == Centre(data[i].coords)
    ensures r.Completed? && Distinct(FieldNames(fields)) ==>
      forall i, j :: 0 <= i < |data| && 0 <= j < |FieldNames(fields)| ==>
        && FieldNames(fields)[j] in r.output.features[i].attributes
        && r.output.features[i].attributes[FieldNames(fields)[j]] == data[i].record[j]
    ensures r.Crashed? && r.fault.CoordinateFault? ==>
      && r.written == None
      && r.fault.feature < |data|
      && AllPoints(data[..r.fault.feature])
      && |data[r.fault.feature].coords| < 2
    ensures r.Crashed? && r.fault.RecordFault? ==>
      && AllPoints(data)
      && r.fault.feature < |data|
      && RecordsCoverFields(FieldNames(fields), data[..r.fault.feature])
      && |data[r.fault.feature].record| < |FieldNames(fields)|
      && r.written == Some(OutputLayer(
           Schema(FieldNames(fields)),
           Written(FieldNames(fields), Buffered(data[..r.fault.feature]), Records(data[..r.fault.feature]))))
  {
    var fn := FieldNames(fields);
    var acc := Accumulate(data);
    if acc.Err? {
      return Crashed(acc.error, None);
    }
    var squares, records := acc.value.squares, acc.value.records;
    assert records == Records(data);
    assert squares == Buffered(data);
    var layer := new Layer();
    var feat := new Feature();
    CreateFields(layer, fn);
    var fault := WriteFeatures(layer, feat, fn, squares, records);
    if fault.Some? {
      var sq := fault.value.feature;
      assert records[..sq] == Records(data[..sq]);
      assert squares[..sq] == Buffered(data[..sq]);
      assert layer.fieldDefns == Schema(fn);
      assert layer.features == Written(fn, Buffered(data[..sq]), Records(data[..sq]));
      return Crashed(fault.value, Some(layer.Content()));
    }
    assert layer.fieldDefns == Schema(fn) && layer.features == Written(fn, squares, records);
    WrittenDescribesInput(fn, data);
    r := Completed(layer.Content());
  }
}
