/** The two vector-library objects the script changes in place: the output
    layer, which grows by field definitions and by features, and the single
    feature object that is refilled and appended once per square. */
module Ogr {
  import opened Outcomes
  import opened Geometry
  import opened Fields

  /** A feature as it is stored in the layer: its geometry (if one was set) and
      its attribute values keyed by field name. */
  datatype OutFeature = OutFeature(geometry: Option<Ring>, attributes: map<string, Value>)

  /** The content of an output layer: its schema and its features, in order. */
  datatype OutputLayer = OutputLayer(schema: seq<FieldDefn>, features: seq<OutFeature>)

  /** A feature object; the layer copies it when the feature is created, so the
      object can be refilled afterwards. */
  class Feature {
    var attributes: map<string, Value>
    var geometry: Option<Ring>

    constructor ()
      ensures attributes == map[] && geometry == None
    {
      attributes := map[];
      geometry := None;
    }

    /** The feature as the layer would store it now. */
    function Snapshot(): OutFeature
      reads this
    {
      OutFeature(geometry, attributes)
    }

    /** Set the field called name to value, leaving every other field and the geometry. */
    method SetField(name: string, value: Value)
      modifies this
      ensures attributes == old(attributes)[name := value]
      ensures geometry == old(geometry)
    {
      attributes := attributes[name := value];
    }

    /** Replace the geometry, leaving the attributes. */
    method SetGeometry(g: Ring)
      modifies this
      ensures geometry == Some(g)
      ensures attributes == old(attributes)
    {
      geometry := Some(g);
    }
  }

  /** An output layer: an append-only list of field definitions and one of features. */
  class Layer {
    var fieldDefns: seq<FieldDefn>
    var features: seq<OutFeature>

    constructor ()
      ensures fieldDefns == [] && features == []
    {
      fieldDefns := [];
      features := [];
    }

    /** What the layer holds now. */
    function Content(): OutputLayer
      reads this
    {
      OutputLayer(fieldDefns, features)
    }

    /** Append a field definition. */
    method CreateField(defn: FieldDefn)
      modifies this
      ensures fieldDefns == old(fieldDefns) + [defn]
      ensures features == old(features)
    {
      fieldDefns := fieldDefns + [defn];
    }

    /** Append a copy of the feature's current geometry and attributes. */
    method CreateFeature(feat: Feature)
      modifies this
      ensures features == old(features) + [feat.Snapshot()]
      ensures fieldDefns == old(fieldDefns)
    {
      features := features + [feat.Snapshot()];
    }
  }
}
