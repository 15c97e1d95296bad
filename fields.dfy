/** The attribute side of the script: the input's field list, the names kept
    for the output, the positional type rule for the output schema, and the
    name-keyed attribute updates made on an output feature. */
module Fields {

  /** One attribute value of a record: text, a whole or a decimal number, a
      date, a logical value, or an empty value. The model only copies values. */
  datatype Value =
    | Text(s: string)
    | Integer(i: int)
    | Number(r: real)
    | Date(year: int, month: int, day: int)
    | Logical(b: bool)
    | Null

  /** The attribute values of one input feature, one per field, in field order. */
  type Record = seq<Value>

  /** An entry of the reader's field list: name, type letter, length, decimal count.
      Entry 0 is the deletion-flag column. */
  datatype FieldDescriptor = FieldDescriptor(name: string, typeCode: char, length: nat, decimals: nat)

  /** The names of a list of field descriptors, in order. */
  function Names(headers: seq<FieldDescriptor>): (names: seq<string>)
    ensures |names| == |headers|
    ensures forall i :: 0 <= i < |headers| ==> names[i] == headers[i].name
  {
    if |headers| == 0 then [] else [headers[0].name] + Names(headers[1..])
  }

  /** The field names kept for the output: every entry but the first
      (the deletion flag), in order; an empty field list gives no names. */
  function FieldNames(fields: seq<FieldDescriptor>): (fn: seq<string>)
    ensures |fn| == if |fields| == 0 then 0 else |fields| - 1
    ensures forall i :: 0 <= i < |fn| ==> fn[i] == fields[i + 1].name
  {
    if |fields| == 0 then [] else Names(fields[1..])
  }

  /** The output field types the layer supports. */
  datatype FieldType = OFTString | OFTInteger | OFTReal

  /** The type given to the output field at position i: the first eleven are
      strings, the next two integers, the rest reals. The input's own type
      letters are not consulted. */
  function FieldTypeAt(i: nat): (t: FieldType)
    ensures t == OFTString <==> i <= 10
    ensures t == OFTInteger <==> 11 <= i <= 12
    ensures t == OFTReal <==> 13 <= i
  {
    if i <= 10 then OFTString
    else if i > 10 && i <= 12 then OFTInteger
    else OFTReal
  }

  /** An output field definition. */
  datatype FieldDefn = FieldDefn(name: string, fieldType: FieldType)

  /** The output schema: one definition per kept name, typed by position. */
  function Schema(fn: seq<string>): seq<FieldDefn> {
    seq(|fn|, i requires 0 <= i < |fn| => FieldDefn(fn[i], FieldTypeAt(i)))
  }

  /** How many definitions of a schema have type t. */
  function CountOfType(schema: seq<FieldDefn>, t: FieldType): nat {
    if |schema| == 0 then 0
    else CountOfType(schema[..|schema| - 1], t) + (if schema[|schema| - 1].fieldType == t then 1 else 0)
  }

  function MinInt(a: int, b: int): int { if a <= b then a else b }

  function MaxInt(a: int, b: int): int { if a <= b then b else a }

  /** The schema of n names has min(n, 11) string fields, then at most two
      integer fields, and every field past the thirteenth is real: the three
      bands cover every position exactly once. */
  lemma {:induction false} SchemaTypeCounts(fn: seq<string>)
    ensures CountOfType(Schema(fn), OFTString) == MinInt(|fn|, 11)
    ensures CountOfType(Schema(fn), OFTInteger) == MinInt(MaxInt(|fn| - 11, 0), 2)
    ensures CountOfType(Schema(fn), OFTReal) == MaxInt(|fn| - 13, 0)
  {
    if |fn| > 0 {
      var n := |fn| - 1;
      assert Schema(fn)[..n] == Schema(fn[..n]);
      SchemaTypeCounts(fn[..n]);
    }
  }

  /** Position i of the schema carries the i-th name, and types never go back
      from real to integer or from integer to string along the schema. */
  lemma SchemaOrdered(fn: seq<string>, i: nat, j: nat)
    requires i <= j < |fn|
    ensures Schema(fn)[i].name == fn[i] && Schema(fn)[j].name == fn[j]
    ensures Schema(fn)[i].fieldType == OFTReal ==> Schema(fn)[j].fieldType == OFTReal
    ensures Schema(fn)[j].fieldType == OFTString ==> Schema(fn)[i].fieldType == OFTString
  {
  }

  /** The set of names in a list. */
  function NameSet(names: seq<string>): set<string> {
    set n | n in names
  }

  /** No name occurs twice. */
  predicate Distinct(names: seq<string>) {
    forall i, j :: 0 <= i < j < |names| ==> names[i] != names[j]
  }

  /** The attributes of a feature after setting, in order, the field names[j]
      to rec[j] for every position j of names, starting from attrs. */
  function SetFields(attrs: map<string, Value>, names: seq<string>, rec: Record): (r: map<string, Value>)
    requires |names| <= |rec|
    ensures attrs.Keys <= r.Keys
    ensures |names| > 0 ==> names[|names| - 1] in r && r[names[|names| - 1]] == rec[|names| - 1]
  {
    if |names| == 0 then attrs
    else SetFields(attrs, names[..|names| - 1], rec)[names[|names| - 1] := rec[|names| - 1]]
  }

  /** Setting the fields in order is the same as laying the values set onto the
      starting attributes, whatever those were. */
  lemma {:induction false} SetFieldsOverlay(attrs: map<string, Value>, names: seq<string>, rec: Record)
    requires |names| <= |rec|
    ensures SetFields(attrs, names, rec) == attrs + SetFields(map[], names, rec)
    ensures SetFields(map[], names, rec).Keys == NameSet(names)
  {
    if |names| > 0 {
      var n := |names| - 1;
      SetFieldsOverlay(attrs, names[..n], rec);
      assert NameSet(names) == NameSet(names[..n]) + {names[n]} by {
        assert names == names[..n] + [names[n]];
      }
    }
  }

  /** When every attribute already set is one of the names set again, nothing of
      the previous values survives. */
  lemma SetFieldsOverwrites(attrs: map<string, Value>, names: seq<string>, rec: Record)
    requires |names| <= |rec|
    requires attrs.Keys <= NameSet(names)
    ensures SetFields(attrs, names, rec) == SetFields(map[], names, rec)
    ensures SetFields(attrs, names, rec).Keys == NameSet(names)
  {
    SetFieldsOverlay(attrs, names, rec);
  }

  /** With distinct names, the field names[j] ends up holding rec[j] exactly. */
  lemma {:induction false} SetFieldsVerbatim(names: seq<string>, rec: Record, j: nat)
    requires |names| <= |rec|
    requires Distinct(names)
    requires j < |names|
    ensures names[j] in SetFields(map[], names, rec)
    ensures SetFields(map[], names, rec)[names[j]] == rec[j]
  {
    var n := |names| - 1;
    if j < n {
      SetFieldsVerbatim(names[..n], rec, j);
    }
  }
}
