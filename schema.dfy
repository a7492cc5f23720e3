/** The parsed CloudFormation resource specification, as far as the snippet
    generator reads it. JavaScript objects become association lists whose
    order is the object's key order and whose keys are distinct. */
module Schema {

  datatype Option<T> = None | Some(value: T)

  /** The keys of an association list are pairwise distinct, as a JavaScript object's are. */
  predicate DistinctKeys<V>(t: seq<(string, V)>)
  {
    forall i, j :: 0 <= i < j < |t| ==> t[i].0 != t[j].0
  }

  /** A JavaScript object with string keys, in key order. */
  type Table<V> = t: seq<(string, V)> | DistinctKeys(t) witness []

  /** One entry of a resource's `Properties` object. A field the document
      leaves out is `None`. */
  datatype PropertyData = PropertyData(
    Required: Option<bool>,
    DuplicatesAllowed: Option<bool>,
    UpdateType: Option<string>)

  /** One entry of the `ResourceTypes` object. A resource without a
      `Properties` object has the empty table: `for ... in undefined` runs no
      iteration. */
  datatype ResourceData = ResourceData(
    Documentation: Option<string>,
    Properties: Table<PropertyData>)

  /** JavaScript string concatenation of a possibly missing string field. */
  function AsText(field: Option<string>): string
  {
    match field
    case Some(s) => s
    case None => "undefined"
  }
}
