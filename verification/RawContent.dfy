// Read adapters may not carry content: what the check looks for, stated by where
// a value stands inside another one.
module RawContent {
  import opened Wrappers
  import opened Protocol
  import opened EffectSdk

  /** One step into a value: an item of an array or a field of an object. */
  datatype Way = Item(index: nat) | Field(name: string)

  /** What stands at the end of a path, if anything does. */
  function At(j: Json, path: seq<Way>): Option<Json>
    decreases |path|
  {
    if path == [] then Some(j)
    else
      match path[0]
      case Item(i) => if j.Arr? && i < |j.items| then At(j.items[i], path[1..]) else None
      case Field(k) => if j.Obj? && k in j.fields then At(j.fields[k], path[1..]) else None
  }

  /** An object with a field that is reserved for content. */
  predicate IsCarrier(j: Json) {
    j.Obj? && exists k :: k in j.fields && k in {"body", "bytes", "content", "fileContents", "rawBody", "rawContent",
                                                 "responseBody", "text"}
  }

  lemma {:induction false} CarrierIsFound(j: Json, path: seq<Way>)
    requires At(j, path).Some? && IsCarrier(At(j, path).value)
    ensures HasRawContent(j)
    decreases |path|
  {
    if path != [] {
      match path[0] {
        case Item(i) => CarrierIsFound(j.items[i], path[1..]);
        case Field(k) => CarrierIsFound(j.fields[k], path[1..]);
      }
    }
  }

  lemma {:induction false} FoundIsCarrier(j: Json) returns (path: seq<Way>)
    requires HasRawContent(j)
    ensures At(j, path).Some? && IsCarrier(At(j, path).value)
    decreases j
  {
    match j {
      case Arr(items) =>
        var i :| 0 <= i < |items| && HasRawContent(items[i]);
        var rest := FoundIsCarrier(items[i]);
        path := [Item(i)] + rest;
        assert path[1..] == rest;
      case Obj(fields) =>
        var k :| k in fields && (k in RAW_KEYS || HasRawContent(fields[k]));
        if k in RAW_KEYS {
          path := [];
        } else {
          var rest := FoundIsCarrier(fields[k]);
          path := [Field(k)] + rest;
          assert path[1..] == rest;
        }
    }
  }

  /** The check finds a carrier of content exactly when one stands somewhere inside, at any depth. */
  lemma RawContentMeaning(j: Json)
    ensures HasRawContent(j) <==> exists path :: At(j, path).Some? && IsCarrier(At(j, path).value)
  {
    if HasRawContent(j) {
      var path := FoundIsCarrier(j);
    }
    if path :| At(j, path).Some? && IsCarrier(At(j, path).value) {
      CarrierIsFound(j, path);
    }
  }
}
