/**
 * LangChain's `Document` as the core uses it: page content plus a flat metadata
 * dictionary whose values are scalars (string, number or boolean).
 */
module Documents {
  import opened Common
  import opened Text

  datatype Value = Str(s: String) | Num(r: real) | Bool(b: bool)

  type Metadata = map<String, Value>

  datatype Document = Document(content: String, metadata: Metadata)

  /** A value used in Python arithmetic: numbers as themselves, booleans as 1 and 0; a string raises. */
  function AsNumber(v: Value): (r: Option<real>)
    ensures r.None? <==> v.Str?
  {
    match v
    case Num(x) => Some(x)
    case Bool(b) => Some(if b then 1.0 else 0.0)
    case Str(_) => None
  }

  /** `metadata.get(key, default)` used as a number (the `None` case is the raised TypeError). */
  function NumberOr(md: Metadata, key: String, default: real): (r: Option<real>)
    ensures key !in md ==> r == Some(default)
  {
    if key in md then AsNumber(md[key]) else Some(default)
  }

  /** The page contents of a list of documents. */
  function Contents(docs: seq<Document>): (r: seq<String>)
    ensures |r| == |docs|
    ensures forall i :: 0 <= i < |docs| ==> r[i] == docs[i].content
  {
    if docs == [] then [] else [docs[0].content] + Contents(docs[1..])
  }
}
