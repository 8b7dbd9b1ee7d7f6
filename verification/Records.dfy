/** Reading and writing the members of a JSON object (model.rs). */
module Records {
  import opened Wrappers
  import opened Model
  import opened Numbers

  type Fields = map<string, Json>

  /** Trimming and parsing of a number written as text; None when it is not finite. */
  type ParseNumber = string -> Option<real>

  /** A store's own JSON value: its members keep their order, which group normalisation
      depends on. */
  datatype Document = Members(all: Ordered<string, Json>) | NotAnObject

  function ObjectOf(v: Json): Result<Fields> {
    if v.Object? then Ok(v.fields) else Err(Invalid)
  }

  function AsReal(v: Json): Option<real> {
    match v
    case Integer(i) => Some(i as real)
    case Number(n) => Some(n)
    case _ => None
  }

  /** `legacy_number`: levels were also stored as booleans and as text. */
  function LegacyNumber(parse: ParseNumber, v: Json): Result<real> {
    match v
    case Bool(b) => Ok(if b then 1.0 else 0.0)
    case String(s) => if parse(s).Some? then Ok(Clamp(parse(s).value, 0.0, 1.0)) else Err(Invalid)
    case _ => if AsReal(v).Some? then Ok(Clamp(AsReal(v).value, 0.0, 1.0)) else Err(Invalid)
  }

  function TakeString(fields: Fields, key: string, default: string): Result<string> {
    if key !in fields then Ok(default) else if fields[key].String? then Ok(fields[key].s) else Err(Invalid)
  }

  function TakeBool(fields: Fields, key: string, default: bool): Result<bool> {
    if key !in fields then Ok(default) else if fields[key].Bool? then Ok(fields[key].b) else Err(Invalid)
  }

  function TakeNumber(fields: Fields, key: string, default: real): Result<real> {
    if key !in fields then Ok(default)
    else if AsReal(fields[key]).Some? then Ok(AsReal(fields[key]).value) else Err(Invalid)
  }

  /** Every member decoded, or nothing. */
  function DecodeAll<T>(fields: Fields, good: string -> bool, decode: Json -> Result<T>): Result<map<string, T>> {
    if forall k :: k in fields ==> good(k) && decode(fields[k]).Ok?
    then Ok(map k | k in fields :: decode(fields[k]).value)
    else Err(Invalid)
  }

  function EncodeAll<T>(m: map<string, T>, encode: T -> Json): Fields {
    map k | k in m :: encode(m[k])
  }

  lemma AllBack<T>(m: map<string, T>, good: string -> bool, decode: Json -> Result<T>, encode: T -> Json)
    requires forall k :: k in m ==> good(k) && decode(encode(m[k])) == Ok(m[k])
    ensures DecodeAll(EncodeAll(m, encode), good, decode) == Ok(m)
  {
    var fields := EncodeAll(m, encode);
    assert forall k :: k in fields ==> decode(fields[k]) == Ok(m[k]);
    var back := map k | k in fields :: decode(fields[k]).value;
    assert back == m;
  }
}
