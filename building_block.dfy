/** The attributed data block a BLK file has been parsed into, and the typed
    reads the loader makes on it (the field resolver). */
module BuildingBlock {
  import opened Wrappers
  import opened JavaInt

  /** A Java `String` reference, which may be null. */
  datatype JString = Null | Chars(s: string)

  /** `"..." + s` in Java: a null reference is rendered as "null". */
  function Render(s: JString): string {
    match s
    case Null => "null"
    case Chars(c) => c
  }

  /** One value of a field: a string, an integer or a double. */
  datatype Value = Text(t: JString) | Int(n: int32) | Dbl(d: real)

  /** Field name to its ordered list of values; `key in b` is `exists(key)`. */
  type Block = map<string, seq<Value>>

  /** `getDataAsString(key)[0]`; None when that read fails (the key is absent,
      its list is empty, or its first value is not a string). */
  function FirstText(b: Block, key: string): Option<JString> {
    if key in b && |b[key]| > 0 && b[key][0].Text? then Some(b[key][0].t) else None
  }

  /** `getDataAsInt(key)[0]`; None when that read fails. */
  function FirstInt(b: Block, key: string): Option<int32> {
    if key in b && |b[key]| > 0 && b[key][0].Int? then Some(b[key][0].n) else None
  }

  /** `getDataAsDouble(key)[0]`; None when that read fails. */
  function FirstReal(b: Block, key: string): Option<real> {
    if key in b && |b[key]| > 0 && b[key][0].Dbl? then Some(b[key][0].d) else None
  }

  /** `getDataAsInt(key)`, the whole list; None when some value is not an integer
      or the key is absent. */
  function AllInts(b: Block, key: string): (r: Option<seq<int32>>)
    ensures r.Some? ==> key in b && |r.value| == |b[key]|
    ensures r.Some? ==> forall i :: 0 <= i < |b[key]| ==> b[key][i] == Int(r.value[i])
  {
    if key in b && forall i :: 0 <= i < |b[key]| ==> b[key][i].Int?
    then Some(seq(|b[key]|, i requires 0 <= i < |b[key]| => b[key][i].n))
    else None
  }

  // The value a read yields, with a placeholder where it fails; used to state
  // properties about blocks whose reads are known to succeed.

  function TextOr(b: Block, key: string): JString {
    match FirstText(b, key)
    case Some(s) => s
    case None => Null
  }

  function IntOr(b: Block, key: string): int32 {
    match FirstInt(b, key)
    case Some(n) => n
    case None => 0
  }

  function RealOr(b: Block, key: string): real {
    match FirstReal(b, key)
    case Some(d) => d
    case None => 0.0
  }

  function IntsOr(b: Block, key: string): seq<int32> {
    match AllInts(b, key)
    case Some(s) => s
    case None => []
  }
}
