/** The RFC 8785 serializer: canonical text of a value, and the recursive `dump` that writes its
    bytes into a sink. */
module CanonicalJson {
  import opened Wrappers
  import opened Utf8
  import opened KeySorting

  const INT_MAX: int := 0x1F_FFFF_FFFF_FFFF
  const INT_MIN: int := -0x1F_FFFF_FFFF_FFFF

  /** A Python value without floats; a dict keeps its insertion order, and `Unsupported` is any
      other type. */
  datatype Value =
    | Null
    | Bool(b: bool)
    | Int(n: int)
    | Str(s: string)
    | List(items: seq<Value>)
    | Dict(entries: seq<Keyed<Value>>)
    | Unsupported

  datatype Error = IntegerDomain | UnsupportedType

  // ---- Strings (section 3.2.2.2) ----

  function HexDigit(d: int): char
    requires 0 <= d < 16
  {
    "0123456789abcdef"[d]
  }

  /** `_ESCAPE_DCT` for an escaped character, and the character itself otherwise. */
  function EscapeChar(c: char): (e: string)
    ensures 1 <= |e|
  {
    if c == '\\' then "\\\\"
    else if c == '\"' then "\\\""
    else if c as int == 8 then "\\b"
    else if c as int == 12 then "\\f"
    else if c == '\n' then "\\n"
    else if c == '\r' then "\\r"
    else if c == '\t' then "\\t"
    else if c as int < 0x20 then ['\\', 'u', '0', '0', HexDigit(c as int / 16), HexDigit(c as int % 16)]
    else [c]
  }

  function Escape(s: string): string {
    if s == "" then "" else EscapeChar(s[0]) + Escape(s[1..])
  }

  /** `_serialize_str`. */
  function Quoted(s: string): string {
    "\"" + Escape(s) + "\""
  }

  // ---- Numbers ----

  function DigitChar(d: int): char
    requires 0 <= d < 10
  {
    "0123456789"[d]
  }

  function Digits(n: nat): (text: string)
    ensures text != ""
  {
    if n < 10 then [DigitChar(n)] else Digits(n / 10) + [DigitChar(n % 10)]
  }

  /** `str` of an int. */
  function Decimal(n: int): string {
    if n < 0 then "-" + Digits(-n) else Digits(n)
  }

  // ---- Canonical text ----

  function Member(entry: Keyed<Result<string, Error>>): Result<string, Error> {
    match entry.value
    case Err(why) => Err(why)
    case Ok(text) => Ok(Quoted(entry.key) + ":" + text)
  }

  /** Comma-separated texts, or the first error among them. */
  function Joined(texts: seq<Result<string, Error>>): Result<string, Error> {
    if texts == [] then Ok("")
    else if texts[0].Err? then texts[0]
    else if |texts| == 1 then texts[0]
    else
      match Joined(texts[1..])
      case Err(why) => Err(why)
      case Ok(rest) => Ok(texts[0].value + "," + rest)
  }

  function Bracketed(open: string, inner: Result<string, Error>, close: string): Result<string, Error> {
    match inner
    case Err(why) => Err(why)
    case Ok(text) => Ok(open + text + close)
  }

  function ItemTexts(items: seq<Value>): (texts: seq<Result<string, Error>>)
    ensures |texts| == |items|
    ensures forall k | 0 <= k < |items| :: texts[k] == Text(items[k])
    decreases items
  {
    if items == [] then [] else [Text(items[0])] + ItemTexts(items[1..])
  }

  function EntryTexts(entries: seq<Keyed<Value>>): (texts: seq<Keyed<Result<string, Error>>>)
    ensures |texts| == |entries|
    ensures forall k | 0 <= k < |entries| :: texts[k] == Keyed(entries[k].key, Text(entries[k].value))
    decreases entries
  {
    if entries == [] then [] else [Keyed(entries[0].key, Text(entries[0].value))] + EntryTexts(entries[1..])
  }

  function Members(entries: seq<Keyed<Result<string, Error>>>): (texts: seq<Result<string, Error>>)
    ensures |texts| == |entries|
    ensures forall k | 0 <= k < |entries| :: texts[k] == Member(entries[k])
  {
    if entries == [] then [] else [Member(entries[0])] + Members(entries[1..])
  }

  /** The canonical text of a value, or the error `dump` raises. */
  function Text(v: Value): Result<string, Error>
    decreases v
  {
    match v
    case Null => Ok("null")
    case Bool(b) => Ok(if b then "true" else "false")
    case Int(n) => if n < INT_MIN || n > INT_MAX then Err(IntegerDomain) else Ok(Decimal(n))
    case Str(s) => Ok(Quoted(s))
    case List(items) => Bracketed("[", Joined(ItemTexts(items)), "]")
    case Dict(entries) => Bracketed("{", Joined(Members(SortByKey(EntryTexts(entries)))), "}")
    case Unsupported => Err(UnsupportedType)
  }

  /** `dumps`. */
  function Dumps(v: Value): Result<bytes, Error> {
    match Text(v)
    case Err(why) => Err(why)
    case Ok(text) => Ok(Encode(text))
  }
}
