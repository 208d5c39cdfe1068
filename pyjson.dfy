/** The Python values the API handles: values parsed from or sent as JSON
    (without floating point numbers), and the exceptions raised on them. */
module PyJson {

  /** A JSON value as Python's json module represents it: `None`, `bool`,
      `int`, `str`, `list` and `dict` with string keys. */
  datatype Json =
    | JNull
    | JBool(b: bool)
    | JInt(i: int)
    | JStr(s: string)
    | JList(items: seq<Json>)
    | JObject(obj: map<string, Json>)

  /** The Python exceptions the modelled code can raise. */
  datatype PyError =
    | TypeError(message: string)
    | KeyError(key: string)
    | NameError(name: string)
    | ValueError(message: string)

  /** Name of the Python type a JSON value is represented by. */
  function TypeName(v: Json): (r: string)
    ensures r == "dict" <==> v.JObject?
    ensures r == "NoneType" <==> v.JNull?
  {
    match v
    case JNull => "NoneType"
    case JBool(_) => "bool"
    case JInt(_) => "int"
    case JStr(_) => "str"
    case JList(_) => "list"
    case JObject(_) => "dict"
  }

  /** The public attribute names of the Python type of `v` (the methods and
      properties of `dict`, `list`, `str`, `int`, `bool` and `NoneType`).
      The keys of a `dict` are never among them: `hasattr` looks up
      attributes, not keys. Names that start with an underscore are left
      out; none of them matters here. */
  function Attributes(v: Json): set<string>
  {
    match v
    case JNull => {}
    case JBool(_) => IntAttributes
    case JInt(_) => IntAttributes
    case JStr(_) => StrAttributes
    case JList(_) => ListAttributes
    case JObject(_) => DictAttributes
  }

  const DictAttributes: set<string> :=
    {"clear", "copy", "fromkeys", "get", "items", "keys", "pop", "popitem",
     "setdefault", "update", "values"}

  const ListAttributes: set<string> :=
    {"append", "clear", "copy", "count", "extend", "index", "insert", "pop",
     "remove", "reverse", "sort"}

  const IntAttributes: set<string> :=
    {"as_integer_ratio", "bit_count", "bit_length", "conjugate", "denominator",
     "from_bytes", "imag", "is_integer", "numerator", "real", "to_bytes"}

  const StrAttributes: set<string> :=
    StrCaseAttributes + StrSearchAttributes + StrTestAttributes + StrLayoutAttributes

  const StrCaseAttributes: set<string> :=
    {"capitalize", "casefold", "lower", "swapcase", "title", "upper"}

  const StrSearchAttributes: set<string> :=
    {"count", "endswith", "find", "index", "partition", "rfind", "rindex",
     "rpartition", "rsplit", "split", "splitlines", "startswith"}

  const StrTestAttributes: set<string> :=
    {"isalnum", "isalpha", "isascii", "isdecimal", "isdigit", "isidentifier",
     "islower", "isnumeric", "isprintable", "isspace", "istitle", "isupper"}

  const StrLayoutAttributes: set<string> :=
    {"center", "encode", "expandtabs", "format", "format_map", "join", "ljust",
     "lstrip", "maketrans", "removeprefix", "removesuffix", "replace", "rjust",
     "rstrip", "strip", "translate", "zfill"}

  /** Python's `hasattr(v, name)` on a value parsed from JSON. */
  function HasAttr(v: Json, name: string): (r: bool)
    ensures v.JObject? ==> (r <==> name in DictAttributes)
  {
    name in Attributes(v)
  }

  /** `hasattr` never sees the keys of a dict: any two dicts, whatever
      their keys, agree on every attribute name. */
  lemma HasAttrIgnoresKeys(a: map<string, Json>, b: map<string, Json>, name: string)
    ensures HasAttr(JObject(a), name) == HasAttr(JObject(b), name)
  {
  }

  /** Neither field name the create handler asks about is an attribute of
      any value a JSON body can parse to. */
  lemma NoJsonValueHasShowAttributes(v: Json)
    ensures !HasAttr(v, "name")
    ensures !HasAttr(v, "episodes_seen")
  {
    match v
    case JNull =>
    case JBool(_) => NotAttributeOf(IntAttributes);
    case JInt(_) => NotAttributeOf(IntAttributes);
    case JStr(_) =>
      NotAttributeOf(StrCaseAttributes);
      NotAttributeOf(StrSearchAttributes);
      NotAttributeOf(StrTestAttributes);
      NotAttributeOf(StrLayoutAttributes);
    case JList(_) => NotAttributeOf(ListAttributes);
    case JObject(_) => NotAttributeOf(DictAttributes);
  }

  lemma NotAttributeOf(attrs: set<string>)
    requires attrs in {IntAttributes, StrCaseAttributes, StrSearchAttributes,
                       StrTestAttributes, StrLayoutAttributes, ListAttributes, DictAttributes}
    ensures "name" !in attrs && "episodes_seen" !in attrs
  {
  }
}
