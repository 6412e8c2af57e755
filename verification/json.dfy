/** JSON values as Python's `json` module hands them over, with dictionaries
    kept as maps so that a key bound to `null` stays distinct from a key that
    is absent. */
module Json {

  /** Numbers are reals: Python compares an int and a float by value, so
      `100` and `100.0` are the same number here too. */
  datatype JVal =
    | JNull
    | JBool(b: bool)
    | JNum(n: real)
    | JStr(s: string)
    | JArr(items: seq<JVal>)
    | JObj(fields: map<string, JVal>)

  /** `d.get(key)`: the bound value, or `None` when the key is absent. The
      result is null for an absent key and for a key bound to null alike, so
      a caller cannot tell the two apart; any other result is the bound
      value. */
  function Get(d: map<string, JVal>, key: string): (v: JVal)
    ensures v == JNull <==> key !in d || d[key] == JNull
    ensures v != JNull ==> key in d && d[key] == v
  {
    if key in d then d[key] else JNull
  }

  /** `d.get(key, default)`: the default is used only when the key is
      absent, never when it is bound to `None`. */
  function GetOr(d: map<string, JVal>, key: string, default: JVal): (v: JVal)
    ensures v == default <==> key !in d || d[key] == default
    ensures v != default ==> key in d && d[key] == v
    ensures key in d && d[key] == JNull ==> v == JNull
  {
    if key in d then d[key] else default
  }
}
