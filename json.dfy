/**
 * Decoded JSON values as Python sees them: `dict` lookups with defaults,
 * truthiness, and the `str`/`repr` renderings used in error messages.
 */
module Json {
  import opened Wrappers
  import opened Exceptions

  datatype Json =
    | JNull
    | JBool(b: bool)
    | JInt(i: int)
    | JStr(s: string)
    | JArr(items: seq<Json>)
    | JObj(fields: map<string, Json>)

  const EmptyObject: Json := JObj(map[])

  /** Python's `bool(v)`: None, False, 0, "" and empty containers are false. */
  predicate Truthy(j: Json) {
    match j
    case JNull => false
    case JBool(b) => b
    case JInt(i) => i != 0
    case JStr(s) => s != ""
    case JArr(a) => |a| != 0
    case JObj(m) => |m| != 0
  }

  /** `d.get(key, default)` on a dictionary. */
  function DictGet(d: map<string, Json>, key: string, default: Json): Json {
    if key in d then d[key] else default
  }

  /** `v.get(key, default)` on a value that may not be a dictionary. */
  function Get(j: Json, key: string, default: Json): Result<Json, Exception> {
    if j.JObj? then Success(DictGet(j.fields, key, default)) else Failure(AttributeError)
  }

  /** Python's `str(v)`. */
  function PyStr(j: Json): string {
    if j.JStr? then j.s else PyRepr(j)
  }

  /** Python's `repr(v)`; lists and dicts are abbreviated. */
  function PyRepr(j: Json): string {
    match j
    case JNull => "None"
    case JBool(b) => if b then "True" else "False"
    case JInt(i) => IntToString(i)
    case JStr(s) => StrRepr(s)
    case JArr(_) => "[...]"
    case JObj(_) => "{...}"
  }

  /** `repr` of a string: single quotes unless the text has a single quote and no double quote. */
  function StrRepr(s: string): string {
    var q := if '\'' in s && '"' !in s then '"' else '\'';
    [q] + Escape(s, q) + [q]
  }

  function Escape(s: string, q: char): string {
    if s == [] then [] else EscapeChar(s[0], q) + Escape(s[1..], q)
  }

  function EscapeChar(c: char, q: char): string {
    if c == '\\' then "\\\\"
    else if c == q then ['\\', c]
    else if c == '\n' then "\\n"
    else if c == '\r' then "\\r"
    else if c == '\t' then "\\t"
    else [c]
  }

  /** Text that `repr` shows verbatim between single quotes. */
  predicate PlainText(s: string) {
    forall i :: 0 <= i < |s| ==> s[i] != '\'' && s[i] != '\\' && s[i] != '\n' && s[i] != '\r' && s[i] != '\t'
  }

  lemma {:induction false} EscapeOfPlainText(s: string)
    requires PlainText(s)
    ensures Escape(s, '\'') == s
  {
    if s != [] {
      assert PlainText(s[1..]) by {
        forall i | 0 <= i < |s[1..]| ensures s[1..][i] == s[i + 1] { }
      }
      EscapeOfPlainText(s[1..]);
      assert s == [s[0]] + s[1..];
    }
  }

  /** The `repr` of plain text is the text between single quotes. */
  lemma StrReprOfPlainText(s: string)
    requires PlainText(s)
    ensures StrRepr(s) == "'" + s + "'"
  {
    assert '\'' !in s;
    EscapeOfPlainText(s);
  }

  function IntToString(i: int): string {
    if i < 0 then "-" + NatToString(-i) else NatToString(i)
  }

  function NatToString(n: nat): string {
    if n < 10 then ["0123456789"[n]] else NatToString(n / 10) + ["0123456789"[n % 10]]
  }
}
