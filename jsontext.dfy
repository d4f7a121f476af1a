/** JSON values and the text Python's `json.dumps` makes of them with its default options
    (`ensure_ascii=True`, separators ", " and ": "). */
module JsonText {
  import opened Strings

  datatype Json =
    | JNull
    | JBool(b: bool)
    | JInt(i: int)
    | JString(s: string)
    | JArray(items: seq<Json>)
    | JObject(members: seq<Member>)

  /** One key of a JSON object, in the order the object was built. */
  datatype Member = Member(key: string, value: Json)

  /** Every character is printable ASCII, from ' ' to '~'. */
  predicate Printable(s: string)
  {
    forall j :: 0 <= j < |s| ==> ' ' <= s[j] <= '~'
  }

  lemma PrintableConcat(a: string, b: string)
    requires Printable(a) && Printable(b)
    ensures Printable(a + b)
  {
    forall j | 0 <= j < |a + b|
      ensures ' ' <= (a + b)[j] <= '~'
    {
      if j >= |a| {
        assert (a + b)[j] == b[j - |a|];
      }
    }
  }

  /** Printable ASCII holds no character at which `str.splitlines` breaks. */
  lemma PrintableHasNoLineBreak(s: string)
    requires Printable(s)
    ensures HasNoLineBreak(s)
  {
  }

  function HexDigit(d: nat): (c: char)
    requires d < 16
    ensures ' ' <= c <= '~'
  {
    if d < 10 then ('0' as int + d) as char else ('a' as int + d - 10) as char
  }

  /** Four lower-case hexadecimal digits, as `'{0:04x}'.format(n)`. */
  function Hex4(n: nat): (r: string)
    requires n < 0x10000
    ensures |r| == 4 && Printable(r)
  {
    [HexDigit(n / 0x1000), HexDigit(n / 0x100 % 16), HexDigit(n / 16 % 16), HexDigit(n % 16)]
  }

  /** How one character of a string is written: the two-character escapes, printable ASCII as
      it is, every other character below U+10000 as \uXXXX, and characters above that as a
      UTF-16 surrogate pair of two \uXXXX escapes. */
  function EscapeChar(c: char): (r: string)
    ensures Printable(r)
  {
    if c == '\\' then "\\\\"
    else if c == '"' then "\\\""
    else if c == '\n' then "\\n"
    else if c == '\r' then "\\r"
    else if c == '\t' then "\\t"
    else if c as int == 0x08 then "\\b"
    else if c as int == 0x0C then "\\f"
    else if ' ' <= c <= '~' then [c]
    else if c as int < 0x10000 then "\\u" + Hex4(c as int)
    else
      var n := c as int - 0x10000;
      "\\u" + Hex4(0xD800 + n / 0x400) + "\\u" + Hex4(0xDC00 + n % 0x400)
  }

  function Escape(s: string): (r: string)
    ensures Printable(r)
  {
    if s == [] then ""
    else
      PrintableConcat(EscapeChar(s[0]), Escape(s[1..]));
      EscapeChar(s[0]) + Escape(s[1..])
  }

  /** A JSON string literal. */
  function Quote(s: string): (r: string)
    ensures Printable(r)
  {
    PrintableConcat("\"", Escape(s));
    PrintableConcat("\"" + Escape(s), "\"");
    "\"" + Escape(s) + "\""
  }

  function NatText(n: nat): (r: string)
    ensures Printable(r) && r != ""
  {
    if n < 10 then [HexDigit(n)]
    else
      PrintableConcat(NatText(n / 10), [HexDigit(n % 10)]);
      NatText(n / 10) + [HexDigit(n % 10)]
  }

  /** `str(i)` of a Python integer. */
  function IntText(i: int): (r: string)
    ensures Printable(r)
  {
    if i < 0 then
      PrintableConcat("-", NatText(-i));
      "-" + NatText(-i)
    else NatText(i)
  }

  /** `sep.join(parts)`. */
  function Join(parts: seq<string>, sep: string): (r: string)
    requires Printable(sep)
    requires forall k :: 0 <= k < |parts| ==> Printable(parts[k])
    ensures Printable(r)
  {
    if parts == [] then ""
    else if |parts| == 1 then parts[0]
    else
      var rest := Join(parts[1..], sep);
      PrintableConcat(parts[0], sep);
      PrintableConcat(parts[0] + sep, rest);
      parts[0] + sep + rest
  }

  /** `json.dumps(v)`. Everything it writes is printable ASCII. */
  function Dumps(v: Json): (r: string)
    ensures Printable(r)
  {
    match v
    case JNull => "null"
    case JBool(b) => if b then "true" else "false"
    case JInt(i) => IntText(i)
    case JString(s) => Quote(s)
    case JArray(items) =>
      var body := Join(seq(|items|, k requires 0 <= k < |items| => Dumps(items[k])), ", ");
      PrintableConcat("[", body);
      PrintableConcat("[" + body, "]");
      "[" + body + "]"
    case JObject(members) =>
      var body := Join(seq(|members|, k requires 0 <= k < |members| => MemberText(members[k], v)), ", ");
      PrintableConcat("{", body);
      PrintableConcat("{" + body, "}");
      "{" + body + "}"
  }

  /** `"key": value` for one member of the object `whole`. */
  function MemberText(m: Member, whole: Json): (r: string)
    requires m.value < whole
    ensures Printable(r)
    decreases whole, 0
  {
    var key := Quote(m.key);
    var value := Dumps(m.value);
    PrintableConcat(key, ": ");
    PrintableConcat(key + ": ", value);
    key + ": " + value
  }

  /** The line `json.dumps` writes for a record is one line: `str.splitlines` finds no break in it. */
  lemma DumpsIsOneLine(v: Json)
    ensures HasNoLineBreak(Dumps(v))
  {
    PrintableHasNoLineBreak(Dumps(v));
  }
}
