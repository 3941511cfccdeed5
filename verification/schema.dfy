/** How the record table's primary key follows from `dataKeys`: the table is
    declared with the schema string `dataKeys.join(', ')`, and the storage
    engine takes the first comma-separated entry of that string, trimmed, as
    the primary-key path. An empty first entry declares no key path. */
module Schema {
  import opened Outcomes

  /** `parts.join(sep)`. */
  function Join(parts: seq<string>, sep: string): string
    decreases |parts|
  {
    if |parts| == 0 then ""
    else if |parts| == 1 then parts[0]
    else parts[0] + sep + Join(parts[1..], sep)
  }

  /** The text before the first comma of a schema string. */
  function FirstEntry(schema: string): string
    decreases |schema|
  {
    if |schema| == 0 || schema[0] == ',' then ""
    else [schema[0]] + FirstEntry(schema[1..])
  }

  predicate IsSpace(ch: char) {
    ch == ' ' || ch == '\t' || ch == '\n' || ch == '\r'
  }

  function TrimStart(s: string): string
    decreases |s|
  {
    if |s| > 0 && IsSpace(s[0]) then TrimStart(s[1..]) else s
  }

  function TrimEnd(s: string): string
    decreases |s|
  {
    if |s| > 0 && IsSpace(s[|s| - 1]) then TrimEnd(s[..|s| - 1]) else s
  }

  /** The primary-key path the table is declared with, if any. */
  function PrimaryKeyField(dataKeys: seq<string>): Option<string> {
    var entry := TrimEnd(TrimStart(FirstEntry(Join(dataKeys, ", "))));
    if entry == "" then None else Some(entry)
  }

  /** A character of a JavaScript identifier (ASCII letters, digits, `_`, `$`). */
  predicate IsIdentifierChar(ch: char) {
    ('a' <= ch <= 'z') || ('A' <= ch <= 'Z') || ('0' <= ch <= '9') || ch == '_' || ch == '$'
  }

  /** A field name that the schema syntax reads as the flat field of that
      name: a non-empty identifier that does not start with a digit, so no
      separator, no prefix such as `++`, `&` or `*`, no dotted path and no
      compound `[a+b]` key. */
  predicate PlainName(name: string) {
    && |name| > 0
    && !('0' <= name[0] <= '9')
    && forall i :: 0 <= i < |name| ==> IsIdentifierChar(name[i])
  }

  /** A join starts with its first part, followed by nothing or by the
      separator. */
  lemma JoinStartsWithFirst(parts: seq<string>, sep: string)
    requires |parts| > 0
    ensures Join(parts, sep) == parts[0] + (if |parts| == 1 then "" else sep + Join(parts[1..], sep))
  {
  }

  /** The first entry of `name + rest` is `name` when `name` has no comma and
      `rest` is empty or starts with one. */
  lemma {:induction false} FirstEntryOfPrefix(name: string, rest: string)
    requires forall i :: 0 <= i < |name| ==> name[i] != ','
    requires rest == "" || rest[0] == ','
    ensures FirstEntry(name + rest) == name
    decreases |name|
  {
    if |name| == 0 {
      assert name + rest == rest;
    } else {
      assert (name + rest)[1..] == name[1..] + rest;
      FirstEntryOfPrefix(name[1..], rest);
      assert [name[0]] + name[1..] == name;
    }
  }

  /** With a plain first data key, the primary key is the field named
      `dataKeys[0]`; without data keys there is no key path. */
  lemma {:induction false} PrimaryKeyIsFirstDataKey(dataKeys: seq<string>)
    ensures |dataKeys| > 0 && PlainName(dataKeys[0]) ==> PrimaryKeyField(dataKeys) == Some(dataKeys[0])
    ensures dataKeys == [] ==> PrimaryKeyField(dataKeys) == None
  {
    if |dataKeys| > 0 && PlainName(dataKeys[0]) {
      var name := dataKeys[0];
      var rest := if |dataKeys| == 1 then "" else ", " + Join(dataKeys[1..], ", ");
      JoinStartsWithFirst(dataKeys, ", ");
      assert Join(dataKeys, ", ") == name + rest;
      assert forall i :: 0 <= i < |name| ==> name[i] != ',' by {
        forall i | 0 <= i < |name| ensures name[i] != ',' { assert IsIdentifierChar(name[i]); }
      }
      FirstEntryOfPrefix(name, rest);
      assert IsIdentifierChar(name[0]) && IsIdentifierChar(name[|name| - 1]);
    }
  }
}
